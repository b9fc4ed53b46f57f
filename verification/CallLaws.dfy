/** What arguments the calls of a transcript have, told by the events that bring them. */
module CallLaws {
  import opened Events
  import opened Adk
  import opened Effects
  import Grounds
  import opened Narratives
  import opened Transcripts

  /** What happens to calls: fragments of one, its final event, a call at once, and the end of all. */
  datatype Deed = Fragment(id: ID, text: string) | Final(id: ID, args: string) | Whole(id: ID, args: string) | CutOff

  function Named(id: string, serial: nat): ID { if id != "" then Given(id) else Generated(serial) }

  /** A built-in call is brought at once, unless its tool is kept from the client. */
  function BuiltinDeeds(config: Config, tc: BuiltinCall, serial: nat): seq<Deed> {
    if Grounds.Shared(config, if tc.toolType == "" then "builtin_tool" else tc.toolType)
    then [Whole(Named(tc.id, serial), if tc.args.Json? then tc.args.text else "")] else []
  }

  /** A call that reaches the client is streamed or brought whole. */
  function CallDeeds(config: Config, fc: FunctionCall, partial: bool, serial: nat): seq<Deed> {
    if !config.Proposed(fc, partial) then []
    else if partial then [Fragment(Named(fc.id, serial), Concat(fc.fragments))]
    else [Final(Named(fc.id, serial), if fc.args.Json? then fc.args.text else "")]
  }

  function PartDeeds(config: Config, part: Option<Part>, partial: bool, serial: nat): seq<Deed> {
    if part.None? || part.value.Reasoning() then []
    else if part.value.functionCall.Some? then CallDeeds(config, part.value.functionCall.value, partial, serial)
    else if part.value.functionResponse.None? && part.value.toolCall.Some? then BuiltinDeeds(config, part.value.toolCall.value, serial)
    else []
  }

  function PartsDeeds(config: Config, n: Narrative, parts: seq<Option<Part>>, partial: bool, author: string): seq<Deed> {
    if parts == [] then []
    else
      var before := parts[..|parts| - 1];
      PartsDeeds(config, n, before, partial, author) +
      PartDeeds(config, parts[|parts| - 1], partial, PartsNoted(config, n, before, partial, author).serial)
  }

  function EventDeeds(config: Config, n: Narrative, ev: AdkEvent): seq<Deed> {
    if ev.Failed() && !config.RootAuthor(ev.author) then [CutOff]
    else PartsDeeds(config, MetadataNoted(FailureNoted(HeaderNoted(config, n, ev), ev), ev), ev.parts, ev.partial, ev.author)
  }

  function EventsDeeds(config: Config, n: Narrative, evs: seq<AdkEvent>): seq<Deed> {
    if evs == [] then []
    else
      var before := evs[..|evs| - 1];
      EventsDeeds(config, n, before) + EventDeeds(config, EventsNoted(config, n, before), evs[|evs| - 1])
  }

  // ----- What is streamed and what is completed -----

  /** All the text streamed for a call. */
  function TextFor(log: seq<Deed>, id: ID): string {
    if log == [] then ""
    else
      var last := log[|log| - 1];
      TextFor(log[..|log| - 1], id) + if last.Fragment? && last.id == id then last.text else ""
  }

  predicate Streamed(log: seq<Deed>, id: ID) { exists i :: 0 <= i < |log| && log[i].Fragment? && log[i].id == id }

  predicate Closes(d: Deed, id: ID) { d.CutOff? || (d.Final? && d.id == id) }

  predicate Closed(log: seq<Deed>, id: ID) { exists k :: 0 <= k < |log| && Closes(log[k], id) && Streamed(log[..k], id) }

  /** The k-th deed completes the call, with these arguments: a final event or the end completes
      what was streamed, with the full arguments only if nothing was. */
  predicate CompletesAt(log: seq<Deed>, k: int, id: ID, args: string) {
    && 0 <= k < |log|
    && match log[k]
       case Fragment(_, _) => false
       case Final(i, full) => i == id && args == if TextFor(log[..k], id) != "" then TextFor(log[..k], id) else full
       case Whole(i, full) => i == id && args == full
       case CutOff => Streamed(log[..k], id) && !Closed(log[..k], id) && args == TextFor(log[..k], id)
  }

  ghost predicate Completed(log: seq<Deed>, id: ID, args: string) { exists k :: CompletesAt(log, k, id, args) }

  /** The ledger is explained by what happened. */
  ghost predicate Explains(log: seq<Deed>, c: Ledger) {
    c.Ledger? ==>
      && (forall id :: id in c.streaming <==> Streamed(log, id) && !Closed(log, id))
      && (forall id :: id in c.finished <==> Closed(log, id))
      && (forall id :: id in c.streaming ==> c.streaming[id] == TextFor(log, id))
      && (forall id :: !Streamed(log, id) ==> TextFor(log, id) == "")
      && forall id, args :: (id, args) in c.called <==> Completed(log, id, args)
  }

  function Entered(c: Ledger, d: Deed): Ledger {
    match d
    case Fragment(id, text) =>
      if c.Violated? then c
      else if id in c.streaming then c.(streaming := c.streaming[id := c.streaming[id] + text])
      else if id !in c.finished then c.(streaming := c.streaming[id := text])
      else if text == "" then c else Violated
    case Final(id, args) =>
      if c.Violated? then c
      else if id in c.streaming then
        Ledger(c.streaming - {id}, c.finished + {id}, c.called + multiset{(id, if c.streaming[id] != "" then c.streaming[id] else args)})
      else if id in c.finished then Violated
      else c.(called := c.called + multiset{(id, args)})
    case Whole(id, args) =>
      if c.Violated? || id in c.streaming then Violated else c.(called := c.called + multiset{(id, args)})
    case CutOff => AllEnded(c)
  }

  function AllEntered(c: Ledger, log: seq<Deed>): Ledger {
    if log == [] then c else Entered(AllEntered(c, log[..|log| - 1]), log[|log| - 1])
  }

  lemma StreamedOneMore(log: seq<Deed>, d: Deed, id: ID)
    ensures Streamed(log + [d], id) <==> Streamed(log, id) || (d.Fragment? && d.id == id)
    ensures TextFor(log + [d], id) == TextFor(log, id) + if d.Fragment? && d.id == id then d.text else ""
  {
    var all := log + [d];
    assert all[..|log|] == log && all[|log|] == d && forall i :: 0 <= i < |log| ==> all[i] == log[i];
  }

  lemma ClosedOneMore(log: seq<Deed>, d: Deed, id: ID)
    ensures Closed(log + [d], id) <==> Closed(log, id) || (Closes(d, id) && Streamed(log, id))
  {
    var all := log + [d];
    assert all[..|log|] == log && all[|log|] == d;
    assert forall k :: 0 <= k < |log| ==> all[k] == log[k] && all[..k] == log[..k];
  }

  lemma CompletedOneMore(log: seq<Deed>, d: Deed, id: ID, args: string)
    ensures Completed(log + [d], id, args) <==> Completed(log, id, args) || CompletesAt(log + [d], |log|, id, args)
  {
    var all := log + [d];
    forall k | 0 <= k < |log| ensures CompletesAt(all, k, id, args) <==> CompletesAt(log, k, id, args) {
      assert all[k] == log[k] && all[..k] == log[..k];
    }
  }

  lemma ItemsMean(m: map<ID, string>, id: ID, args: string)
    ensures (id, args) in Items(m) <==> id in m && m[id] == args
  {
    var all := set k | k in m :: (k, m[k]);
    assert (id, args) in all <==> (id, args) in Items(m);
  }

  lemma EnteredExplains(log: seq<Deed>, c: Ledger, d: Deed)
    requires c.Ledger? && Explains(log, c)
    ensures Explains(log + [d], Entered(c, d))
  {
    var all, after := log + [d], Entered(c, d);
    assert all[..|log|] == log && all[|log|] == d;
    if after.Ledger? {
      forall id
        ensures id in after.streaming <==> Streamed(all, id) && !Closed(all, id)
        ensures id in after.finished <==> Closed(all, id)
        ensures id in after.streaming ==> after.streaming[id] == TextFor(all, id)
        ensures !Streamed(all, id) ==> TextFor(all, id) == ""
      {
        StreamedOneMore(log, d, id);
        ClosedOneMore(log, d, id);
        ClosedWasStreamed(log, id);
        StaysExplained(c, d, id, Streamed(log, id), Closed(log, id), TextFor(log, id));
      }
      forall id, args ensures (id, args) in after.called <==> Completed(all, id, args) {
        CompletedOneMore(log, d, id, args);
        CalledExplained(log, c, d, id, args);
      }
    }
  }

  /** One call, given whether it was streamed and closed and its text so far. */
  lemma StaysExplained(c: Ledger, d: Deed, id: ID, streamed: bool, closed: bool, text: string)
    requires c.Ledger? && Entered(c, d).Ledger? && (closed ==> streamed) && (!streamed ==> text == "")
    requires (id in c.streaming <==> streamed && !closed) && (id in c.finished <==> closed) && (id in c.streaming ==> c.streaming[id] == text)
    ensures
      var after := Entered(c, d);
      var more := d.Fragment? && d.id == id;
      var ended := closed || (Closes(d, id) && streamed);
      && (id in after.streaming <==> (streamed || more) && !ended) && (id in after.finished <==> ended)
      && (id in after.streaming ==> after.streaming[id] == text + if more then d.text else "")
  {
    assert text + "" == text;
    if d.Fragment? {
      assert "" + d.text == d.text;
    }
  }

  lemma ClosedWasStreamed(log: seq<Deed>, id: ID)
    ensures Closed(log, id) ==> Streamed(log, id)
  {
    if k :| 0 <= k < |log| && Closes(log[k], id) && Streamed(log[..k], id) {
      var i :| 0 <= i < |log[..k]| && log[..k][i].Fragment? && log[..k][i].id == id;
      assert log[i].Fragment? && log[i].id == id;
    }
  }

  lemma CalledExplained(log: seq<Deed>, c: Ledger, d: Deed, id: ID, args: string)
    requires c.Ledger? && Explains(log, c) && Entered(c, d).Ledger?
    ensures (id, args) in Entered(c, d).called <==> (id, args) in c.called || CompletesAt(log + [d], |log|, id, args)
  {
    assert (log + [d])[..|log|] == log && (log + [d])[|log|] == d;
    if d.CutOff? {
      ItemsMean(c.streaming, id, args);
    }
    if d.Final? && d.id == id {
      ClosedWasStreamed(log, id);
    }
  }

  lemma {:induction false} AllExplained(log: seq<Deed>)
    ensures Explains(log, AllEntered(Ledger(map[], {}, multiset{}), log))
  {
    if log != [] {
      var before, last := log[..|log| - 1], log[|log| - 1];
      AllExplained(before);
      assert log == before + [last];
      if AllEntered(Ledger(map[], {}, multiset{}), before).Ledger? {
        EnteredExplains(before, AllEntered(Ledger(map[], {}, multiset{}), before), last);
      }
    }
  }

  // ----- The transcript is entered deed by deed -----

  lemma {:induction false} EnteredConcat(c: Ledger, a: seq<Deed>, b: seq<Deed>)
    ensures AllEntered(c, a + b) == AllEntered(AllEntered(c, a), b)
  {
    if b == [] {
      assert a + b == a;
    } else {
      assert (a + b)[..|a + b| - 1] == a + b[..|b| - 1];
      EnteredConcat(c, a, b[..|b| - 1]);
    }
  }

  lemma EnteredOne(c: Ledger, d: Deed)
    ensures AllEntered(c, [d]) == Entered(c, d)
  {
    assert [d][..0] == [] && AllEntered(c, [d][..0]) == c;
  }

  lemma PartEntered(t: Transcript, config: Config, part: Option<Part>, partial: bool, serial: nat)
    ensures PartTold(t, config, part, partial, serial).calls == AllEntered(t.calls, PartDeeds(config, part, partial, serial))
  {
    var deeds, u := PartDeeds(config, part, partial, serial), ThoughtEnds(TextEnds(t));
    if deeds != [] {
      assert deeds == [deeds[0]];
      EnteredOne(t.calls, deeds[0]);
    }
    if part.Some? && !part.value.Reasoning() {
      var p := part.value;
      if p.functionCall.Some? {
        CallEntersDeed(u, config, p.functionCall.value, partial, Identified(p.functionCall.value.id, serial));
      } else if p.functionResponse.None? && p.toolCall.Some? {
        BuiltinEntersDeed(u, config, p.toolCall.value, Identified(p.toolCall.value.id, serial));
      }
    }
  }

  lemma CallEntersDeed(t: Transcript, config: Config, fc: FunctionCall, partial: bool, id: ID)
    ensures CallTold(t, config, fc, partial, id).calls ==
      if !config.Proposed(fc, partial) then t.calls
      else Entered(t.calls, if partial then Fragment(id, Concat(fc.fragments)) else Final(id, ArgsText(fc.args)))
  {
  }

  lemma BuiltinEntersDeed(t: Transcript, config: Config, tc: BuiltinCall, id: ID)
    ensures BuiltinTold(t, config, tc, id).calls ==
      if config.ServerSide(BuiltinName(tc)) then t.calls else Entered(t.calls, Whole(id, ArgsText(tc.args)))
  {
  }

  lemma {:induction false} PartsEntered(t: Transcript, n: Narrative, config: Config, parts: seq<Option<Part>>, partial: bool, author: string)
    ensures PartsTold(t, n, config, parts, partial, author).calls == AllEntered(t.calls, PartsDeeds(config, n, parts, partial, author))
  {
    if parts != [] {
      var before := parts[..|parts| - 1];
      var serial := PartsNoted(config, n, before, partial, author).serial;
      PartsEntered(t, n, config, before, partial, author);
      PartEntered(PartsTold(t, n, config, before, partial, author), config, parts[|parts| - 1], partial, serial);
      EnteredConcat(t.calls, PartsDeeds(config, n, before, partial, author), PartDeeds(config, parts[|parts| - 1], partial, serial));
    }
  }

  lemma EventEntered(t: Transcript, n: Narrative, config: Config, ev: AdkEvent)
    ensures EventTold(t, n, config, ev).calls == AllEntered(t.calls, EventDeeds(config, n, ev))
  {
    EnteredOne(t.calls, CutOff);
    PartsEntered(t, MetadataNoted(FailureNoted(HeaderNoted(config, n, ev), ev), ev), config, ev.parts, ev.partial, ev.author);
  }

  lemma {:induction false} EventsEntered(t: Transcript, n: Narrative, config: Config, evs: seq<AdkEvent>)
    ensures EventsTold(t, n, config, evs).calls == AllEntered(t.calls, EventsDeeds(config, n, evs))
  {
    if evs != [] {
      var before := evs[..|evs| - 1];
      var m := EventsNoted(config, n, before);
      EventsEntered(t, n, config, before);
      EventEntered(EventsTold(t, n, config, before), m, config, evs[|evs| - 1]);
      EnteredConcat(t.calls, EventsDeeds(config, n, before), EventDeeds(config, m, evs[|evs| - 1]));
    }
  }

  /** The calls of a whole run that keeps the protocol are those that some event or the end
      completes: a streamed call with all its fragments, in order, or with the full arguments
      of its final event if there were none, any other with its own arguments. */
  lemma CallsComplete(n: Narrative, config: Config, evs: seq<AdkEvent>, id: ID, args: string)
    requires RunTold(Silence, n, config, evs).calls.Ledger?
    ensures (id, args) in RunTold(Silence, n, config, evs).calls.called <==> Completed(EventsDeeds(config, n, evs) + [CutOff], id, args)
  {
    var log := EventsDeeds(config, n, evs);
    EventsEntered(Silence, n, config, evs);
    EnteredConcat(Silence.calls, log, [CutOff]);
    EnteredOne(AllEntered(Silence.calls, log), CutOff);
    AllExplained(log + [CutOff]);
  }
}
