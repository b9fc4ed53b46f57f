/** The content of a run, computed from the ADK events alone: the simple whole-content
    form that the streamed form must reassemble to. It also says which inputs cannot be
    streamed within the protocol. */
module Transcripts {
  import opened Events
  import opened Protocol
  import opened Adk
  import opened Effects
  import opened Narratives

  datatype Utterance = Said(content: string) | Thought(content: string)

  /** The calls that are being streamed, those already streamed and closed, and all that were
      completed; Violated once an event of a call did not fit. */
  datatype Ledger =
    | Violated
    | Ledger(streaming: map<ID, string>, finished: set<ID>, called: multiset<(ID, string)>)

  /** Text and reasoning in order, and the calls. */
  datatype Transcript = Transcript(text: Option<string>, thought: Option<string>, utterances: seq<Utterance>, calls: Ledger)

  const Silence: Transcript := Transcript(None, None, [], Ledger(map[], {}, multiset{}))

  // ----- The transcript of ADK events -----

  function TextEnds(t: Transcript): Transcript {
    if t.text.None? then t else t.(text := None, utterances := t.utterances + [Said(t.text.value)])
  }

  function ThoughtEnds(t: Transcript): Transcript {
    if t.thought.None? then t else t.(thought := None, utterances := t.utterances + [Thought(t.thought.value)])
  }

  function TextTold(t: Transcript, text: string, partial: bool): Transcript {
    var u := ThoughtEnds(t);
    var w := u.(text := Some(Absorb(if u.text.Some? then u.text.value else "", text)));
    if partial then w else TextEnds(w)
  }

  function ThoughtTold(t: Transcript, text: string, partial: bool): Transcript {
    var u := TextEnds(t);
    var w := u.(thought := Some(Absorb(if u.thought.Some? then u.thought.value else "", text)));
    if partial then w else ThoughtEnds(w)
  }

  /** A streamed call gathers its fragments; its final event closes it, with the full
      arguments only if there were no fragments. Once closed it can take neither. */
  function CallEntered(c: Ledger, fc: FunctionCall, partial: bool, id: ID): Ledger {
    if c.Violated? then c
    else if partial then
      if id in c.streaming then c.(streaming := c.streaming[id := c.streaming[id] + Concat(fc.fragments)])
      else if id !in c.finished then c.(streaming := c.streaming[id := Concat(fc.fragments)])
      else if Concat(fc.fragments) == "" then c
      else Violated
    else
      if id in c.streaming then
        var args := if c.streaming[id] != "" then c.streaming[id] else ArgsText(fc.args);
        Ledger(c.streaming - {id}, c.finished + {id}, c.called + multiset{(id, args)})
      else if id in c.finished then Violated
      else c.(called := c.called + multiset{(id, ArgsText(fc.args))})
  }

  function CallTold(t: Transcript, config: Config, fc: FunctionCall, partial: bool, id: ID): Transcript {
    if config.Proposed(fc, partial) then t.(calls := CallEntered(t.calls, fc, partial, id)) else t
  }

  function BuiltinEntered(c: Ledger, tc: BuiltinCall, id: ID): Ledger {
    if c.Violated? || id in c.streaming then Violated
    else c.(called := c.called + multiset{(id, ArgsText(tc.args))})
  }

  function BuiltinTold(t: Transcript, config: Config, tc: BuiltinCall, id: ID): Transcript {
    if config.ServerSide(BuiltinName(tc)) then t else t.(calls := BuiltinEntered(t.calls, tc, id))
  }

  function Items(m: map<ID, string>): multiset<(ID, string)> {
    multiset(set id | id in m :: (id, m[id]))
  }

  /** Calls still streaming are completed with what was streamed. */
  function AllEnded(c: Ledger): Ledger {
    if c.Violated? then c else Ledger(map[], c.finished + c.streaming.Keys, c.called + Items(c.streaming))
  }

  function CallsEnd(t: Transcript): Transcript { t.(calls := AllEnded(t.calls)) }

  /** A call keeps the identifier it was supplied with, or gets the next one drawn. */
  function Identified(suppliedID: string, serial: nat): ID {
    if suppliedID != "" then Given(suppliedID) else Generated(serial)
  }

  function PartTold(t: Transcript, config: Config, part: Option<Part>, partial: bool, serial: nat): Transcript {
    if part.None? then t
    else
      var p := part.value;
      if p.thought && p.text != "" then ThoughtTold(t, p.text, partial)
      else if p.functionCall.Some? then
        var fc := p.functionCall.value;
        CallTold(ThoughtEnds(TextEnds(t)), config, fc, partial, Identified(fc.id, serial))
      else if p.functionResponse.Some? then ThoughtEnds(TextEnds(t))
      else if p.toolCall.Some? then
        var tc := p.toolCall.value;
        BuiltinTold(ThoughtEnds(TextEnds(t)), config, tc, Identified(tc.id, serial))
      else if p.toolResponse.Some? then ThoughtEnds(TextEnds(t))
      else if p.text != "" then TextTold(t, p.text, partial)
      else if p.fileData.Some? then TextTold(t, FileText(p.fileData.value), partial)
      else if p.inlineData.Some? then TextTold(t, BinaryText(p.inlineData.value), partial)
      else t
  }

  /** The narrative of the parts decides which identifiers are drawn. */
  function PartsTold(t: Transcript, n: Narrative, config: Config, parts: seq<Option<Part>>, partial: bool, author: string): Transcript {
    if parts == [] then t
    else
      var before := parts[..|parts| - 1];
      PartTold(PartsTold(t, n, config, before, partial, author), config, parts[|parts| - 1], partial,
               PartsNoted(config, n, before, partial, author).serial)
  }

  lemma OneMoreTold(t: Transcript, n: Narrative, config: Config, parts: seq<Option<Part>>, i: nat, partial: bool, author: string)
    requires i < |parts|
    ensures PartsTold(t, n, config, parts[..i + 1], partial, author)
      == PartTold(PartsTold(t, n, config, parts[..i], partial, author), config, parts[i], partial,
                  PartsNoted(config, n, parts[..i], partial, author).serial)
  {
    assert parts[..i + 1][..i] == parts[..i];
  }

  function AllPartsTold(t: Transcript, n: Narrative, config: Config, ev: AdkEvent): Transcript {
    PartsTold(t, MetadataNoted(n, ev), config, ev.parts, ev.partial, ev.author)
  }

  /** A model error of a sub-agent closes everything and drops the event's parts. */
  function ContentTold(t: Transcript, n: Narrative, config: Config, ev: AdkEvent): Transcript {
    if ev.Failed() && !config.RootAuthor(ev.author) then CallsEnd(ThoughtEnds(TextEnds(t)))
    else AllPartsTold(t, FailureNoted(n, ev), config, ev)
  }

  function EventTold(t: Transcript, n: Narrative, config: Config, ev: AdkEvent): Transcript {
    ContentTold(t, HeaderNoted(config, n, ev), config, ev)
  }

  /** The transcript of events that are translated when n has been said. */
  function EventsTold(t: Transcript, n: Narrative, config: Config, evs: seq<AdkEvent>): Transcript {
    if evs == [] then t
    else
      var before := evs[..|evs| - 1];
      EventTold(EventsTold(t, n, config, before), EventsNoted(config, n, before), config, evs[|evs| - 1])
  }

  /** The transcript of a whole run: what is still open at the end is closed. */
  function RunTold(t: Transcript, n: Narrative, config: Config, evs: seq<AdkEvent>): Transcript {
    CallsEnd(ThoughtEnds(TextEnds(EventsTold(t, n, config, evs))))
  }

  /** The inputs that can be streamed within the protocol: no supplied call identifier
      gets another final event or further fragments after its streamed call was closed,
      and no built-in call reuses one that is still streaming. */
  predicate Disciplined(config: Config, evs: seq<AdkEvent>) {
    EventsTold(Silence, Beginning(0, []), config, evs).calls.Ledger?
  }

  // ----- The transcript a client has reassembled -----

  function Words(spans: seq<Span>): seq<Utterance> {
    if spans == [] then []
    else
      var before := Words(spans[..|spans| - 1]);
      match spans[|spans| - 1]
      case Message(_, content) => before + [Said(content)]
      case Thinking(_, content) => before + [Thought(content)]
      case Call(_, _) => before
  }

  function CallsIn(spans: seq<Span>): multiset<(ID, string)> {
    if spans == [] then multiset{}
    else
      var before := CallsIn(spans[..|spans| - 1]);
      var last := spans[|spans| - 1];
      if last.Call? then before + multiset{(last.id, last.args)} else before
  }

  function Content(o: Option<Open>): Option<string> {
    if o.Some? then Some(o.value.content) else None
  }

  function LedgerOf(v: View, started: set<ID>): Ledger
    requires v.View?
  {
    if v.calls.Lost? then Violated else Ledger(v.calls.open, started - v.calls.open.Keys, CallsIn(v.spans))
  }

  /** What the client holds, given the calls announced so far. */
  function Heard(v: View, started: set<ID>): Transcript
    requires v.View?
  {
    Transcript(Content(v.text), Content(v.thought), Words(v.spans), LedgerOf(v, started))
  }

  lemma SpanAdded(spans: seq<Span>, s: Span)
    ensures Words(spans + [s]) == Words(spans) + match s
      case Message(_, content) => [Said(content)]
      case Thinking(_, content) => [Thought(content)]
      case Call(_, _) => []
    ensures CallsIn(spans + [s]) == CallsIn(spans) + if s.Call? then multiset{(s.id, s.args)} else multiset{}
  {
    assert (spans + [s])[..|spans|] == spans;
  }

  /** Attribution and steps do not touch the content. */
  lemma HeaderUnheard(v: View, started: set<ID>, agent: Option<ID>, ev: AdkEvent)
    requires v.View?
    ensures Heard(AgentIs(v, agent), started) == Heard(v, started)
    ensures Heard(StepFor(AgentIs(v, agent), ev), started) == Heard(v, started)
  {
  }

  lemma TextEndsHeard(v: View, started: set<ID>)
    requires v.View?
    ensures Heard(TextClosed(v), started) == TextEnds(Heard(v, started))
  {
    if v.text.Some? {
      SpanAdded(v.spans, Message(v.text.value.id, v.text.value.content));
    }
  }

  lemma ThoughtEndsHeard(v: View, started: set<ID>)
    requires v.View?
    ensures Heard(ThoughtClosed(v), started) == ThoughtEnds(Heard(v, started))
  {
    if v.thought.Some? {
      SpanAdded(v.spans, Thinking(v.thought.value.id, v.thought.value.content));
    }
  }

  lemma TextHeard(v: View, started: set<ID>, id: ID, text: string, partial: bool)
    requires v.View?
    ensures Heard(TextArrives(v, id, text, partial), started) == TextTold(Heard(v, started), text, partial)
  {
    ThoughtEndsHeard(v, started);
    TextEndsHeard(TextStreamed(TextOpened(ThoughtClosed(v), id), text), started);
  }

  lemma ThoughtHeard(v: View, started: set<ID>, id: ID, text: string, partial: bool)
    requires v.View?
    ensures Heard(ThoughtArrives(v, id, text, partial), started) == ThoughtTold(Heard(v, started), text, partial)
  {
    TextEndsHeard(v, started);
    ThoughtEndsHeard(ThoughtStreamed(ThoughtOpened(TextClosed(v), id), text), started);
  }

  lemma FragmentsHeard(v: View, started: set<ID>, id: ID, text: string)
    requires v.Has(id)
    ensures
      var c := LedgerOf(v, started);
      LedgerOf(FragmentsArrive(v, id, text), started) == c.(streaming := c.streaming[id := v.calls.open[id] + text])
  {
    assert started - v.calls.open[id := v.calls.open[id] + text].Keys == started - v.calls.open.Keys;
    if text == "" {
      assert v.calls.open[id] + text == v.calls.open[id];
      assert v.calls.open[id := v.calls.open[id]] == v.calls.open;
    }
  }

  lemma AnnouncedHeard(v: View, started: set<ID>, id: ID)
    requires !Deaf(v) && id !in started && v.calls.open.Keys <= started
    ensures
      var c := LedgerOf(v, started);
      LedgerOf(CallOpened(v, id), started + {id}) == c.(streaming := c.streaming[id := ""])
  {
    assert started + {id} - v.calls.open[id := ""].Keys == started - v.calls.open.Keys;
  }

  lemma PartialCallHeard(v: View, started: set<ID>, id: ID, config: Config, fc: FunctionCall)
    requires config.Proposed(fc, true)
    requires v.View? && (v.calls.Calls? ==> v.calls.open.Keys <= started)
    ensures Heard(CallStreamed(v, id in started, id, fc.fragments), started + {id})
      == CallTold(Heard(v, started), config, fc, true, id)
  {
    if v.calls.Calls? {
      if id in started {
        assert started + {id} == started;
        if id in v.calls.open {
          FragmentsHeard(v, started, id, Concat(fc.fragments));
        }
      } else {
        AnnouncedHeard(v, started, id);
        FragmentsHeard(CallOpened(v, id), started + {id}, id, Concat(fc.fragments));
        assert "" + Concat(fc.fragments) == Concat(fc.fragments);
      }
    }
  }

  lemma WholeCallHeard(v: View, started: set<ID>, id: ID, args: Args)
    requires !Deaf(v)
    ensures
      var c, w := LedgerOf(v, started), CallFinished(v, false, id, args);
      Words(w.spans) == Words(v.spans) && LedgerOf(w, started) == c.(called := c.called + multiset{(id, ArgsText(args))})
  {
    SpanAdded(v.spans, Call(id, ArgsText(args)));
  }

  lemma StreamedCallHeard(v: View, started: set<ID>, id: ID, args: Args)
    requires v.Has(id) && id in started
    ensures
      var text := if v.calls.open[id] != "" then v.calls.open[id] else ArgsText(args);
      var c, w := LedgerOf(v, started), CallFinished(v, true, id, args);
      && Words(w.spans) == Words(v.spans)
      && LedgerOf(w, started) == Ledger(c.streaming - {id}, c.finished + {id}, c.called + multiset{(id, text)})
  {
    assert started - (v.calls.open - {id}).Keys == started - v.calls.open.Keys + {id};
    SpanAdded(v.spans, Call(id, if v.calls.open[id] != "" then v.calls.open[id] else ArgsText(args)));
  }

  lemma FinalCallHeard(v: View, started: set<ID>, id: ID, config: Config, fc: FunctionCall)
    requires config.Proposed(fc, false)
    requires v.View? && (v.calls.Calls? ==> v.calls.open.Keys <= started)
    ensures Heard(CallFinished(v, id in started, id, fc.args), started)
      == CallTold(Heard(v, started), config, fc, false, id)
  {
    if v.calls.Calls? {
      if id !in started {
        WholeCallHeard(v, started, id, fc.args);
      } else if id in v.calls.open {
        StreamedCallHeard(v, started, id, fc.args);
      }
    }
  }

  lemma ItemsWithout(m: map<ID, string>, id: ID)
    requires id in m
    ensures Items(m) == Items(m - {id}) + multiset{(id, m[id])}
  {
    var all := set k | k in m :: (k, m[k]);
    var rest := set k | k in m - {id} :: (k, (m - {id})[k]);
    forall p | p in all ensures p in rest + {(id, m[id])} {
      if p.0 != id {
        assert p.0 in m - {id};
      }
    }
    assert all == rest + {(id, m[id])};
  }

  lemma CallEndedHeard(w: View, started: set<ID>, id: ID)
    requires w.Has(id) && w.calls.open.Keys <= started
    ensures CallsEnd(Heard(CallEnded(w, id), started)) == CallsEnd(Heard(w, started))
  {
    var h := Heard(w, started).calls;
    StreamedCallHeard(w, started, id, NoArgs);
    assert w.calls.open[id] + "" == w.calls.open[id];
    assert CallEnded(w, id) == CallFinished(w, true, id, NoArgs);
    ItemsWithout(h.streaming, id);
    assert h.finished + {id} + (h.streaming - {id}).Keys == h.finished + h.streaming.Keys;
    assert AllEnded(LedgerOf(CallEnded(w, id), started)) == AllEnded(h);
  }

  lemma BuiltinHeard(v: View, started: set<ID>, id: ID, config: Config, tc: BuiltinCall)
    requires !config.ServerSide(BuiltinName(tc)) && v.View?
    ensures Heard(CallShown(v, id, tc.args), started) == BuiltinTold(Heard(v, started), config, tc, id)
  {
    if v.calls.Calls? {
      WholeCallHeard(v, started, id, tc.args);
    }
  }

  lemma NoCallsEnd(w: View, started: set<ID>)
    requires w.View? && (w.calls.Calls? ==> w.calls.open == map[])
    ensures CallsEnd(Heard(w, started)) == Heard(w, started)
  {
    if w.calls.Calls? {
      assert Items(w.calls.open) == multiset{};
    }
  }
}
