/** Which call a response answers: what translated events promise, told by the calls before it. */
module AnswerLaws {
  import opened Events
  import opened Adk
  import opened Narratives
  import opened Transcripts

  // ----- The calls that can be answered -----

  /** A call that was taken up: the identifier it was supplied with, its tool, its arguments,
      and the identifier under which the client knows it. */
  datatype Entry = Entry(supplied: string, name: string, args: Args, id: ID)

  /** A function call is taken up unless it is suppressed or malformed. */
  predicate TakenUp(config: Config, fc: FunctionCall, partial: bool) {
    !config.Suppressed(fc, partial) && (config.ServerSide(fc.name) || partial || (fc.name != "" && !fc.args.Unmarshallable?))
  }

  function PartEntries(config: Config, part: Option<Part>, partial: bool, serial: nat): seq<Entry> {
    if part.None? || part.value.Reasoning() then []
    else if part.value.functionCall.Some? then
      var fc := part.value.functionCall.value;
      if TakenUp(config, fc, partial) then [Entry(fc.id, fc.name, fc.args, Identified(fc.id, serial))] else []
    else if part.value.functionResponse.None? && part.value.toolCall.Some? then
      var tc := part.value.toolCall.value;
      [Entry(tc.id, BuiltinName(tc), tc.args, Identified(tc.id, serial))]
    else []
  }

  function PartsEntries(config: Config, n: Narrative, parts: seq<Option<Part>>, partial: bool, author: string): seq<Entry> {
    if parts == [] then []
    else
      var before := parts[..|parts| - 1];
      PartsEntries(config, n, before, partial, author) +
      PartEntries(config, parts[|parts| - 1], partial, PartsNoted(config, n, before, partial, author).serial)
  }

  /** What has been noted when the parts of an event are about to be translated. */
  function PartsBegin(config: Config, n: Narrative, ev: AdkEvent): Narrative {
    MetadataNoted(FailureNoted(HeaderNoted(config, n, ev), ev), ev)
  }

  function EventEntries(config: Config, n: Narrative, ev: AdkEvent): seq<Entry> {
    if ev.Failed() && !config.RootAuthor(ev.author) then [] else PartsEntries(config, PartsBegin(config, n, ev), ev.parts, ev.partial, ev.author)
  }

  function EventsEntries(config: Config, n: Narrative, evs: seq<AdkEvent>): seq<Entry> {
    if evs == [] then []
    else
      var before := evs[..|evs| - 1];
      EventsEntries(config, n, before) + EventEntries(config, EventsNoted(config, n, before), evs[|evs| - 1])
  }

  // ----- The latest call of a name -----

  /** The entry can be found under the key: its identifier or its tool. */
  predicate Under(e: Entry, key: string) { key != "" && (e.supplied == key || e.name == key) }

  predicate Latest(log: seq<Entry>, key: string, j: int) {
    0 <= j < |log| && Under(log[j], key) && forall i :: j < i < |log| ==> !Under(log[i], key)
  }

  predicate Telling(e: Entry) { e.name != "" || !e.args.NoArgs? }

  predicate LastTelling(log: seq<Entry>, id: ID, j: int) {
    0 <= j < |log| && log[j].id == id && Telling(log[j]) && forall i :: j < i < |log| ==> log[i].id != id || !Telling(log[i])
  }

  /** What is known is what the log says: under each key the latest call, and about each call
      its tool and arguments as last told. */
  ghost predicate Remembers(log: seq<Entry>, n: Narrative) {
    && (forall k :: k in n.known <==> exists j :: 0 <= j < |log| && Under(log[j], k))
    && (forall k, j :: Latest(log, k, j) ==> k in n.known && n.known[k] == log[j].id)
    && (forall id :: id in n.details <==> exists j :: 0 <= j < |log| && log[j].id == id && Telling(log[j]))
    && forall id, j :: LastTelling(log, id, j) ==> id in n.details && n.details[id] == ToolCallDetail(log[j].name, log[j].args)
  }

  lemma RemembersNothing(serial: nat, remarks: seq<Emitted>)
    ensures Remembers([], Beginning(serial, remarks))
  {
  }

  lemma RemembersOneMore(log: seq<Entry>, n: Narrative, e: Entry)
    requires Remembers(log, n)
    ensures Remembers(log + [e], Recorded(n, e.supplied, e.name, e.id, e.args))
  {
    var m, all := Recorded(n, e.supplied, e.name, e.id, e.args), log + [e];
    forall k ensures (k in m.known <==> exists j :: 0 <= j < |all| && Under(all[j], k)) {
      KeyOneMore(log, e, k);
    }
    forall k, j | Latest(all, k, j) ensures k in m.known && m.known[k] == all[j].id {
      LatestOneMore(log, e, k, j);
    }
    forall id ensures id in m.details <==> exists j :: 0 <= j < |all| && all[j].id == id && Telling(all[j]) {
      ToldOneMore(log, e, id);
    }
    forall id, j | LastTelling(all, id, j) ensures id in m.details && m.details[id] == ToolCallDetail(all[j].name, all[j].args) {
      LastTellingOneMore(log, e, id, j);
    }
  }

  lemma KeyOneMore(log: seq<Entry>, e: Entry, k: string)
    ensures (exists j :: 0 <= j < |log + [e]| && Under((log + [e])[j], k)) <==> Under(e, k) || exists j :: 0 <= j < |log| && Under(log[j], k)
  {
    var all := log + [e];
    assert all[|log|] == e && forall i :: 0 <= i < |log| ==> all[i] == log[i];
  }

  lemma ToldOneMore(log: seq<Entry>, e: Entry, id: ID)
    ensures (exists j :: 0 <= j < |log + [e]| && (log + [e])[j].id == id && Telling((log + [e])[j])) <==>
      (e.id == id && Telling(e)) || exists j :: 0 <= j < |log| && log[j].id == id && Telling(log[j])
  {
    var all := log + [e];
    assert all[|log|] == e && forall i :: 0 <= i < |log| ==> all[i] == log[i];
  }

  lemma LatestOneMore(log: seq<Entry>, e: Entry, k: string, j: int)
    requires Latest(log + [e], k, j)
    ensures if Under(e, k) then j == |log| else j < |log| && Latest(log, k, j)
  {
    var all := log + [e];
    assert all[|log|] == e && forall i :: 0 <= i < |log| ==> all[i] == log[i];
  }

  lemma LastTellingOneMore(log: seq<Entry>, e: Entry, id: ID, j: int)
    requires LastTelling(log + [e], id, j)
    ensures if e.id == id && Telling(e) then j == |log| else j < |log| && LastTelling(log, id, j)
  {
    var all := log + [e];
    assert all[|log|] == e && forall i :: 0 <= i < |log| ==> all[i] == log[i];
  }

  /** Nothing else changes what is known. */
  lemma SameRemembers(log: seq<Entry>, n: Narrative, m: Narrative)
    requires Remembers(log, n) && m.known == n.known && m.details == n.details
    ensures Remembers(log, m)
  {
  }

  lemma {:induction false} FragmentsKnow(config: Config, n: Narrative, id: ID, fragments: seq<string>)
    ensures var m := FragmentsNoted(config, n, id, fragments); m.known == n.known && m.details == n.details
  {
    if fragments != [] {
      FragmentsKnow(config, n, id, fragments[..|fragments| - 1]);
    }
  }

  lemma ProposalKnows(config: Config, n: Narrative, fc: FunctionCall, partial: bool, id: ID)
    ensures var m := ProposalNoted(config, n, fc, partial, id); m.known == n.known && m.details == n.details
  {
    FragmentsKnow(config, if id in n.started then n else Announced(config, n, id, fc.name), id, fc.fragments);
  }

  lemma CallKnows(config: Config, n: Narrative, fc: FunctionCall, partial: bool)
    ensures
      var r, m := Recorded(n, fc.id, fc.name, Identified(fc.id, n.serial), fc.args), CallNoted(config, n, fc, partial);
      var k := if TakenUp(config, fc, partial) then r else n;
      m.known == k.known && m.details == k.details
  {
    var id, d := Identified(fc.id, n.serial), if fc.id != "" then n else Drawn(n);
    if config.Proposed(fc, partial) {
      ProposalKnows(config, Recorded(d, fc.id, fc.name, id, fc.args), fc, partial, id);
    }
  }

  lemma BuiltinKnows(config: Config, n: Narrative, tc: BuiltinCall)
    ensures
      var r, m := Recorded(n, tc.id, BuiltinName(tc), Identified(tc.id, n.serial), tc.args), BuiltinNoted(config, n, tc);
      m.known == r.known && m.details == r.details
  {
  }

  function After(n: Narrative, entries: seq<Entry>): Narrative
    requires |entries| <= 1
  {
    if entries == [] then n else var e := entries[0]; Recorded(n, e.supplied, e.name, e.id, e.args)
  }

  /** The same is known, and the same sub-agent is active. */
  predicate Alike(n: Narrative, m: Narrative) { m.known == n.known && m.details == n.details && m.agent == n.agent && m.author == n.author }

  lemma TextAlike(config: Config, n: Narrative, partial: bool, author: string)
    ensures Alike(n, TextNoted(config, n, partial, author))
  {
  }

  lemma ThoughtAlike(n: Narrative, signature: string, partial: bool)
    ensures Alike(n, ThoughtNoted(n, signature, partial))
  {
  }

  lemma NotedAlike(n: Narrative, e: Event)
    ensures Alike(n, Noted(n, e))
  {
  }

  lemma SpeechAlike(config: Config, n: Narrative, p: Part, partial: bool, author: string)
    ensures Alike(n, SpeechNoted(config, n, p, partial, author))
  {
    if p.Reasoning() {
      ThoughtAlike(n, p.signature, partial);
    } else if p.text != "" || p.fileData.Some? || p.inlineData.Some? {
      TextAlike(config, n, partial, author);
    } else if p.executableCode.Some? {
      NotedAlike(n, Custom("executable_code", [p.executableCode.value.0, p.executableCode.value.1]));
    } else if p.codeResult.Some? {
      NotedAlike(n, Custom("code_execution_result", [p.codeResult.value.0, p.codeResult.value.1]));
    }
  }

  lemma MetadataAlike(n: Narrative, ev: AdkEvent)
    ensures Alike(n, MetadataNoted(n, ev)) && Alike(n, FailureNoted(n, ev))
  {
  }

  lemma ToolPartKnows(config: Config, n: Narrative, p: Part, partial: bool)
    requires p.ToolPart() && !p.Reasoning()
    ensures
      var entries, m := PartEntries(config, Some(p), partial, n.serial), ToolPartNoted(config, n, p, partial);
      |entries| <= 1 && m.known == After(n, entries).known && m.details == After(n, entries).details
  {
    if p.functionCall.Some? {
      CallKnows(config, n, p.functionCall.value, partial);
    } else if p.functionResponse.None? && p.toolCall.Some? {
      BuiltinKnows(config, n, p.toolCall.value);
    }
  }

  lemma PartKnows(config: Config, n: Narrative, part: Option<Part>, partial: bool, author: string)
    ensures
      var entries, m := PartEntries(config, part, partial, n.serial), OptionalNoted(config, n, part, partial, author);
      |entries| <= 1 && m.known == After(n, entries).known && m.details == After(n, entries).details
  {
    if part.Some? {
      if part.value.ToolPart() && !part.value.Reasoning() {
        ToolPartKnows(config, Silenced(n), part.value, partial);
      } else {
        SpeechAlike(config, n, part.value, partial, author);
      }
    }
  }

  lemma PartRemembers(config: Config, log: seq<Entry>, n: Narrative, part: Option<Part>, partial: bool, author: string)
    requires Remembers(log, n)
    ensures Remembers(log + PartEntries(config, part, partial, n.serial), OptionalNoted(config, n, part, partial, author))
  {
    var m, added := OptionalNoted(config, n, part, partial, author), PartEntries(config, part, partial, n.serial);
    PartKnows(config, n, part, partial, author);
    if added == [] {
      assert log + added == log;
      SameRemembers(log, n, m);
    } else {
      var e := added[0];
      assert added == [e];
      RemembersOneMore(log, n, e);
      SameRemembers(log + [e], After(n, added), m);
    }
  }

  lemma {:induction false} PartsRemember(config: Config, log: seq<Entry>, n: Narrative, parts: seq<Option<Part>>, partial: bool, author: string)
    requires Remembers(log, n)
    ensures Remembers(log + PartsEntries(config, n, parts, partial, author), PartsNoted(config, n, parts, partial, author))
  {
    assert log + [] == log;
    if parts != [] {
      var before := parts[..|parts| - 1];
      PartsRemember(config, log, n, before, partial, author);
      var m := PartsNoted(config, n, before, partial, author);
      var earlier, last := PartsEntries(config, n, before, partial, author), PartEntries(config, parts[|parts| - 1], partial, m.serial);
      PartRemembers(config, log + earlier, m, parts[|parts| - 1], partial, author);
      assert log + earlier + last == log + (earlier + last);
    }
  }

  lemma HeaderKnows(config: Config, n: Narrative, ev: AdkEvent)
    ensures var m := HeaderNoted(config, n, ev); m.known == n.known && m.details == n.details
  {
  }

  lemma BeginningKnows(config: Config, n: Narrative, ev: AdkEvent)
    ensures var m := PartsBegin(config, n, ev); m.known == n.known && m.details == n.details
  {
    HeaderKnows(config, n, ev);
    MetadataAlike(HeaderNoted(config, n, ev), ev);
    MetadataAlike(FailureNoted(HeaderNoted(config, n, ev), ev), ev);
  }

  /** A sub-agent is active exactly for an author that is not the root. */
  predicate AgentKept(config: Config, n: Narrative) {
    (n.agent.Some? <==> n.author != "") && (n.author != "" ==> !config.RootAuthor(n.author))
  }

  lemma HeaderKeepsAgent(config: Config, n: Narrative, ev: AdkEvent)
    requires AgentKept(config, n)
    ensures AgentKept(config, HeaderNoted(config, n, ev)) && (HeaderNoted(config, n, ev).agent.Some? <==> !config.RootAuthor(ev.author))
  {
  }

  lemma ContentRemembers(config: Config, log: seq<Entry>, n: Narrative, ev: AdkEvent)
    requires Remembers(log, n)
    ensures Remembers(log + PartsEntries(config, MetadataNoted(n, ev), ev.parts, ev.partial, ev.author), AllPartsNoted(config, n, ev))
    ensures SameAgent(n, AllPartsNoted(config, n, ev))
  {
    var b := MetadataNoted(n, ev);
    MetadataAlike(n, ev);
    if ev.parts == [] {
      assert log + [] == log;
    } else {
      SameRemembers(log, n, b);
      PartsRemember(config, log, b, ev.parts, ev.partial, ev.author);
      PartsKeepAgent(config, b, ev.parts, ev.partial, ev.author);
    }
  }

  lemma EventRemembers(config: Config, log: seq<Entry>, n: Narrative, ev: AdkEvent)
    requires Remembers(log, n) && AgentKept(config, n)
    ensures Remembers(log + EventEntries(config, n, ev), EventNoted(config, n, ev)) && AgentKept(config, EventNoted(config, n, ev))
  {
    var h := HeaderNoted(config, n, ev);
    HeaderKnows(config, n, ev);
    HeaderKeepsAgent(config, n, ev);
    SameRemembers(log, n, h);
    if ev.Failed() && !config.RootAuthor(ev.author) {
      assert log + [] == log;
      SameRemembers(log, n, EventNoted(config, n, ev));
    } else {
      MetadataAlike(h, ev);
      SameRemembers(log, h, FailureNoted(h, ev));
      ContentRemembers(config, log, FailureNoted(h, ev), ev);
    }
  }

  predicate SameAgent(n: Narrative, m: Narrative) { m.agent == n.agent && m.author == n.author }

  lemma PartKeepsAgent(config: Config, n: Narrative, part: Option<Part>, partial: bool, author: string)
    ensures SameAgent(n, OptionalNoted(config, n, part, partial, author))
  {
    if part.Some? {
      if part.value.ToolPart() && !part.value.Reasoning() {
        ToolPartKeepsAgent(config, Silenced(n), part.value, partial);
      } else {
        SpeechAlike(config, n, part.value, partial, author);
      }
    }
  }

  lemma ToolPartKeepsAgent(config: Config, n: Narrative, p: Part, partial: bool)
    requires p.ToolPart()
    ensures SameAgent(n, ToolPartNoted(config, n, p, partial))
  {
    if p.functionCall.Some? {
      CallKeepsAgent(config, n, p.functionCall.value, partial);
    }
  }

  lemma CallKeepsAgent(config: Config, n: Narrative, fc: FunctionCall, partial: bool)
    ensures SameAgent(n, CallNoted(config, n, fc, partial))
  {
    var id, d := Identified(fc.id, n.serial), if fc.id != "" then n else Drawn(n);
    if config.Proposed(fc, partial) {
      ProposalKeepsAgent(config, Recorded(d, fc.id, fc.name, id, fc.args), fc, partial, id);
    }
  }

  lemma ProposalKeepsAgent(config: Config, n: Narrative, fc: FunctionCall, partial: bool, id: ID)
    ensures SameAgent(n, ProposalNoted(config, n, fc, partial, id))
  {
    FragmentsKeepAgent(config, if id in n.started then n else Announced(config, n, id, fc.name), id, fc.fragments);
  }

  lemma {:induction false} FragmentsKeepAgent(config: Config, n: Narrative, id: ID, fragments: seq<string>)
    ensures SameAgent(n, FragmentsNoted(config, n, id, fragments))
  {
    if fragments != [] {
      FragmentsKeepAgent(config, n, id, fragments[..|fragments| - 1]);
    }
  }

  lemma {:induction false} PartsKeepAgent(config: Config, n: Narrative, parts: seq<Option<Part>>, partial: bool, author: string)
    ensures SameAgent(n, PartsNoted(config, n, parts, partial, author))
  {
    if parts != [] {
      PartsKeepAgent(config, n, parts[..|parts| - 1], partial, author);
      PartKeepsAgent(config, PartsNoted(config, n, parts[..|parts| - 1], partial, author), parts[|parts| - 1], partial, author);
    }
  }

  lemma {:induction false} EventsRemember(config: Config, serial: nat, remarks: seq<Emitted>, evs: seq<AdkEvent>)
    ensures
      var n := Beginning(serial, remarks);
      Remembers(EventsEntries(config, n, evs), EventsNoted(config, n, evs)) && AgentKept(config, EventsNoted(config, n, evs))
  {
    if evs == [] {
      RemembersNothing(serial, remarks);
    } else {
      var n, before := Beginning(serial, remarks), evs[..|evs| - 1];
      EventsRemember(config, serial, remarks, before);
      EventRemembers(config, EventsEntries(config, n, before), EventsNoted(config, n, before), evs[|evs| - 1]);
    }
  }

  // ----- Responses -----

  /** A result of the call at this place in the log, after the activity of its tool, if
      anything is known about it. */
  ghost predicate ResultOfEntry(log: seq<Entry>, j: int, content: string, agent: Option<ID>, said: seq<Emitted>)
    requires 0 <= j < |log|
  {
    var id := log[j].id;
    && said != [] && said[|said| - 1] == Emitted(agent, ToolCallResult(ResultOf(id), id, content))
    && (|said| == 1 <==> forall k :: 0 <= k < |log| ==> log[k].id != id || !Telling(log[k]))
    && |said| <= 2
    && forall k :: LastTelling(log, id, k) ==>
      |said| == 2 && said[0].agent == agent && said[0].event.ActivitySnapshot? && said[0].event.activity == "tool_use" &&
      said[0].event.text == "Running " + log[k].name + "(" + (if log[k].args.Json? then log[k].args.text else "{}") + ")"
  }

  /** A response goes to the call with its identifier, failing that to the latest call of its
      tool, and otherwise nowhere. */
  ghost predicate AnswersCall(log: seq<Entry>, id: string, name: string, content: string, agent: Option<ID>, said: seq<Emitted>) {
    if exists j :: Latest(log, id, j) then exists j :: Latest(log, id, j) && ResultOfEntry(log, j, content, agent, said)
    else if exists j :: Latest(log, name, j) then exists j :: Latest(log, name, j) && ResultOfEntry(log, j, content, agent, said)
    else said == []
  }

  lemma {:induction false} LatestExists(log: seq<Entry>, key: string)
    ensures (exists j :: 0 <= j < |log| && Under(log[j], key)) <==> exists j :: Latest(log, key, j)
  {
    if log != [] {
      var before, last := log[..|log| - 1], |log| - 1;
      LatestExists(before, key);
      if Under(log[last], key) {
        assert Latest(log, key, last);
      } else if exists j :: 0 <= j < |log| && Under(log[j], key) {
        var i :| 0 <= i < |log| && Under(log[i], key);
        assert Under(before[i], key);
        var j :| Latest(before, key, j);
        assert Latest(log, key, j);
      }
    }
  }

  lemma {:induction false} LastTellingExists(log: seq<Entry>, id: ID)
    ensures (exists j :: 0 <= j < |log| && log[j].id == id && Telling(log[j])) <==> exists j :: LastTelling(log, id, j)
  {
    if log != [] {
      var before, last := log[..|log| - 1], |log| - 1;
      LastTellingExists(before, id);
      if log[last].id == id && Telling(log[last]) {
        assert LastTelling(log, id, last);
      } else if exists j :: 0 <= j < |log| && log[j].id == id && Telling(log[j]) {
        var i :| 0 <= i < |log| && log[i].id == id && Telling(log[i]);
        assert before[i].id == id && Telling(before[i]);
        var j :| LastTelling(before, id, j);
        assert LastTelling(log, id, j);
      }
    }
  }

  lemma ResultSays(log: seq<Entry>, n: Narrative, j: int, content: string) returns (said: seq<Emitted>)
    requires Remembers(log, n) && 0 <= j < |log|
    ensures ResultNoted(n, log[j].id, content).remarks == n.remarks + said && ResultOfEntry(log, j, content, n.agent, said)
  {
    var id := log[j].id;
    var result := Emitted(n.agent, ToolCallResult(ResultOf(id), id, content));
    LastTellingExists(log, id);
    if id in n.details {
      var d := n.details[id];
      var argsJSON := if d.args.Json? then d.args.text else "{}";
      var activity := Emitted(n.agent, ActivitySnapshot(Generated(n.serial), "tool_use", "Running " + d.name + "(" + argsJSON + ")"));
      said := [activity, result];
      assert n.remarks + [activity] + [result] == n.remarks + said;
    } else {
      said := [result];
    }
  }

  lemma ResponseSays(log: seq<Entry>, n: Narrative, id: string, name: string, content: string) returns (said: seq<Emitted>)
    requires Remembers(log, n)
    ensures ResponseNoted(n, id, name, content).remarks == n.remarks + said && AnswersCall(log, id, name, content, n.agent, said)
  {
    LatestExists(log, id);
    LatestExists(log, name);
    if j :| Latest(log, id, j) {
      said := ResultSays(log, n, j, content);
    } else if j :| Latest(log, name, j) {
      said := ResultSays(log, n, j, content);
    } else {
      said := [];
      assert n.remarks + [] == n.remarks;
    }
  }

  predicate IsResponse(p: Option<Part>) {
    p.Some? && !p.value.Reasoning() && p.value.functionCall.None? && (p.value.functionResponse.Some? || (p.value.toolCall.None? && p.value.toolResponse.Some?))
  }

  /** The identifier, the tool and the content of a response. */
  function ResponseIn(p: Option<Part>): (r: (string, string, string))
    requires IsResponse(p)
  {
    if p.value.functionResponse.Some? then
      var fr := p.value.functionResponse.value; (fr.id, fr.name, fr.content)
    else
      var tr := p.value.toolResponse.value; (tr.id, tr.toolType, tr.content)
  }

  /** The i-th part of an event, after other events. */
  function CallsBefore(config: Config, n: Narrative, evs: seq<AdkEvent>, ev: AdkEvent, i: nat): seq<Entry>
    requires i <= |ev.parts|
  {
    var m := EventsNoted(config, n, evs);
    EventsEntries(config, n, evs) + PartsEntries(config, PartsBegin(config, m, ev), ev.parts[..i], ev.partial, ev.author)
  }

  /** Whatever came before, a response is answered by the calls taken up so far: what it adds is
      the result of the latest call with its identifier, failing that of the latest call of its
      tool, with its own content, and nothing when there is neither. */
  lemma ResponseReachesCall(config: Config, serial: nat, remarks: seq<Emitted>, evs: seq<AdkEvent>, ev: AdkEvent, i: nat)
      returns (said: seq<Emitted>)
    requires i < |ev.parts| && IsResponse(ev.parts[i])
    ensures
      var n := Beginning(serial, remarks);
      var b := PartsBegin(config, EventsNoted(config, n, evs), ev);
      var before, after := PartsNoted(config, b, ev.parts[..i], ev.partial, ev.author), PartsNoted(config, b, ev.parts[..i + 1], ev.partial, ev.author);
      var r := ResponseIn(ev.parts[i]);
      && after.remarks == before.remarks + said
      && AnswersCall(CallsBefore(config, n, evs, ev, i), r.0, r.1, r.2, before.agent, said)
  {
    var n := Beginning(serial, remarks);
    var m := EventsNoted(config, n, evs);
    var b, log := PartsBegin(config, m, ev), EventsEntries(config, n, evs);
    EventsRemember(config, serial, remarks, evs);
    BeginningKnows(config, m, ev);
    SameRemembers(log, m, b);
    PartsRemember(config, log, b, ev.parts[..i], ev.partial, ev.author);
    OneMorePart(config, b, ev.parts, i, ev.partial, ev.author);
    var before := PartsNoted(config, b, ev.parts[..i], ev.partial, ev.author);
    var r := ResponseIn(ev.parts[i]);
    SameRemembers(CallsBefore(config, n, evs, ev, i), before, Silenced(before));
    said := ResponseSays(CallsBefore(config, n, evs, ev, i), Silenced(before), r.0, r.1, r.2);
  }

  /** A supplied identifier is the one under which the client knows the call. */
  lemma {:induction false} PartsIdentified(config: Config, n: Narrative, parts: seq<Option<Part>>, partial: bool, author: string)
    ensures forall e :: e in PartsEntries(config, n, parts, partial, author) && e.supplied != "" ==> e.id == Given(e.supplied)
  {
    if parts != [] {
      PartsIdentified(config, n, parts[..|parts| - 1], partial, author);
    }
  }

  lemma {:induction false} EventsIdentified(config: Config, n: Narrative, evs: seq<AdkEvent>)
    ensures forall e :: e in EventsEntries(config, n, evs) && e.supplied != "" ==> e.id == Given(e.supplied)
  {
    if evs != [] {
      var before, ev := evs[..|evs| - 1], evs[|evs| - 1];
      EventsIdentified(config, n, before);
      PartsIdentified(config, PartsBegin(config, EventsNoted(config, n, before), ev), ev.parts, ev.partial, ev.author);
    }
  }

  /** In particular, if a call was supplied with the identifier of the response and no later call
      has that identifier or a tool named like it, the result is for exactly that call. */
  lemma SuppliedCallIsAnswered(config: Config, n: Narrative, evs: seq<AdkEvent>, ev: AdkEvent, i: nat, j: nat,
                               id: string, name: string, content: string, agent: Option<ID>, said: seq<Emitted>)
    requires i <= |ev.parts|
    requires var log := CallsBefore(config, n, evs, ev, i);
      && j < |log| && id != "" && log[j].supplied == id
      && (forall k :: j < k < |log| ==> log[k].name != id && log[k].supplied != id)
      && AnswersCall(log, id, name, content, agent, said)
    ensures said != [] && said[|said| - 1] == Emitted(agent, ToolCallResult(ResultOf(Given(id)), Given(id), content))
  {
    var log := CallsBefore(config, n, evs, ev, i);
    EventsIdentified(config, n, evs);
    PartsIdentified(config, PartsBegin(config, EventsNoted(config, n, evs), ev), ev.parts[..i], ev.partial, ev.author);
    assert log[j] in log && log[j].id == Given(id);
    LatestIsAnswered(log, j, id, name, content, agent, said);
  }

  lemma LatestIsAnswered(log: seq<Entry>, j: nat, id: string, name: string, content: string, agent: Option<ID>, said: seq<Emitted>)
    requires Latest(log, id, j) && AnswersCall(log, id, name, content, agent, said)
    ensures ResultOfEntry(log, j, content, agent, said)
  {
    var k :| Latest(log, id, k) && ResultOfEntry(log, k, content, agent, said);
    assert !(j < k) && !(k < j);
  }
}
