/** What narratives promise: what is drawn anew is new. */
module NarrativeLaws {
  import opened Events
  import opened Adk
  import opened Narratives

  /** Remarks that bring a message, an activity or a sub-agent of their own. */
  predicate Draws(e: Event) { e.TextStart? || e.ActivitySnapshot? || e.SubagentStarted? }

  /** The identifiers drawn from one narrative to the next, in increasing order. */
  ghost predicate Fresh(n: Narrative, m: Narrative) {
    && n.serial <= m.serial && n.remarks <= m.remarks
    && (forall i :: |n.remarks| <= i < |m.remarks| && Draws(m.remarks[i].event) ==>
      m.remarks[i].event.id.Generated? && n.serial <= m.remarks[i].event.id.serial < m.serial)
    && forall i, j :: |n.remarks| <= i < j < |m.remarks| && Draws(m.remarks[i].event) && Draws(m.remarks[j].event) ==>
      m.remarks[i].event.id.serial < m.remarks[j].event.id.serial
  }

  lemma FreshTransitive(a: Narrative, b: Narrative, c: Narrative)
    requires Fresh(a, b) && Fresh(b, c)
    ensures Fresh(a, c)
  {
    assert forall i :: 0 <= i < |b.remarks| ==> b.remarks[i] == c.remarks[i];
  }

  lemma TextFresh(config: Config, n: Narrative, partial: bool, author: string)
    ensures Fresh(n, TextNoted(config, n, partial, author))
  {
  }

  lemma ThoughtFresh(n: Narrative, signature: string, partial: bool)
    ensures Fresh(n, ThoughtNoted(n, signature, partial))
  {
  }

  /** Anything else that is noted. */
  lemma NotedFresh(n: Narrative, e: Event)
    requires !Draws(e)
    ensures Fresh(n, Noted(n, e)) && Fresh(n, NotedAbove(n, e)) && Fresh(n, n)
  {
  }

  lemma SpeechFresh(config: Config, n: Narrative, p: Part, partial: bool, author: string)
    ensures Fresh(n, SpeechNoted(config, n, p, partial, author))
  {
    ThoughtFresh(n, p.signature, partial);
    TextFresh(config, n, partial, author);
    if p.executableCode.Some? {
      NotedFresh(n, Custom("executable_code", [p.executableCode.value.0, p.executableCode.value.1]));
    } else if p.codeResult.Some? {
      NotedFresh(n, Custom("code_execution_result", [p.codeResult.value.0, p.codeResult.value.1]));
    } else {
      NotedFresh(n, StateSnapshot);
    }
  }

  lemma ProgressFresh(config: Config, n: Narrative, id: ID, fragment: string)
    ensures Fresh(n, ProgressNoted(config, n, id, fragment))
  {
  }

  lemma {:induction false} FragmentsFresh(config: Config, n: Narrative, id: ID, fragments: seq<string>)
    ensures Fresh(n, FragmentsNoted(config, n, id, fragments))
  {
    if fragments != [] {
      var m := FragmentsNoted(config, n, id, fragments[..|fragments| - 1]);
      FragmentsFresh(config, n, id, fragments[..|fragments| - 1]);
      ProgressFresh(config, m, id, fragments[|fragments| - 1]);
      FreshTransitive(n, m, ProgressNoted(config, m, id, fragments[|fragments| - 1]));
    }
  }

  lemma AnnouncedFresh(config: Config, n: Narrative, id: ID, name: string)
    ensures Fresh(n, Announced(config, n, id, name))
  {
  }

  lemma ProposalFresh(config: Config, n: Narrative, fc: FunctionCall, partial: bool, id: ID)
    ensures Fresh(n, ProposalNoted(config, n, fc, partial, id))
  {
    if partial {
      var m := if id in n.started then n else Announced(config, n, id, fc.name);
      AnnouncedFresh(config, n, id, fc.name);
      FragmentsFresh(config, m, id, fc.fragments);
      FreshTransitive(n, m, FragmentsNoted(config, m, id, fc.fragments));
    }
  }

  lemma IdentifiedFresh(config: Config, n: Narrative, fc: FunctionCall, partial: bool, id: ID)
    ensures Fresh(n, IdentifiedNoted(config, n, fc, partial, id))
  {
    var r := Recorded(n, fc.id, fc.name, id, fc.args);
    if !config.ServerSide(fc.name) && config.Proposed(fc, partial) {
      ProposalFresh(config, r, fc, partial, id);
      FreshTransitive(n, r, ProposalNoted(config, r, fc, partial, id));
    }
  }

  lemma CallFresh(config: Config, n: Narrative, fc: FunctionCall, partial: bool)
    ensures Fresh(n, CallNoted(config, n, fc, partial))
  {
    if !config.Suppressed(fc, partial) {
      var id := if fc.id != "" then Given(fc.id) else Generated(n.serial);
      var m := if fc.id != "" then n else Drawn(n);
      IdentifiedFresh(config, m, fc, partial, id);
      FreshTransitive(n, m, IdentifiedNoted(config, m, fc, partial, id));
    }
  }

  lemma ResponseFresh(n: Narrative, id: string, name: string, content: string)
    ensures Fresh(n, ResponseNoted(n, id, name, content))
  {
  }

  lemma BuiltinIdentifiedFresh(config: Config, n: Narrative, tc: BuiltinCall, id: ID)
    ensures Fresh(n, BuiltinIdentified(config, n, tc, id))
  {
  }

  lemma BuiltinFresh(config: Config, n: Narrative, tc: BuiltinCall)
    ensures Fresh(n, BuiltinNoted(config, n, tc))
  {
    var m, id := if tc.id != "" then n else Drawn(n), if tc.id != "" then Given(tc.id) else Generated(n.serial);
    BuiltinIdentifiedFresh(config, m, tc, id);
    FreshTransitive(n, m, BuiltinIdentified(config, m, tc, id));
  }

  lemma PartFresh(config: Config, n: Narrative, p: Option<Part>, partial: bool, author: string)
    ensures Fresh(n, OptionalNoted(config, n, p, partial, author))
  {
    if p.Some? && p.value.ToolPart() && !p.value.Reasoning() {
      var q, m := p.value, Silenced(n);
      if q.functionCall.Some? {
        CallFresh(config, m, q.functionCall.value, partial);
      } else if q.functionResponse.Some? {
        ResponseFresh(m, q.functionResponse.value.id, q.functionResponse.value.name, q.functionResponse.value.content);
      } else if q.toolCall.Some? {
        BuiltinFresh(config, m, q.toolCall.value);
      } else {
        ResponseFresh(m, q.toolResponse.value.id, q.toolResponse.value.toolType, q.toolResponse.value.content);
      }
      FreshTransitive(n, m, ToolPartNoted(config, m, q, partial));
    } else if p.Some? {
      SpeechFresh(config, n, p.value, partial, author);
    }
  }

  lemma {:induction false} PartsFresh(config: Config, n: Narrative, parts: seq<Option<Part>>, partial: bool, author: string)
    ensures Fresh(n, PartsNoted(config, n, parts, partial, author))
  {
    if parts != [] {
      var m := PartsNoted(config, n, parts[..|parts| - 1], partial, author);
      PartsFresh(config, n, parts[..|parts| - 1], partial, author);
      PartFresh(config, m, parts[|parts| - 1], partial, author);
      FreshTransitive(n, m, OptionalNoted(config, m, parts[|parts| - 1], partial, author));
    }
  }

  lemma MetadataFresh(n: Narrative, ev: AdkEvent)
    ensures Fresh(n, MetadataNoted(n, ev))
  {
  }

  lemma AllPartsFresh(config: Config, n: Narrative, ev: AdkEvent)
    ensures Fresh(n, AllPartsNoted(config, n, ev))
  {
    NotedFresh(n, StateSnapshot);
    if ev.parts != [] {
      var m := MetadataNoted(n, ev);
      MetadataFresh(n, ev);
      PartsFresh(config, m, ev.parts, ev.partial, ev.author);
      FreshTransitive(n, m, PartsNoted(config, m, ev.parts, ev.partial, ev.author));
    }
  }

  lemma FailureFresh(n: Narrative, ev: AdkEvent)
    requires n.agent.Some?
    ensures Fresh(n, AgentLeft(NotedAbove(Silenced(n), SubagentError(n.agent.value, SubagentFailure(ev.errorCode, ev.errorMessage), ev.errorCode))))
  {
  }

  lemma ContentFresh(config: Config, n: Narrative, ev: AdkEvent)
    ensures Fresh(n, ContentNoted(config, n, ev))
  {
    if ev.Failed() && n.agent.Some? {
      FailureFresh(n, ev);
    } else {
      var m := FailureNoted(n, ev);
      NotedFresh(n, Custom("model_error", [ev.errorCode, ev.errorMessage]));
      AllPartsFresh(config, m, ev);
      FreshTransitive(n, m, AllPartsNoted(config, m, ev));
    }
  }

  lemma AuthorFresh(config: Config, n: Narrative, author: string)
    ensures Fresh(n, AuthorNoted(config, n, author))
  {
  }

  lemma HeaderFresh(config: Config, n: Narrative, ev: AdkEvent)
    ensures Fresh(n, HeaderNoted(config, n, ev))
  {
    var m := AuthorNoted(config, n, ev.author);
    AuthorFresh(config, n, ev.author);
    NotedFresh(m, StateDelta(Replacements(ev.stateDelta)));
    FreshTransitive(n, m, HeaderNoted(config, n, ev));
  }

  /** Over any events, no two messages, activities or sub-agents get the same identifier, nor
      one that was given before. */
  lemma {:induction false} DrawnOnce(config: Config, n: Narrative, evs: seq<AdkEvent>)
    ensures Fresh(n, EventsNoted(config, n, evs))
  {
    if evs == [] {
      NotedFresh(n, StateSnapshot);
    } else {
      var m, ev := EventsNoted(config, n, evs[..|evs| - 1]), evs[|evs| - 1];
      DrawnOnce(config, n, evs[..|evs| - 1]);
      var k := HeaderNoted(config, m, ev);
      HeaderFresh(config, m, ev);
      ContentFresh(config, k, ev);
      FreshTransitive(n, m, k);
      FreshTransitive(n, k, ContentNoted(config, k, ev));
    }
  }

  // ----- Results come after their calls -----

  /** The calls announced. */
  function Announcements(remarks: seq<Emitted>): set<ID> {
    if remarks == [] then {}
    else
      var e := remarks[|remarks| - 1].event;
      Announcements(remarks[..|remarks| - 1]) + if e.ToolCallStart? then {e.id} else {}
  }

  /** A result that answers a call, rather than refusing it. */
  predicate Answers(e: Event) { e.ToolCallResult? && e.messageID.ResultOf? }

  /** Every answer is to a call announced before it. */
  predicate Answered(remarks: seq<Emitted>) {
    remarks == [] ||
    var before, e := remarks[..|remarks| - 1], remarks[|remarks| - 1].event;
    Answered(before) && (Answers(e) ==> e.messageID.call in Announcements(before))
  }

  lemma {:induction false} AnsweredMeans(remarks: seq<Emitted>, j: nat)
    requires Answered(remarks) && j < |remarks| && Answers(remarks[j].event)
    ensures exists i :: 0 <= i < j && remarks[i].event.ToolCallStart? && remarks[i].event.id == remarks[j].event.messageID.call
  {
    var before := remarks[..|remarks| - 1];
    if j < |before| {
      AnsweredMeans(before, j);
      var i :| 0 <= i < j && before[i].event.ToolCallStart? && before[i].event.id == before[j].event.messageID.call;
      assert remarks[i] == before[i];
    } else {
      AnnouncedSomewhere(before, remarks[j].event.messageID.call);
      var i :| 0 <= i < j && before[i].event.ToolCallStart? && before[i].event.id == remarks[j].event.messageID.call;
      assert remarks[i] == before[i];
    }
  }

  lemma {:induction false} AnnouncedSomewhere(remarks: seq<Emitted>, id: ID)
    requires id in Announcements(remarks)
    ensures exists i :: 0 <= i < |remarks| && remarks[i].event.ToolCallStart? && remarks[i].event.id == id
  {
    var before, last := remarks[..|remarks| - 1], remarks[|remarks| - 1].event;
    if !last.ToolCallStart? || last.id != id {
      AnnouncedSomewhere(before, id);
      var i :| 0 <= i < |before| && before[i].event.ToolCallStart? && before[i].event.id == id;
      assert remarks[i] == before[i];
    }
  }

  lemma OneMoreRemark(remarks: seq<Emitted>, m: Emitted)
    ensures Announcements(remarks + [m]) == Announcements(remarks) + if m.event.ToolCallStart? then {m.event.id} else {}
    ensures Answered(remarks + [m]) <==>
      Answered(remarks) && (Answers(m.event) ==> m.event.messageID.call in Announcements(remarks))
  {
    assert (remarks + [m])[..|remarks|] == remarks;
  }

  /** Every call that can be answered or go on streaming has been announced. */
  ghost predicate Sound(n: Narrative) {
    && Answered(n.remarks) && n.started <= Announcements(n.remarks)
    && forall k :: k in n.known ==> n.known[k] in Announcements(n.remarks)
  }

  /** A remark that neither announces nor answers a call. */
  predicate Aside(e: Event) { !e.ToolCallStart? && !Answers(e) }

  lemma AsideSound(n: Narrative, e: Event)
    requires Sound(n) && Aside(e)
    ensures Sound(Noted(n, e)) && Sound(NotedAbove(n, e))
    ensures Announcements(Noted(n, e).remarks) == Announcements(n.remarks)
  {
    OneMoreRemark(n.remarks, Emitted(n.agent, e));
    OneMoreRemark(n.remarks, Emitted(None, e));
  }

  lemma SameSound(n: Narrative, m: Narrative)
    requires Sound(n) && n.remarks == m.remarks && n.started == m.started && n.known == m.known
    ensures Sound(m)
  {
  }

  lemma ThoughtSound(n: Narrative, signature: string, partial: bool)
    requires Sound(n)
    ensures Sound(ThoughtNoted(n, signature, partial))
  {
    var m := ThoughtBegun(n.(speaking := false));
    var k := SignatureNoted(m, signature);
    SameSound(n, m);
    if signature != "" && m.thinking.Some? {
      AsideSound(m, ReasoningEncrypted(m.thinking.value, signature));
    }
    SameSound(k, ThoughtNoted(n, signature, partial));
  }

  lemma TextSound(config: Config, n: Narrative, partial: bool, author: string)
    requires Sound(n)
    ensures Sound(TextNoted(config, n, partial, author))
  {
    var m := Drawn(n.(thinking := None)).(speaking := true);
    AsideSound(m, TextStart(Generated(n.serial), Some("assistant"), if config.RootAuthor(author) then "" else author));
  }

  lemma SpeechSound(config: Config, n: Narrative, p: Part, partial: bool, author: string)
    requires Sound(n)
    ensures Sound(SpeechNoted(config, n, p, partial, author))
  {
    if p.Reasoning() {
      ThoughtSound(n, p.signature, partial);
    } else if p.text != "" || p.fileData.Some? || p.inlineData.Some? {
      TextSound(config, n, partial, author);
    } else if p.executableCode.Some? {
      AsideSound(n, Custom("executable_code", [p.executableCode.value.0, p.executableCode.value.1]));
    } else if p.codeResult.Some? {
      AsideSound(n, Custom("code_execution_result", [p.codeResult.value.0, p.codeResult.value.1]));
    }
  }

  lemma ProgressSound(config: Config, n: Narrative, id: ID, name: string)
    requires Sound(n)
    ensures Sound(ProgressBegun(config, n, id, name))
    ensures Announcements(ProgressBegun(config, n, id, name).remarks) == Announcements(n.remarks)
  {
    var activity := Generated(n.serial);
    AsideSound(Drawn(n).(activities := n.activities[id := activity]), ActivitySnapshot(activity, "tool_use", "Running " + name + "..."));
  }

  lemma {:induction false} FragmentsSound(config: Config, n: Narrative, id: ID, fragments: seq<string>)
    requires Sound(n)
    ensures Sound(FragmentsNoted(config, n, id, fragments))
  {
    if fragments != [] {
      var m, last := FragmentsNoted(config, n, id, fragments[..|fragments| - 1]), fragments[|fragments| - 1];
      FragmentsSound(config, n, id, fragments[..|fragments| - 1]);
      if config.emitActivityDeltas && id in m.activities {
        AsideSound(m, ActivityDelta(m.activities[id], "tool_use", last));
      }
    }
  }

  /** The new call is announced, if it was not before. */
  lemma StartSound(n: Narrative, id: ID, name: string)
    requires Sound(n)
    ensures Sound(Noted(n, ToolCallStart(id, name, None))) && id in Announcements(Noted(n, ToolCallStart(id, name, None)).remarks)
  {
    OneMoreRemark(n.remarks, Emitted(n.agent, ToolCallStart(id, name, None)));
  }

  /** A proposal may be recorded before it is announced. */
  lemma ProposalSound(config: Config, n: Narrative, fc: FunctionCall, partial: bool, id: ID)
    requires Sound(n)
    ensures Sound(ProposalNoted(config, Recorded(n, fc.id, fc.name, id, fc.args), fc, partial, id))
  {
    var r := Recorded(n, fc.id, fc.name, id, fc.args);
    if id in n.started {
      FragmentsSound(config, r, id, fc.fragments);
    } else {
      StartSound(n, id, fc.name);
      var m := Noted(r, ToolCallStart(id, fc.name, None));
      assert Sound(m);
      if partial {
        ProgressSound(config, m.(started := n.started + {id}), id, fc.name);
        FragmentsSound(config, Announced(config, r, id, fc.name), id, fc.fragments);
      }
    }
  }

  lemma CallSound(config: Config, n: Narrative, fc: FunctionCall, partial: bool)
    requires Sound(n) && config.clientTools.None?
    ensures Sound(CallNoted(config, n, fc, partial))
  {
    if config.Suppressed(fc, partial) {
      var ops := config.mapper.value(fc.name, fc.args).ops;
      if !partial && ops.Some? {
        AsideSound(n, StateDelta(ops.value));
      }
    } else {
      var m := if fc.id != "" then n else Drawn(n);
      var id := if fc.id != "" then Given(fc.id) else Generated(n.serial);
      if config.Proposed(fc, partial) {
        ProposalSound(config, m, fc, partial, id);
      } else {
        AsideSound(Drawn(m), ToolCallResult(Generated(m.serial), id, MalformedCall(fc)));
      }
    }
  }

  lemma ResultSound(n: Narrative, call: ID, content: string)
    requires Sound(n) && call in Announcements(n.remarks)
    ensures Sound(ResultNoted(n, call, content))
  {
    var m := if call in n.details then ToolUseNoted(n, n.details[call].name, n.details[call].args) else n;
    if call in n.details {
      var args := n.details[call].args;
      AsideSound(Drawn(n), ActivitySnapshot(Generated(n.serial), "tool_use",
        "Running " + n.details[call].name + "(" + (if args.Json? then args.text else "{}") + ")"));
    }
    OneMoreRemark(m.remarks, Emitted(m.agent, ToolCallResult(ResultOf(call), call, content)));
  }

  lemma BuiltinSound(config: Config, n: Narrative, tc: BuiltinCall)
    requires Sound(n) && config.clientTools.None?
    ensures Sound(BuiltinNoted(config, n, tc))
  {
    StartSound(if tc.id != "" then n else Drawn(n), if tc.id != "" then Given(tc.id) else Generated(n.serial), BuiltinName(tc));
  }

  lemma ToolPartSound(config: Config, n: Narrative, p: Part, partial: bool)
    requires Sound(n) && config.clientTools.None? && p.ToolPart()
    ensures Sound(ToolPartNoted(config, n, p, partial))
  {
    if p.functionCall.Some? {
      CallSound(config, n, p.functionCall.value, partial);
    } else if p.functionResponse.Some? {
      ResponseSound(n, p.functionResponse.value.id, p.functionResponse.value.name, p.functionResponse.value.content);
    } else if p.toolCall.Some? {
      BuiltinSound(config, n, p.toolCall.value);
    } else {
      ResponseSound(n, p.toolResponse.value.id, p.toolResponse.value.toolType, p.toolResponse.value.content);
    }
  }

  lemma ResponseSound(n: Narrative, id: string, name: string, content: string)
    requires Sound(n)
    ensures Sound(ResponseNoted(n, id, name, content))
  {
    if id in n.known {
      ResultSound(n, n.known[id], content);
    } else if name in n.known {
      ResultSound(n, n.known[name], content);
    }
  }

  lemma {:induction false} PartsSound(config: Config, n: Narrative, parts: seq<Option<Part>>, partial: bool, author: string)
    requires Sound(n) && config.clientTools.None?
    ensures Sound(PartsNoted(config, n, parts, partial, author))
  {
    if parts != [] {
      var m, last := PartsNoted(config, n, parts[..|parts| - 1], partial, author), parts[|parts| - 1];
      PartsSound(config, n, parts[..|parts| - 1], partial, author);
      if last.Some? && last.value.ToolPart() && !last.value.Reasoning() {
        ToolPartSound(config, Silenced(m), last.value, partial);
      } else if last.Some? {
        SpeechSound(config, m, last.value, partial, author);
      }
    }
  }

  lemma HeaderSound(config: Config, n: Narrative, ev: AdkEvent)
    requires Sound(n)
    ensures Sound(HeaderNoted(config, n, ev))
  {
    var m, run := AuthorNoted(config, n, ev.author), Generated(n.serial);
    SameSound(n, Drawn(n));
    AsideSound(Drawn(n), SubagentStarted(run, ev.author));
    SameSound(if config.RootAuthor(ev.author) || ev.author == n.author then n else NotedAbove(Drawn(n), SubagentStarted(run, ev.author)), m);
    AsideSound(m, StateDelta(Replacements(ev.stateDelta)));
  }

  lemma MetadataSound(n: Narrative, ev: AdkEvent)
    requires Sound(n)
    ensures Sound(MetadataNoted(n, ev))
  {
    var m := if ev.citations.Some? then Noted(n, Custom("citation_metadata", [ev.citations.value])) else n;
    if ev.citations.Some? {
      AsideSound(n, Custom("citation_metadata", [ev.citations.value]));
    }
    if ev.grounding.Some? {
      AsideSound(m, Custom("grounding_metadata", [ev.grounding.value]));
    }
  }

  lemma ContentSound(config: Config, n: Narrative, ev: AdkEvent)
    requires Sound(n) && config.clientTools.None?
    ensures Sound(ContentNoted(config, n, ev))
  {
    if ev.Failed() && n.agent.Some? {
      AsideSound(Silenced(n), SubagentError(n.agent.value, SubagentFailure(ev.errorCode, ev.errorMessage), ev.errorCode));
    } else {
      AsideSound(n, Custom("model_error", [ev.errorCode, ev.errorMessage]));
      var m := FailureNoted(n, ev);
      MetadataSound(m, ev);
      PartsSound(config, MetadataNoted(m, ev), ev.parts, ev.partial, ev.author);
    }
  }

  lemma {:induction false} EventsSound(config: Config, n: Narrative, evs: seq<AdkEvent>)
    requires Sound(n) && config.clientTools.None?
    ensures Sound(EventsNoted(config, n, evs))
  {
    if evs != [] {
      var m, ev := EventsNoted(config, n, evs[..|evs| - 1]), evs[|evs| - 1];
      EventsSound(config, n, evs[..|evs| - 1]);
      HeaderSound(config, m, ev);
      ContentSound(config, HeaderNoted(config, m, ev), ev);
    }
  }

  /** Nothing but remarks announces or answers calls. */
  lemma {:induction false} RemarksAnswered(trace: seq<Emitted>)
    ensures Announcements(Remarks(trace)) == Announcements(trace) && (Answered(Remarks(trace)) <==> Answered(trace))
  {
    if trace != [] {
      var before, last := trace[..|trace| - 1], trace[|trace| - 1];
      RemarksAnswered(before);
      OneMoreRemark(Remarks(before), last);
    }
  }
}
