/** Why something is said: every remark of a translated event is justified by that event. */
module Grounds {
  import opened Events
  import opened Adk
  import opened Attribution
  import opened Narratives

  /** The event has such a part. */
  predicate HasPart(ev: AdkEvent, p: Part) { Some(p) in ev.parts }

  /** The client has the tool. */
  predicate Shared(config: Config, name: string) { config.clientTools.None? || name in config.clientTools.value }

  /** The call is replaced by state operations, or may yet be. */
  predicate Replaced(config: Config, fc: FunctionCall, partial: bool) {
    config.suppressTools && config.mapper.Some? && (partial || config.mapper.value(fc.name, fc.args).suppress)
  }

  predicate Malformed(fc: FunctionCall) { fc.name == "" || fc.args.Unmarshallable? }

  predicate Announces(config: Config, p: Part, partial: bool, id: ID, name: string) {
    || (p.functionCall.Some? && var fc := p.functionCall.value;
        && name == fc.name && Shared(config, name) && !Replaced(config, fc, partial) && (partial || !Malformed(fc))
        && (if fc.id != "" then id == Given(fc.id) else id.Generated?))
    || (p.toolCall.Some? && var tc := p.toolCall.value;
        && name == (if tc.toolType == "" then "builtin_tool" else tc.toolType) && Shared(config, name)
        && (if tc.id != "" then id == Given(tc.id) else id.Generated?))
  }

  predicate Answers(config: Config, p: Part, partial: bool, message: ID, id: ID, content: string) {
    || (p.functionResponse.Some? && message == ResultOf(id) && content == p.functionResponse.value.content)
    || (p.toolResponse.Some? && message == ResultOf(id) && content == p.toolResponse.value.content)
    || (p.functionCall.Some? && message.Generated? && var fc := p.functionCall.value;
        && !partial && Shared(config, fc.name) && (fc.id != "" ==> id == Given(fc.id))
        && if fc.name == "" then content == "{\"error\":\"tool call had an empty function name\"}"
           else fc.args.Unmarshallable? && content == "{\"error\":\"tool arguments for \"" + fc.name + "\" were not valid JSON\"}")
  }

  /** The call is replaced by state operations. */
  predicate MapsTo(config: Config, p: Part, ops: set<(string, string)>) {
    && p.functionCall.Some? && config.suppressTools && config.mapper.Some?
    && config.mapper.value(p.functionCall.value.name, p.functionCall.value.args) == Mapped(Some(ops), true)
  }

  /** The remark says what the event calls for. */
  ghost predicate Grounded(config: Config, ev: AdkEvent, e: Event) {
    match e
    case TextStart(id, role, name) => id.Generated? && role == Some("assistant") && name == if FromRoot(config, ev.author) then "" else ev.author
    case ReasoningEncrypted(_, signature) => exists p :: HasPart(ev, p) && p.thought && p.text != "" && signature == p.signature != ""
    case ToolCallStart(id, name, parent) => parent.None? && exists p :: HasPart(ev, p) && Announces(config, p, ev.partial, id, name)
    case ToolCallResult(message, id, content) => exists p :: HasPart(ev, p) && Answers(config, p, ev.partial, message, id, content)
    case StateDelta(ops) =>
      ops == (set k | k in ev.stateDelta :: ("/" + k, ev.stateDelta[k])) || exists p :: HasPart(ev, p) && MapsTo(config, p, ops)
    case Custom(name, details) =>
      || (name == "model_error" && details == [ev.errorCode, ev.errorMessage] && ev.Failed())
      || (name == "citation_metadata" && ev.citations.Some? && details == [ev.citations.value])
      || (name == "grounding_metadata" && ev.grounding.Some? && details == [ev.grounding.value])
      || (name == "executable_code" && exists p :: HasPart(ev, p) && p.executableCode.Some? && details == [p.executableCode.value.0, p.executableCode.value.1])
      || (name == "code_execution_result" && exists p :: HasPart(ev, p) && p.codeResult.Some? && details == [p.codeResult.value.0, p.codeResult.value.1])
    case SubagentStarted(id, name) => id.Generated? && name == ev.author && !FromRoot(config, name)
    case SubagentError(_, message, code) =>
      ev.Failed() && code == ev.errorCode && message == if ev.errorMessage == "" then "model error (code: " + ev.errorCode + ")" else ev.errorMessage
    case ActivitySnapshot(id, activity, _) => id.Generated? && activity == "tool_use" && exists p :: HasPart(ev, p) && p.ToolPart()
    case ActivityDelta(_, activity, text) =>
      activity == "tool_use" && exists p :: HasPart(ev, p) && p.functionCall.Some? && text in p.functionCall.value.fragments
    case _ => false
  }

  /** Everything said from one narrative to the next is justified. */
  ghost predicate AllGrounded(config: Config, ev: AdkEvent, n: Narrative, m: Narrative) {
    && n.remarks <= m.remarks
    && forall i :: |n.remarks| <= i < |m.remarks| ==> Grounded(config, ev, m.remarks[i].event)
  }

  lemma GroundedTransitive(config: Config, ev: AdkEvent, a: Narrative, b: Narrative, c: Narrative)
    requires AllGrounded(config, ev, a, b) && AllGrounded(config, ev, b, c)
    ensures AllGrounded(config, ev, a, c)
  {
    assert forall i :: 0 <= i < |b.remarks| ==> b.remarks[i] == c.remarks[i];
  }

  lemma NothingSaid(config: Config, ev: AdkEvent, n: Narrative, m: Narrative)
    requires m.remarks == n.remarks
    ensures AllGrounded(config, ev, n, m)
  {
  }

  lemma OneSaid(config: Config, ev: AdkEvent, n: Narrative, m: Narrative, said: Emitted)
    requires m.remarks == n.remarks + [said] && Grounded(config, ev, said.event)
    ensures AllGrounded(config, ev, n, m)
  {
  }

  lemma TextGrounded(config: Config, ev: AdkEvent, n: Narrative)
    ensures AllGrounded(config, ev, n, TextNoted(config, n, ev.partial, ev.author))
  {
  }

  lemma ThoughtGrounded(config: Config, ev: AdkEvent, n: Narrative, p: Part)
    requires HasPart(ev, p) && p.Reasoning()
    ensures AllGrounded(config, ev, n, ThoughtNoted(n, p.signature, ev.partial))
  {
  }

  lemma SpeechGrounded(config: Config, ev: AdkEvent, n: Narrative, p: Part)
    requires HasPart(ev, p)
    ensures AllGrounded(config, ev, n, SpeechNoted(config, n, p, ev.partial, ev.author))
  {
    var m := SpeechNoted(config, n, p, ev.partial, ev.author);
    if p.Reasoning() {
      ThoughtGrounded(config, ev, n, p);
    } else if p.text != "" || p.fileData.Some? || p.inlineData.Some? {
      TextGrounded(config, ev, n);
    } else if p.executableCode.Some? {
      OneSaid(config, ev, n, m, Emitted(n.agent, Custom("executable_code", [p.executableCode.value.0, p.executableCode.value.1])));
    } else if p.codeResult.Some? {
      OneSaid(config, ev, n, m, Emitted(n.agent, Custom("code_execution_result", [p.codeResult.value.0, p.codeResult.value.1])));
    } else {
      NothingSaid(config, ev, n, m);
    }
  }

  lemma ToolUseGrounded(config: Config, ev: AdkEvent, n: Narrative, p: Part, name: string, args: Args)
    requires HasPart(ev, p) && p.ToolPart()
    ensures AllGrounded(config, ev, n, ToolUseNoted(n, name, args))
  {
  }

  lemma AnnouncedGrounded(config: Config, ev: AdkEvent, n: Narrative, p: Part, id: ID, name: string)
    requires HasPart(ev, p) && Announces(config, p, ev.partial, id, name)
    ensures AllGrounded(config, ev, n, Noted(n, ToolCallStart(id, name, None)))
    ensures AllGrounded(config, ev, n, Announced(config, n, id, name))
  {
    var m := Noted(n, ToolCallStart(id, name, None));
    OneSaid(config, ev, n, m, Emitted(n.agent, ToolCallStart(id, name, None)));
    var k := m.(started := n.started + {id});
    if config.emitActivityDeltas {
      OneSaid(config, ev, k, ProgressBegun(config, k, id, name), Emitted(n.agent, ActivitySnapshot(Generated(n.serial), "tool_use", "Running " + name + "...")));
    } else {
      NothingSaid(config, ev, k, ProgressBegun(config, k, id, name));
    }
    GroundedTransitive(config, ev, n, k, ProgressBegun(config, k, id, name));
  }

  lemma {:induction false} FragmentsGrounded(config: Config, ev: AdkEvent, n: Narrative, p: Part, id: ID, count: nat)
    requires HasPart(ev, p) && p.functionCall.Some? && count <= |p.functionCall.value.fragments|
    ensures AllGrounded(config, ev, n, FragmentsNoted(config, n, id, p.functionCall.value.fragments[..count]))
  {
    var fragments := p.functionCall.value.fragments;
    if count == 0 {
      NothingSaid(config, ev, n, FragmentsNoted(config, n, id, fragments[..0]));
    } else {
      var m, last := FragmentsNoted(config, n, id, fragments[..count - 1]), fragments[count - 1];
      FragmentsGrounded(config, ev, n, p, id, count - 1);
      assert fragments[..count][..count - 1] == fragments[..count - 1] && last in fragments;
      var k := if last == "" then m else ProgressNoted(config, m, id, last);
      if k != m {
        OneSaid(config, ev, m, k, Emitted(m.agent, ActivityDelta(m.activities[id], "tool_use", last)));
      } else {
        NothingSaid(config, ev, m, k);
      }
      GroundedTransitive(config, ev, n, m, k);
    }
  }

  lemma ProposalGrounded(config: Config, ev: AdkEvent, n: Narrative, p: Part, id: ID)
    requires HasPart(ev, p) && p.functionCall.Some? && Announces(config, p, ev.partial, id, p.functionCall.value.name)
    ensures AllGrounded(config, ev, n, ProposalNoted(config, n, p.functionCall.value, ev.partial, id))
  {
    var fc := p.functionCall.value;
    AnnouncedGrounded(config, ev, n, p, id, fc.name);
    NothingSaid(config, ev, n, n);
    if ev.partial {
      var m := if id in n.started then n else Announced(config, n, id, fc.name);
      FragmentsGrounded(config, ev, m, p, id, |fc.fragments|);
      assert fc.fragments[..|fc.fragments|] == fc.fragments;
      GroundedTransitive(config, ev, n, m, FragmentsNoted(config, m, id, fc.fragments));
    }
  }

  lemma RejectionGrounded(config: Config, ev: AdkEvent, n: Narrative, p: Part, id: ID)
    requires HasPart(ev, p) && p.functionCall.Some? && !config.Suppressed(p.functionCall.value, ev.partial)
    requires !config.ServerSide(p.functionCall.value.name) && !config.Proposed(p.functionCall.value, ev.partial)
    requires if p.functionCall.value.id != "" then id == Given(p.functionCall.value.id) else id.Generated?
    ensures
      var result := ToolCallResult(Generated(n.serial), id, MalformedCall(p.functionCall.value));
      AllGrounded(config, ev, n, Noted(Drawn(n), result))
  {
    var fc := p.functionCall.value;
    assert Answers(config, p, ev.partial, Generated(n.serial), id, MalformedCall(fc));
    OneSaid(config, ev, n, Noted(Drawn(n), ToolCallResult(Generated(n.serial), id, MalformedCall(fc))),
            Emitted(n.agent, ToolCallResult(Generated(n.serial), id, MalformedCall(fc))));
  }

  lemma IdentifiedGrounded(config: Config, ev: AdkEvent, n: Narrative, p: Part, id: ID)
    requires HasPart(ev, p) && p.functionCall.Some? && !config.Suppressed(p.functionCall.value, ev.partial)
    requires if p.functionCall.value.id != "" then id == Given(p.functionCall.value.id) else id.Generated?
    ensures AllGrounded(config, ev, n, IdentifiedNoted(config, n, p.functionCall.value, ev.partial, id))
  {
    var fc := p.functionCall.value;
    var r := Recorded(n, fc.id, fc.name, id, fc.args);
    NothingSaid(config, ev, n, r);
    if config.ServerSide(fc.name) {
      ToolUseGrounded(config, ev, r, p, fc.name, fc.args);
    } else if !config.Proposed(fc, ev.partial) {
      RejectionGrounded(config, ev, n, p, id);
    } else {
      ProposalGrounded(config, ev, r, p, id);
      GroundedTransitive(config, ev, n, r, ProposalNoted(config, r, fc, ev.partial, id));
    }
  }

  lemma CallGrounded(config: Config, ev: AdkEvent, n: Narrative, p: Part)
    requires HasPart(ev, p) && p.functionCall.Some?
    ensures AllGrounded(config, ev, n, CallNoted(config, n, p.functionCall.value, ev.partial))
  {
    var fc := p.functionCall.value;
    if config.Suppressed(fc, ev.partial) {
      var ops := config.mapper.value(fc.name, fc.args).ops;
      NothingSaid(config, ev, n, n);
      if !ev.partial && ops.Some? {
        assert MapsTo(config, p, ops.value);
        OneSaid(config, ev, n, Noted(n, StateDelta(ops.value)), Emitted(n.agent, StateDelta(ops.value)));
      }
    } else if fc.id != "" {
      IdentifiedGrounded(config, ev, n, p, Given(fc.id));
    } else {
      NothingSaid(config, ev, n, Drawn(n));
      IdentifiedGrounded(config, ev, Drawn(n), p, Generated(n.serial));
    }
  }

  lemma ResultGrounded(config: Config, ev: AdkEvent, n: Narrative, p: Part, call: ID, content: string)
    requires HasPart(ev, p) && p.ToolPart() && Answers(config, p, ev.partial, ResultOf(call), call, content)
    ensures AllGrounded(config, ev, n, ResultNoted(n, call, content))
  {
    var m := if call in n.details then ToolUseNoted(n, n.details[call].name, n.details[call].args) else n;
    NothingSaid(config, ev, n, n);
    if call in n.details {
      ToolUseGrounded(config, ev, n, p, n.details[call].name, n.details[call].args);
    }
    OneSaid(config, ev, m, ResultNoted(n, call, content), Emitted(m.agent, ToolCallResult(ResultOf(call), call, content)));
    GroundedTransitive(config, ev, n, m, ResultNoted(n, call, content));
  }

  lemma ResponseGrounded(config: Config, ev: AdkEvent, n: Narrative, p: Part, id: string, name: string, content: string)
    requires HasPart(ev, p) && p.ToolPart() && forall call :: Answers(config, p, ev.partial, ResultOf(call), call, content)
    ensures AllGrounded(config, ev, n, ResponseNoted(n, id, name, content))
  {
    NothingSaid(config, ev, n, n);
    if id in n.known {
      ResultGrounded(config, ev, n, p, n.known[id], content);
    } else if name in n.known {
      ResultGrounded(config, ev, n, p, n.known[name], content);
    }
  }

  lemma BuiltinGrounded(config: Config, ev: AdkEvent, n: Narrative, p: Part)
    requires HasPart(ev, p) && p.toolCall.Some?
    ensures AllGrounded(config, ev, n, BuiltinNoted(config, n, p.toolCall.value))
  {
    var tc := p.toolCall.value;
    var d, id := if tc.id != "" then n else Drawn(n), if tc.id != "" then Given(tc.id) else Generated(n.serial);
    var r := Recorded(d, tc.id, BuiltinName(tc), id, tc.args);
    NothingSaid(config, ev, n, r);
    if config.ServerSide(BuiltinName(tc)) {
      ToolUseGrounded(config, ev, r, p, BuiltinName(tc), tc.args);
    } else {
      AnnouncedGrounded(config, ev, r, p, id, BuiltinName(tc));
    }
    GroundedTransitive(config, ev, n, r, BuiltinNoted(config, n, tc));
  }

  lemma ToolPartGrounded(config: Config, ev: AdkEvent, n: Narrative, p: Part)
    requires HasPart(ev, p) && p.ToolPart()
    ensures AllGrounded(config, ev, n, ToolPartNoted(config, n, p, ev.partial))
  {
    if p.functionCall.Some? {
      CallGrounded(config, ev, n, p);
    } else if p.functionResponse.Some? {
      var fr := p.functionResponse.value;
      ResponseGrounded(config, ev, n, p, fr.id, fr.name, fr.content);
    } else if p.toolCall.Some? {
      BuiltinGrounded(config, ev, n, p);
    } else {
      var tr := p.toolResponse.value;
      ResponseGrounded(config, ev, n, p, tr.id, tr.toolType, tr.content);
    }
  }

  lemma OptionalGrounded(config: Config, ev: AdkEvent, n: Narrative, part: Option<Part>)
    requires part in ev.parts
    ensures AllGrounded(config, ev, n, OptionalNoted(config, n, part, ev.partial, ev.author))
  {
    NothingSaid(config, ev, n, n);
    if part.Some? {
      assert HasPart(ev, part.value);
      if part.value.ToolPart() && !part.value.Reasoning() {
        NothingSaid(config, ev, n, Silenced(n));
        ToolPartGrounded(config, ev, Silenced(n), part.value);
      } else {
        SpeechGrounded(config, ev, n, part.value);
      }
    }
  }

  lemma {:induction false} PartsGrounded(config: Config, ev: AdkEvent, n: Narrative, count: nat)
    requires count <= |ev.parts|
    ensures AllGrounded(config, ev, n, PartsNoted(config, n, ev.parts[..count], ev.partial, ev.author))
  {
    if count == 0 {
      NothingSaid(config, ev, n, PartsNoted(config, n, ev.parts[..0], ev.partial, ev.author));
    } else {
      var m, last := PartsNoted(config, n, ev.parts[..count - 1], ev.partial, ev.author), ev.parts[count - 1];
      PartsGrounded(config, ev, n, count - 1);
      OneMorePart(config, n, ev.parts, count - 1, ev.partial, ev.author);
      OptionalGrounded(config, ev, m, last);
      GroundedTransitive(config, ev, n, m, OptionalNoted(config, m, last, ev.partial, ev.author));
    }
  }

  lemma MetadataGrounded(config: Config, ev: AdkEvent, n: Narrative)
    ensures AllGrounded(config, ev, n, MetadataNoted(n, ev)) && AllGrounded(config, ev, n, FailureNoted(n, ev))
  {
    NothingSaid(config, ev, n, n);
    if ev.Failed() {
      OneSaid(config, ev, n, FailureNoted(n, ev), Emitted(n.agent, Custom("model_error", [ev.errorCode, ev.errorMessage])));
    }
    var m := if ev.citations.Some? then Noted(n, Custom("citation_metadata", [ev.citations.value])) else n;
    if ev.citations.Some? {
      OneSaid(config, ev, n, m, Emitted(n.agent, Custom("citation_metadata", [ev.citations.value])));
    }
    if ev.grounding.Some? {
      OneSaid(config, ev, m, MetadataNoted(n, ev), Emitted(m.agent, Custom("grounding_metadata", [ev.grounding.value])));
      GroundedTransitive(config, ev, n, m, MetadataNoted(n, ev));
    }
  }

  lemma ContentGrounded(config: Config, ev: AdkEvent, n: Narrative)
    ensures AllGrounded(config, ev, n, ContentNoted(config, n, ev))
  {
    if ev.Failed() && n.agent.Some? {
      var error := SubagentError(n.agent.value, SubagentFailure(ev.errorCode, ev.errorMessage), ev.errorCode);
      OneSaid(config, ev, n, ContentNoted(config, n, ev), Emitted(None, error));
    } else {
      var m := FailureNoted(n, ev);
      MetadataGrounded(config, ev, n);
      if ev.parts != [] {
        MetadataGrounded(config, ev, m);
        PartsGrounded(config, ev, MetadataNoted(m, ev), |ev.parts|);
        assert ev.parts[..|ev.parts|] == ev.parts;
        GroundedTransitive(config, ev, n, m, MetadataNoted(m, ev));
        GroundedTransitive(config, ev, n, MetadataNoted(m, ev), ContentNoted(config, n, ev));
      }
    }
  }

  lemma AuthorGrounded(config: Config, ev: AdkEvent, n: Narrative)
    ensures AllGrounded(config, ev, n, AuthorNoted(config, n, ev.author))
  {
    var m := AuthorNoted(config, n, ev.author);
    if !config.RootAuthor(ev.author) && ev.author != n.author {
      OneSaid(config, ev, n, m, Emitted(None, SubagentStarted(Generated(n.serial), ev.author)));
    } else {
      NothingSaid(config, ev, n, m);
    }
  }

  lemma DeltaGrounded(config: Config, ev: AdkEvent, n: Narrative)
    ensures AllGrounded(config, ev, n, DeltaNoted(n, ev.stateDelta))
  {
    if ev.stateDelta != map[] {
      OneSaid(config, ev, n, DeltaNoted(n, ev.stateDelta), Emitted(n.agent, StateDelta(Replacements(ev.stateDelta))));
    } else {
      NothingSaid(config, ev, n, n);
    }
  }

  lemma HeaderGrounded(config: Config, ev: AdkEvent, n: Narrative)
    ensures AllGrounded(config, ev, n, HeaderNoted(config, n, ev))
  {
    var m := AuthorNoted(config, n, ev.author);
    AuthorGrounded(config, ev, n);
    DeltaGrounded(config, ev, m);
    GroundedTransitive(config, ev, n, m, DeltaNoted(m, ev.stateDelta));
  }

  /** Nothing is said that the event does not call for. */
  lemma EventGrounded(config: Config, n: Narrative, ev: AdkEvent)
    ensures AllGrounded(config, ev, n, EventNoted(config, n, ev))
  {
    var h := HeaderNoted(config, n, ev);
    HeaderGrounded(config, ev, n);
    ContentGrounded(config, ev, h);
    GroundedTransitive(config, ev, n, h, ContentNoted(config, h, ev));
  }

  /** So it is for any events: each remark has an event that justifies it. */
  lemma {:induction false} EveryRemarkHasItsEvent(config: Config, n: Narrative, evs: seq<AdkEvent>, i: nat)
    requires |n.remarks| <= i < |EventsNoted(config, n, evs).remarks|
    ensures exists j :: 0 <= j < |evs| && Grounded(config, evs[j], EventsNoted(config, n, evs).remarks[i].event)
    decreases |evs|
  {
    var before, last := evs[..|evs| - 1], |evs| - 1;
    var m := EventsNoted(config, n, before);
    EventGrounded(config, m, evs[last]);
    if i < |m.remarks| {
      EveryRemarkHasItsEvent(config, n, before, i);
      var j :| 0 <= j < |before| && Grounded(config, before[j], m.remarks[i].event);
      assert before[j] == evs[j];
    }
  }

  // ----- What must be said -----

  function Is(said: Event): Event -> bool { (e: Event) => e == said }

  function Signs(signature: string): Event -> bool { (e: Event) => e.ReasoningEncrypted? && e.signature == signature }

  function StartsAgent(name: string): Event -> bool { (e: Event) => e.SubagentStarted? && e.name == name }

  function FailsWith(code: string): Event -> bool { (e: Event) => e.SubagentError? && e.code == code }

  /** Something with the property is said from one narrative to the next. */
  ghost predicate Said(n: Narrative, m: Narrative, f: Event -> bool) {
    n.remarks <= m.remarks && exists i :: |n.remarks| <= i < |m.remarks| && f(m.remarks[i].event)
  }

  lemma SaidEarlier(n: Narrative, m: Narrative, k: Narrative, f: Event -> bool)
    requires Said(n, m, f) && m.remarks <= k.remarks
    ensures Said(n, k, f)
  {
    var i :| |n.remarks| <= i < |m.remarks| && f(m.remarks[i].event);
    assert m.remarks[i] == k.remarks[i];
  }

  lemma SaidLater(n: Narrative, m: Narrative, k: Narrative, f: Event -> bool)
    requires n.remarks <= m.remarks && Said(m, k, f)
    ensures Said(n, k, f)
  {
    var i :| |m.remarks| <= i < |k.remarks| && f(k.remarks[i].event);
  }

  lemma SaidLast(n: Narrative, m: Narrative, e: Emitted, f: Event -> bool)
    requires n.remarks <= m.remarks && |m.remarks| > |n.remarks| && m.remarks[|m.remarks| - 1] == e && f(e.event)
    ensures Said(n, m, f)
  {
  }

  /** The signature of a reasoning part. */
  lemma SignatureSaid(config: Config, ev: AdkEvent, n: Narrative, p: Part)
    requires HasPart(ev, p) && p.Reasoning() && p.signature != ""
    ensures Said(n, PartNoted(config, n, p, ev.partial, ev.author), Signs(p.signature))
  {
    ThoughtGrounded(config, ev, n, p);
    var m := ThoughtBegun(n.(speaking := false));
    SaidLast(n, PartNoted(config, n, p, ev.partial, ev.author), Emitted(n.agent, ReasoningEncrypted(m.thinking.value, p.signature)),
             Signs(p.signature));
  }

  /** Nothing comes before the code of the part. */
  predicate OnlyCode(p: Part) { !p.Reasoning() && !p.ToolPart() && p.text == "" && p.fileData.None? && p.inlineData.None? }

  lemma CodeSaid(config: Config, ev: AdkEvent, n: Narrative, p: Part)
    requires HasPart(ev, p) && OnlyCode(p)
    ensures p.executableCode.Some? ==>
      var custom := Custom("executable_code", [p.executableCode.value.0, p.executableCode.value.1]);
      Said(n, PartNoted(config, n, p, ev.partial, ev.author), Is(custom))
    ensures p.executableCode.None? && p.codeResult.Some? ==>
      var custom := Custom("code_execution_result", [p.codeResult.value.0, p.codeResult.value.1]);
      Said(n, PartNoted(config, n, p, ev.partial, ev.author), Is(custom))
  {
    var m := PartNoted(config, n, p, ev.partial, ev.author);
    if p.executableCode.Some? {
      var custom := Custom("executable_code", [p.executableCode.value.0, p.executableCode.value.1]);
      SaidLast(n, m, Emitted(n.agent, custom), Is(custom));
    } else if p.codeResult.Some? {
      var custom := Custom("code_execution_result", [p.codeResult.value.0, p.codeResult.value.1]);
      SaidLast(n, m, Emitted(n.agent, custom), Is(custom));
    }
  }

  /** What a final call calls for when it is not proposed to the client: the operations it maps
      to, the activity of a tool kept from the client, or the error of a malformed call. */
  predicate CallSays(config: Config, fc: FunctionCall, e: Event) {
    if Replaced(config, fc, false) then
      e.StateDelta? && config.mapper.value(fc.name, fc.args).ops == Some(e.replacements)
    else if !Shared(config, fc.name) then
      e.ActivitySnapshot? && e.text == "Running " + fc.name + "(" + (if fc.args.Json? then fc.args.text else "{}") + ")"
    else e.ToolCallResult? && (fc.id != "" ==> e.id == Given(fc.id)) && e.content == if fc.name == "" then "{\"error\":\"tool call had an empty function name\"}"
           else "{\"error\":\"tool arguments for \"" + fc.name + "\" were not valid JSON\"}"
  }

  function SaysOf(config: Config, fc: FunctionCall): Event -> bool { (e: Event) => CallSays(config, fc, e) }

  predicate CallIsSaid(config: Config, fc: FunctionCall) {
    if Replaced(config, fc, false) then config.mapper.value(fc.name, fc.args).ops.Some? else !Shared(config, fc.name) || Malformed(fc)
  }

  lemma IdentifiedRemark(config: Config, n: Narrative, fc: FunctionCall, id: ID)
    requires !config.Suppressed(fc, false) && CallIsSaid(config, fc) && (fc.id != "" ==> id == Given(fc.id))
    ensures
      var m := IdentifiedNoted(config, n, fc, false, id);
      |m.remarks| == |n.remarks| + 1 && n.remarks <= m.remarks && CallSays(config, fc, m.remarks[|n.remarks|].event)
  {
  }

  lemma RemarkAdded(config: Config, n: Narrative, fc: FunctionCall)
    requires CallIsSaid(config, fc)
    ensures
      var m := CallNoted(config, n, fc, false);
      |m.remarks| == |n.remarks| + 1 && n.remarks <= m.remarks && CallSays(config, fc, m.remarks[|n.remarks|].event)
  {
    if !config.Suppressed(fc, false) {
      IdentifiedRemark(config, if fc.id != "" then n else Drawn(n), fc, if fc.id != "" then Given(fc.id) else Generated(n.serial));
    }
  }

  lemma CallSaid(config: Config, ev: AdkEvent, n: Narrative, p: Part)
    requires !p.Reasoning() && p.functionCall.Some? && !ev.partial && CallIsSaid(config, p.functionCall.value)
    ensures Said(n, PartNoted(config, n, p, ev.partial, ev.author), SaysOf(config, p.functionCall.value))
  {
    RemarkAdded(config, Silenced(n), p.functionCall.value);
    var m := PartNoted(config, n, p, ev.partial, ev.author);
    SaidLast(n, m, m.remarks[|n.remarks|], SaysOf(config, p.functionCall.value));
  }

  lemma {:induction false} PartsExtend(config: Config, ev: AdkEvent, n: Narrative, i: nat, count: nat)
    requires i <= count <= |ev.parts|
    ensures PartsNoted(config, n, ev.parts[..i], ev.partial, ev.author).remarks <= PartsNoted(config, n, ev.parts[..count], ev.partial, ev.author).remarks
    decreases count - i
  {
    if i < count {
      var before := PartsNoted(config, n, ev.parts[..count - 1], ev.partial, ev.author);
      PartsExtend(config, ev, n, i, count - 1);
      OneMorePart(config, n, ev.parts, count - 1, ev.partial, ev.author);
      OptionalGrounded(config, ev, before, ev.parts[count - 1]);
    }
  }

  /** What a part of a translated event says is said by the event. */
  lemma PartIsHeard(config: Config, n: Narrative, ev: AdkEvent, i: nat, f: Event -> bool)
    requires i < |ev.parts| && ev.parts[i].Some? && !(ev.Failed() && HeaderNoted(config, n, ev).agent.Some?)
    requires forall k :: Said(k, PartNoted(config, k, ev.parts[i].value, ev.partial, ev.author), f)
    ensures Said(n, EventNoted(config, n, ev), f)
  {
    var h := HeaderNoted(config, n, ev);
    var b := MetadataNoted(FailureNoted(h, ev), ev);
    HeaderGrounded(config, ev, n);
    MetadataGrounded(config, ev, h);
    MetadataGrounded(config, ev, FailureNoted(h, ev));
    PartsGrounded(config, ev, b, i);
    var before := PartsNoted(config, b, ev.parts[..i], ev.partial, ev.author);
    var after := PartsNoted(config, b, ev.parts[..i + 1], ev.partial, ev.author);
    OneMorePart(config, b, ev.parts, i, ev.partial, ev.author);
    PartsExtend(config, ev, b, i + 1, |ev.parts|);
    assert ev.parts[..|ev.parts|] == ev.parts;
    SaidEarlier(before, after, EventNoted(config, n, ev), f);
    SaidLater(n, before, EventNoted(config, n, ev), f);
  }

  lemma StartIsHeard(config: Config, n: Narrative, ev: AdkEvent)
    requires !FromRoot(config, ev.author) && ev.author != n.author
    ensures Said(n, EventNoted(config, n, ev), StartsAgent(ev.author))
  {
    var a, h := AuthorNoted(config, n, ev.author), HeaderNoted(config, n, ev);
    ContentGrounded(config, ev, h);
    DeltaGrounded(config, ev, a);
    SaidLast(n, a, Emitted(None, SubagentStarted(Generated(n.serial), ev.author)), StartsAgent(ev.author));
    SaidEarlier(n, a, EventNoted(config, n, ev), StartsAgent(ev.author));
  }

  lemma DeltaIsHeard(config: Config, n: Narrative, ev: AdkEvent, delta: Event)
    requires ev.stateDelta != map[] && delta == StateDelta(set k | k in ev.stateDelta :: ("/" + k, ev.stateDelta[k]))
    ensures Said(n, EventNoted(config, n, ev), Is(delta))
  {
    var a, h := AuthorNoted(config, n, ev.author), HeaderNoted(config, n, ev);
    AuthorGrounded(config, ev, n);
    ContentGrounded(config, ev, h);
    SaidLast(a, h, Emitted(a.agent, delta), Is(delta));
    SaidLater(n, a, h, Is(delta));
    SaidEarlier(n, h, EventNoted(config, n, ev), Is(delta));
  }

  /** What comes before the parts: the sub-agent of a new author and the state delta. */
  lemma HeaderIsHeard(config: Config, n: Narrative, ev: AdkEvent)
    ensures !FromRoot(config, ev.author) && ev.author != n.author ==>
      Said(n, EventNoted(config, n, ev), StartsAgent(ev.author))
    ensures ev.stateDelta != map[] ==>
      Said(n, EventNoted(config, n, ev), Is(StateDelta(set k | k in ev.stateDelta :: ("/" + k, ev.stateDelta[k]))))
  {
    if !FromRoot(config, ev.author) && ev.author != n.author {
      StartIsHeard(config, n, ev);
    }
    if ev.stateDelta != map[] {
      DeltaIsHeard(config, n, ev, StateDelta(set k | k in ev.stateDelta :: ("/" + k, ev.stateDelta[k])));
    }
  }

  /** A model error is said: that of a sub-agent ends it, any other is reported. */
  lemma ErrorIsHeard(config: Config, n: Narrative, ev: AdkEvent)
    requires ev.Failed()
    ensures HeaderNoted(config, n, ev).agent.None? ==>
      Said(n, EventNoted(config, n, ev), Is(Custom("model_error", [ev.errorCode, ev.errorMessage])))
    ensures HeaderNoted(config, n, ev).agent.Some? ==>
      Said(n, EventNoted(config, n, ev), FailsWith(ev.errorCode))
  {
    HeaderGrounded(config, ev, n);
    if HeaderNoted(config, n, ev).agent.None? {
      ReportIsHeard(config, n, ev);
    } else {
      AgentErrorIsHeard(config, n, ev);
    }
  }

  lemma ReportIsHeard(config: Config, n: Narrative, ev: AdkEvent)
    requires ev.Failed() && HeaderNoted(config, n, ev).agent.None? && n.remarks <= HeaderNoted(config, n, ev).remarks
    ensures Said(n, EventNoted(config, n, ev), Is(Custom("model_error", [ev.errorCode, ev.errorMessage])))
  {
    var h, error := HeaderNoted(config, n, ev), Custom("model_error", [ev.errorCode, ev.errorMessage]);
    var m := FailureNoted(h, ev);
    SaidLast(h, m, Emitted(h.agent, error), Is(error));
    SaidLater(n, h, m, Is(error));
    FailureExtends(config, ev, h);
    SaidEarlier(n, m, EventNoted(config, n, ev), Is(error));
  }

  lemma AgentErrorIsHeard(config: Config, n: Narrative, ev: AdkEvent)
    requires ev.Failed() && HeaderNoted(config, n, ev).agent.Some? && n.remarks <= HeaderNoted(config, n, ev).remarks
    ensures Said(n, EventNoted(config, n, ev), FailsWith(ev.errorCode))
  {
    var h := HeaderNoted(config, n, ev);
    var error := SubagentError(h.agent.value, SubagentFailure(ev.errorCode, ev.errorMessage), ev.errorCode);
    SaidLast(h, EventNoted(config, n, ev), Emitted(None, error), FailsWith(ev.errorCode));
    SaidLater(n, h, EventNoted(config, n, ev), FailsWith(ev.errorCode));
  }

  lemma FailureExtends(config: Config, ev: AdkEvent, n: Narrative)
    ensures FailureNoted(n, ev).remarks <= AllPartsNoted(config, FailureNoted(n, ev), ev).remarks
  {
    var m := FailureNoted(n, ev);
    if ev.parts != [] {
      MetadataGrounded(config, ev, m);
      PartsGrounded(config, ev, MetadataNoted(m, ev), |ev.parts|);
      assert ev.parts[..|ev.parts|] == ev.parts;
    }
  }

  lemma MetadataSaid(n: Narrative, ev: AdkEvent)
    ensures ev.citations.Some? ==> Said(n, MetadataNoted(n, ev), Is(Custom("citation_metadata", [ev.citations.value])))
    ensures ev.grounding.Some? ==> Said(n, MetadataNoted(n, ev), Is(Custom("grounding_metadata", [ev.grounding.value])))
  {
    if ev.citations.Some? {
      var custom := Custom("citation_metadata", [ev.citations.value]);
      SaidLast(n, Noted(n, custom), Emitted(n.agent, custom), Is(custom));
      SaidEarlier(n, Noted(n, custom), MetadataNoted(n, ev), Is(custom));
    }
    if ev.grounding.Some? {
      var custom := Custom("grounding_metadata", [ev.grounding.value]);
      SaidLast(n, MetadataNoted(n, ev), Emitted(n.agent, custom), Is(custom));
    }
  }

  /** What is said before the parts is said by the event. */
  lemma BeforePartsIsHeard(config: Config, n: Narrative, ev: AdkEvent, f: Event -> bool)
    requires ev.parts != [] && !(ev.Failed() && HeaderNoted(config, n, ev).agent.Some?)
    requires var m := FailureNoted(HeaderNoted(config, n, ev), ev); Said(m, MetadataNoted(m, ev), f)
    ensures Said(n, EventNoted(config, n, ev), f)
  {
    var h := HeaderNoted(config, n, ev);
    var m := FailureNoted(h, ev);
    var b := MetadataNoted(m, ev);
    HeaderGrounded(config, ev, n);
    MetadataGrounded(config, ev, h);
    PartsGrounded(config, ev, b, |ev.parts|);
    assert ev.parts[..|ev.parts|] == ev.parts;
    SaidEarlier(m, b, EventNoted(config, n, ev), f);
    SaidLater(n, m, EventNoted(config, n, ev), f);
  }

  /** Citations and grounding are said with the parts. */
  lemma MetadataIsHeard(config: Config, n: Narrative, ev: AdkEvent)
    requires ev.parts != [] && !(ev.Failed() && HeaderNoted(config, n, ev).agent.Some?)
    ensures ev.citations.Some? ==> Said(n, EventNoted(config, n, ev), Is(Custom("citation_metadata", [ev.citations.value])))
    ensures ev.grounding.Some? ==> Said(n, EventNoted(config, n, ev), Is(Custom("grounding_metadata", [ev.grounding.value])))
  {
    MetadataSaid(FailureNoted(HeaderNoted(config, n, ev), ev), ev);
    if ev.citations.Some? {
      BeforePartsIsHeard(config, n, ev, Is(Custom("citation_metadata", [ev.citations.value])));
    }
    if ev.grounding.Some? {
      BeforePartsIsHeard(config, n, ev, Is(Custom("grounding_metadata", [ev.grounding.value])));
    }
  }
}
