/** What a run says beyond the content of its messages: announcements, results, state changes,
    activities and custom events, computed from the ADK events alone. */
module Narratives {
  import opened Events
  import opened Adk

  datatype ToolCallDetail = ToolCallDetail(name: string, args: Args)

  /** Events that carry more than the content, the steps and the ends the client shows. */
  predicate Remark(e: Event) {
    !(e.TextContent? || e.TextEnd? || e.ReasoningStart? || e.ReasoningMessageStart? || e.ReasoningContent? ||
      e.ReasoningMessageEnd? || e.ReasoningEnd? || e.ToolCallArgs? || e.ToolCallEnd? || e.StepStarted? ||
      e.StepFinished? || e.SubagentFinished?)
  }

  function Remarks(trace: seq<Emitted>): seq<Emitted> {
    if trace == [] then []
    else
      var before := Remarks(trace[..|trace| - 1]);
      if Remark(trace[|trace| - 1].event) then before + [trace[|trace| - 1]] else before
  }

  lemma RemarksAppend(trace: seq<Emitted>, m: Emitted)
    ensures Remarks(trace + [m]) == if Remark(m.event) then Remarks(trace) + [m] else Remarks(trace)
  {
    assert (trace + [m])[..|trace|] == trace;
  }

  /** What decides the next remarks, and the remarks so far: the active sub-agent, whether a
      message is open, the open reasoning block, the next serial, the calls streamed, the call
      known under each identifier and name, what is known about it, and its activity message. */
  datatype Narrative = Narrative(
    agent: Option<ID>, author: string, speaking: bool, thinking: Option<ID>, serial: nat, started: set<ID>,
    known: map<string, ID>, details: map<ID, ToolCallDetail>, activities: map<ID, ID>, remarks: seq<Emitted>)

  /** Before anything is translated. */
  function Beginning(serial: nat, remarks: seq<Emitted>): Narrative {
    Narrative(None, "", false, None, serial, {}, map[], map[], map[], remarks)
  }

  function Noted(n: Narrative, e: Event): Narrative { n.(remarks := n.remarks + [Emitted(n.agent, e)]) }

  /** Sub-agents come and go without attribution. */
  function NotedAbove(n: Narrative, e: Event): Narrative { n.(remarks := n.remarks + [Emitted(None, e)]) }

  function Drawn(n: Narrative): Narrative { n.(serial := n.serial + 1) }

  function Silenced(n: Narrative): Narrative { n.(speaking := false, thinking := None) }

  // ----- Text and reasoning -----

  /** A new message is announced with its speaker. */
  function TextBegun(config: Config, n: Narrative, author: string): Narrative {
    if n.speaking then n
    else
      var name := if config.RootAuthor(author) then "" else author;
      Noted(Drawn(n).(speaking := true), TextStart(Generated(n.serial), Some("assistant"), name))
  }

  function TextNoted(config: Config, n: Narrative, partial: bool, author: string): Narrative {
    TextBegun(config, n.(thinking := None), author).(speaking := partial)
  }

  function ThoughtBegun(n: Narrative): Narrative {
    if n.thinking.Some? then n else Drawn(n).(thinking := Some(Generated(n.serial)))
  }

  /** A signature goes with its reasoning. */
  function SignatureNoted(n: Narrative, signature: string): Narrative {
    if signature == "" || n.thinking.None? then n else Noted(n, ReasoningEncrypted(n.thinking.value, signature))
  }

  function ThoughtNoted(n: Narrative, signature: string, partial: bool): Narrative {
    var m := SignatureNoted(ThoughtBegun(n.(speaking := false)), signature);
    if partial then m else m.(thinking := None)
  }

  // ----- Calls -----

  function ToolUseNoted(n: Narrative, name: string, args: Args): Narrative {
    var argsJSON := if args.Json? then args.text else "{}";
    Noted(Drawn(n), ActivitySnapshot(Generated(n.serial), "tool_use", "Running " + name + "(" + argsJSON + ")"))
  }

  /** Calls are known by their supplied identifier and by their tool, the latest call of it. */
  function Known(known: map<string, ID>, suppliedID: string, name: string, id: ID): map<string, ID> {
    var named := if suppliedID != "" then known[suppliedID := id] else known;
    if name != "" then named[name := id] else named
  }

  function Recorded(n: Narrative, suppliedID: string, name: string, id: ID, args: Args): Narrative {
    n.(known := Known(n.known, suppliedID, name, id),
       details := if name != "" || !args.NoArgs? then n.details[id := ToolCallDetail(name, args)] else n.details)
  }

  function ProgressBegun(config: Config, n: Narrative, id: ID, name: string): Narrative {
    if !config.emitActivityDeltas then n
    else
      var activity := Generated(n.serial);
      Noted(Drawn(n).(activities := n.activities[id := activity]), ActivitySnapshot(activity, "tool_use", "Running " + name + "..."))
  }

  function ProgressNoted(config: Config, n: Narrative, id: ID, fragment: string): Narrative {
    if config.emitActivityDeltas && id in n.activities then Noted(n, ActivityDelta(n.activities[id], "tool_use", fragment)) else n
  }

  function Announced(config: Config, n: Narrative, id: ID, name: string): Narrative {
    ProgressBegun(config, Noted(n, ToolCallStart(id, name, None)).(started := n.started + {id}), id, name)
  }

  function FragmentsNoted(config: Config, n: Narrative, id: ID, fragments: seq<string>): Narrative {
    if fragments == [] then n
    else
      var m, last := FragmentsNoted(config, n, id, fragments[..|fragments| - 1]), fragments[|fragments| - 1];
      if last == "" then m else ProgressNoted(config, m, id, last)
  }

  /** A call is announced when it is seen for the first time. */
  function ProposalNoted(config: Config, n: Narrative, fc: FunctionCall, partial: bool, id: ID): Narrative {
    if partial then FragmentsNoted(config, if id in n.started then n else Announced(config, n, id, fc.name), id, fc.fragments)
    else if id in n.started then n
    else Noted(n, ToolCallStart(id, fc.name, None))
  }

  /** A server-side call becomes an activity, a malformed one leaves its error. */
  function IdentifiedNoted(config: Config, n: Narrative, fc: FunctionCall, partial: bool, id: ID): Narrative {
    var m := Recorded(n, fc.id, fc.name, id, fc.args);
    if config.ServerSide(fc.name) then (if partial then m else ToolUseNoted(m, fc.name, fc.args))
    else if !config.Proposed(fc, partial) then Noted(Drawn(n), ToolCallResult(Generated(n.serial), id, MalformedCall(fc)))
    else ProposalNoted(config, m, fc, partial, id)
  }

  /** A suppressed call leaves its state delta. */
  function CallNoted(config: Config, n: Narrative, fc: FunctionCall, partial: bool): Narrative {
    if config.Suppressed(fc, partial) then
      var ops := config.mapper.value(fc.name, fc.args).ops;
      if !partial && ops.Some? then Noted(n, StateDelta(ops.value)) else n
    else if fc.id != "" then IdentifiedNoted(config, n, fc, partial, Given(fc.id))
    else IdentifiedNoted(config, Drawn(n), fc, partial, Generated(n.serial))
  }

  function ResultNoted(n: Narrative, call: ID, content: string): Narrative {
    var m := if call in n.details then ToolUseNoted(n, n.details[call].name, n.details[call].args) else n;
    Noted(m, ToolCallResult(ResultOf(call), call, content))
  }

  /** Results go to the call known by the identifier or, failing that, by the name. */
  function ResponseNoted(n: Narrative, id: string, name: string, content: string): Narrative {
    if id in n.known then ResultNoted(n, n.known[id], content)
    else if name in n.known then ResultNoted(n, n.known[name], content)
    else n
  }

  function BuiltinIdentified(config: Config, n: Narrative, tc: BuiltinCall, id: ID): Narrative {
    var m := Recorded(n, tc.id, BuiltinName(tc), id, tc.args);
    if config.ServerSide(BuiltinName(tc)) then ToolUseNoted(m, BuiltinName(tc), tc.args)
    else Noted(m, ToolCallStart(id, BuiltinName(tc), None))
  }

  function BuiltinNoted(config: Config, n: Narrative, tc: BuiltinCall): Narrative {
    if tc.id != "" then BuiltinIdentified(config, n, tc, Given(tc.id)) else BuiltinIdentified(config, Drawn(n), tc, Generated(n.serial))
  }

  // ----- Parts and events -----

  function ToolPartNoted(config: Config, n: Narrative, p: Part, partial: bool): Narrative
    requires p.ToolPart()
  {
    if p.functionCall.Some? then CallNoted(config, n, p.functionCall.value, partial)
    else if p.functionResponse.Some? then
      var fr := p.functionResponse.value; ResponseNoted(n, fr.id, fr.name, fr.content)
    else if p.toolCall.Some? then BuiltinNoted(config, n, p.toolCall.value)
    else var tr := p.toolResponse.value; ResponseNoted(n, tr.id, tr.toolType, tr.content)
  }

  function SpeechNoted(config: Config, n: Narrative, p: Part, partial: bool, author: string): Narrative {
    if p.Reasoning() then ThoughtNoted(n, p.signature, partial)
    else if p.text != "" || p.fileData.Some? || p.inlineData.Some? then TextNoted(config, n, partial, author)
    else if p.executableCode.Some? then
      Noted(n, Custom("executable_code", [p.executableCode.value.0, p.executableCode.value.1]))
    else if p.codeResult.Some? then
      Noted(n, Custom("code_execution_result", [p.codeResult.value.0, p.codeResult.value.1]))
    else n
  }

  function PartNoted(config: Config, n: Narrative, p: Part, partial: bool, author: string): Narrative {
    if p.ToolPart() && !p.Reasoning() then ToolPartNoted(config, Silenced(n), p, partial)
    else SpeechNoted(config, n, p, partial, author)
  }

  function OptionalNoted(config: Config, n: Narrative, p: Option<Part>, partial: bool, author: string): Narrative {
    if p.None? then n else PartNoted(config, n, p.value, partial, author)
  }

  function PartsNoted(config: Config, n: Narrative, parts: seq<Option<Part>>, partial: bool, author: string): Narrative {
    if parts == [] then n
    else OptionalNoted(config, PartsNoted(config, n, parts[..|parts| - 1], partial, author), parts[|parts| - 1], partial, author)
  }

  lemma OneMorePart(config: Config, n: Narrative, parts: seq<Option<Part>>, i: nat, partial: bool, author: string)
    requires i < |parts|
    ensures PartsNoted(config, n, parts[..i + 1], partial, author)
      == OptionalNoted(config, PartsNoted(config, n, parts[..i], partial, author), parts[i], partial, author)
  {
    assert parts[..i + 1][..i] == parts[..i];
  }

  function MetadataNoted(n: Narrative, ev: AdkEvent): Narrative {
    var m := if ev.citations.Some? then Noted(n, Custom("citation_metadata", [ev.citations.value])) else n;
    if ev.grounding.Some? then Noted(m, Custom("grounding_metadata", [ev.grounding.value])) else m
  }

  function AllPartsNoted(config: Config, n: Narrative, ev: AdkEvent): Narrative {
    if ev.parts == [] then n else PartsNoted(config, MetadataNoted(n, ev), ev.parts, ev.partial, ev.author)
  }

  function AgentLeft(n: Narrative): Narrative { n.(agent := None, author := "") }

  function FailureNoted(n: Narrative, ev: AdkEvent): Narrative {
    if ev.Failed() then Noted(n, Custom("model_error", [ev.errorCode, ev.errorMessage])) else n
  }

  /** A sub-agent's model error ends that sub-agent, a root error is reported. */
  function ContentNoted(config: Config, n: Narrative, ev: AdkEvent): Narrative {
    if ev.Failed() && n.agent.Some? then
      var message := SubagentFailure(ev.errorCode, ev.errorMessage);
      AgentLeft(NotedAbove(Silenced(n), SubagentError(n.agent.value, message, ev.errorCode)))
    else
      AllPartsNoted(config, FailureNoted(n, ev), ev)
  }

  /** The sub-agent run active for an event: the one of the same author, or a new one. */
  function AuthorNoted(config: Config, n: Narrative, author: string): Narrative {
    if config.RootAuthor(author) then AgentLeft(n)
    else if author == n.author then n
    else
      var run := Generated(n.serial);
      NotedAbove(Drawn(n), SubagentStarted(run, author)).(agent := Some(run), author := author)
  }

  function DeltaNoted(n: Narrative, delta: map<string, string>): Narrative {
    if delta == map[] then n else Noted(n, StateDelta(Replacements(delta)))
  }

  function HeaderNoted(config: Config, n: Narrative, ev: AdkEvent): Narrative {
    DeltaNoted(AuthorNoted(config, n, ev.author), ev.stateDelta)
  }

  function EventNoted(config: Config, n: Narrative, ev: AdkEvent): Narrative {
    ContentNoted(config, HeaderNoted(config, n, ev), ev)
  }

  function EventsNoted(config: Config, n: Narrative, evs: seq<AdkEvent>): Narrative {
    if evs == [] then n else EventNoted(config, EventsNoted(config, n, evs[..|evs| - 1]), evs[|evs| - 1])
  }

  /** When everything is closed. */
  function AllClosed(n: Narrative): Narrative { Beginning(n.serial, n.remarks) }
}
