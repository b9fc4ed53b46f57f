/** The events an ADK agent run delivers, and the bridge settings that steer their translation. */
module Adk {
  import opened Events

  /** Tool arguments: absent, with their JSON text, or not representable as JSON. */
  datatype Args = NoArgs | Json(text: string) | Unmarshallable

  datatype FunctionCall = FunctionCall(id: string, name: string, args: Args, fragments: seq<string>)
  function MalformedCall(fc: FunctionCall): string {
    if fc.name == "" then "{\"error\":\"tool call had an empty function name\"}"
    else "{\"error\":\"tool arguments for \"" + fc.name + "\" were not valid JSON\"}"
  }

  function BuiltinName(tc: BuiltinCall): string {
    if tc.toolType == "" then "builtin_tool" else tc.toolType
  }

  function SubagentFailure(code: string, message: string): string {
    if message == "" then "model error (code: " + code + ")" else message
  }

  function Replacements(delta: map<string, string>): set<(string, string)> {
    set k | k in delta :: ("/" + k, delta[k])
  }

  /** Attachments are surfaced as readable text. */
  function FileText(a: Attachment): string { "[File: " + a.mimeType + "](" + a.reference + ")" }

  function BinaryText(a: Attachment): string { "[Binary data: " + a.mimeType + ", " + a.reference + " bytes]" }

  datatype FunctionResponse = FunctionResponse(id: string, name: string, content: string)
  datatype BuiltinCall = BuiltinCall(id: string, toolType: string, args: Args)
  datatype BuiltinResponse = BuiltinResponse(id: string, toolType: string, content: string)
  datatype Attachment = Attachment(mimeType: string, reference: string)

  /** One content part; several of its fields may be set at once. */
  datatype Part = Part(
    thought: bool,
    text: string,
    signature: string,
    functionCall: Option<FunctionCall>,
    functionResponse: Option<FunctionResponse>,
    toolCall: Option<BuiltinCall>,
    toolResponse: Option<BuiltinResponse>,
    fileData: Option<Attachment>,
    inlineData: Option<Attachment>,
    executableCode: Option<(string, string)>,
    codeResult: Option<(string, string)>)
  {
    predicate Reasoning() { thought && text != "" }

    /** The part calls a tool or answers a call. */
    predicate ToolPart() { functionCall.Some? || functionResponse.Some? || toolCall.Some? || toolResponse.Some? }
  }

  datatype RequestedInput = RequestedInput(interruptID: string, message: string)

  /** Token counts as the model reports them; a zero count is an absent one. */
  datatype UsageMetadata = UsageMetadata(
    modelVersion: string, prompt: int, candidates: int, total: int, thoughts: int, cached: int)

  function Positive(n: int): Option<int> { if n > 0 then Some(n) else None }

  function InferProvider(model: string): string {
    if "gemini-" <= model then "google"
    else if "gpt-" <= model then "openai"
    else if "claude-" <= model then "anthropic"
    else ""
  }

  function UsageEntry(m: UsageMetadata): Usage {
    Usage(InferProvider(m.modelVersion), m.modelVersion, Positive(m.prompt), Positive(m.candidates),
          Positive(m.total), Positive(m.thoughts), Positive(m.cached))
  }

  datatype AdkEvent = AdkEvent(
    author: string,
    partial: bool,
    turnComplete: bool,
    usage: Option<UsageMetadata>,
    stateDelta: map<string, string>,
    errorCode: string,
    errorMessage: string,
    parts: seq<Option<Part>>,
    citations: Option<string>,
    grounding: Option<string>,
    longRunningToolIDs: seq<string>,
    requestedInput: Option<RequestedInput>)
  {
    /** Partial events carry intermediate counts that the final event supersedes. */
    function Billed(): seq<Usage> {
      if !partial && usage.Some? then [UsageEntry(usage.value)] else []
    }

    predicate Failed() { errorCode != "" || errorMessage != "" }
  }

  /** What a tool-to-state mapper answers: the operations, if any, and whether to suppress. */
  datatype Mapped = Mapped(ops: Option<set<(string, string)>>, suppress: bool)

  datatype Config = Config(
    suppressTools: bool,
    mapper: Option<(string, Args) -> Mapped>,
    emitSteps: bool,
    emitActivityDeltas: bool,
    rootAgentName: string,
    clientTools: Option<set<string>>)
  {
    /** The root agent and the canonical roles are not sub-agents. */
    predicate RootAuthor(author: string) {
      author == "" || author == "user" || author == "model" || author == rootAgentName
    }

    /** Tools outside the declared client tools run on the server and are not proposed to the client. */
    predicate ServerSide(name: string) {
      clientTools.Some? && name !in clientTools.value
    }

    /** Calls replaced by state deltas (or buffered until their final event). */
    predicate Suppressed(fc: FunctionCall, partial: bool) {
      suppressTools && mapper.Some? && (partial || mapper.value(fc.name, fc.args).suppress)
    }

    /** Function calls that reach the client as TOOL_CALL events. */
    predicate Proposed(fc: FunctionCall, partial: bool) {
      && !Suppressed(fc, partial)
      && !ServerSide(fc.name)
      && (partial || (fc.name != "" && !fc.args.Unmarshallable?))
    }
  }
}
