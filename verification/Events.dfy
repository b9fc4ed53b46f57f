/** The AG-UI events the bridge, the MCP middleware and the state tracker exchange. */
module Events {
  datatype Option<+T> = None | Some(value: T)

  /** Identifiers are supplied from outside, drawn from an emitter's generator (a
      generated one never equals a supplied one), or name the result of a call. */
  datatype ID = Given(text: string) | Generated(serial: nat) | ResultOf(call: ID) {
    predicate IsEmpty() { this == Given("") }
  }

  datatype Interrupt = Interrupt(id: string, reason: string, toolCallID: string)

  /** Token counters; a missing counter is distinct from a zero one. */
  datatype Usage = Usage(
    provider: string, model: string,
    input: Option<int>, output: Option<int>, total: Option<int>, reasoning: Option<int>, cached: Option<int>)

  datatype Event =
    | RunStarted(threadID: string, runID: string)
    | RunFinished(interrupts: seq<Interrupt>, usage: seq<Usage>)
    | RunError(message: string, usage: seq<Usage>)
    | TextStart(id: ID, role: Option<string>, name: string)
    | TextContent(id: ID, delta: string)
    | TextEnd(id: ID)
    | ReasoningStart(id: ID)
    | ReasoningMessageStart(id: ID)
    | ReasoningContent(id: ID, delta: string)
    | ReasoningEncrypted(id: ID, signature: string)
    | ReasoningMessageEnd(id: ID)
    | ReasoningEnd(id: ID)
    | ToolCallStart(id: ID, name: string, parent: Option<ID>)
    | ToolCallArgs(id: ID, delta: string)
    | ToolCallEnd(id: ID)
    | ToolCallResult(messageID: ID, id: ID, content: string)
    | StepStarted(name: string)
    | StepFinished(name: string)
    | SubagentStarted(id: ID, name: string)
    | SubagentFinished(id: ID)
    | SubagentError(id: ID, message: string, code: string)
    | StateSnapshot
    | StateDelta(replacements: set<(string, string)>)
    | MessagesSnapshot
    | ActivitySnapshot(id: ID, activity: string, text: string)
    | ActivityDelta(id: ID, activity: string, args: string)
    | Custom(name: string, details: seq<string>)
  {
    predicate Terminal() { RunFinished? || RunError? }

    /** Events emitted through the base emitter, never attributed to a sub-agent. */
    predicate Lifecycle() {
      RunStarted? || Terminal() || SubagentStarted? || SubagentFinished? || SubagentError?
    }
  }

  /** An event together with the sub-agent run it is attributed to. */
  datatype Emitted = Emitted(agent: Option<ID>, event: Event)

  /** The event channel: emitting appends, generated identifiers are never repeated. */
  class EventEmitter {
    var out: seq<Emitted>
    var serial: nat

    constructor ()
      ensures out == [] && serial == 0
    {
      out, serial := [], 0;
    }

    method Emit(agent: Option<ID>, event: Event)
      modifies this`out
      ensures out == old(out) + [Emitted(agent, event)]
    {
      out := out + [Emitted(agent, event)];
    }

    method GenerateID() returns (id: ID)
      modifies this`serial
      ensures serial == old(serial) + 1 && id == Generated(old(serial))
    {
      id := Generated(serial);
      serial := serial + 1;
    }
  }
}
