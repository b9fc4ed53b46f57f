/** The AG-UI stream protocol, as a client that receives the events one by one. */
module Protocol {
  import opened Events

  /** A text message, reasoning block or tool call still being received. */
  datatype Open = Open(id: ID, content: string)

  /** Something received completely, with its reassembled content. */
  datatype Span = Message(id: ID, content: string) | Thinking(id: ID, content: string) | Call(id: ID, args: string)

  datatype Phase = NotStarted | Running | Ended | Illegal

  /** The calls being received, or Lost once an event of a call did not fit. */
  datatype Calls = Lost | Calls(open: map<ID, string>)

  /** What the client has on screen; Broken once another event did not fit the protocol. A
      client that lost its calls goes on with the rest. */
  datatype View =
    | Broken
    | View(text: Option<Open>,
           thought: Option<Open>, thoughtBody: bool,
           calls: Calls,
           step: Option<string>,
           agent: Option<ID>,
           spans: seq<Span>)
  {
    /** Nothing is open. */
    predicate Resting() {
      View? && text.None? && thought.None? && !thoughtBody && (calls.Calls? ==> calls.open == map[]) && step.None? && agent.None?
    }

    /** Nothing is open, and nothing was lost. */
    predicate Idle() { Resting() && calls.Calls? }

    predicate Has(id: ID) { View? && calls.Calls? && id in calls.open }
  }

  datatype Client = Client(phase: Phase, view: View)

  const Blank: View := View(None, None, false, Calls(map[]), None, None, [])

  function NextPhase(p: Phase, e: Event): Phase {
    match p
    case NotStarted => if e.RunStarted? then Running else if e.RunError? then Ended else Illegal
    case Running => if e.RunStarted? then Illegal else if e.Terminal() then Ended else Running
    case Ended => Illegal
    case Illegal => Illegal
  }

  function NextCalls(calls: Calls, e: Event): Calls
    requires e.ToolCallStart? || e.ToolCallArgs? || e.ToolCallEnd?
  {
    if calls.Lost? || (e.id in calls.open <==> e.ToolCallStart?) then Lost
    else if e.ToolCallStart? then Calls(calls.open[e.id := ""])
    else if e.ToolCallArgs? then Calls(calls.open[e.id := calls.open[e.id] + e.delta])
    else Calls(calls.open - {e.id})
  }

  /** One received event. Content deltas are non-empty, text and reasoning never
      overlap, and an event carries the tag of the sub-agent open at that moment. */
  function NextView(v: View, m: Emitted): View {
    if v.Broken? || m.agent != (if m.event.Lifecycle() then None else v.agent) then Broken
    else match m.event
      case RunStarted(_, _) => if v.Resting() then v else Broken
      case RunFinished(_, _) => if v.Resting() then v else Broken
      case RunError(_, _) => if v.Resting() then v else Broken
      case TextStart(id, _, _) =>
        if v.text.None? && v.thought.None? then v.(text := Some(Open(id, ""))) else Broken
      case TextContent(id, delta) =>
        if v.text.Some? && v.text.value.id == id && delta != ""
        then v.(text := Some(Open(id, v.text.value.content + delta))) else Broken
      case TextEnd(id) =>
        if v.text.Some? && v.text.value.id == id
        then v.(text := None, spans := v.spans + [Message(id, v.text.value.content)]) else Broken
      case ReasoningStart(id) =>
        if v.text.None? && v.thought.None? then v.(thought := Some(Open(id, "")), thoughtBody := false) else Broken
      case ReasoningMessageStart(id) =>
        if v.thought.Some? && v.thought.value.id == id && !v.thoughtBody then v.(thoughtBody := true) else Broken
      case ReasoningContent(id, delta) =>
        if v.thought.Some? && v.thought.value.id == id && v.thoughtBody && delta != ""
        then v.(thought := Some(Open(id, v.thought.value.content + delta))) else Broken
      case ReasoningEncrypted(id, _) =>
        if v.thought.Some? && v.thought.value.id == id && v.thoughtBody then v else Broken
      case ReasoningMessageEnd(id) =>
        if v.thought.Some? && v.thought.value.id == id && v.thoughtBody then v.(thoughtBody := false) else Broken
      case ReasoningEnd(id) =>
        if v.thought.Some? && v.thought.value.id == id && !v.thoughtBody
        then v.(thought := None, spans := v.spans + [Thinking(id, v.thought.value.content)]) else Broken
      case ToolCallStart(id, _, _) => v.(calls := NextCalls(v.calls, m.event))
      case ToolCallArgs(id, delta) => v.(calls := NextCalls(v.calls, m.event))
      case ToolCallEnd(id) =>
        v.(calls := NextCalls(v.calls, m.event), spans := if v.Has(id) then v.spans + [Call(id, v.calls.open[id])] else v.spans)
      case StepStarted(name) => if v.step.None? then v.(step := Some(name)) else Broken
      case StepFinished(name) => if v.step == Some(name) then v.(step := None) else Broken
      case SubagentStarted(id, _) => if v.agent.None? then v.(agent := Some(id)) else Broken
      case SubagentFinished(id) => if v.agent == Some(id) then v.(agent := None) else Broken
      case SubagentError(id, _, _) => if v.agent == Some(id) then v.(agent := None) else Broken
      case _ => v
  }

  function Receive(c: Client, m: Emitted): Client {
    Client(NextPhase(c.phase, m.event), NextView(c.view, m))
  }

  /** The client after the whole stream. */
  function Scan(trace: seq<Emitted>): Client {
    if trace == [] then Client(NotStarted, Blank)
    else Receive(Scan(trace[..|trace| - 1]), trace[|trace| - 1])
  }

  lemma ScanAppend(trace: seq<Emitted>, m: Emitted)
    ensures Scan(trace + [m]) == Receive(Scan(trace), m)
  {
    assert (trace + [m])[..|trace|] == trace;
  }

  /** A whole run: it ended, and when it ended nothing was left open. */
  predicate Conforms(trace: seq<Emitted>) {
    Scan(trace).phase.Ended? && Scan(trace).view.Idle()
  }

  // ----- What Scan means, by counting -----

  datatype Key = TextKey(id: ID) | ThoughtKey(id: ID) | CallKey(id: ID) | StepKey(name: string) | AgentKey(id: ID)

  predicate Opens(e: Event, k: Key) {
    match k
    case TextKey(id) => e.TextStart? && e.id == id
    case ThoughtKey(id) => e.ReasoningStart? && e.id == id
    case CallKey(id) => e.ToolCallStart? && e.id == id
    case StepKey(name) => e.StepStarted? && e.name == name
    case AgentKey(id) => e.SubagentStarted? && e.id == id
  }

  predicate Closes(e: Event, k: Key) {
    match k
    case TextKey(id) => e.TextEnd? && e.id == id
    case ThoughtKey(id) => e.ReasoningEnd? && e.id == id
    case CallKey(id) => e.ToolCallEnd? && e.id == id
    case StepKey(name) => e.StepFinished? && e.name == name
    case AgentKey(id) => (e.SubagentFinished? || e.SubagentError?) && e.id == id
  }

  function Count(trace: seq<Emitted>, p: Event -> bool): nat {
    if trace == [] then 0
    else Count(trace[..|trace| - 1], p) + if p(trace[|trace| - 1].event) then 1 else 0
  }

  function Opened(trace: seq<Emitted>, k: Key): nat { Count(trace, e => Opens(e, k)) }

  function Closed(trace: seq<Emitted>, k: Key): nat { Count(trace, e => Closes(e, k)) }

  predicate IsOpen(v: View, k: Key)
    requires v.View?
  {
    match k
    case TextKey(id) => v.text.Some? && v.text.value.id == id
    case ThoughtKey(id) => v.thought.Some? && v.thought.value.id == id
    case CallKey(id) => v.Has(id)
    case StepKey(name) => v.step == Some(name)
    case AgentKey(id) => v.agent == Some(id)
  }

  function Delta(e: Event, k: Key): int {
    (if Opens(e, k) then 1 else 0) - (if Closes(e, k) then 1 else 0)
  }

  function OpenCount(v: View, k: Key): int
    requires v.View?
  {
    if IsOpen(v, k) then 1 else 0
  }

  lemma TextStep(v: View, m: Emitted, k: Key)
    requires k.TextKey? && v.View? && NextView(v, m).View?
    ensures OpenCount(NextView(v, m), k) == OpenCount(v, k) + Delta(m.event, k)
  {
  }

  lemma ThoughtStep(v: View, m: Emitted, k: Key)
    requires k.ThoughtKey? && v.View? && NextView(v, m).View?
    ensures OpenCount(NextView(v, m), k) == OpenCount(v, k) + Delta(m.event, k)
  {
  }

  lemma CallStep(v: View, m: Emitted, k: Key)
    requires k.CallKey? && v.View? && NextView(v, m).View? && NextView(v, m).calls.Calls?
    ensures OpenCount(NextView(v, m), k) == OpenCount(v, k) + Delta(m.event, k)
  {
  }

  lemma StepStep(v: View, m: Emitted, k: Key)
    requires k.StepKey? && v.View? && NextView(v, m).View?
    ensures OpenCount(NextView(v, m), k) == OpenCount(v, k) + Delta(m.event, k)
  {
  }

  lemma AgentStep(v: View, m: Emitted, k: Key)
    requires k.AgentKey? && v.View? && NextView(v, m).View?
    ensures OpenCount(NextView(v, m), k) == OpenCount(v, k) + Delta(m.event, k)
  {
  }

  lemma OneStep(v: View, m: Emitted, k: Key)
    requires v.View? && NextView(v, m).View? && (k.CallKey? ==> NextView(v, m).calls.Calls?)
    ensures OpenCount(NextView(v, m), k) == OpenCount(v, k) + Delta(m.event, k)
  {
    match k
    case TextKey(_) => TextStep(v, m, k);
    case ThoughtKey(_) => ThoughtStep(v, m, k);
    case CallKey(_) => CallStep(v, m, k);
    case StepKey(_) => StepStep(v, m, k);
    case AgentKey(_) => AgentStep(v, m, k);
  }

  lemma NoOverlap(v: View, m: Emitted)
    requires v.View? && NextView(v, m).View? && (v.text.None? || v.thought.None?)
    ensures NextView(v, m).text.None? || NextView(v, m).thought.None?
  {
  }

  /** Whether the client is still following what the key is about. */
  predicate Following(v: View, k: Key) { v.View? && (k.CallKey? ==> v.calls.Calls?) }

  lemma {:induction false} OpenMeansUnmatched(trace: seq<Emitted>, k: Key)
    requires Following(Scan(trace).view, k)
    ensures Opened(trace, k) == Closed(trace, k) + OpenCount(Scan(trace).view, k)
    ensures Scan(trace).view.text.None? || Scan(trace).view.thought.None?
  {
    if trace != [] {
      OpenMeansUnmatched(trace[..|trace| - 1], k);
      OneStep(Scan(trace[..|trace| - 1]).view, trace[|trace| - 1], k);
      NoOverlap(Scan(trace[..|trace| - 1]).view, trace[|trace| - 1]);
    }
  }

  lemma {:induction false} PrefixFollows(trace: seq<Emitted>, n: nat, k: Key)
    requires n <= |trace| && Following(Scan(trace).view, k)
    ensures Following(Scan(trace[..n]).view, k)
  {
    if n < |trace| {
      PrefixFollows(trace[..|trace| - 1], n, k);
      assert trace[..|trace| - 1][..n] == trace[..n];
    } else {
      assert trace[..n] == trace;
    }
  }

  /** A stream that leaves the client at rest brackets every kind but, if the client lost its
      calls, those: at no point has anything been closed more often than opened or opened
      twice over, at the end all are closed, and text and reasoning are never open together. */
  lemma RestingBrackets(trace: seq<Emitted>, k: Key, n: nat)
    requires Scan(trace).view.Resting() && (k.CallKey? ==> Scan(trace).view.Idle()) && n <= |trace|
    ensures Closed(trace[..n], k) <= Opened(trace[..n], k) <= Closed(trace[..n], k) + 1
    ensures Opened(trace, k) == Closed(trace, k)
    ensures forall a, b :: Opened(trace[..n], TextKey(a)) > Closed(trace[..n], TextKey(a)) ==>
      Opened(trace[..n], ThoughtKey(b)) == Closed(trace[..n], ThoughtKey(b))
  {
    PrefixFollows(trace, n, k);
    OpenMeansUnmatched(trace[..n], k);
    OpenMeansUnmatched(trace, k);
    forall a, b | Opened(trace[..n], TextKey(a)) > Closed(trace[..n], TextKey(a))
      ensures Opened(trace[..n], ThoughtKey(b)) == Closed(trace[..n], ThoughtKey(b))
    {
      OpenMeansUnmatched(trace[..n], TextKey(a));
      OpenMeansUnmatched(trace[..n], ThoughtKey(b));
    }
  }

  /** In particular a conforming stream brackets every kind. */
  lemma ConformsBrackets(trace: seq<Emitted>, k: Key, n: nat)
    requires Conforms(trace) && n <= |trace|
    ensures Closed(trace[..n], k) <= Opened(trace[..n], k) <= Closed(trace[..n], k) + 1
    ensures Opened(trace, k) == Closed(trace, k)
    ensures forall a, b :: Opened(trace[..n], TextKey(a)) > Closed(trace[..n], TextKey(a)) ==>
      Opened(trace[..n], ThoughtKey(b)) == Closed(trace[..n], ThoughtKey(b))
  {
    RestingBrackets(trace, k, n);
  }

  predicate TerminalAt(trace: seq<Emitted>, i: int)
    requires 0 <= i < |trace|
  {
    trace[i].event.Terminal()
  }

  lemma {:induction false} RunningMeans(trace: seq<Emitted>)
    ensures Scan(trace).phase.NotStarted? ==> trace == []
    ensures Scan(trace).phase.Running? ==> trace != [] && trace[0].event.RunStarted?
    ensures Scan(trace).phase.Running? ==>
      forall i :: 0 <= i < |trace| ==> !TerminalAt(trace, i) && (i > 0 ==> !trace[i].event.RunStarted?)
  {
    if trace != [] {
      RunningMeans(trace[..|trace| - 1]);
    }
  }

  /** An ended run is a lone error, or starts with its only RUN_STARTED and ends
      with its only terminal event. */
  lemma EndedShape(trace: seq<Emitted>)
    requires Scan(trace).phase.Ended?
    ensures trace != [] && TerminalAt(trace, |trace| - 1)
    ensures forall i :: 0 <= i < |trace| - 1 ==> !TerminalAt(trace, i)
    ensures (|trace| == 1 && trace[0].event.RunError?) ||
            (trace[0].event.RunStarted? && forall i :: 0 < i < |trace| ==> !trace[i].event.RunStarted?)
  {
    var before := trace[..|trace| - 1];
    RunningMeans(before);
    forall i | 0 <= i < |before| ensures !TerminalAt(trace, i) {
      assert !TerminalAt(before, i);
    }
  }
}
