/** What each translated part does to the client's view. */
module Effects {
  import opened Events
  import opened Protocol
  import opened Adk

  // ----- The client's view after a part -----

  /** Streamed text: an accumulated text replaces what is there, a fragment extends it. */
  function Absorb(acc: string, text: string): string {
    if acc <= text then text else acc + text
  }

  /** What is still to be sent of a streamed text; sending it completes the text. */
  function DeltaOf(acc: string, text: string): (delta: string)
    ensures acc + delta == Absorb(acc, text)
    ensures delta == "" <==> Absorb(acc, text) == acc
  {
    if acc <= text then text[|acc|..] else text
  }

  function StepClosed(v: View): View {
    if v.Broken? then v else v.(step := None)
  }

  function Stepping(v: View, name: string): View {
    if v.Broken? then v else v.(step := Some(name))
  }

  function AgentIs(v: View, agent: Option<ID>): View {
    if v.Broken? then v else v.(agent := agent)
  }

  predicate HasCall(parts: seq<Option<Part>>) {
    exists i :: 0 <= i < |parts| && parts[i].Some? && parts[i].value.functionCall.Some?
  }

  predicate HasResponse(parts: seq<Option<Part>>) {
    exists i :: 0 <= i < |parts| && parts[i].Some? && parts[i].value.functionResponse.Some?
  }

  /** Which step is shown once step events are on: tool results and the first complete
      event start an LLM step, a complete event with function calls a tool step. */
  function StepFor(v: View, ev: AdkEvent): View {
    if v.Broken? then v
    else if HasResponse(ev.parts) then Stepping(v, "llm")
    else if ev.partial then v
    else if HasCall(ev.parts) then Stepping(v, "tools")
    else if v.step.None? then Stepping(v, "llm")
    else v
  }

  /** Whatever was shown before, results lead back to the model, complete calls to the tools, and
      a complete event without either starts a model step only if none is shown. */
  lemma StepMeans(v: View, ev: AdkEvent)
    requires v.View?
    ensures
      var calls := exists i :: 0 <= i < |ev.parts| && ev.parts[i].Some? && ev.parts[i].value.functionCall.Some?;
      var results := exists i :: 0 <= i < |ev.parts| && ev.parts[i].Some? && ev.parts[i].value.functionResponse.Some?;
      var step := StepFor(v, ev).step;
      && StepFor(v, ev) == v.(step := step)
      && (results ==> step == Some("llm"))
      && (!results && ev.partial ==> step == v.step)
      && (!results && !ev.partial && calls ==> step == Some("tools"))
      && (!results && !ev.partial && !calls ==> step == if v.step.Some? then v.step else Some("llm"))
  {
    assert HasCall(ev.parts) <==> exists i :: 0 <= i < |ev.parts| && ev.parts[i].Some? && ev.parts[i].value.functionCall.Some?;
    assert HasResponse(ev.parts) <==> exists i :: 0 <= i < |ev.parts| && ev.parts[i].Some? && ev.parts[i].value.functionResponse.Some?;
  }

  function TextClosed(v: View): View {
    if v.Broken? || v.text.None? then v
    else v.(text := None, spans := v.spans + [Message(v.text.value.id, v.text.value.content)])
  }

  function ThoughtClosed(v: View): View {
    if v.Broken? || v.thought.None? then v
    else v.(thought := None, thoughtBody := false, spans := v.spans + [Thinking(v.thought.value.id, v.thought.value.content)])
  }

  function TextOpened(v: View, newID: ID): View {
    if v.Broken? || v.text.Some? then v else v.(text := Some(Open(newID, "")))
  }

  function TextStreamed(v: View, text: string): View {
    if v.Broken? || v.text.None? then v
    else v.(text := Some(Open(v.text.value.id, Absorb(v.text.value.content, text))))
  }

  function TextArrives(v: View, newID: ID, text: string, partial: bool): View {
    var w := TextStreamed(TextOpened(ThoughtClosed(v), newID), text);
    if partial then w else TextClosed(w)
  }

  function ThoughtOpened(v: View, newID: ID): View {
    if v.Broken? || v.thought.Some? then v else v.(thought := Some(Open(newID, "")), thoughtBody := true)
  }

  function ThoughtStreamed(v: View, text: string): View {
    if v.Broken? || v.thought.None? then v
    else v.(thought := Some(Open(v.thought.value.id, Absorb(v.thought.value.content, text))))
  }

  function ThoughtArrives(v: View, newID: ID, text: string, partial: bool): View {
    var w := ThoughtStreamed(ThoughtOpened(TextClosed(v), newID), text);
    if partial then w else ThoughtClosed(w)
  }

  // ----- Call identifiers -----

  function Concat(fragments: seq<string>): string {
    if fragments == [] then "" else Concat(fragments[..|fragments| - 1]) + fragments[|fragments| - 1]
  }

  function ArgsText(args: Args): string {
    if args.Json? then args.text else ""
  }

  /** Nothing about calls reaches a client that has lost them. */
  predicate Deaf(v: View) { v.Broken? || v.calls.Lost? }

  function CallsLost(v: View): View {
    if v.Broken? then v else v.(calls := Lost)
  }

  /** Argument fragments of a call extend its arguments; the client cannot place them
      once the call is closed. */
  function FragmentsArrive(v: View, id: ID, text: string): View {
    if Deaf(v) || text == "" then v
    else if id in v.calls.open then v.(calls := Calls(v.calls.open[id := v.calls.open[id] + text]))
    else CallsLost(v)
  }

  function CallOpened(v: View, id: ID): View {
    if Deaf(v) then v else v.(calls := Calls(v.calls.open[id := ""]))
  }

  /** A partial call event: opened on first sight, then fragments. */
  function CallStreamed(v: View, started: bool, id: ID, fragments: seq<string>): View {
    FragmentsArrive(if started then v else CallOpened(v, id), id, Concat(fragments))
  }

  /** The final call event: a streamed call keeps its fragments if it had any, and has
      the full arguments otherwise; it cannot be closed a second time. */
  function CallFinished(v: View, started: bool, id: ID, args: Args): View {
    if Deaf(v) then v
    else if !started then v.(spans := v.spans + [Call(id, ArgsText(args))])
    else if id !in v.calls.open then CallsLost(v)
    else v.(calls := Calls(v.calls.open - {id}),
            spans := v.spans + [Call(id, if v.calls.open[id] != "" then v.calls.open[id] else ArgsText(args))])
  }

  function CallArrives(v: View, started: bool, id: ID, fc: FunctionCall, partial: bool): View {
    if partial then CallStreamed(v, started, id, fc.fragments) else CallFinished(v, started, id, fc.args)
  }

  /** A call sent at once, under an identifier that must not be open. */
  function CallShown(v: View, id: ID, args: Args): View {
    if v.Has(id) then CallsLost(v) else CallFinished(v, false, id, args)
  }

  function ArgsAndEnd(v: View, id: ID, args: Args): View {
    if Deaf(v) then v
    else if id !in v.calls.open then CallsLost(v)
    else v.(calls := Calls(v.calls.open - {id}), spans := v.spans + [Call(id, v.calls.open[id] + ArgsText(args))])
  }

  function CallEnded(v: View, id: ID): View {
    if Deaf(v) then v
    else if id !in v.calls.open then CallsLost(v)
    else v.(calls := Calls(v.calls.open - {id}), spans := v.spans + [Call(id, v.calls.open[id])])
  }

  /** Some of v's open calls have been completed with what was streamed, in some order. */
  ghost predicate PartlyClosed(v: View, w: View) {
    if Deaf(v) then w == v
    else
      && w.View? && w.calls.Calls? && w == v.(calls := w.calls, spans := w.spans)
      && v.spans <= w.spans && |w.spans| + |w.calls.open| == |v.spans| + |v.calls.open|
      && w.calls.open.Keys <= v.calls.open.Keys
      && (forall id :: id in w.calls.open ==> w.calls.open[id] == v.calls.open[id])
      && forall id :: id in v.calls.open && id !in w.calls.open ==> Call(id, v.calls.open[id]) in w.spans[|v.spans|..]
  }

  ghost predicate CallsClosed(v: View, w: View) {
    PartlyClosed(v, w) && (Deaf(w) || w.calls.open == map[])
  }
}
