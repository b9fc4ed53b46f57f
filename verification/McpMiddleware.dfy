/** The agentic loop that executes MCP tool calls between runs of an inner agent
    (agui/mcp_middleware.go). The inner agent and the tools are arbitrary. */
module McpMiddleware {
  import opened Events
  import opened Reconstruct

  const DEFAULT_MAX_ITERATIONS: nat := 32

  // ----- Open tool calls -----

  function Resolved(messages: seq<Message>): set<ID> {
    set m | m in messages && !m.toolCallID.IsEmpty() :: m.toolCallID
  }

  function Unresolved(calls: seq<ToolCall>, resolved: set<ID>): seq<ToolCall> {
    if calls == [] then []
    else
      var before, last := Unresolved(calls[..|calls| - 1], resolved), calls[|calls| - 1];
      if last.id in resolved then before else before + [last]
  }

  function OpenAmong(messages: seq<Message>, resolved: set<ID>): seq<ToolCall> {
    if messages == [] then []
    else
      var before, last := OpenAmong(messages[..|messages| - 1], resolved), messages[|messages| - 1];
      if last.role == "assistant" then before + Unresolved(last.toolCalls, resolved) else before
  }

  /** Assistant tool calls without a matching tool result, in order. */
  function OpenCalls(messages: seq<Message>): seq<ToolCall> { OpenAmong(messages, Resolved(messages)) }

  predicate CalledIn(messages: seq<Message>, call: ToolCall) {
    exists i :: 0 <= i < |messages| && messages[i].role == "assistant" && call in messages[i].toolCalls
  }

  lemma {:induction false} UnresolvedMeans(calls: seq<ToolCall>, resolved: set<ID>, call: ToolCall)
    ensures call in Unresolved(calls, resolved) <==> call in calls && call.id !in resolved
  {
    if calls != [] {
      UnresolvedMeans(calls[..|calls| - 1], resolved, call);
      assert calls == calls[..|calls| - 1] + [calls[|calls| - 1]];
    }
  }

  lemma {:induction false} OpenAmongMeans(messages: seq<Message>, resolved: set<ID>, call: ToolCall)
    ensures call in OpenAmong(messages, resolved) <==> CalledIn(messages, call) && call.id !in resolved
  {
    if messages != [] {
      var before, last := messages[..|messages| - 1], messages[|messages| - 1];
      OpenAmongMeans(before, resolved, call);
      UnresolvedMeans(last.toolCalls, resolved, call);
      assert forall i :: 0 <= i < |before| ==> before[i] == messages[i];
      assert CalledIn(messages, call) <==> CalledIn(before, call) || (last.role == "assistant" && call in last.toolCalls);
    }
  }

  /** A call is open exactly when some assistant message made it and no message carries a
      result for its identifier; a call without an identifier is always open. */
  lemma OpenMeans(messages: seq<Message>, call: ToolCall)
    ensures call in OpenCalls(messages)
      <==> CalledIn(messages, call) && (call.id.IsEmpty() || forall m :: m in messages ==> m.toolCallID != call.id)
  {
    OpenAmongMeans(messages, Resolved(messages), call);
  }

  method GetOpenToolCalls(messages: seq<Message>) returns (open: seq<ToolCall>)
    ensures open == OpenCalls(messages)
  {
    var resolved := {};
    for i := 0 to |messages|
      invariant resolved == Resolved(messages[..i])
    {
      assert messages[..i + 1] == messages[..i] + [messages[i]];
      if !messages[i].toolCallID.IsEmpty() {
        resolved := resolved + {messages[i].toolCallID};
      }
    }
    assert messages[..|messages|] == messages;
    open := [];
    for i := 0 to |messages|
      invariant open == OpenAmong(messages[..i], resolved)
    {
      assert messages[..i + 1][..i] == messages[..i];
      var calls := messages[i].toolCalls;
      if messages[i].role == "assistant" && |calls| > 0 {
        for j := 0 to |calls|
          invariant open == OpenAmong(messages[..i], resolved) + Unresolved(calls[..j], resolved)
        {
          assert calls[..j + 1][..j] == calls[..j];
          if calls[j].id !in resolved {
            open := open + [calls[j]];
          }
        }
        assert calls[..|calls|] == calls;
      }
    }
  }

  function Mcp(calls: seq<ToolCall>, tools: set<string>): seq<ToolCall> {
    if calls == [] then []
    else
      var before, last := Mcp(calls[..|calls| - 1], tools), calls[|calls| - 1];
      if last.name in tools then before + [last] else before
  }

  lemma {:induction false} McpMeans(calls: seq<ToolCall>, tools: set<string>, call: ToolCall)
    ensures call in Mcp(calls, tools) <==> call in calls && call.name in tools
  {
    if calls != [] {
      McpMeans(calls[..|calls| - 1], tools, call);
      assert calls == calls[..|calls| - 1] + [calls[|calls| - 1]];
    }
  }

  predicate DistinctIDs(calls: seq<ToolCall>) {
    forall i, j :: 0 <= i < j < |calls| ==> calls[i].id != calls[j].id
  }

  /** All assistant tool calls of a history. */
  function AllCalls(messages: seq<Message>): seq<ToolCall> { OpenAmong(messages, {}) }

  lemma {:induction false} UnresolvedConcat(xs: seq<ToolCall>, ys: seq<ToolCall>, resolved: set<ID>)
    ensures Unresolved(xs + ys, resolved) == Unresolved(xs, resolved) + Unresolved(ys, resolved)
  {
    if ys == [] {
      assert xs + ys == xs;
    } else {
      assert (xs + ys)[..|xs + ys| - 1] == xs + ys[..|ys| - 1];
      UnresolvedConcat(xs, ys[..|ys| - 1], resolved);
    }
  }

  lemma {:induction false} McpConcat(xs: seq<ToolCall>, ys: seq<ToolCall>, tools: set<string>)
    ensures Mcp(xs + ys, tools) == Mcp(xs, tools) + Mcp(ys, tools)
  {
    if ys == [] {
      assert xs + ys == xs;
    } else {
      assert (xs + ys)[..|xs + ys| - 1] == xs + ys[..|ys| - 1];
      McpConcat(xs, ys[..|ys| - 1], tools);
    }
  }

  lemma {:induction false} OpenConcat(xs: seq<Message>, ys: seq<Message>, resolved: set<ID>)
    ensures OpenAmong(xs + ys, resolved) == OpenAmong(xs, resolved) + OpenAmong(ys, resolved)
  {
    if ys == [] {
      assert xs + ys == xs;
    } else {
      assert (xs + ys)[..|xs + ys| - 1] == xs + ys[..|ys| - 1];
      OpenConcat(xs, ys[..|ys| - 1], resolved);
    }
  }

  /** The calls to execute stand in the order of the messages that made them. */
  lemma McpInOrder(xs: seq<Message>, ys: seq<Message>, resolved: set<ID>, tools: set<string>)
    ensures Mcp(OpenAmong(xs + ys, resolved), tools) == Mcp(OpenAmong(xs, resolved), tools) + Mcp(OpenAmong(ys, resolved), tools)
  {
    OpenConcat(xs, ys, resolved);
    McpConcat(OpenAmong(xs, resolved), OpenAmong(ys, resolved), tools);
  }

  function Executable(calls: seq<ToolCall>, resolved: set<ID>, tools: set<string>): seq<ToolCall> {
    Mcp(Unresolved(calls, resolved), tools)
  }

  lemma ExecutableConcat(xs: seq<ToolCall>, ys: seq<ToolCall>, resolved: set<ID>, tools: set<string>)
    ensures Executable(xs + ys, resolved, tools) == Executable(xs, resolved, tools) + Executable(ys, resolved, tools)
  {
    UnresolvedConcat(xs, ys, resolved);
    McpConcat(Unresolved(xs, resolved), Unresolved(ys, resolved), tools);
  }

  lemma ExecutableOne(c: ToolCall, resolved: set<ID>, tools: set<string>)
    ensures Executable([c], resolved, tools) == if c.id !in resolved && c.name in tools then [c] else []
  {
    assert [c][..0] == [] && Unresolved([c][..0], resolved) == [] && Mcp([c][..0], tools) == [];
  }

  lemma OneMessage(m: Message, resolved: set<ID>)
    requires m.role == "assistant"
    ensures OpenAmong([m], resolved) == Unresolved(m.toolCalls, resolved)
  {
    assert [m][..0] == [] && OpenAmong([m][..0], resolved) == [];
  }

  /** And those of one message stand as they do in it. */
  lemma McpInMessage(m: Message, before: seq<ToolCall>, c: ToolCall, after: seq<ToolCall>, resolved: set<ID>, tools: set<string>)
    requires m.role == "assistant" && m.toolCalls == before + [c] + after
    ensures Mcp(OpenAmong([m], resolved), tools) ==
      Executable(before, resolved, tools) + (if c.id !in resolved && c.name in tools then [c] else []) + Executable(after, resolved, tools)
  {
    OneMessage(m, resolved);
    ExecutableConcat(before + [c], after, resolved, tools);
    ExecutableConcat(before, [c], resolved, tools);
    ExecutableOne(c, resolved, tools);
  }

  lemma {:induction false} AllUnresolved(calls: seq<ToolCall>)
    ensures Unresolved(calls, {}) == calls
  {
    if calls != [] {
      AllUnresolved(calls[..|calls| - 1]);
    }
  }

  lemma {:induction false} OpenFiltersAll(messages: seq<Message>, resolved: set<ID>)
    ensures OpenAmong(messages, resolved) == Unresolved(AllCalls(messages), resolved)
  {
    if messages != [] {
      var last := messages[|messages| - 1];
      OpenFiltersAll(messages[..|messages| - 1], resolved);
      UnresolvedConcat(AllCalls(messages[..|messages| - 1]), Unresolved(last.toolCalls, {}), resolved);
      AllUnresolved(last.toolCalls);
    }
  }

  lemma {:induction false} MeansAmong(calls: seq<ToolCall>, resolved: set<ID>, tools: set<string>, call: ToolCall)
    requires call in Mcp(Unresolved(calls, resolved), tools)
    ensures call in calls
  {
    McpMeans(Unresolved(calls, resolved), tools, call);
    UnresolvedMeans(calls, resolved, call);
  }

  lemma {:induction false} FiltersKeepDistinct(calls: seq<ToolCall>, resolved: set<ID>, tools: set<string>)
    requires DistinctIDs(calls)
    ensures DistinctIDs(Mcp(Unresolved(calls, resolved), tools))
  {
    if calls != [] {
      var before, last := calls[..|calls| - 1], calls[|calls| - 1];
      FiltersKeepDistinct(before, resolved, tools);
      var rest := Unresolved(before, resolved);
      assert (rest + [last])[..|rest|] == rest;
      LastIsNew(calls, Mcp(rest, tools), before, resolved, tools);
    }
  }

  lemma LastIsNew(calls: seq<ToolCall>, kept: seq<ToolCall>, before: seq<ToolCall>, resolved: set<ID>, tools: set<string>)
    requires calls != [] && DistinctIDs(calls) && before == calls[..|calls| - 1]
    requires kept == Mcp(Unresolved(before, resolved), tools) && DistinctIDs(kept)
    ensures DistinctIDs(kept + [calls[|calls| - 1]])
  {
    var last := calls[|calls| - 1];
    forall i | 0 <= i < |kept| ensures kept[i].id != last.id {
      MeansAmong(before, resolved, tools, kept[i]);
      var k :| 0 <= k < |before| && before[k] == kept[i];
      assert calls[k] == kept[i];
    }
  }

  /** With distinct identifiers in the history, no call is executed twice within a round. */
  lemma RoundExecutesOnce(messages: seq<Message>, tools: set<string>)
    requires DistinctIDs(AllCalls(messages))
    ensures DistinctIDs(Mcp(OpenCalls(messages), tools))
  {
    OpenFiltersAll(messages, Resolved(messages));
    FiltersKeepDistinct(AllCalls(messages), Resolved(messages), tools);
  }

  /** A call without an identifier stays open whatever is answered. */
  lemma AnonymousCallStaysOpen(messages: seq<Message>, later: seq<Message>, call: ToolCall)
    requires CalledIn(messages, call) && call.id.IsEmpty() && messages <= later
    ensures call in OpenCalls(later)
  {
    var i :| 0 <= i < |messages| && messages[i].role == "assistant" && call in messages[i].toolCalls;
    assert later[i] == messages[i];
    OpenMeans(later, call);
  }

  // ----- Histories -----

  lemma ResolvedGrows(xs: seq<Message>, ys: seq<Message>)
    requires xs <= ys
    ensures Resolved(xs) <= Resolved(ys)
  {
    assert forall m :: m in xs ==> m in ys;
  }

  function ResultsFor(calls: seq<ToolCall>, contents: seq<string>, serial: nat): seq<Message>
    requires |contents| == |calls|
  {
    if calls == [] then []
    else
      var n := |calls| - 1;
      ResultsFor(calls[..n], contents[..n], serial) + [Message(Generated(serial + n), "tool", Some(contents[n]), [], calls[n].id)]
  }

  lemma {:induction false} ResultsForMeans(calls: seq<ToolCall>, contents: seq<string>, serial: nat)
    requires |contents| == |calls|
    ensures forall m :: m in ResultsFor(calls, contents, serial) ==> m.role == "tool" && m.toolCalls == []
    ensures forall c :: c in calls ==> exists m :: m in ResultsFor(calls, contents, serial) && m.toolCallID == c.id
  {
    if calls != [] {
      var n := |calls| - 1;
      ResultsForMeans(calls[..n], contents[..n], serial);
      var rest, last := ResultsFor(calls[..n], contents[..n], serial), Message(Generated(serial + n), "tool", Some(contents[n]), [], calls[n].id);
      forall c | c in calls ensures exists m :: m in rest + [last] && m.toolCallID == c.id {
        if c in calls[..n] {
          var m :| m in rest && m.toolCallID == c.id;
          assert m in rest + [last];
        } else {
          assert c == calls[n];
          assert last in rest + [last];
        }
      }
    }
  }

  /** Executing all open MCP calls leaves no identified MCP call open. */
  lemma RoundClosesMcp(messages: seq<Message>, tools: set<string>, contents: seq<string>, serial: nat)
    requires |contents| == |Mcp(OpenCalls(messages), tools)|
    ensures
      var after := messages + ResultsFor(Mcp(OpenCalls(messages), tools), contents, serial);
      && (forall c :: c in OpenCalls(after) ==> c in OpenCalls(messages))
      && (forall c :: c in OpenCalls(after) && c.name in tools ==> c.id.IsEmpty())
      && forall c :: c in Mcp(OpenCalls(messages), tools) && !c.id.IsEmpty() ==> c.id in Resolved(after)
  {
    var calls := Mcp(OpenCalls(messages), tools);
    var results := ResultsFor(calls, contents, serial);
    var after := messages + results;
    ResultsForMeans(calls, contents, serial);
    forall c | c in calls && !c.id.IsEmpty() ensures c.id in Resolved(after) {
      var m :| m in results && m.toolCallID == c.id;
      assert m in after;
    }
    forall c | c in OpenCalls(after) ensures c in OpenCalls(messages) && (c.name in tools ==> c.id.IsEmpty()) {
      OpenMeans(after, c);
      var i :| 0 <= i < |after| && after[i].role == "assistant" && c in after[i].toolCalls;
      assert forall k :: |messages| <= k < |after| ==> after[k] in results;
      assert i < |messages| && messages[i] == after[i];
      assert forall m :: m in messages ==> m in after;
      OpenMeans(messages, c);
      McpMeans(OpenCalls(messages), tools, c);
    }
  }

  // ----- The loop -----

  /** What the inner agent's iterator yields. */
  datatype Yield = Failed(message: string) | Yielded(event: Event)

  /** How one run of the inner agent went. */
  datatype InnerRun = Completed(events: seq<Event>, finished: Option<Event>) | Stopped

  /** The events passed on: all but the RUN_FINISHED and a repeated RUN_STARTED, up to an error. */
  function Forwarded(stream: seq<Yield>, started: bool): seq<Event> {
    if stream == [] || stream[0].Failed? || stream[0].event.RunError? then []
    else
      var e := stream[0].event;
      if e.RunFinished? || (e.RunStarted? && started) then Forwarded(stream[1..], started)
      else [e] + Forwarded(stream[1..], started || e.RunStarted?)
  }

  /** The error that ended the stream, if one did, and the last RUN_FINISHED, held back. */
  function EndOf(stream: seq<Yield>, held: Option<Event>): (r: (Option<Event>, Option<Event>))
    ensures r.0.Some? ==> r.0.value.RunError?
    ensures (held.Some? ==> held.value.RunFinished?) && r.1.Some? ==> r.1.value.RunFinished?
  {
    if stream == [] then (None, held)
    else match stream[0]
      case Failed(message) => (Some(RunError("agui: agent error: " + message, [])), None)
      case Yielded(e) =>
        if e.RunError? then (Some(e), None) else EndOf(stream[1..], if e.RunFinished? then Some(e) else held)
  }

  /** Forwarding the stream comes down to forwarding the rest of it after what was collected. */
  ghost predicate Underneath(stream: seq<Yield>, runStarted: bool, i: nat, started: bool, collected: seq<Event>, held: Option<Event>) {
    && i <= |stream|
    && Forwarded(stream, runStarted) == collected + Forwarded(stream[i..], started)
    && EndOf(stream, None) == EndOf(stream[i..], held)
  }

  lemma StreamBegins(stream: seq<Yield>, runStarted: bool)
    ensures Underneath(stream, runStarted, 0, runStarted, [], None)
  {
    assert stream[0..] == stream;
    assert [] + Forwarded(stream, runStarted) == Forwarded(stream, runStarted);
  }

  lemma StreamEnds(stream: seq<Yield>, runStarted: bool, started: bool, collected: seq<Event>, held: Option<Event>)
    requires Underneath(stream, runStarted, |stream|, started, collected, held)
    ensures Forwarded(stream, runStarted) == collected && EndOf(stream, None) == (None, held)
  {
    assert stream[|stream|..] == [] && collected + [] == collected;
  }

  /** What the next yield adds to what was forwarded, and to what ends the stream. */
  lemma OneYield(stream: seq<Yield>, runStarted: bool, i: nat, started: bool, collected: seq<Event>, held: Option<Event>)
    requires i < |stream| && Underneath(stream, runStarted, i, started, collected, held)
    ensures
      var y := stream[i];
      if y.Failed? then
        Forwarded(stream, runStarted) == collected &&
        EndOf(stream, None) == (Some(RunError("agui: agent error: " + y.message, [])), None)
      else if y.event.RunError? then Forwarded(stream, runStarted) == collected && EndOf(stream, None) == (Some(y.event), None)
      else if y.event.RunFinished? then Underneath(stream, runStarted, i + 1, started, collected, Some(y.event))
      else if y.event.RunStarted? && started then Underneath(stream, runStarted, i + 1, started, collected, held)
      else Underneath(stream, runStarted, i + 1, started || y.event.RunStarted?, collected + [y.event], held)
  {
    var rest := stream[i..];
    assert rest != [] && rest[0] == stream[i] && rest[1..] == stream[i + 1..];
    assert collected + [] == collected;
    if stream[i].Yielded? {
      var e := stream[i].event;
      var more := Forwarded(stream[i + 1..], started || e.RunStarted?);
      assert collected + ([e] + more) == collected + [e] + more;
    }
  }

  function Sent(events: seq<Event>): seq<Emitted> {
    if events == [] then [] else Sent(events[..|events| - 1]) + [Emitted(None, events[|events| - 1])]
  }

  function Optional(e: Option<Event>): seq<Emitted> { if e.Some? then [Emitted(None, e.value)] else [] }

  lemma SentOneMore(events: seq<Event>, e: Event)
    ensures Sent(events + [e]) == Sent(events) + [Emitted(None, e)]
  {
    assert (events + [e])[..|events|] == events;
  }

  /** The results of a round, call by call. */
  function Contents(callTool: (nat, ToolCall) -> string, iteration: nat, calls: seq<ToolCall>): (r: seq<string>)
    ensures |r| == |calls|
  {
    if calls == [] then []
    else Contents(callTool, iteration, calls[..|calls| - 1]) + [callTool(iteration, calls[|calls| - 1])]
  }

  function ResultEvents(calls: seq<ToolCall>, contents: seq<string>, serial: nat): seq<Emitted>
    requires |contents| == |calls|
  {
    if calls == [] then []
    else
      var n := |calls| - 1;
      ResultEvents(calls[..n], contents[..n], serial) +
      [Emitted(None, ToolCallResult(Generated(serial + n), calls[n].id, contents[n]))]
  }

  /** Nothing follows a terminal event, and the run is announced at most once. */
  ghost predicate Orderly(out: seq<Emitted>) {
    && (forall i :: 0 <= i < |out| - 1 ==> !out[i].event.Terminal())
    && (forall i, j :: 0 <= i < j < |out| ==> !(out[i].event.RunStarted? && out[j].event.RunStarted?))
  }

  ghost predicate Unfinished(out: seq<Emitted>) {
    forall i :: 0 <= i < |out| ==> !out[i].event.Terminal()
  }

  ghost predicate Announced(out: seq<Emitted>) {
    exists i :: 0 <= i < |out| && out[i].event.RunStarted?
  }

  lemma AnnouncedAppend(out: seq<Emitted>, m: Emitted)
    ensures Announced(out + [m]) <==> Announced(out) || m.event.RunStarted?
  {
    assert (out + [m])[|out|] == m;
    assert forall i :: 0 <= i < |out| ==> (out + [m])[i] == out[i];
  }

  /** One execution round: the history rebuilt from an inner run and the calls executed. */
  datatype Round = Round(announced: bool, builtAt: nat, history: seq<Message>, calls: seq<ToolCall>, answeredAt: nat)

  /** Whether the agent may be invoked again: the only open calls are MCP calls without an
      identifier, which no result can ever close. */
  ghost predicate Settled(messages: seq<Message>, tools: set<string>) {
    forall c :: c in OpenCalls(messages) ==> c.name in tools && c.id.IsEmpty()
  }

  datatype Turn = Finished | HandedOff(round: Round) | Continued(round: Round, next: seq<Message>)

  /** A turn with what it started from and what it left. */
  datatype Made = Made(input: seq<Message>, announced: bool, serial: nat, serial1: nat,
                       before: seq<Emitted>, after: seq<Emitted>, turn: Turn)

  datatype World = World(agent: (nat, seq<Message>) -> seq<Yield>, callTool: (nat, ToolCall) -> string, tools: set<string>)

  /** A round executes exactly the open MCP calls of the history the inner run leads to. */
  ghost predicate GoodRound(w: World, r: Round, i: nat, input: seq<Message>) {
    && r.history == Rebuilt(input, Forwarded(w.agent(i, input), r.announced), r.builtAt)
    && r.calls == Mcp(OpenCalls(r.history), w.tools) && r.calls != []
  }

  /** The next history adds one result for each executed call. */
  ghost predicate Answers(w: World, r: Round, i: nat, next: seq<Message>) {
    next == r.history + ResultsFor(r.calls, Contents(w.callTool, i + 1, r.calls), r.answeredAt)
  }

  lemma AnswersResolve(w: World, r: Round, i: nat, next: seq<Message>)
    requires Answers(w, r, i, next)
    ensures forall c :: c in r.calls && !c.id.IsEmpty() ==> c.id in Resolved(next)
  {
    var results := ResultsFor(r.calls, Contents(w.callTool, i + 1, r.calls), r.answeredAt);
    ResultsForMeans(r.calls, Contents(w.callTool, i + 1, r.calls), r.answeredAt);
    forall c | c in r.calls && !c.id.IsEmpty() ensures c.id in Resolved(next) {
      var m :| m in results && m.toolCallID == c.id;
      assert m in next;
    }
  }

  /** Every identified call executed so far has its result in the history. */
  ghost predicate AllAnswered(rounds: seq<Round>, messages: seq<Message>) {
    forall i, c :: 0 <= i < |rounds| && c in rounds[i].calls && !c.id.IsEmpty() ==> c.id in Resolved(messages)
  }

  ghost predicate RoundsGood(w: World, rounds: seq<Round>, inputs: seq<seq<Message>>)
    requires |rounds| <= |inputs|
  {
    forall i :: 0 <= i < |rounds| ==> GoodRound(w, rounds[i], i, inputs[i])
  }

  ghost predicate RoundsAnswered(w: World, rounds: seq<Round>, inputs: seq<seq<Message>>) {
    forall i :: 0 < i < |inputs| && i <= |rounds| ==> Answers(w, rounds[i - 1], i - 1, inputs[i])
  }

  ghost predicate AllSettled(inputs: seq<seq<Message>>, tools: set<string>) {
    forall i :: 0 < i < |inputs| ==> Settled(inputs[i], tools)
  }

  ghost predicate AnsweredBefore(rounds: seq<Round>) {
    forall i :: 0 <= i < |rounds| ==> AllAnswered(rounds[..i], rounds[i].history)
  }

  /** The inputs of the inner runs and the rounds executed after them. */
  ghost predicate GoodRun(w: World, original: seq<Message>, rounds: seq<Round>, inputs: seq<seq<Message>>) {
    && |rounds| <= |inputs| && inputs != [] && inputs[0] == original
    && RoundsGood(w, rounds, inputs) && RoundsAnswered(w, rounds, inputs)
    && AllSettled(inputs, w.tools) && AnsweredBefore(rounds)
  }

  /** No identified call is executed in two rounds. */
  lemma ExecutedInOneRound(w: World, original: seq<Message>, rounds: seq<Round>, inputs: seq<seq<Message>>,
                           i: nat, j: nat, c: ToolCall, d: ToolCall)
    requires GoodRun(w, original, rounds, inputs) && i < j < |rounds|
    requires c in rounds[i].calls && d in rounds[j].calls && !c.id.IsEmpty()
    ensures c.id != d.id
  {
    assert GoodRound(w, rounds[j], j, inputs[j]);
    assert AllAnswered(rounds[..j], rounds[j].history) && rounds[..j][i] == rounds[i];
    McpMeans(OpenCalls(rounds[j].history), w.tools, d);
    OpenAmongMeans(rounds[j].history, Resolved(rounds[j].history), d);
  }

  lemma HistoryGrows(w: World, r: Round, i: nat, input: seq<Message>)
    requires GoodRound(w, r, i, input)
    ensures input <= r.history
  {
    HistoryKept(Builder(input, None, "", r.builtAt), Forwarded(w.agent(i, input), r.announced));
  }

  lemma NextHistory(w: World, r: Round, next: Round, i: nat, input: seq<Message>)
    requires Answers(w, r, i, input) && GoodRound(w, next, i + 1, input)
    ensures r.history <= next.history
  {
    HistoryGrows(w, next, i + 1, input);
    PrefixesChain(r.history, input, next.history);
  }

  lemma PrefixesChain(xs: seq<Message>, ys: seq<Message>, zs: seq<Message>)
    requires xs <= ys <= zs
    ensures xs <= zs
  {
  }

  /** Later rounds work on extended histories. */
  lemma {:induction false} LaterHistory(w: World, rounds: seq<Round>, inputs: seq<seq<Message>>, i: nat, j: nat)
    requires |rounds| <= |inputs| && RoundsGood(w, rounds, inputs) && RoundsAnswered(w, rounds, inputs) && i <= j < |rounds|
    ensures rounds[i].history <= rounds[j].history
    decreases j - i
  {
    if i < j {
      LaterHistory(w, rounds, inputs, i, j - 1);
      NextHistory(w, rounds[j - 1], rounds[j], j - 1, inputs[j]);
      PrefixesChain(rounds[i].history, rounds[j - 1].history, rounds[j].history);
    }
  }

  /** A call of one round is executed again in a later one, and so in every later one, if and
      only if it has no identifier. */
  lemma ExecutedAgainExactly(w: World, original: seq<Message>, rounds: seq<Round>, inputs: seq<seq<Message>>,
                             i: nat, j: nat, c: ToolCall)
    requires GoodRun(w, original, rounds, inputs) && i < j < |rounds| && c in rounds[i].calls
    ensures c in rounds[j].calls <==> c.id.IsEmpty()
  {
    if c.id.IsEmpty() {
      LaterHistory(w, rounds, inputs, i, j);
      assert GoodRound(w, rounds[i], i, inputs[i]) && GoodRound(w, rounds[j], j, inputs[j]);
      McpMeans(OpenCalls(rounds[i].history), w.tools, c);
      OpenMeans(rounds[i].history, c);
      AnonymousCallStaysOpen(rounds[i].history, rounds[j].history, c);
      McpMeans(OpenCalls(rounds[j].history), w.tools, c);
    } else if c in rounds[j].calls {
      ExecutedInOneRound(w, original, rounds, inputs, i, j, c, c);
    }
  }

  /** The history in which one tool was called without an identifier, and results for it. */
  function Anonymous(id: ID, name: string, answers: nat): seq<Message> {
    if answers == 0 then [Message(id, "assistant", None, [ToolCall(NoID, name, "")], NoID)]
    else Anonymous(id, name, answers - 1) + [Message(Generated(answers), "tool", Some("done"), [], NoID)]
  }

  lemma OtherMessage(xs: seq<Message>, m: Message, resolved: set<ID>)
    requires m.role != "assistant" && m.toolCallID.IsEmpty()
    ensures OpenAmong(xs + [m], resolved) == OpenAmong(xs, resolved) && Resolved(xs + [m]) == Resolved(xs)
  {
    assert (xs + [m])[..|xs|] == xs;
  }

  lemma {:induction false} AnonymousOpen(id: ID, name: string, answers: nat)
    ensures var h := Anonymous(id, name, answers); Resolved(h) == {} && OpenAmong(h, {}) == [ToolCall(NoID, name, "")]
  {
    if answers == 0 {
      var call := ToolCall(NoID, name, "");
      var m := Message(id, "assistant", None, [call], NoID);
      OneMessage(m, {});
      AllUnresolved([call]);
    } else {
      AnonymousOpen(id, name, answers - 1);
      OtherMessage(Anonymous(id, name, answers - 1), Message(Generated(answers), "tool", Some("done"), [], NoID), {});
    }
  }

  const Silent: World := World((i, input) => [], (i, call) => "done", {"tool"})

  function AnonymousRound(id: ID, answers: nat): Round {
    Round(false, 0, Anonymous(id, "tool", answers), [ToolCall(NoID, "tool", "")], answers + 1)
  }

  lemma McpOne(call: ToolCall, tools: set<string>)
    requires call.name in tools
    ensures Mcp([call], tools) == [call]
  {
    assert [call][..0] == [] && Mcp([call][..0], tools) == [];
  }

  lemma SilentRound(id: ID, answers: nat, i: nat)
    ensures GoodRound(Silent, AnonymousRound(id, answers), i, Anonymous(id, "tool", answers))
  {
    AnonymousOpen(id, "tool", answers);
    McpOne(ToolCall(NoID, "tool", ""), {"tool"});
  }

  lemma SilentAnswer(id: ID, answers: nat, i: nat)
    ensures Answers(Silent, AnonymousRound(id, answers), i, Anonymous(id, "tool", answers + 1))
  {
    var call := ToolCall(NoID, "tool", "");
    assert [call][..0] == [] && Contents(Silent.callTool, i + 1, [call][..0]) == [];
    assert Contents(Silent.callTool, i + 1, [call]) == ["done"];
    assert ["done"][..0] == [] && ResultsFor([call][..0], ["done"][..0], answers + 1) == [];
  }

  lemma SilentSettled(id: ID, answers: nat)
    ensures Settled(Anonymous(id, "tool", answers), {"tool"})
  {
    AnonymousOpen(id, "tool", answers);
  }

  lemma TwoRounds(w: World, r: Round, next: Round, input: seq<Message>, answered: seq<Message>)
    requires GoodRound(w, r, 0, input) && GoodRound(w, next, 1, answered) && Answers(w, r, 0, answered) && Settled(answered, w.tools)
    requires forall c :: c in r.calls ==> c.id.IsEmpty()
    ensures GoodRun(w, input, [r, next], [input, answered])
  {
    var rounds, inputs := [r, next], [input, answered];
    assert RoundsGood(w, rounds, inputs);
    assert RoundsAnswered(w, rounds, inputs);
    assert AllSettled(inputs, w.tools);
    assert rounds[..0] == [] && rounds[..1] == [r];
    assert AllAnswered([], r.history) && AllAnswered([r], next.history);
  }

  /** For example, an agent that says nothing more still has its call executed round by round. */
  lemma ExecutedTwice(id: ID)
    ensures AnonymousRound(id, 0).calls == AnonymousRound(id, 1).calls == [ToolCall(NoID, "tool", "")]
    ensures GoodRun(Silent, Anonymous(id, "tool", 0), [AnonymousRound(id, 0), AnonymousRound(id, 1)],
                    [Anonymous(id, "tool", 0), Anonymous(id, "tool", 1)])
  {
    SilentRound(id, 0, 0);
    SilentRound(id, 1, 1);
    SilentAnswer(id, 0, 0);
    SilentSettled(id, 1);
    TwoRounds(Silent, AnonymousRound(id, 0), AnonymousRound(id, 1), Anonymous(id, "tool", 0), Anonymous(id, "tool", 1));
  }

  /** When no call identifier is empty, the agent is invoked again only on histories
      without any open call. */
  lemma ReinvokedWithoutOpenCalls(w: World, original: seq<Message>, rounds: seq<Round>, inputs: seq<seq<Message>>, i: nat)
    requires GoodRun(w, original, rounds, inputs) && 0 < i < |inputs|
    requires forall c :: CalledIn(inputs[i], c) ==> !c.id.IsEmpty()
    ensures OpenCalls(inputs[i]) == []
  {
    if OpenCalls(inputs[i]) != [] {
      var c := OpenCalls(inputs[i])[0];
      OpenMeans(inputs[i], c);
    }
  }

  /** Every history extends the original one. */
  lemma {:induction false} HistoriesGrow(w: World, original: seq<Message>, rounds: seq<Round>, inputs: seq<seq<Message>>, i: nat)
    requires GoodRun(w, original, rounds, inputs) && i < |inputs| && i <= |rounds|
    ensures original <= inputs[i]
  {
    if i > 0 {
      HistoriesGrow(w, original, rounds, inputs, i - 1);
      var r := rounds[i - 1];
      assert GoodRound(w, r, i - 1, inputs[i - 1]) && Answers(w, r, i - 1, inputs[i]);
      HistoryGrows(w, r, i - 1, inputs[i - 1]);
    }
  }

  lemma AnsweredOneMore(rounds: seq<Round>, r: Round)
    requires AnsweredBefore(rounds) && AllAnswered(rounds, r.history)
    ensures AnsweredBefore(rounds + [r])
  {
    var all := rounds + [r];
    forall i | 0 <= i < |all| ensures AllAnswered(all[..i], all[i].history) {
      if i < |rounds| {
        assert all[..i] == rounds[..i] && all[i] == rounds[i];
      } else {
        assert all[..i] == rounds;
      }
    }
  }

  lemma AnswersStay(rounds: seq<Round>, xs: seq<Message>, ys: seq<Message>)
    requires AllAnswered(rounds, xs) && xs <= ys
    ensures AllAnswered(rounds, ys)
  {
    ResolvedGrows(xs, ys);
  }

  lemma RunGrows(w: World, original: seq<Message>, rounds: seq<Round>, inputs: seq<seq<Message>>, r: Round)
    requires GoodRun(w, original, rounds, inputs) && |inputs| == |rounds| + 1
    requires AllAnswered(rounds, inputs[|rounds|]) && GoodRound(w, r, |rounds|, inputs[|rounds|])
    ensures GoodRun(w, original, rounds + [r], inputs) && AllAnswered(rounds, r.history)
  {
    HistoryGrows(w, r, |rounds|, inputs[|rounds|]);
    AnswersStay(rounds, inputs[|rounds|], r.history);
    AnsweredOneMore(rounds, r);
  }

  lemma AnswersOneMore(w: World, rounds: seq<Round>, inputs: seq<seq<Message>>, next: seq<Message>)
    requires RoundsAnswered(w, rounds, inputs) && |inputs| == |rounds| && rounds != []
    requires Answers(w, rounds[|rounds| - 1], |rounds| - 1, next)
    ensures RoundsAnswered(w, rounds, inputs + [next])
  {
  }

  lemma RunContinues(w: World, original: seq<Message>, rounds: seq<Round>, inputs: seq<seq<Message>>, r: Round, next: seq<Message>)
    requires GoodRun(w, original, rounds + [r], inputs) && |inputs| == |rounds| + 1
    requires AllAnswered(rounds, r.history) && Answers(w, r, |rounds|, next) && Settled(next, w.tools)
    ensures GoodRun(w, original, rounds + [r], inputs + [next]) && AllAnswered(rounds + [r], next)
  {
    AnswersStay(rounds, r.history, next);
    AnswersResolve(w, r, |rounds|, next);
    AnswersOneMore(w, rounds + [r], inputs, next);
    assert RoundsGood(w, rounds + [r], inputs + [next]) by {
      assert forall i :: 0 <= i < |inputs| ==> (inputs + [next])[i] == inputs[i];
    }
  }

  // ----- What a turn means, event by event -----

  /** The error that ends the stream. */
  predicate Fails(y: Yield) { y.Failed? || y.event.RunError? }

  /** An event that is passed on: not a RUN_FINISHED, and a RUN_STARTED only if it is the first. */
  predicate Passes(stream: seq<Yield>, started: bool, i: nat)
    requires i < |stream| && forall j :: 0 <= j <= i ==> stream[j].Yielded?
  {
    var e := stream[i].event;
    !e.RunFinished? && (e.RunStarted? ==> !started && forall j :: 0 <= j < i ==> !stream[j].event.RunStarted?)
  }

  /** The events passed on are those at the given places before the n-th: all that pass, in order. */
  ghost predicate PassedAt(stream: seq<Yield>, started: bool, n: nat, at: seq<nat>, events: seq<Event>) {
    && n <= |stream| && (forall j :: 0 <= j < n ==> stream[j].Yielded?) && |at| == |events|
    && (forall k, l :: 0 <= k < l < |at| ==> at[k] < at[l])
    && (forall k :: 0 <= k < |at| ==> at[k] < n && events[k] == stream[at[k]].event)
    && forall i :: 0 <= i < n ==> (i in at <==> Passes(stream, started, i))
  }

  /** The last RUN_FINISHED among the first n yields. */
  ghost predicate HeldBack(stream: seq<Yield>, n: nat, held: Option<Event>) {
    && n <= |stream| && (forall j :: 0 <= j < n ==> stream[j].Yielded?)
    && if held.None? then forall i :: 0 <= i < n ==> !stream[i].event.RunFinished?
       else
         && held.value.RunFinished?
         && exists i :: 0 <= i < n && stream[i].event == held.value && forall j :: i < j < n ==> !stream[j].event.RunFinished?
  }

  /** What is passed on of an inner run, the error that ends it, and the RUN_FINISHED held back. */
  ghost predicate Relays(stream: seq<Yield>, started: bool, events: seq<Event>, error: Option<Event>, held: Option<Event>) {
    exists n: nat, at :: PassedAt(stream, started, n, at, events) && EndsAt(stream, n, error) && (error.None? ==> HeldBack(stream, n, held))
  }

  ghost predicate EndsAt(stream: seq<Yield>, n: nat, error: Option<Event>) {
    && n <= |stream| && (forall j :: 0 <= j < n ==> !Fails(stream[j]))
    && if n == |stream| then error.None?
       else
         && Fails(stream[n])
         && error == Some(if stream[n].Failed? then RunError("agui: agent error: " + stream[n].message, []) else stream[n].event)
  }

  ghost predicate SoFar(stream: seq<Yield>, started: bool, i: nat, at: seq<nat>, events: seq<Event>, held: Option<Event>) {
    PassedAt(stream, started, i, at, events) && HeldBack(stream, i, held) && forall j :: 0 <= j < i ==> !Fails(stream[j])
  }

  lemma PassesOneMore(stream: seq<Yield>, started: bool, i: nat, at: seq<nat>, events: seq<Event>, held: Option<Event>)
    requires SoFar(stream, started, i, at, events, held) && i < |stream| && !Fails(stream[i])
    ensures
      var e := stream[i].event;
      if Passes(stream, started, i) then SoFar(stream, started, i + 1, at + [i], events + [e], held)
      else SoFar(stream, started, i + 1, at, events, if e.RunFinished? then Some(e) else held)
  {
    var e := stream[i].event;
    assert e.RunFinished? ==> HeldBack(stream, i + 1, Some(e));
    assert !e.RunFinished? ==> HeldBack(stream, i + 1, held);
  }

  predicate Stops(stream: seq<Yield>, n: nat) { n == |stream| || (n < |stream| && Fails(stream[n])) }

  function EndingAt(stream: seq<Yield>, n: nat, held: Option<Event>): (Option<Event>, Option<Event>)
    requires n <= |stream| && Stops(stream, n)
  {
    if n == |stream| then (None, held)
    else (Some(if stream[n].Failed? then RunError("agui: agent error: " + stream[n].message, []) else stream[n].event), None)
  }

  predicate StartedBefore(stream: seq<Yield>, started: bool, i: nat)
    requires i <= |stream| && forall j :: 0 <= j < i ==> stream[j].Yielded?
  {
    started || exists j :: 0 <= j < i && stream[j].event.RunStarted?
  }

  lemma OneForwarded(stream: seq<Yield>, i: nat, started: bool, held: Option<Event>, events: seq<Event>)
    requires i < |stream| && !Fails(stream[i])
    ensures
      var e, rest := stream[i].event, stream[i + 1..];
      && events + Forwarded(stream[i..], started) ==
        (if e.RunFinished? || (e.RunStarted? && started) then events else events + [e]) + Forwarded(rest, started || e.RunStarted?)
      && EndOf(stream[i..], held) == EndOf(rest, if e.RunFinished? then Some(e) else held)
  {
    var e, rest := stream[i].event, stream[i + 1..];
    assert stream[i..][0] == stream[i] && stream[i..][1..] == rest;
    assert events + ([e] + Forwarded(rest, started || e.RunStarted?)) == events + [e] + Forwarded(rest, started || e.RunStarted?);
  }

  lemma StartsOneMore(stream: seq<Yield>, started: bool, i: nat)
    requires i < |stream| && forall j :: 0 <= j <= i ==> stream[j].Yielded?
    ensures StartedBefore(stream, started, i + 1) <==> StartedBefore(stream, started, i) || stream[i].event.RunStarted?
    ensures Passes(stream, started, i) <==>
      !stream[i].event.RunFinished? && !(stream[i].event.RunStarted? && StartedBefore(stream, started, i))
  {
  }

  lemma OneRelayed(stream: seq<Yield>, started: bool, i: nat, at: seq<nat>, events: seq<Event>, held: Option<Event>)
      returns (nextAt: seq<nat>, more: seq<Event>, nextHeld: Option<Event>)
    requires SoFar(stream, started, i, at, events, held) && i < |stream| && !Fails(stream[i])
    ensures SoFar(stream, started, i + 1, nextAt, more, nextHeld)
    ensures more + Forwarded(stream[i + 1..], StartedBefore(stream, started, i + 1))
      == events + Forwarded(stream[i..], StartedBefore(stream, started, i))
    ensures EndOf(stream[i + 1..], nextHeld) == EndOf(stream[i..], held)
  {
    var e := stream[i].event;
    PassesOneMore(stream, started, i, at, events, held);
    StartsOneMore(stream, started, i);
    OneForwarded(stream, i, StartedBefore(stream, started, i), held, events);
    if Passes(stream, started, i) {
      nextAt, more, nextHeld := at + [i], events + [e], held;
    } else {
      nextAt, more, nextHeld := at, events, if e.RunFinished? then Some(e) else held;
    }
  }

  lemma NothingRelayed(stream: seq<Yield>, n: nat, now: bool, held: Option<Event>)
    requires n <= |stream| && Stops(stream, n)
    ensures Forwarded(stream[n..], now) == [] && EndOf(stream[n..], held) == EndingAt(stream, n, held)
  {
    assert n < |stream| ==> stream[n..][0] == stream[n];
  }

  /** Reading a stream yield by yield agrees with reading it place by place. */
  lemma StreamRelays(stream: seq<Yield>, started: bool)
    ensures var (error, held) := EndOf(stream, None); Relays(stream, started, Forwarded(stream, started), error, held)
  {
    assert stream[0..] == stream && [] + Forwarded(stream, started) == Forwarded(stream, started);
    var n, at: seq<nat>, events: seq<Event>, held: Option<Event> := 0, [], [], None;
    while n < |stream| && !Fails(stream[n])
      invariant n <= |stream| && SoFar(stream, started, n, at, events, held)
      invariant events + Forwarded(stream[n..], StartedBefore(stream, started, n)) == Forwarded(stream, started)
      invariant EndOf(stream[n..], held) == EndOf(stream, None)
    {
      at, events, held := OneRelayed(stream, started, n, at, events, held);
      n := n + 1;
    }
    NothingRelayed(stream, n, StartedBefore(stream, started, n), held);
    assert events + [] == events;
    assert EndsAt(stream, n, EndingAt(stream, n, held).0);
  }

  /** Every call is executed once, by itself, and answered under a new identifier: by an event
      and by a message with what the tool said to this call. */
  ghost predicate EachExecuted(callTool: (nat, ToolCall) -> string, iteration: nat, calls: seq<ToolCall>, serial: nat,
                               events: seq<Emitted>, messages: seq<Message>) {
    && |events| == |messages| == |calls|
    && forall k :: 0 <= k < |calls| ==>
      var said := callTool(iteration, calls[k]);
      && events[k] == Emitted(None, ToolCallResult(Generated(serial + k), calls[k].id, said))
      && messages[k] == Message(Generated(serial + k), "tool", Some(said), [], calls[k].id)
  }

  lemma {:induction false} CallsExecuted(callTool: (nat, ToolCall) -> string, iteration: nat, calls: seq<ToolCall>, serial: nat)
    ensures
      var contents := Contents(callTool, iteration, calls);
      EachExecuted(callTool, iteration, calls, serial, ResultEvents(calls, contents, serial), ResultsFor(calls, contents, serial))
  {
    if calls != [] {
      var before := calls[..|calls| - 1];
      CallsExecuted(callTool, iteration, before, serial);
      var contents := Contents(callTool, iteration, calls);
      assert contents[..|calls| - 1] == Contents(callTool, iteration, before);
    }
  }

  /** What follows an inner run without an error: nothing but its RUN_FINISHED when no MCP call
      is open or the rounds are used up; otherwise the open MCP calls are executed, and the
      agent is invoked again unless a call of another tool is still open. */
  ghost predicate Pursued(w: World, rounds: nat, i: nat, input: seq<Message>, events: seq<Event>, held: Option<Event>,
                          serial: nat, serial1: nat, tail: seq<Emitted>, turn: Turn) {
    var history := Rebuilt(input, events, serial);
    var calls := Mcp(OpenCalls(history), w.tools);
    if calls == [] || i >= rounds then turn.Finished? && tail == Optional(held)
    else exists results, messages ::
      && EachExecuted(w.callTool, i + 1, calls, serial1, results, messages)
      && !turn.Finished? && turn.round.history == history && turn.round.calls == calls
      && if HasForeign(OpenCalls(history + messages), w.tools) then turn.HandedOff? && tail == results + Optional(held)
         else turn.Continued? && turn.next == history + messages && tail == results
  }

  ghost predicate HasForeign(calls: seq<ToolCall>, tools: set<string>) { exists c :: c in calls && c.name !in tools }

  /** A turn, told by what the client receives. */
  ghost predicate TurnSeen(w: World, rounds: nat, i: nat, m: Made) {
    exists events, error, held, tail ::
      && Relays(w.agent(i, m.input), m.announced, events, error, held) && m.after == m.before + Sent(events) + tail
      && if error.Some? then m.turn.Finished? && tail == [Emitted(None, error.value)]
         else Pursued(w, rounds, i, m.input, events, held, m.serial, m.serial1, tail, m.turn)
  }

  lemma SeenAs(w: World, rounds: nat, i: nat, m: Made, events: seq<Event>, error: Option<Event>, held: Option<Event>, tail: seq<Emitted>)
    requires Relays(w.agent(i, m.input), m.announced, events, error, held) && m.after == m.before + Sent(events) + tail
    requires if error.Some? then m.turn.Finished? && tail == [Emitted(None, error.value)]
             else Pursued(w, rounds, i, m.input, events, held, m.serial, m.serial1, tail, m.turn)
    ensures TurnSeen(w, rounds, i, m)
  {
  }

  class McpLoop {
    const agent: (nat, seq<Message>) -> seq<Yield>
    const callTool: (nat, ToolCall) -> string
    const tools: set<string>
    const maxIterations: nat

    constructor (agent: (nat, seq<Message>) -> seq<Yield>, callTool: (nat, ToolCall) -> string, tools: set<string>, maxIterations: int)
      ensures this.agent == agent && this.callTool == callTool && this.tools == tools
      ensures this.maxIterations == if maxIterations <= 0 then DEFAULT_MAX_ITERATIONS else maxIterations
    {
      this.agent, this.callTool, this.tools := agent, callTool, tools;
      this.maxIterations := if maxIterations <= 0 then DEFAULT_MAX_ITERATIONS else maxIterations;
    }

    ghost function Surroundings(): World { World(agent, callTool, tools) }

    /** One run of the inner agent: its RUN_STARTED is forwarded only once, its RUN_FINISHED
        is held back, and an error ends everything. */
    method RunInner(stream: seq<Yield>, emitter: EventEmitter, runStarted: bool) returns (run: InnerRun, started: bool)
      requires Orderly(emitter.out) && Unfinished(emitter.out) && (runStarted <==> Announced(emitter.out))
      modifies emitter`out
      ensures Orderly(emitter.out)
      ensures
        var events, (error, held) := Forwarded(stream, runStarted), EndOf(stream, None);
        && run == (if error.Some? then Stopped else Completed(events, held))
        && (error.Some? ==> emitter.out == old(emitter.out) + Sent(events) + [Emitted(None, error.value)])
        && (error.None? ==> emitter.out == old(emitter.out) + Sent(events))
      ensures run.Completed? ==> Unfinished(emitter.out) && (started <==> Announced(emitter.out))
    {
      var collected: seq<Event>, buffered: Option<Event> := [], None;
      ghost var before := emitter.out;
      started := runStarted;
      StreamBegins(stream, runStarted);
      for i := 0 to |stream|
        invariant Orderly(emitter.out) && Unfinished(emitter.out)
        invariant started <==> Announced(emitter.out)
        invariant emitter.out == before + Sent(collected)
        invariant Underneath(stream, runStarted, i, started, collected, buffered)
      {
        OneYield(stream, runStarted, i, started, collected, buffered);
        match stream[i] {
          case Failed(message) =>
            EmitError(emitter, RunError("agui: agent error: " + message, []));
            return Stopped, started;
          case Yielded(e) =>
            if e.RunFinished? {
              buffered := Some(e);
            } else if e.RunError? {
              EmitError(emitter, e);
              return Stopped, started;
            } else if !(e.RunStarted? && started) {
              Forward(emitter, e, started, before, collected);
              collected := collected + [e];
              started := started || e.RunStarted?;
            }
        }
      }
      StreamEnds(stream, runStarted, started, collected, buffered);
      run := Completed(collected, buffered);
    }

    method EmitError(emitter: EventEmitter, e: Event)
      requires Orderly(emitter.out) && Unfinished(emitter.out) && e.RunError?
      modifies emitter`out
      ensures Orderly(emitter.out) && emitter.out == old(emitter.out) + [Emitted(None, e)]
    {
      emitter.Emit(None, e);
    }

    method Forward(emitter: EventEmitter, e: Event, started: bool, ghost before: seq<Emitted>, ghost collected: seq<Event>)
      requires Orderly(emitter.out) && Unfinished(emitter.out) && (started <==> Announced(emitter.out))
      requires !e.Terminal() && !(e.RunStarted? && started) && emitter.out == before + Sent(collected)
      modifies emitter`out
      ensures Orderly(emitter.out) && Unfinished(emitter.out) && (Announced(emitter.out) <==> started || e.RunStarted?)
      ensures emitter.out == before + Sent(collected + [e])
    {
      SentOneMore(collected, e);
      AnnouncedAppend(emitter.out, Emitted(None, e));
      emitter.Emit(None, e);
    }

    /** The held-back RUN_FINISHED, if there was one. */
    method Flush(emitter: EventEmitter, finished: Option<Event>)
      requires Orderly(emitter.out) && Unfinished(emitter.out) && (finished.Some? ==> finished.value.RunFinished?)
      modifies emitter`out
      ensures Orderly(emitter.out) && emitter.out == old(emitter.out) + Optional(finished)
    {
      if finished.Some? {
        emitter.Emit(None, finished.value);
      }
    }

    method CallTools(iteration: nat, calls: seq<ToolCall>) returns (contents: seq<string>)
      ensures contents == Contents(callTool, iteration, calls)
    {
      contents := [];
      for i := 0 to |calls|
        invariant contents == Contents(callTool, iteration, calls[..i])
      {
        assert calls[..i + 1][..i] == calls[..i];
        contents := contents + [callTool(iteration, calls[i])];
      }
      assert calls[..|calls|] == calls;
    }

    /** One result event per call, in order. */
    method EmitResults(calls: seq<ToolCall>, contents: seq<string>, emitter: EventEmitter)
      requires |contents| == |calls| && Orderly(emitter.out) && Unfinished(emitter.out)
      modifies emitter
      ensures Orderly(emitter.out) && Unfinished(emitter.out) && (Announced(emitter.out) <==> old(Announced(emitter.out)))
      ensures emitter.out == old(emitter.out) + ResultEvents(calls, contents, old(emitter.serial))
    {
      for i := 0 to |calls|
        invariant Orderly(emitter.out) && Unfinished(emitter.out) && (Announced(emitter.out) <==> old(Announced(emitter.out)))
        invariant emitter.serial == old(emitter.serial) + i
        invariant emitter.out == old(emitter.out) + ResultEvents(calls[..i], contents[..i], old(emitter.serial))
      {
        assert calls[..i + 1][..i] == calls[..i] && contents[..i + 1][..i] == contents[..i];
        var id := emitter.GenerateID();
        AnnouncedAppend(emitter.out, Emitted(None, ToolCallResult(id, calls[i].id, contents[i])));
        emitter.Emit(None, ToolCallResult(id, calls[i].id, contents[i]));
      }
      assert calls[..|calls|] == calls && contents[..|contents|] == contents;
    }

    /** The messages answering a round's calls, identified like the emitted results. */
    method AnswerCalls(calls: seq<ToolCall>, contents: seq<string>, serial: nat) returns (results: seq<Message>)
      requires |contents| == |calls|
      ensures results == ResultsFor(calls, contents, serial)
    {
      results := [];
      for i := 0 to |calls|
        invariant results == ResultsFor(calls[..i], contents[..i], serial)
      {
        assert calls[..i + 1][..i] == calls[..i] && contents[..i + 1][..i] == contents[..i];
        results := results + [Message(Generated(serial + i), "tool", Some(contents[i]), [], calls[i].id)];
      }
      assert calls[..|calls|] == calls && contents[..|contents|] == contents;
    }

    method HasForeignCall(calls: seq<ToolCall>) returns (r: bool)
      ensures r <==> exists c :: c in calls && c.name !in tools
    {
      r := false;
      for i := 0 to |calls|
        invariant r <==> exists c :: c in calls[..i] && c.name !in tools
      {
        assert calls[..i + 1] == calls[..i] + [calls[i]];
        r := r || calls[i].name !in tools;
      }
      assert calls[..|calls|] == calls;
    }

    method OnlyMcp(calls: seq<ToolCall>) returns (mcp: seq<ToolCall>)
      ensures mcp == Mcp(calls, tools)
    {
      mcp := [];
      for i := 0 to |calls|
        invariant mcp == Mcp(calls[..i], tools)
      {
        assert calls[..i + 1][..i] == calls[..i];
        if calls[i].name in tools {
          mcp := mcp + [calls[i]];
        }
      }
      assert calls[..|calls|] == calls;
    }

    /** Executes the calls of a round and answers each with one result. */
    method Execute(iteration: nat, messages: seq<Message>, calls: seq<ToolCall>, emitter: EventEmitter) returns (answered: seq<Message>)
      requires Orderly(emitter.out) && Unfinished(emitter.out) && calls == Mcp(OpenCalls(messages), tools)
      modifies emitter
      ensures Orderly(emitter.out) && Unfinished(emitter.out) && (Announced(emitter.out) <==> old(Announced(emitter.out)))
      ensures
        var contents := Contents(callTool, iteration, calls);
        && emitter.out == old(emitter.out) + ResultEvents(calls, contents, old(emitter.serial))
        && answered == messages + ResultsFor(calls, contents, old(emitter.serial))
      ensures old(emitter.out) <= emitter.out && messages <= answered
      ensures EachExecuted(callTool, iteration, calls, old(emitter.serial), emitter.out[|old(emitter.out)|..], answered[|messages|..])
      ensures forall c :: c in OpenCalls(answered) && c.name in tools ==> c.id.IsEmpty()
    {
      var first := emitter.serial;
      var contents := CallTools(iteration, calls);
      EmitResults(calls, contents, emitter);
      var results := AnswerCalls(calls, contents, first);
      answered := messages + results;
      RoundClosesMcp(messages, tools, contents, first);
      CallsExecuted(callTool, iteration, calls, first);
      assert emitter.out[|old(emitter.out)|..] == ResultEvents(calls, contents, first);
      assert answered[|messages|..] == results;
    }

    /** What a completed inner run leads to: the round executed, if one is, what is emitted
        after the given events, and whether the agent is invoked again. */
    ghost predicate Followed(i: nat, current: seq<Message>, announced: bool, events: seq<Event>, held: Option<Event>,
                             serial: nat, serial1: nat, before: seq<Emitted>, after: seq<Emitted>, turn: Turn) {
      var history := Rebuilt(current, events, serial);
      var calls := Mcp(OpenCalls(history), tools);
      if calls == [] || i + 1 > maxIterations then turn == Finished && after == before + Optional(held)
      else
        var round := Round(announced, serial, history, calls, serial1);
        var contents := Contents(callTool, i + 1, calls);
        var answered := history + ResultsFor(calls, contents, serial1);
        var results := ResultEvents(calls, contents, serial1);
        if exists c :: c in OpenCalls(answered) && c.name !in tools
        then turn == HandedOff(round) && after == before + results + Optional(held)
        else turn == Continued(round, answered) && after == before + results
    }

    ghost predicate TurnMade(i: nat, current: seq<Message>, announced: bool, serial: nat, serial1: nat,
                             before: seq<Emitted>, after: seq<Emitted>, turn: Turn) {
      var stream := agent(i, current);
      var events, (error, held) := Forwarded(stream, announced), EndOf(stream, None);
      if error.Some? then turn == Finished && after == before + Sent(events) + [Emitted(None, error.value)]
      else Followed(i, current, announced, events, held, serial, serial1, before + Sent(events), after, turn)
    }

    /** What remains of a turn once the history is rebuilt and calls are to be executed. */
    method Answer(i: nat, round: Round, held: Option<Event>, emitter: EventEmitter) returns (turn: Turn)
      requires Orderly(emitter.out) && Unfinished(emitter.out) && (held.Some? ==> held.value.RunFinished?)
      requires round.calls == Mcp(OpenCalls(round.history), tools) && round.answeredAt == emitter.serial
      modifies emitter
      ensures Orderly(emitter.out)
      ensures turn.Continued? ==>
        Unfinished(emitter.out) && (Announced(emitter.out) <==> old(Announced(emitter.out))) && Settled(turn.next, tools)
      ensures
        var contents := Contents(callTool, i + 1, round.calls);
        var answered := round.history + ResultsFor(round.calls, contents, round.answeredAt);
        var results := ResultEvents(round.calls, contents, round.answeredAt);
        if exists c :: c in OpenCalls(answered) && c.name !in tools
        then turn == HandedOff(round) && emitter.out == old(emitter.out) + results + Optional(held)
        else turn == Continued(round, answered) && emitter.out == old(emitter.out) + results
    {
      var answered := Execute(i + 1, round.history, round.calls, emitter);
      var stillOpen := GetOpenToolCalls(answered);
      var foreign := HasForeignCall(stillOpen);
      if foreign {
        Flush(emitter, held);
        return HandedOff(round);
      }
      return Continued(round, answered);
    }

    method FollowUp(i: nat, current: seq<Message>, announced: bool, events: seq<Event>, held: Option<Event>, emitter: EventEmitter)
        returns (turn: Turn, ghost serial1: nat)
      requires Orderly(emitter.out) && Unfinished(emitter.out) && (held.Some? ==> held.value.RunFinished?)
      modifies emitter
      ensures Orderly(emitter.out)
      ensures Followed(i, current, announced, events, held, old(emitter.serial), serial1, old(emitter.out), emitter.out, turn)
      ensures turn.Continued? ==>
        Unfinished(emitter.out) && (Announced(emitter.out) <==> old(Announced(emitter.out))) && Settled(turn.next, tools)
    {
      var built := emitter.serial;
      var messages := ReconstructMessages(current, events, emitter);
      var openCalls := GetOpenToolCalls(messages);
      var mcpCalls := OnlyMcp(openCalls);
      serial1 := emitter.serial;
      if |mcpCalls| == 0 || i + 1 > maxIterations {
        Flush(emitter, held);
        return Finished, serial1;
      }
      turn := Answer(i, Round(announced, built, messages, mcpCalls, emitter.serial), held, emitter);
    }

    /** One inner run and, if it leaves MCP calls open, their execution. */
    method RunTurn(i: nat, current: seq<Message>, emitter: EventEmitter, runStarted: bool)
        returns (turn: Turn, started: bool, ghost serial1: nat)
      requires Orderly(emitter.out) && Unfinished(emitter.out) && (runStarted <==> Announced(emitter.out))
      modifies emitter
      ensures Orderly(emitter.out)
      ensures TurnMade(i, current, runStarted, old(emitter.serial), serial1, old(emitter.out), emitter.out, turn)
      ensures turn.Continued? ==>
        Unfinished(emitter.out) && (started <==> Announced(emitter.out)) && Settled(turn.next, tools)
    {
      var run;
      run, started := RunInner(agent(i, current), emitter, runStarted);
      if run.Stopped? {
        return Finished, started, 0;
      }
      turn, serial1 := FollowUp(i, current, runStarted, run.events, run.finished, emitter);
    }

    lemma FollowedMeans(i: nat, current: seq<Message>, announced: bool, events: seq<Event>, held: Option<Event>,
                        serial: nat, serial1: nat, before: seq<Emitted>, after: seq<Emitted>, turn: Turn) returns (tail: seq<Emitted>)
      requires Followed(i, current, announced, events, held, serial, serial1, before, after, turn)
      ensures after == before + tail && Pursued(Surroundings(), maxIterations, i, current, events, held, serial, serial1, tail, turn)
    {
      var history := Rebuilt(current, events, serial);
      var calls := Mcp(OpenCalls(history), tools);
      if calls == [] || i + 1 > maxIterations {
        tail := Optional(held);
      } else {
        var contents := Contents(callTool, i + 1, calls);
        var results, messages := ResultEvents(calls, contents, serial1), ResultsFor(calls, contents, serial1);
        CallsExecuted(callTool, i + 1, calls, serial1);
        tail := if turn.HandedOff? then results + Optional(held) else results;
        assert before + results + Optional(held) == before + (results + Optional(held));
      }
    }

    lemma TurnMeans(i: nat, m: Made)
      requires Happened(i, m)
      ensures TurnSeen(Surroundings(), maxIterations, i, m)
    {
      var stream := agent(i, m.input);
      var events, error, held := Forwarded(stream, m.announced), EndOf(stream, None).0, EndOf(stream, None).1;
      StreamRelays(stream, m.announced);
      var tail;
      if error.Some? {
        tail := [Emitted(None, error.value)];
      } else {
        tail := FollowedMeans(i, m.input, m.announced, events, held, m.serial, m.serial1, m.before + Sent(events), m.after, m.turn);
      }
      SeenAs(Surroundings(), maxIterations, i, m, events, error, held, tail);
    }

    lemma RunMeans(original: seq<Message>, rounds: seq<Round>, inputs: seq<seq<Message>>, made: seq<Made>, out: seq<Emitted>)
      requires Over(original, rounds, inputs, made, out)
      ensures forall i :: 0 <= i < |made| ==> TurnSeen(Surroundings(), maxIterations, i, made[i])
    {
      forall i | 0 <= i < |made| ensures TurnSeen(Surroundings(), maxIterations, i, made[i]) {
        TurnMeans(i, made[i]);
      }
    }

    lemma TurnGivesRound(i: nat, current: seq<Message>, announced: bool, serial: nat, serial1: nat,
                         before: seq<Emitted>, after: seq<Emitted>, turn: Turn)
      requires TurnMade(i, current, announced, serial, serial1, before, after, turn) && !turn.Finished?
      ensures i < maxIterations && GoodRound(Surroundings(), turn.round, i, current)
      ensures turn.Continued? ==> Answers(Surroundings(), turn.round, i, turn.next)
    {
    }

    /** The turns of a run, each starting where the one before left off; all but the last
        lead to another invocation of the agent. */
    ghost predicate Chained(original: seq<Message>, made: seq<Made>) {
      && (made != [] ==> made[0].input == original && made[0].before == [] && !made[0].announced)
      && (forall i :: 0 <= i < |made| ==> Happened(i, made[i]))
      && forall i :: 0 < i < |made| ==> Follows(made[i - 1], made[i])
    }

    ghost predicate Happened(i: nat, m: Made) {
      TurnMade(i, m.input, m.announced, m.serial, m.serial1, m.before, m.after, m.turn)
    }

    ghost predicate Follows(m: Made, next: Made) {
      m.turn.Continued? && next.input == m.turn.next && next.before == m.after && (next.announced <==> Announced(m.after))
    }

    /** Where the next turn starts. */
    ghost predicate Reached(original: seq<Message>, made: seq<Made>, inputs: seq<seq<Message>>, current: seq<Message>, out: seq<Emitted>, started: bool) {
      && Chained(original, made) && |inputs| == |made| + 1 && inputs[|made|] == current
      && (forall i :: 0 <= i < |made| ==> made[i].input == inputs[i])
      && if made == [] then current == original && out == [] && !started
         else var m := made[|made| - 1]; m.turn.Continued? && m.turn.next == current && m.after == out && (started <==> Announced(out))
    }

    lemma ChainGrows(original: seq<Message>, made: seq<Made>, inputs: seq<seq<Message>>, m: Made)
      requires Reached(original, made, inputs, m.input, m.before, m.announced) && Happened(|made|, m)
      ensures
        var all := made + [m];
        && Chained(original, all) && |all| == |inputs| && (forall i :: 0 <= i < |all| ==> all[i].input == inputs[i])
        && all[|all| - 1] == m
    {
      var all := made + [m];
      forall i | 0 <= i < |all| ensures Happened(i, all[i]) {
        assert i < |made| ==> Happened(i, made[i]);
      }
      forall i | 0 < i < |all| ensures Follows(all[i - 1], all[i]) {
        assert i < |made| ==> Follows(made[i - 1], made[i]);
      }
    }

    lemma ChainReaches(original: seq<Message>, made: seq<Made>, inputs: seq<seq<Message>>, m: Made)
      requires Reached(original, made, inputs, m.input, m.before, m.announced) && Happened(|made|, m) && m.turn.Continued?
      ensures Reached(original, made + [m], inputs + [m.turn.next], m.turn.next, m.after, Announced(m.after))
    {
      ChainGrows(original, made, inputs, m);
    }

    /** A run between two turns. */
    ghost predicate Underway(original: seq<Message>, rounds: seq<Round>, inputs: seq<seq<Message>>, made: seq<Made>,
                             current: seq<Message>, out: seq<Emitted>, started: bool) {
      && |inputs| == |rounds| + 1 == |made| + 1 && |rounds| <= maxIterations
      && GoodRun(Surroundings(), original, rounds, inputs) && AllAnswered(rounds, current)
      && Reached(original, made, inputs, current, out, started)
    }

    /** A whole run: at most maxIterations rounds and one more inner run, turns chained up to
        one that does not lead on, and everything emitted was emitted by them. */
    ghost predicate Over(original: seq<Message>, rounds: seq<Round>, inputs: seq<seq<Message>>, made: seq<Made>, out: seq<Emitted>) {
      && |rounds| <= maxIterations && |rounds| <= |inputs| <= |rounds| + 1
      && GoodRun(Surroundings(), original, rounds, inputs)
      && Chained(original, made) && |made| == |inputs| && (forall i :: 0 <= i < |made| ==> made[i].input == inputs[i])
      && var last := made[|made| - 1]; !last.turn.Continued? && last.after == out
    }

    lemma TurnEnds(original: seq<Message>, rounds: seq<Round>, inputs: seq<seq<Message>>, made: seq<Made>, m: Made)
      requires Underway(original, rounds, inputs, made, m.input, m.before, m.announced)
      requires Happened(|made|, m) && !m.turn.Continued?
      ensures Over(original, if m.turn.Finished? then rounds else rounds + [m.turn.round], inputs, made + [m], m.after)
    {
      ChainGrows(original, made, inputs, m);
      if !m.turn.Finished? {
        TurnGivesRound(|rounds|, m.input, m.announced, m.serial, m.serial1, m.before, m.after, m.turn);
        RunGrows(Surroundings(), original, rounds, inputs, m.turn.round);
      }
    }

    lemma TurnLeadsOn(original: seq<Message>, rounds: seq<Round>, inputs: seq<seq<Message>>, made: seq<Made>, m: Made)
      requires Underway(original, rounds, inputs, made, m.input, m.before, m.announced)
      requires Happened(|made|, m) && m.turn.Continued? && Settled(m.turn.next, tools)
      ensures |rounds| < maxIterations
      ensures Underway(original, rounds + [m.turn.round], inputs + [m.turn.next], made + [m], m.turn.next, m.after, Announced(m.after))
    {
      ChainReaches(original, made, inputs, m);
      TurnGivesRound(|rounds|, m.input, m.announced, m.serial, m.serial1, m.before, m.after, m.turn);
      RunGrows(Surroundings(), original, rounds, inputs, m.turn.round);
      RunContinues(Surroundings(), original, rounds, inputs, m.turn.round, m.turn.next);
    }

    lemma RunBegins(original: seq<Message>)
      ensures Underway(original, [], [original], [], original, [], false)
    {
    }

    /** The loop: turn after turn until one does not lead on. At most one RUN_STARTED is
        emitted, and nothing after a terminal event. */
    method RunLoop(original: seq<Message>, emitter: EventEmitter)
        returns (rounds: seq<Round>, inputs: seq<seq<Message>>, ghost made: seq<Made>)
      requires emitter.out == []
      modifies emitter
      ensures Orderly(emitter.out) && Over(original, rounds, inputs, made, emitter.out)
      ensures forall i :: 0 <= i < |made| ==> TurnSeen(Surroundings(), maxIterations, i, made[i])
    {
      var current, runStarted := original, false;
      rounds, inputs, made := [], [original], [];
      RunBegins(original);
      while true
        invariant Orderly(emitter.out) && Unfinished(emitter.out) && (runStarted <==> Announced(emitter.out))
        invariant Underway(original, rounds, inputs, made, current, emitter.out, runStarted)
        decreases maxIterations - |rounds|
      {
        ghost var before, serial, announced := emitter.out, emitter.serial, runStarted;
        var turn;
        ghost var serial1;
        turn, runStarted, serial1 := RunTurn(|rounds|, current, emitter, runStarted);
        ghost var m := Made(current, announced, serial, serial1, before, emitter.out, turn);
        if !turn.Continued? {
          TurnEnds(original, rounds, inputs, made, m);
          rounds := if turn.Finished? then rounds else rounds + [turn.round];
          made := made + [m];
          RunMeans(original, rounds, inputs, made, emitter.out);
          return;
        }
        TurnLeadsOn(original, rounds, inputs, made, m);
        rounds, inputs, made := rounds + [turn.round], inputs + [turn.next], made + [m];
        current := turn.next;
      }
    }
  }
}
