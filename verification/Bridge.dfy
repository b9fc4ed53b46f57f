/** One run of the bridge: from the inbound request to the terminal event
    (aguiadk/bridge.go, runInternal). */
module Bridge {
  import opened Decimals
  import opened Events
  import opened Protocol
  import opened Adk
  import opened Effects
  import opened Narratives
  import opened NarrativeLaws
  import opened Transcripts
  import opened TranscriptLaws
  import opened Translator
  import opened RunStores
  import TokenUsage

  datatype BridgeConfig = BridgeConfig(
    translation: Config,
    maxIterations: int,
    handBack: bool,
    emitStateStatus: bool,
    emitStateSnapshot: bool,
    emitMessagesSnapshot: bool)

  /** The inbound request; a state that is not an object counts as empty. */
  datatype Input = Input(threadID: string, runID: string, resume: seq<ResumeEntry>, state: map<string, string>)

  /** What the ADK runner's iterator stream. */
  datatype Yield = AgentFailure(message: string) | Nothing | Event(ev: AdkEvent)

  /** The outside world during one run: whether the session services succeed, the session
      state, the approval mode, the times of the store calls, and the runner's stream. */
  datatype World = World(
    sessionResolved: bool, messagesConverted: bool, historySeeded: bool, sessionRefreshed: bool,
    sessionID: string, sessionState: map<string, string>, autoApprove: bool,
    peekTime: int, claimTime: int, saveTime: int,
    stream: seq<Yield>)

  // ----- Which events are translated, and how the run stops -----

  datatype Stop =
    | Exhausted
    | AgentFailed(message: string)
    | NotConverged(limit: nat)
    | HandedBack
    | InputRequested(ev: AdkEvent)
    | AutoApproved
    | ApprovalNeeded(ev: AdkEvent)

  function Turns(ev: AdkEvent): nat { if !ev.partial && ev.turnComplete then 1 else 0 }

  /** Whether the event, being the turns-th completed turn or part of a later one, ends the run. */
  function StopAt(c: BridgeConfig, w: World, ev: AdkEvent, turns: nat): Option<Stop> {
    if Turns(ev) > 0 && c.maxIterations > 0 && turns > c.maxIterations then Some(NotConverged(c.maxIterations))
    else if ev.longRunningToolIDs == [] then None
    else if c.handBack then Some(HandedBack)
    else if ev.requestedInput.Some? then Some(InputRequested(ev))
    else if w.autoApprove then Some(AutoApproved)
    else Some(ApprovalNeeded(ev))
  }

  /** The events translated by the run, and why it stops. */
  function Course(c: BridgeConfig, w: World, stream: seq<Yield>, turns: nat): (course: (seq<AdkEvent>, Stop))
    ensures course.1.InputRequested? ==> course.1.ev.requestedInput.Some?
    ensures course.1.ApprovalNeeded? ==> course.1.ev.requestedInput.None?
    ensures course.1.InputRequested? || course.1.ApprovalNeeded? ==>
      course.1.ev.longRunningToolIDs != [] && course.0 != [] && course.0[|course.0| - 1] == course.1.ev
  {
    if stream == [] then ([], Exhausted)
    else match stream[0]
      case AgentFailure(message) => ([], AgentFailed(message))
      case Nothing => Course(c, w, stream[1..], turns)
      case Event(ev) =>
        var stop := StopAt(c, w, ev, turns + Turns(ev));
        if stop.Some? then ([ev], stop.value)
        else var rest := Course(c, w, stream[1..], turns + Turns(ev)); ([ev] + rest.0, rest.1)
  }

  function Billed(evs: seq<AdkEvent>): seq<Usage> {
    if evs == [] then [] else Billed(evs[..|evs| - 1]) + evs[|evs| - 1].Billed()
  }

  function CompletedTurns(evs: seq<AdkEvent>): nat {
    if evs == [] then 0 else Turns(evs[0]) + CompletedTurns(evs[1..])
  }

  /** With a turn limit, at most one turn beyond it is translated, and only then does the
      run fail to converge. */
  lemma {:induction false} CourseBoundsTurns(c: BridgeConfig, w: World, stream: seq<Yield>, turns: nat)
    requires 0 < c.maxIterations && turns <= c.maxIterations
    ensures
      var (evs, stop) := Course(c, w, stream, turns);
      && turns + CompletedTurns(evs) <= c.maxIterations + 1
      && (stop.NotConverged? <==> turns + CompletedTurns(evs) == c.maxIterations + 1)
  {
    if stream != [] {
      match stream[0]
      case AgentFailure(_) =>
      case Nothing => CourseBoundsTurns(c, w, stream[1..], turns);
      case Event(ev) =>
        if StopAt(c, w, ev, turns + Turns(ev)).None? {
          CourseBoundsTurns(c, w, stream[1..], turns + Turns(ev));
          var rest := Course(c, w, stream[1..], turns + Turns(ev)).0;
          assert ([ev] + rest)[1..] == rest;
        }
    }
  }

  // ----- What ends a run -----

  /** The turns completed by the first n yields. */
  function TurnsBy(stream: seq<Yield>, n: nat): nat
    requires n <= |stream|
  {
    if n == 0 then 0 else TurnsBy(stream, n - 1) + if EndsTurn(stream[n - 1]) then 1 else 0
  }

  predicate EndsTurn(y: Yield) { y.Event? && !y.ev.partial && y.ev.turnComplete }

  predicate LongRunning(y: Yield) { y.Event? && y.ev.longRunningToolIDs != [] }

  /** The i-th yield completes a turn beyond the limit. */
  predicate OverLimit(c: BridgeConfig, stream: seq<Yield>, i: nat)
    requires i < |stream|
  {
    EndsTurn(stream[i]) && 0 < c.maxIterations < TurnsBy(stream, i + 1)
  }

  predicate Ending(c: BridgeConfig, stream: seq<Yield>, i: nat)
    requires i < |stream|
  {
    stream[i].AgentFailure? || LongRunning(stream[i]) || OverLimit(c, stream, i)
  }

  /** The run ends with the n-th yield, or after the last one. */
  predicate EndsWith(c: BridgeConfig, stream: seq<Yield>, n: nat) {
    n <= |stream| && (forall i :: 0 <= i < n ==> !Ending(c, stream, i)) && (n < |stream| ==> Ending(c, stream, n))
  }

  function EventsIn(stream: seq<Yield>): seq<AdkEvent> {
    if stream == [] then [] else EventsIn(stream[..|stream| - 1]) + if stream[|stream| - 1].Event? then [stream[|stream| - 1].ev] else []
  }

  /** The events translated are those up to the end, the one that ends the run included. */
  predicate Translated(stream: seq<Yield>, n: nat, evs: seq<AdkEvent>) {
    n <= |stream| && evs == EventsIn(if n < |stream| then stream[..n + 1] else stream)
  }

  /** Why the run ends there: the stream is over or fails, the turns exceed the limit, or a tool
      is long-running, which is handed back, asks for input, is approved or awaits approval. */
  predicate StopsFor(c: BridgeConfig, w: World, n: nat, stop: Stop) {
    && n <= |w.stream|
    && (stop.Exhausted? <==> n == |w.stream|)
    && (n < |w.stream| ==>
      var y := w.stream[n];
      && (stop.AgentFailed? <==> y.AgentFailure?) && (stop.AgentFailed? ==> stop.message == y.message)
      && (stop.NotConverged? <==> OverLimit(c, w.stream, n)) && (stop.NotConverged? ==> stop.limit == c.maxIterations)
      && (!y.AgentFailure? && !OverLimit(c, w.stream, n) ==>
        && LongRunning(y)
        && (stop.HandedBack? <==> c.handBack)
        && (stop.InputRequested? <==> !c.handBack && y.ev.requestedInput.Some?)
        && (stop.AutoApproved? <==> !c.handBack && y.ev.requestedInput.None? && w.autoApprove)
        && (stop.ApprovalNeeded? <==> !c.handBack && y.ev.requestedInput.None? && !w.autoApprove)
        && (stop.InputRequested? || stop.ApprovalNeeded? ==> stop.ev == y.ev)))
  }

  lemma EventsInOneMore(stream: seq<Yield>, i: nat)
    requires i < |stream|
    ensures EventsIn(stream[..i + 1]) == EventsIn(stream[..i]) + if stream[i].Event? then [stream[i].ev] else []
  {
    assert stream[..i + 1][..i] == stream[..i];
  }

  lemma CourseGoesOn(c: BridgeConfig, w: World, i: nat)
    requires i < |w.stream| && !Ending(c, w.stream, i)
    ensures
      var (evs, stop) := Course(c, w, w.stream[i..], TurnsBy(w.stream, i));
      var (later, why) := Course(c, w, w.stream[i + 1..], TurnsBy(w.stream, i + 1));
      EventsIn(w.stream[..i]) + evs == EventsIn(w.stream[..i + 1]) + later && stop == why
  {
    var done, later := EventsIn(w.stream[..i]), Course(c, w, w.stream[i + 1..], TurnsBy(w.stream, i + 1)).0;
    EventsInOneMore(w.stream, i);
    assert w.stream[i..][0] == w.stream[i] && w.stream[i..][1..] == w.stream[i + 1..];
    if w.stream[i].Event? {
      assert done + ([w.stream[i].ev] + later) == done + [w.stream[i].ev] + later;
    }
  }

  lemma CourseEnds(c: BridgeConfig, w: World, n: nat)
    requires n <= |w.stream| && (n < |w.stream| ==> Ending(c, w.stream, n))
    ensures
      var (evs, stop) := Course(c, w, w.stream[n..], TurnsBy(w.stream, n));
      Translated(w.stream, n, EventsIn(w.stream[..n]) + evs) && StopsFor(c, w, n, stop)
  {
    var done := EventsIn(w.stream[..n]);
    assert done + [] == done;
    if n == |w.stream| {
      assert w.stream[..n] == w.stream;
    } else {
      EventsInOneMore(w.stream, n);
      assert w.stream[n..][0] == w.stream[n];
    }
  }

  /** The run ends with the first yield that must end it, for the reason it gives, and every
      event up to there is translated. */
  lemma CourseMeans(c: BridgeConfig, w: World) returns (n: nat)
    ensures
      var (evs, stop) := Course(c, w, w.stream, 0);
      EndsWith(c, w.stream, n) && Translated(w.stream, n, evs) && StopsFor(c, w, n, stop)
  {
    ghost var evs, stop := Course(c, w, w.stream, 0).0, Course(c, w, w.stream, 0).1;
    assert w.stream[0..] == w.stream && w.stream[..0] == [] && EventsIn([]) + evs == evs;
    n := 0;
    while n < |w.stream| && !Ending(c, w.stream, n)
      invariant n <= |w.stream| && forall i :: 0 <= i < n ==> !Ending(c, w.stream, i)
      invariant var rest := Course(c, w, w.stream[n..], TurnsBy(w.stream, n)); EventsIn(w.stream[..n]) + rest.0 == evs && rest.1 == stop
    {
      CourseGoesOn(c, w, n);
      n := n + 1;
    }
    CourseEnds(c, w, n);
  }

  // ----- Pending tool calls -----

  function ArgsObject(args: Args): string {
    match args
    case Json(text) => text
    case NoArgs => "{}"
    case Unmarshallable => ""
  }

  function PendingOf(parts: seq<Option<Part>>, longRunning: seq<string>): seq<PendingToolCall> {
    if parts == [] then []
    else
      var before, last := PendingOf(parts[..|parts| - 1], longRunning), parts[|parts| - 1];
      if last.Some? && last.value.functionCall.Some? && last.value.functionCall.value.id in longRunning
      then var fc := last.value.functionCall.value; before + [PendingToolCall(fc.id, fc.name, ArgsObject(fc.args))]
      else before
  }

  method ExtractPendingToolCalls(ev: AdkEvent) returns (pending: seq<PendingToolCall>)
    ensures pending == PendingOf(ev.parts, ev.longRunningToolIDs)
  {
    pending := [];
    for i := 0 to |ev.parts|
      invariant pending == PendingOf(ev.parts[..i], ev.longRunningToolIDs)
    {
      assert ev.parts[..i + 1][..i] == ev.parts[..i];
      if ev.parts[i].Some? && ev.parts[i].value.functionCall.Some? {
        var fc := ev.parts[i].value.functionCall.value;
        if fc.id in ev.longRunningToolIDs {
          pending := pending + [PendingToolCall(fc.id, fc.name, ArgsObject(fc.args))];
        }
      }
    }
    assert ev.parts[..|ev.parts|] == ev.parts;
  }

  function InterruptsFor(pending: seq<PendingToolCall>): seq<Interrupt> {
    if pending == [] then []
    else
      var last := pending[|pending| - 1];
      InterruptsFor(pending[..|pending| - 1]) + [Interrupt(last.id, "tool_call", last.id)]
  }

  // ----- Resuming -----

  /** The payload of the first entry that addresses an interrupt. */
  function PayloadFor(entries: seq<ResumeEntry>, id: string): Option<string> {
    if entries == [] then None
    else if entries[0].interruptID == id then Some(entries[0].payload)
    else PayloadFor(entries[1..], id)
  }

  /** Whether the entries settle everything the run was paused for. */
  predicate Settles(entries: seq<ResumeEntry>, saved: PausedRun) {
    if saved.requestedInput.Some? then PayloadFor(entries, saved.requestedInput.value.interruptID).Some?
    else forall i :: 0 <= i < |saved.pending| ==> Decision(entries, saved.pending[i].id).Some?
  }

  function Quoted(s: string): string { "\"" + s + "\"" }

  function FirstUndecided(entries: seq<ResumeEntry>, pending: seq<PendingToolCall>): Option<string> {
    if pending == [] then None
    else if Decision(entries, pending[0].id).None? then Some(pending[0].id)
    else FirstUndecided(entries, pending[1..])
  }

  lemma {:induction false} UndecidedExists(entries: seq<ResumeEntry>, pending: seq<PendingToolCall>)
    ensures FirstUndecided(entries, pending).None? <==> forall i :: 0 <= i < |pending| ==> Decision(entries, pending[i].id).Some?
  {
    if pending != [] {
      UndecidedExists(entries, pending[1..]);
      assert forall i :: 0 < i < |pending| ==> pending[i] == pending[1..][i - 1];
    }
  }

  /** Why the entries do not settle the run. */
  function Objection(entries: seq<ResumeEntry>, saved: PausedRun): Option<string> {
    if saved.requestedInput.Some? then
      var id := saved.requestedInput.value.interruptID;
      if PayloadFor(entries, id).Some? then None else Some("resume did not address requested input " + Quoted(id))
    else
      var first := FirstUndecided(entries, saved.pending);
      if first.None? then None
      else if forall i :: 0 <= i < |saved.pending| ==> Decision(entries, saved.pending[i].id).None?
      then Some("resume entries do not match any pending tool call for this run")
      else Some("resume did not address pending tool call " + Quoted(first.value))
  }

  const NO_RUN: string :=
    "cannot resume: no paused run found for this thread/run " +
    "(it may have expired, already been resumed, or the server restarted)"
  const CLAIMED: string := "cannot resume: the paused run was claimed by a concurrent resume"

  /** Why a resume is refused, given what was peeked. */
  function Refusal(entries: seq<ResumeEntry>, peeked: Option<PausedRun>): string {
    if peeked.None? then NO_RUN
    else if Objection(entries, peeked.value).Some? then Objection(entries, peeked.value).value
    else CLAIMED
  }

  const DENIAL: string := "{\"denied\":true,\"reason\":\"user did not approve this tool call\"}"

  /** The result settling one pending call: the requested payload, the approved call's own
      arguments, or a denial. */
  function Outcome(entries: seq<ResumeEntry>, saved: PausedRun, p: PendingToolCall): string
    requires Settles(entries, saved) && p in saved.pending
  {
    if saved.requestedInput.Some? then PayloadFor(entries, saved.requestedInput.value.interruptID).value
    else if Decision(entries, p.id) == Some(true) then p.args
    else DENIAL
  }

  /** The function responses handed to the runner. */
  function Responses(entries: seq<ResumeEntry>, saved: PausedRun, n: nat): seq<FunctionResponse>
    requires Settles(entries, saved) && n <= |saved.pending|
  {
    if n == 0 then []
    else
      var p := saved.pending[n - 1];
      Responses(entries, saved, n - 1) + [FunctionResponse(p.id, p.name, Outcome(entries, saved, p))]
  }

  /** Proposals re-surfaced and settled in the new stream. */
  function Settled(saved: PausedRun, n: nat): seq<Span>
    requires n <= |saved.pending|
  {
    if n == 0 then []
    else Settled(saved, n - 1) + [Call(Given(saved.pending[n - 1].id), saved.pending[n - 1].args)]
  }

  /** What is announced about a call that runs; denied calls do not. */
  function Activity(entries: seq<ResumeEntry>, saved: PausedRun, p: PendingToolCall): Option<string> {
    if saved.requestedInput.Some? then Some("Running " + p.name)
    else if Decision(entries, p.id) == Some(true) then Some("Running " + p.name + "(" + p.args + ")")
    else None
  }

  /** A proposal shown again, with its activity and its result. */
  function SettlementNoted(n: Narrative, p: PendingToolCall, activity: Option<string>, result: string): Narrative {
    ReportNoted(Noted(n, ToolCallStart(Given(p.id), p.name, None)), p, activity, result)
  }

  function ReportNoted(n: Narrative, p: PendingToolCall, activity: Option<string>, result: string): Narrative {
    var m := if activity.Some? then Noted(Drawn(n), ActivitySnapshot(Generated(n.serial), "tool_use", activity.value)) else n;
    Noted(m, ToolCallResult(ResultOf(Given(p.id)), Given(p.id), result))
  }

  /** The announcements, activities and results of a resume. */
  function SettledNoted(entries: seq<ResumeEntry>, saved: PausedRun, k: nat, n: Narrative): Narrative
    requires Settles(entries, saved) && k <= |saved.pending|
  {
    if k == 0 then n
    else
      var p := saved.pending[k - 1];
      SettlementNoted(SettledNoted(entries, saved, k - 1, n), p, Activity(entries, saved, p), Outcome(entries, saved, p))
  }

  /** A run that stops to ask is in the store. */
  predicate KeptFor(input: Input, w: World, stop: Stop, runs: map<string, Entry>) {
    stop.InputRequested? || stop.ApprovalNeeded? ==>
      var key := RunKey(input.threadID, input.runID);
      key in runs && runs[key] == Entry(PausedFor(input, w, stop.ev), w.saveTime)
  }

  // ----- What a resume hands on, call by call -----

  /** The first entry that addresses an interrupt. */
  predicate FirstFor(entries: seq<ResumeEntry>, id: string, j: int) {
    0 <= j < |entries| && entries[j].interruptID == id && forall i :: 0 <= i < j ==> entries[i].interruptID != id
  }

  lemma {:induction false} PayloadMeans(entries: seq<ResumeEntry>, id: string)
    ensures PayloadFor(entries, id).None? <==> forall j :: 0 <= j < |entries| ==> entries[j].interruptID != id
    ensures PayloadFor(entries, id).Some? ==> exists j :: FirstFor(entries, id, j)
    ensures forall j :: FirstFor(entries, id, j) ==> PayloadFor(entries, id) == Some(entries[j].payload)
  {
    if entries != [] {
      var rest := entries[1..];
      PayloadMeans(rest, id);
      if entries[0].interruptID == id {
        assert FirstFor(entries, id, 0);
      } else {
        assert forall i :: 0 < i < |entries| ==> rest[i - 1] == entries[i];
        forall j | 0 < j < |entries| ensures FirstFor(entries, id, j) <==> FirstFor(rest, id, j - 1) {
          assert forall i :: 0 < i < j ==> rest[i - 1] == entries[i];
          if FirstFor(entries, id, j) {
            assert forall i :: 0 <= i < j - 1 ==> rest[i] == entries[i + 1];
          }
        }
        if PayloadFor(rest, id).Some? {
          var j :| FirstFor(rest, id, j);
          assert FirstFor(entries, id, j + 1);
        }
      }
    }
  }

  /** The user approved the call: the last entry for it is resolved and does not say otherwise. */
  ghost predicate Approved(entries: seq<ResumeEntry>, id: string) {
    exists j :: LastFor(entries, id, j) && entries[j].resolved && entries[j].approved != Some(false)
  }

  /** Some entry is for the interrupt. */
  ghost predicate Addressed(entries: seq<ResumeEntry>, id: string) { exists j :: 0 <= j < |entries| && entries[j].interruptID == id }

  /** A resume settles a run if some entry addresses the requested input or, without one, each
      pending call. */
  lemma SettlesMeans(entries: seq<ResumeEntry>, saved: PausedRun)
    ensures Settles(entries, saved) <==>
      if saved.requestedInput.Some? then Addressed(entries, saved.requestedInput.value.interruptID)
      else forall i :: 0 <= i < |saved.pending| ==> Addressed(entries, saved.pending[i].id)
  {
    if saved.requestedInput.Some? {
      PayloadMeans(entries, saved.requestedInput.value.interruptID);
    }
    forall i | 0 <= i < |saved.pending| ensures Decision(entries, saved.pending[i].id).Some? <==> Addressed(entries, saved.pending[i].id) {
      DecisionMeans(entries, saved.pending[i].id);
    }
  }

  /** Why entries that do not settle a run are refused: they miss the requested input, miss every
      pending call, or miss the first of those they miss. */
  ghost predicate ObjectsWith(entries: seq<ResumeEntry>, saved: PausedRun, message: string) {
    if saved.requestedInput.Some?
    then message == "resume did not address requested input \"" + saved.requestedInput.value.interruptID + "\""
    else if forall i :: 0 <= i < |saved.pending| ==> !Addressed(entries, saved.pending[i].id)
    then message == "resume entries do not match any pending tool call for this run"
    else exists k ::
      && 0 <= k < |saved.pending| && !Addressed(entries, saved.pending[k].id)
      && (forall i :: 0 <= i < k ==> Addressed(entries, saved.pending[i].id))
      && message == "resume did not address pending tool call \"" + saved.pending[k].id + "\""
  }

  lemma {:induction false} FirstUndecidedMeans(entries: seq<ResumeEntry>, pending: seq<PendingToolCall>) returns (k: nat)
    requires FirstUndecided(entries, pending).Some?
    ensures k < |pending| && !Addressed(entries, pending[k].id) && FirstUndecided(entries, pending) == Some(pending[k].id)
    ensures forall i :: 0 <= i < k ==> Addressed(entries, pending[i].id)
  {
    DecisionMeans(entries, pending[0].id);
    if Decision(entries, pending[0].id).None? {
      k := 0;
    } else {
      var j := FirstUndecidedMeans(entries, pending[1..]);
      k := j + 1;
      assert forall i :: 0 < i < k ==> pending[i] == pending[1..][i - 1];
    }
  }

  lemma ObjectionMeans(entries: seq<ResumeEntry>, saved: PausedRun)
    requires Objection(entries, saved).Some?
    ensures ObjectsWith(entries, saved, Objection(entries, saved).value)
  {
    if saved.requestedInput.None? {
      forall i | 0 <= i < |saved.pending| ensures Decision(entries, saved.pending[i].id).Some? <==> Addressed(entries, saved.pending[i].id) {
        DecisionMeans(entries, saved.pending[i].id);
      }
      var k := FirstUndecidedMeans(entries, saved.pending);
      assert "\"" + saved.pending[k].id + "\"" == Quoted(saved.pending[k].id);
      assert "resume did not address pending tool call \"" + saved.pending[k].id + "\"" == "resume did not address pending tool call " + Quoted(saved.pending[k].id);
    } else {
      var id := saved.requestedInput.value.interruptID;
      assert "resume did not address requested input \"" + id + "\"" == "resume did not address requested input " + Quoted(id);
    }
  }

  /** What a paused call is answered with: the payload asked for, its own arguments if it was
      approved, and otherwise the denial. */
  ghost predicate AnsweredWith(entries: seq<ResumeEntry>, saved: PausedRun, p: PendingToolCall, content: string) {
    if saved.requestedInput.Some?
    then exists j :: FirstFor(entries, saved.requestedInput.value.interruptID, j) && content == entries[j].payload
    else content == if Approved(entries, p.id) then p.args else "{\"denied\":true,\"reason\":\"user did not approve this tool call\"}"
  }

  /** One response for each paused call, in order. */
  ghost predicate EachAnswered(entries: seq<ResumeEntry>, saved: PausedRun, parts: seq<FunctionResponse>) {
    && |parts| == |saved.pending|
    && forall k :: 0 <= k < |parts| ==>
      && parts[k].id == saved.pending[k].id && parts[k].name == saved.pending[k].name
      && AnsweredWith(entries, saved, saved.pending[k], parts[k].content)
  }

  /** What the client receives of one paused call besides its arguments: the proposal again, the
      activity unless it was denied, and the result, with the content the runner gets. */
  ghost predicate ShownAgain(entries: seq<ResumeEntry>, saved: PausedRun, p: PendingToolCall, content: string, shown: seq<Emitted>) {
    var requested := saved.requestedInput.Some?;
    && |shown| == (if requested || Approved(entries, p.id) then 3 else 2)
    && (forall i :: 0 <= i < |shown| ==> shown[i].agent.None?)
    && shown[0].event == ToolCallStart(Given(p.id), p.name, None)
    && shown[|shown| - 1].event == ToolCallResult(ResultOf(Given(p.id)), Given(p.id), content)
    && (|shown| == 3 ==>
      && shown[1].event.ActivitySnapshot? && shown[1].event.activity == "tool_use"
      && shown[1].event.text == "Running " + p.name + if requested then "" else "(" + p.args + ")")
  }

  function Joint(pieces: seq<seq<Emitted>>): seq<Emitted> {
    if pieces == [] then [] else Joint(pieces[..|pieces| - 1]) + pieces[|pieces| - 1]
  }

  ghost predicate PiecesShown(entries: seq<ResumeEntry>, saved: PausedRun, parts: seq<FunctionResponse>, pieces: seq<seq<Emitted>>) {
    && |pieces| == |parts| <= |saved.pending|
    && forall k :: 0 <= k < |pieces| ==> ShownAgain(entries, saved, saved.pending[k], parts[k].content, pieces[k])
  }

  /** Each paused call is shown again, one after the other. */
  ghost predicate EachShown(entries: seq<ResumeEntry>, saved: PausedRun, parts: seq<FunctionResponse>, before: seq<Emitted>, after: seq<Emitted>) {
    exists pieces :: PiecesShown(entries, saved, parts, pieces) && after == before + Joint(pieces)
  }

  lemma OutcomeMeans(entries: seq<ResumeEntry>, saved: PausedRun, p: PendingToolCall)
    requires Settles(entries, saved) && p in saved.pending
    ensures AnsweredWith(entries, saved, p, Outcome(entries, saved, p))
    ensures saved.requestedInput.None? ==> (Decision(entries, p.id) == Some(true) <==> Approved(entries, p.id))
  {
    if saved.requestedInput.Some? {
      PayloadMeans(entries, saved.requestedInput.value.interruptID);
    } else {
      DecisionMeans(entries, p.id);
    }
  }

  lemma {:induction false} ResponsesMean(entries: seq<ResumeEntry>, saved: PausedRun, n: nat)
    requires Settles(entries, saved) && n <= |saved.pending|
    ensures
      var parts := Responses(entries, saved, n);
      && |parts| == n
      && forall k :: 0 <= k < n ==>
        && parts[k].id == saved.pending[k].id && parts[k].name == saved.pending[k].name
        && parts[k].content == Outcome(entries, saved, saved.pending[k])
  {
    if n > 0 {
      ResponsesMean(entries, saved, n - 1);
    }
  }

  function SettlementPiece(n: Narrative, p: PendingToolCall, activity: Option<string>, result: string): seq<Emitted> {
    var start, end := Emitted(n.agent, ToolCallStart(Given(p.id), p.name, None)), Emitted(n.agent, ToolCallResult(ResultOf(Given(p.id)), Given(p.id), result));
    if activity.Some? then [start, Emitted(n.agent, ActivitySnapshot(Generated(n.serial), "tool_use", activity.value)), end] else [start, end]
  }

  lemma SettlementAdds(n: Narrative, p: PendingToolCall, activity: Option<string>, result: string)
    ensures
      var m := SettlementNoted(n, p, activity, result);
      m.remarks == n.remarks + SettlementPiece(n, p, activity, result) && m.agent == n.agent
  {
  }

  lemma PieceShown(entries: seq<ResumeEntry>, saved: PausedRun, p: PendingToolCall, n: Narrative)
    requires Settles(entries, saved) && p in saved.pending && n.agent.None?
    ensures
      var content := Outcome(entries, saved, p);
      ShownAgain(entries, saved, p, content, SettlementPiece(n, p, Activity(entries, saved, p), content))
  {
    OutcomeMeans(entries, saved, p);
    assert "Running " + p.name + ("(" + p.args + ")") == "Running " + p.name + "(" + p.args + ")";
    assert "Running " + p.name + "" == "Running " + p.name;
  }

  lemma JointOneMore(pieces: seq<seq<Emitted>>, piece: seq<Emitted>, before: seq<Emitted>)
    ensures before + Joint(pieces + [piece]) == before + Joint(pieces) + piece
  {
    assert (pieces + [piece])[..|pieces|] == pieces;
    assert before + (Joint(pieces) + piece) == before + Joint(pieces) + piece;
  }

  lemma SettledPieces(entries: seq<ResumeEntry>, saved: PausedRun, n: Narrative)
    requires Settles(entries, saved) && n.agent.None?
    ensures
      var k := |saved.pending|;
      EachShown(entries, saved, Responses(entries, saved, k), n.remarks, SettledNoted(entries, saved, k, n).remarks)
  {
    var pieces: seq<seq<Emitted>>, m := [], n;
    assert n.remarks + [] == n.remarks;
    for i := 0 to |saved.pending|
      invariant m == SettledNoted(entries, saved, i, n) && m.agent.None? && m.remarks == n.remarks + Joint(pieces)
      invariant PiecesShown(entries, saved, Responses(entries, saved, i), pieces)
    {
      var p := saved.pending[i];
      m, pieces := OnePiece(entries, saved, n, i, m, pieces);
    }
  }

  lemma OnePiece(entries: seq<ResumeEntry>, saved: PausedRun, n: Narrative, i: nat, m: Narrative, pieces: seq<seq<Emitted>>)
      returns (next: Narrative, more: seq<seq<Emitted>>)
    requires Settles(entries, saved) && i < |saved.pending| && m == SettledNoted(entries, saved, i, n) && m.agent.None?
    requires m.remarks == n.remarks + Joint(pieces) && PiecesShown(entries, saved, Responses(entries, saved, i), pieces)
    ensures next == SettledNoted(entries, saved, i + 1, n) && next.agent.None? && next.remarks == n.remarks + Joint(more)
    ensures PiecesShown(entries, saved, Responses(entries, saved, i + 1), more)
  {
    var p := saved.pending[i];
    var activity, content := Activity(entries, saved, p), Outcome(entries, saved, p);
    var piece := SettlementPiece(m, p, activity, content);
    next, more := SettlementNoted(m, p, activity, content), pieces + [piece];
    SettlementAdds(m, p, activity, content);
    JointOneMore(pieces, piece, n.remarks);
    PieceShown(entries, saved, p, m);
    PiecesOneMore(entries, saved, i, pieces, piece);
  }

  lemma PiecesOneMore(entries: seq<ResumeEntry>, saved: PausedRun, i: nat, pieces: seq<seq<Emitted>>, piece: seq<Emitted>)
    requires Settles(entries, saved) && i < |saved.pending| && PiecesShown(entries, saved, Responses(entries, saved, i), pieces)
    requires ShownAgain(entries, saved, saved.pending[i], Outcome(entries, saved, saved.pending[i]), piece)
    ensures PiecesShown(entries, saved, Responses(entries, saved, i + 1), pieces + [piece])
  {
    ResponsesMean(entries, saved, i);
    ResponsesMean(entries, saved, i + 1);
  }

  lemma SettledAnswers(entries: seq<ResumeEntry>, saved: PausedRun)
    requires Settles(entries, saved)
    ensures EachAnswered(entries, saved, Responses(entries, saved, |saved.pending|))
  {
    ResponsesMean(entries, saved, |saved.pending|);
    forall k | 0 <= k < |saved.pending| ensures AnsweredWith(entries, saved, saved.pending[k], Outcome(entries, saved, saved.pending[k])) {
      OutcomeMeans(entries, saved, saved.pending[k]);
    }
  }

  /** The paused calls as the client holds them again. */
  ghost predicate EachReassembled(saved: PausedRun, spans: seq<Span>) {
    |spans| == |saved.pending| && forall k :: 0 <= k < |spans| ==> spans[k] == Call(Given(saved.pending[k].id), saved.pending[k].args)
  }

  lemma {:induction false} SettledSpans(saved: PausedRun, n: nat)
    requires n <= |saved.pending|
    ensures |Settled(saved, n)| == n
    ensures forall k :: 0 <= k < n ==> Settled(saved, n)[k] == Call(Given(saved.pending[k].id), saved.pending[k].args)
  {
    if n > 0 {
      SettledSpans(saved, n - 1);
    }
  }

  lemma {:induction false} SettledIsSilent(saved: PausedRun, n: nat)
    requires n <= |saved.pending|
    ensures Words(Settled(saved, n)) == []
  {
    if n > 0 {
      SettledIsSilent(saved, n - 1);
      SpanAdded(Settled(saved, n - 1), Call(Given(saved.pending[n - 1].id), saved.pending[n - 1].args));
    }
  }

  // ----- The run -----

  /** Nothing open at the client; only completed spans. */
  function At(spans: seq<Span>): View { Blank.(spans := spans) }

  predicate Background(e: Event) {
    e.StateSnapshot? || e.StateDelta? || e.MessagesSnapshot? || e.ActivitySnapshot? || e.ToolCallResult?
  }

  function TerminalFor(stop: Stop, usage: seq<Usage>): Event {
    match stop
    case AgentFailed(message) => RunError("agent error: " + message, usage)
    case NotConverged(limit) => RunError("agent did not converge within " + Decimal(limit) + " model turns", usage)
    case InputRequested(ev) =>
      RunFinished(if ev.requestedInput.Some? then [Interrupt(ev.requestedInput.value.interruptID, "requested_input", "")] else [], usage)
    case ApprovalNeeded(ev) => RunFinished(InterruptsFor(PendingOf(ev.parts, ev.longRunningToolIDs)), usage)
    case _ => RunFinished([], usage)
  }

  /** What a run says between its streams and its terminal event. */
  function Farewell(c: BridgeConfig, w: World, stop: Stop, n: Narrative): Narrative {
    match stop
    case Exhausted => SnapshotNoted(c, w, StatusNoted(c, n, "done"))
    case AgentFailed(_) => StatusNoted(c, n, "error")
    case NotConverged(_) => SnapshotNoted(c, w, StatusNoted(c, n, "error"))
    case HandedBack => StatusNoted(c, SnapshotNoted(c, w, n), "done")
    case AutoApproved => StatusNoted(c, SnapshotNoted(c, w, n), "done")
    case InputRequested(_) => SnapshotNoted(c, w, StatusNoted(c, n, "awaiting_input"))
    case ApprovalNeeded(ev) =>
      SnapshotNoted(c, w, StatusNoted(c, RequestsNoted(n, PendingOf(ev.parts, ev.longRunningToolIDs)), "awaiting_approval"))
  }

  function StatusNoted(c: BridgeConfig, n: Narrative, status: string): Narrative {
    if c.emitStateStatus then Noted(n, StateDelta({("/status", status)})) else n
  }

  /** The messages are shown if that is wanted and the session can be read again. */
  function SnapshotNoted(c: BridgeConfig, w: World, n: Narrative): Narrative {
    if c.emitMessagesSnapshot && w.sessionRefreshed then Noted(n, MessagesSnapshot) else n
  }

  function RequestText(p: PendingToolCall): string {
    "Agent wants to call " + p.name + " with " + p.args + " \U{2014} approve?"
  }

  /** One approval request for each pending call. */
  function RequestsNoted(n: Narrative, pending: seq<PendingToolCall>): Narrative {
    if pending == [] then n
    else
      var m := RequestsNoted(n, pending[..|pending| - 1]);
      Noted(Drawn(m), ActivitySnapshot(Generated(m.serial), "approval_request", RequestText(pending[|pending| - 1])))
  }

  /** What a run says first. */
  function Opening(c: BridgeConfig, input: Input, n: Narrative): Narrative {
    var m := StatusNoted(c, Noted(n, RunStarted(input.threadID, input.runID)), "running");
    if c.emitStateSnapshot then Noted(m, StateSnapshot) else m
  }

  /** What a run says from its agent's first event on. */
  function Spoken(c: BridgeConfig, w: World, n: Narrative): Narrative {
    var (evs, stop) := Course(c, w, w.stream, 0);
    Noted(Farewell(c, w, stop, AllClosed(EventsNoted(c.translation, n, evs))), TerminalFor(stop, TokenUsage.Aggregated(Billed(evs))))
  }

  // ----- How a run begins or is refused -----

  function FirstWords(c: BridgeConfig, input: Input): seq<Emitted> {
    [Emitted(None, RunStarted(input.threadID, input.runID))] + Status(c, None, "running") +
    if c.emitStateSnapshot then [Emitted(None, StateSnapshot)] else []
  }

  lemma OpeningMeans(c: BridgeConfig, input: Input, serial: nat)
    ensures Opening(c, input, Beginning(serial, [])) == Beginning(serial, FirstWords(c, input))
  {
    assert [] + [Emitted(None, RunStarted(input.threadID, input.runID))] == [Emitted(None, RunStarted(input.threadID, input.runID))];
  }

  /** Why a run does not proceed, given the paused run found, if any. */
  ghost predicate RefusedFor(input: Input, w: World, peeked: Option<PausedRun>, message: string) {
    if !w.sessionResolved then message == "session resolve failed"
    else if !w.messagesConverted then message == "inbound message conversion failed"
    else if !w.historySeeded then message == "session history seed failed"
    else if peeked.None? then
      message == "cannot resume: no paused run found for this thread/run " +
                 "(it may have expired, already been resumed, or the server restarted)"
    else if !Settles(input.resume, peeked.value) then ObjectsWith(input.resume, peeked.value, message)
    else message == "cannot resume: the paused run was claimed by a concurrent resume"
  }

  lemma LastRemark(trace: seq<Emitted>)
    requires Scan(trace).phase.Ended?
    ensures trace != [] && Remarks(trace) != [] && Remarks(trace)[|Remarks(trace)| - 1] == trace[|trace| - 1]
  {
    EndedShape(trace);
  }

  lemma SpokenExtends(c: BridgeConfig, w: World, n: Narrative)
    ensures n.remarks <= Spoken(c, w, n).remarks
  {
    var k := SpokenMeans(c, w, n);
    DrawnOnce(c.translation, n, Course(c, w, w.stream, 0).0);
  }

  lemma SettledExtends(entries: seq<ResumeEntry>, saved: PausedRun, n: Narrative)
    requires Settles(entries, saved) && n.agent.None?
    ensures n.remarks <= SettledNoted(entries, saved, |saved.pending|, n).remarks
  {
    SettledPieces(entries, saved, n);
  }

  lemma ObjectionSettles(entries: seq<ResumeEntry>, saved: PausedRun)
    ensures Objection(entries, saved).None? <==> Settles(entries, saved)
  {
    UndecidedExists(entries, saved.pending);
  }

  // ----- What a run emits last and saves, told by the yield that ends it -----

  /** The call waits for the user. */
  predicate Waits(ev: AdkEvent, i: nat)
    requires i < |ev.parts|
  {
    var part := ev.parts[i];
    part.Some? && part.value.functionCall.Some? && part.value.functionCall.value.id in ev.longRunningToolIDs
  }

  predicate PendingFor(fc: FunctionCall, p: PendingToolCall) {
    p.id == fc.id && p.name == fc.name && p.args == match fc.args case Json(text) => text case NoArgs => "{}" case Unmarshallable => ""
  }

  /** The pending calls among the first parts are those at the given places: all that wait, in order. */
  ghost predicate PendingAt(ev: AdkEvent, n: nat, at: seq<nat>, pending: seq<PendingToolCall>)
    requires n <= |ev.parts|
  {
    && |at| == |pending| && (forall k, l :: 0 <= k < l < |at| ==> at[k] < at[l])
    && (forall k :: 0 <= k < |at| ==> at[k] < n && Waits(ev, at[k]) && PendingFor(ev.parts[at[k]].value.functionCall.value, pending[k]))
    && forall i :: 0 <= i < n && Waits(ev, i) ==> i in at
  }

  ghost predicate PendingCalls(ev: AdkEvent, pending: seq<PendingToolCall>) { exists at :: PendingAt(ev, |ev.parts|, at, pending) }

  lemma OneMorePending(ev: AdkEvent, i: nat, at: seq<nat>, pending: seq<PendingToolCall>)
    requires i < |ev.parts| && PendingAt(ev, i, at, pending)
    ensures !Waits(ev, i) ==> PendingAt(ev, i + 1, at, pending)
    ensures Waits(ev, i) ==>
      var fc := ev.parts[i].value.functionCall.value;
      PendingAt(ev, i + 1, at + [i], pending + [PendingToolCall(fc.id, fc.name, ArgsObject(fc.args))])
  {
    if Waits(ev, i) {
      var all := at + [i];
      forall j | 0 <= j < i + 1 && Waits(ev, j) ensures j in all {
        assert j == i ==> all[|at|] == j;
      }
    }
  }

  lemma PendingOneMore(ev: AdkEvent, i: nat, pending: seq<PendingToolCall>)
    requires i < |ev.parts| && pending == PendingOf(ev.parts[..i], ev.longRunningToolIDs)
    ensures PendingOf(ev.parts[..i + 1], ev.longRunningToolIDs) ==
      if !Waits(ev, i) then pending
      else var fc := ev.parts[i].value.functionCall.value; pending + [PendingToolCall(fc.id, fc.name, ArgsObject(fc.args))]
  {
    assert ev.parts[..i + 1][..i] == ev.parts[..i];
  }

  lemma PendingMeans(ev: AdkEvent)
    ensures PendingCalls(ev, PendingOf(ev.parts, ev.longRunningToolIDs))
  {
    var at: seq<nat>, pending := [], [];
    for i := 0 to |ev.parts|
      invariant pending == PendingOf(ev.parts[..i], ev.longRunningToolIDs) && PendingAt(ev, i, at, pending)
    {
      OneMorePending(ev, i, at, pending);
      PendingOneMore(ev, i, pending);
      if Waits(ev, i) {
        var fc := ev.parts[i].value.functionCall.value;
        at, pending := at + [i], pending + [PendingToolCall(fc.id, fc.name, ArgsObject(fc.args))];
      }
    }
    assert ev.parts[..|ev.parts|] == ev.parts;
    assert PendingAt(ev, |ev.parts|, at, pending);
  }

  /** One interrupt for each pending call. */
  predicate EachInterrupts(pending: seq<PendingToolCall>, interrupts: seq<Interrupt>) {
    |interrupts| == |pending| && forall k :: 0 <= k < |pending| ==> interrupts[k] == Interrupt(pending[k].id, "tool_call", pending[k].id)
  }

  lemma {:induction false} InterruptsMean(pending: seq<PendingToolCall>)
    ensures EachInterrupts(pending, InterruptsFor(pending))
  {
    if pending != [] {
      InterruptsMean(pending[..|pending| - 1]);
    }
  }

  /** One approval request for each pending call. */
  predicate EachRequested(pending: seq<PendingToolCall>, serial: nat, agent: Option<ID>, requests: seq<Emitted>) {
    |requests| == |pending| && forall k :: 0 <= k < |pending| ==>
      requests[k] == Emitted(agent, ActivitySnapshot(Generated(serial + k), "approval_request",
        "Agent wants to call " + pending[k].name + " with " + pending[k].args + " \U{2014} approve?"))
  }

  lemma {:induction false} RequestsMean(n: Narrative, pending: seq<PendingToolCall>) returns (requests: seq<Emitted>)
    ensures EachRequested(pending, n.serial, n.agent, requests)
    ensures RequestsNoted(n, pending) == n.(serial := n.serial + |pending|, remarks := n.remarks + requests)
  {
    if pending == [] {
      requests := [];
      assert n.remarks + [] == n.remarks;
    } else {
      var before, last := pending[..|pending| - 1], pending[|pending| - 1];
      requests := RequestsMean(n, before);
      var request := Emitted(n.agent, ActivitySnapshot(Generated(n.serial + |before|), "approval_request", RequestText(last)));
      assert n.remarks + requests + [request] == n.remarks + (requests + [request]);
      requests := requests + [request];
    }
  }

  function Status(c: BridgeConfig, agent: Option<ID>, status: string): seq<Emitted> {
    if c.emitStateStatus then [Emitted(agent, StateDelta({("/status", status)}))] else []
  }

  function Snapshot(c: BridgeConfig, w: World, agent: Option<ID>): seq<Emitted> {
    if c.emitMessagesSnapshot && w.sessionRefreshed then [Emitted(agent, MessagesSnapshot)] else []
  }

  /** How the run ends at the n-th yield: what is said between the streams and the last event,
      and the last event. */
  ghost predicate PartsWith(c: BridgeConfig, w: World, n: nat, serial: nat, agent: Option<ID>, tail: seq<Emitted>, last: Event) {
    && n <= |w.stream|
    && if n == |w.stream| then
      tail == Status(c, agent, "done") + Snapshot(c, w, agent) && last.RunFinished? && last.interrupts == []
    else if w.stream[n].AgentFailure? then
      tail == Status(c, agent, "error") && last.RunError? && last.message == "agent error: " + w.stream[n].message
    else if OverLimit(c, w.stream, n) then
      && tail == Status(c, agent, "error") + Snapshot(c, w, agent)
      && last.RunError? && last.message == "agent did not converge within " + Decimal(c.maxIterations) + " model turns"
    else
      LongRunning(w.stream[n]) && last.RunFinished? && PausesWith(c, w, w.stream[n].ev, serial, agent, tail, last.interrupts)
  }

  ghost predicate PausesWith(c: BridgeConfig, w: World, ev: AdkEvent, serial: nat, agent: Option<ID>, tail: seq<Emitted>, interrupts: seq<Interrupt>) {
    if !c.handBack && ev.requestedInput.Some? then
      && tail == Status(c, agent, "awaiting_input") + Snapshot(c, w, agent)
      && interrupts == [Interrupt(ev.requestedInput.value.interruptID, "requested_input", "")]
    else if c.handBack || w.autoApprove then
      tail == Snapshot(c, w, agent) + Status(c, agent, "done") && interrupts == []
    else exists pending, requests ::
      && PendingCalls(ev, pending) && EachInterrupts(pending, interrupts) && EachRequested(pending, serial, agent, requests)
      && tail == requests + Status(c, agent, "awaiting_approval") + Snapshot(c, w, agent)
  }

  /** Whether the run pauses there. */
  predicate PausesAt(c: BridgeConfig, w: World, n: nat) {
    && n < |w.stream| && LongRunning(w.stream[n]) && !OverLimit(c, w.stream, n) && !c.handBack
    && (w.stream[n].ev.requestedInput.Some? || !w.autoApprove)
  }

  /** What is then saved: the pending calls, the input asked for, and the session. */
  ghost predicate SavedFor(input: Input, w: World, ev: AdkEvent, run: PausedRun) {
    && run.threadID == input.threadID && run.runID == input.runID && run.sessionID == w.sessionID && run.state == w.sessionState
    && run.requestedInput == ev.requestedInput && PendingCalls(ev, run.pending)
  }

  lemma StatusAdds(c: BridgeConfig, w: World, n: Narrative, status: string)
    ensures StatusNoted(c, n, status) == n.(remarks := n.remarks + Status(c, n.agent, status))
    ensures SnapshotNoted(c, w, n) == n.(remarks := n.remarks + Snapshot(c, w, n.agent))
  {
    assert n.remarks + [] == n.remarks;
  }

  lemma StatusThenSnapshot(c: BridgeConfig, w: World, n: Narrative, status: string)
    ensures SnapshotNoted(c, w, StatusNoted(c, n, status)).remarks == n.remarks + (Status(c, n.agent, status) + Snapshot(c, w, n.agent))
    ensures StatusNoted(c, SnapshotNoted(c, w, n), status).remarks == n.remarks + (Snapshot(c, w, n.agent) + Status(c, n.agent, status))
  {
    StatusAdds(c, w, n, status);
    StatusAdds(c, w, StatusNoted(c, n, status), status);
    StatusAdds(c, w, SnapshotNoted(c, w, n), status);
    assert n.remarks + Status(c, n.agent, status) + Snapshot(c, w, n.agent) == n.remarks + (Status(c, n.agent, status) + Snapshot(c, w, n.agent));
    assert n.remarks + Snapshot(c, w, n.agent) + Status(c, n.agent, status) == n.remarks + (Snapshot(c, w, n.agent) + Status(c, n.agent, status));
  }

  lemma RequestsThenStatus(c: BridgeConfig, w: World, n: Narrative, pending: seq<PendingToolCall>, requests: seq<Emitted>)
    requires RequestsNoted(n, pending) == n.(serial := n.serial + |pending|, remarks := n.remarks + requests)
    ensures
      var m := SnapshotNoted(c, w, StatusNoted(c, RequestsNoted(n, pending), "awaiting_approval"));
      m.agent == n.agent && m.remarks == n.remarks + (requests + Status(c, n.agent, "awaiting_approval") + Snapshot(c, w, n.agent))
  {
    var status, snapshot := Status(c, n.agent, "awaiting_approval"), Snapshot(c, w, n.agent);
    StatusThenSnapshot(c, w, RequestsNoted(n, pending), "awaiting_approval");
    assert n.remarks + requests + (status + snapshot) == n.remarks + (requests + status + snapshot);
  }

  lemma ApprovalAsked(c: BridgeConfig, w: World, ev: AdkEvent, n: Narrative, pending: seq<PendingToolCall>) returns (tail: seq<Emitted>)
    requires !c.handBack && !w.autoApprove && ev.requestedInput.None? && PendingCalls(ev, pending)
    ensures
      var m := SnapshotNoted(c, w, StatusNoted(c, RequestsNoted(n, pending), "awaiting_approval"));
      m.remarks == n.remarks + tail && m.agent == n.agent
    ensures PausesWith(c, w, ev, n.serial, n.agent, tail, InterruptsFor(pending))
  {
    var requests := RequestsMean(n, pending);
    RequestsThenStatus(c, w, n, pending, requests);
    tail := requests + Status(c, n.agent, "awaiting_approval") + Snapshot(c, w, n.agent);
    InterruptsMean(pending);
    AsksApproval(c, w, ev, n.serial, n.agent, tail, pending, requests);
  }

  lemma AsksApproval(c: BridgeConfig, w: World, ev: AdkEvent, serial: nat, agent: Option<ID>, tail: seq<Emitted>,
                     pending: seq<PendingToolCall>, requests: seq<Emitted>)
    requires !c.handBack && !w.autoApprove && ev.requestedInput.None?
    requires PendingCalls(ev, pending) && EachRequested(pending, serial, agent, requests)
    requires EachInterrupts(pending, InterruptsFor(pending))
    requires tail == requests + Status(c, agent, "awaiting_approval") + Snapshot(c, w, agent)
    ensures PausesWith(c, w, ev, serial, agent, tail, InterruptsFor(pending))
  {
  }

  lemma FarewellMeans(c: BridgeConfig, w: World, k: nat, stop: Stop, usage: seq<Usage>, n: Narrative) returns (tail: seq<Emitted>)
    requires EndsWith(c, w.stream, k) && StopsFor(c, w, k, stop)
    ensures Farewell(c, w, stop, n).remarks == n.remarks + tail && Farewell(c, w, stop, n).agent == n.agent
    ensures PartsWith(c, w, k, n.serial, n.agent, tail, TerminalFor(stop, usage))
  {
    match stop
    case Exhausted => StatusThenSnapshot(c, w, n, "done"); tail := Status(c, n.agent, "done") + Snapshot(c, w, n.agent);
    case AgentFailed(_) => StatusAdds(c, w, n, "error"); tail := Status(c, n.agent, "error");
    case NotConverged(_) => StatusThenSnapshot(c, w, n, "error"); tail := Status(c, n.agent, "error") + Snapshot(c, w, n.agent);
    case HandedBack => StatusThenSnapshot(c, w, n, "done"); tail := Snapshot(c, w, n.agent) + Status(c, n.agent, "done");
    case AutoApproved => StatusThenSnapshot(c, w, n, "done"); tail := Snapshot(c, w, n.agent) + Status(c, n.agent, "done");
    case InputRequested(_) =>
      StatusThenSnapshot(c, w, n, "awaiting_input");
      tail := Status(c, n.agent, "awaiting_input") + Snapshot(c, w, n.agent);
    case ApprovalNeeded(ev) =>
      PendingMeans(ev);
      tail := ApprovalAsked(c, w, ev, n, PendingOf(ev.parts, ev.longRunningToolIDs));
  }

  /** Everything that a run does from its agent's first event on. */
  ghost predicate Concludes(c: BridgeConfig, w: World, n: Narrative, k: nat, evs: seq<AdkEvent>, said: seq<Emitted>) {
    && EndsWith(c, w.stream, k) && Translated(w.stream, k, evs)
    && var m := EventsNoted(c.translation, n, evs);
    exists tail, last ::
      && said == m.remarks + tail + [Emitted(None, last)] && PartsWith(c, w, k, m.serial, None, tail, last)
      && (last.RunFinished? || last.RunError?) && last.usage == TokenUsage.Aggregated(Billed(evs))
  }

  lemma SpokenMeans(c: BridgeConfig, w: World, n: Narrative) returns (k: nat)
    ensures Concludes(c, w, n, k, Course(c, w, w.stream, 0).0, Spoken(c, w, n).remarks)
    ensures StopsFor(c, w, k, Course(c, w, w.stream, 0).1)
  {
    k := CourseMeans(c, w);
    var evs, stop := Course(c, w, w.stream, 0).0, Course(c, w, w.stream, 0).1;
    var m, usage := AllClosed(EventsNoted(c.translation, n, evs)), TokenUsage.Aggregated(Billed(evs));
    var tail := FarewellMeans(c, w, k, stop, usage, m);
    assert Spoken(c, w, n).remarks == m.remarks + tail + [Emitted(None, TerminalFor(stop, usage))];
  }

  /** What the run leaves in the store: the paused run, or what was there. */
  ghost predicate Saves(c: BridgeConfig, w: World, input: Input, k: nat, before: map<string, Entry>, after: map<string, Entry>) {
    var key := RunKey(input.threadID, input.runID);
    if PausesAt(c, w, k) then key in after && after[key].at == w.saveTime && SavedFor(input, w, w.stream[k].ev, after[key].run)
    else after == before
  }

  lemma SavesMeans(c: BridgeConfig, w: World, input: Input, k: nat, stop: Stop, before: map<string, Entry>, after: map<string, Entry>)
    requires EndsWith(c, w.stream, k) && StopsFor(c, w, k, stop)
    requires stop.InputRequested? || stop.ApprovalNeeded? ==>
      var key := RunKey(input.threadID, input.runID); key in after && after[key] == Entry(PausedFor(input, w, stop.ev), w.saveTime)
    requires !stop.InputRequested? && !stop.ApprovalNeeded? ==> after == before
    ensures Saves(c, w, input, k, before, after)
  {
    if PausesAt(c, w, k) {
      PendingMeans(w.stream[k].ev);
    }
  }

  /** The run that is saved when the run pauses. */
  function PausedFor(input: Input, w: World, ev: AdkEvent): PausedRun {
    PausedRun(input.threadID, input.runID, w.sessionID, PendingOf(ev.parts, ev.longRunningToolIDs),
              ev.requestedInput, w.sessionState)
  }

  /** The client ends up with nothing open and with the words of the events' transcript. It is
      idle, and has also reassembled the calls, after those it already had, exactly when the
      events are disciplined. */
  ghost predicate Reassembled(view: View, calls: multiset<(ID, string)>, n: Narrative, config: Config, evs: seq<AdkEvent>) {
    var told := RunTold(Silence, n, config, evs);
    && view.Resting() && Words(view.spans) == told.utterances
    && (view.Idle() <==> Disciplined(config, evs))
    && (view.Idle() ==> told.calls.Ledger? && CallsIn(view.spans) == calls + told.calls.called)
  }

  lemma RunVerdict(view: View, started: set<ID>, spans: seq<Span>, n: Narrative, config: Config, evs: seq<AdkEvent>)
    requires Words(spans) == [] && view.Resting()
    requires Heard(view, started) == RunTold(Heard(At(spans), {}), n, config, evs)
    ensures Reassembled(view, CallsIn(spans), n, config, evs)
  {
    assert LedgerOf(At(spans), {}) == Behind(CallsIn(spans), Silence.calls);
    RunAfter(CallsIn(spans), Silence, n, config, evs);
    DisciplinedAnywhere(n, config, evs);
  }

  function Joined(done: seq<AdkEvent>, rest: (seq<AdkEvent>, Stop)): (seq<AdkEvent>, Stop) {
    (done + rest.0, rest.1)
  }

  /** A course is that of its first yield, continued by that of the others. */
  lemma CourseSplits(c: BridgeConfig, w: World, stream: seq<Yield>, turns: nat, done: seq<AdkEvent>)
    requires stream != []
    ensures
      var (evs, stop) := Course(c, w, [stream[0]], turns);
      Joined(done, Course(c, w, stream, turns))
        == if stop.Exhausted? then Joined(done + evs, Course(c, w, stream[1..], turns + CompletedTurns(evs)))
           else (done + evs, stop)
  {
    assert [stream[0]][1..] == [];
    match stream[0]
    case AgentFailure(_) =>
    case Nothing => assert done + [] == done;
    case Event(ev) =>
      assert [ev] + [] == [ev] && [ev][1..] == [];
      if StopAt(c, w, ev, turns + Turns(ev)).None? {
        var rest := Course(c, w, stream[1..], turns + Turns(ev));
        assert done + ([ev] + rest.0) == (done + [ev]) + rest.0;
      }
  }

  /** The events translated so far and the stop, if any, are on the run's course. */
  ghost predicate OnCourse(c: BridgeConfig, w: World, i: nat, turns: nat, done: seq<AdkEvent>, stop: Stop) {
    && i <= |w.stream|
    && if stop.Exhausted? then Joined(done, Course(c, w, w.stream[i..], turns)) == Course(c, w, w.stream, 0)
       else Course(c, w, w.stream, 0) == (done, stop)
  }

  lemma StartCourse(c: BridgeConfig, w: World)
    ensures OnCourse(c, w, 0, 0, [], Exhausted)
  {
    assert w.stream[0..] == w.stream;
    assert [] + Course(c, w, w.stream, 0).0 == Course(c, w, w.stream, 0).0;
  }

  lemma FollowCourse(c: BridgeConfig, w: World, i: nat, turns: nat, done: seq<AdkEvent>)
    requires i < |w.stream| && OnCourse(c, w, i, turns, done, Exhausted)
    ensures
      var (evs, why) := Course(c, w, [w.stream[i]], turns);
      OnCourse(c, w, i + 1, turns + CompletedTurns(evs), done + evs, why)
  {
    assert w.stream[i..][1..] == w.stream[i + 1..];
    CourseSplits(c, w, w.stream[i..], turns, done);
  }

  lemma EndCourse(c: BridgeConfig, w: World, i: nat, turns: nat, done: seq<AdkEvent>, stop: Stop)
    requires OnCourse(c, w, i, turns, done, stop) && (stop.Exhausted? ==> i == |w.stream|)
    ensures Course(c, w, w.stream, 0) == (done, stop)
  {
    assert done + [] == done;
  }

  /** What the translated events have told and noted so far, and what they cost. */
  datatype Progress = Progress(told: Transcript, noted: Narrative, usage: seq<Usage>)

  function Progressing(config: Config, p: Progress, evs: seq<AdkEvent>): Progress {
    Progress(EventsTold(p.told, p.noted, config, evs), EventsNoted(config, p.noted, evs), p.usage + Billed(evs))
  }

  lemma ProgressingConcat(config: Config, p: Progress, a: seq<AdkEvent>, b: seq<AdkEvent>)
    requires |b| <= 1
    ensures Progressing(config, p, a + b) == Progressing(config, Progressing(config, p, a), b)
  {
    if b == [] {
      assert a + b == a;
      NothingTranslated(config, Progressing(config, p, a));
    } else {
      assert a + b == a + [b[0]] && b == [b[0]];
      ProgressingOne(config, p, a, b[0]);
      ProgressingSingle(config, Progressing(config, p, a), b[0]);
    }
  }

  lemma ProgressingSingle(config: Config, p: Progress, ev: AdkEvent)
    ensures Progressing(config, p, [ev]) == Progressed(config, p, ev)
  {
    ProgressingOne(config, p, [], ev);
    NothingTranslated(config, p);
    assert [] + [ev] == [ev];
  }

  /** One more event. */
  function Progressed(config: Config, p: Progress, ev: AdkEvent): Progress {
    Progress(EventTold(p.told, p.noted, config, ev), EventNoted(config, p.noted, ev), p.usage + ev.Billed())
  }

  lemma ProgressingOne(config: Config, p: Progress, a: seq<AdkEvent>, ev: AdkEvent)
    ensures Progressing(config, p, a + [ev]) == Progressed(config, Progressing(config, p, a), ev)
  {
    assert (a + [ev])[..|a|] == a && (a + [ev])[|a|] == ev;
    assert p.usage + (Billed(a) + ev.Billed()) == (p.usage + Billed(a)) + ev.Billed();
  }

  /** How far a run has come. */
  ghost predicate Reached(c: BridgeConfig, w: World, start: Progress, i: nat, turns: nat, done: seq<AdkEvent>, stop: Stop, now: Progress) {
    OnCourse(c, w, i, turns, done, stop) && now == Progressing(c.translation, start, done)
  }

  lemma NextOnCourse(c: BridgeConfig, w: World, i: nat, turns: nat, done: seq<AdkEvent>,
                     course: (seq<AdkEvent>, Stop), newTurns: nat, more: seq<AdkEvent>)
    requires i < |w.stream| && OnCourse(c, w, i, turns, done, Exhausted) && course == Course(c, w, [w.stream[i]], turns)
    requires newTurns == turns + CompletedTurns(course.0) && more == done + course.0
    ensures |course.0| <= 1 && OnCourse(c, w, i + 1, newTurns, more, course.1)
  {
    CourseOfOne(c, w, w.stream[i], turns);
    FollowCourse(c, w, i, turns, done);
  }

  lemma ReachedNext(c: BridgeConfig, w: World, start: Progress, i: nat, turns: nat, done: seq<AdkEvent>, now: Progress,
                    course: (seq<AdkEvent>, Stop), newTurns: nat, more: seq<AdkEvent>, next: Progress)
    requires i < |w.stream| && Reached(c, w, start, i, turns, done, Exhausted, now) && course == Course(c, w, [w.stream[i]], turns)
    requires newTurns == turns + CompletedTurns(course.0) && more == done + course.0 && next == Progressing(c.translation, now, course.0)
    ensures Reached(c, w, start, i + 1, newTurns, more, course.1, next)
  {
    NextOnCourse(c, w, i, turns, done, course, newTurns, more);
    ProgressingConcat(c.translation, start, done, course.0);
  }

  lemma CourseOfOne(c: BridgeConfig, w: World, item: Yield, turns: nat)
    ensures
      var (evs, why) := Course(c, w, [item], turns);
      match item
      case AgentFailure(message) => evs == [] && why == AgentFailed(message) && CompletedTurns(evs) == 0
      case Nothing => evs == [] && why == Exhausted && CompletedTurns(evs) == 0
      case Event(ev) =>
        && evs == [ev] && CompletedTurns(evs) == Turns(ev)
        && var stop := StopAt(c, w, ev, turns + Turns(ev)); why == if stop.Some? then stop.value else Exhausted
  {
    assert [item][1..] == [];
    if item.Event? {
      assert [item.ev][1..] == [];
    }
  }

  lemma NothingTranslated(config: Config, p: Progress)
    ensures Progressing(config, p, []) == p
  {
  }

  // ----- Results come after their calls -----

  lemma SettlementSound(n: Narrative, p: PendingToolCall, activity: Option<string>, result: string)
    requires Sound(n)
    ensures Sound(SettlementNoted(n, p, activity, result))
  {
    var m := Noted(n, ToolCallStart(Given(p.id), p.name, None));
    StartSound(n, Given(p.id), p.name);
    var k := if activity.Some? then Noted(Drawn(m), ActivitySnapshot(Generated(m.serial), "tool_use", activity.value)) else m;
    if activity.Some? {
      AsideSound(Drawn(m), ActivitySnapshot(Generated(m.serial), "tool_use", activity.value));
    }
    OneMoreRemark(k.remarks, Emitted(k.agent, ToolCallResult(ResultOf(Given(p.id)), Given(p.id), result)));
  }

  lemma SettledOneMore(entries: seq<ResumeEntry>, saved: PausedRun, k: nat, n: Narrative)
    requires Settles(entries, saved) && 0 < k <= |saved.pending|
    ensures
      var p := saved.pending[k - 1];
      SettledNoted(entries, saved, k, n)
        == SettlementNoted(SettledNoted(entries, saved, k - 1, n), p, Activity(entries, saved, p), Outcome(entries, saved, p))
  {
  }

  lemma SettledSound(entries: seq<ResumeEntry>, saved: PausedRun, k: nat, n: Narrative)
    requires Sound(n) && Settles(entries, saved) && k <= |saved.pending|
    ensures Sound(SettledNoted(entries, saved, k, n))
  {
    var m := n;
    for i := 0 to k
      invariant Sound(m) && m == SettledNoted(entries, saved, i, n)
    {
      var p := saved.pending[i];
      SettledOneMore(entries, saved, i + 1, n);
      m := OneSettledSound(m, p, Activity(entries, saved, p), Outcome(entries, saved, p));
    }
  }

  lemma OneSettledSound(n: Narrative, p: PendingToolCall, activity: Option<string>, result: string) returns (m: Narrative)
    requires Sound(n)
    ensures Sound(m) && m == SettlementNoted(n, p, activity, result)
  {
    m := SettlementNoted(n, p, activity, result);
    SettlementSound(n, p, activity, result);
  }

  lemma StatusSound(c: BridgeConfig, n: Narrative, status: string)
    requires Sound(n)
    ensures Sound(StatusNoted(c, n, status))
  {
    AsideSound(n, StateDelta({("/status", status)}));
  }

  lemma SnapshotSound(c: BridgeConfig, w: World, n: Narrative)
    requires Sound(n)
    ensures Sound(SnapshotNoted(c, w, n))
  {
    AsideSound(n, MessagesSnapshot);
  }

  lemma {:induction false} RequestsSound(n: Narrative, pending: seq<PendingToolCall>)
    requires Sound(n)
    ensures Sound(RequestsNoted(n, pending))
  {
    if pending != [] {
      var m, last := RequestsNoted(n, pending[..|pending| - 1]), pending[|pending| - 1];
      RequestsSound(n, pending[..|pending| - 1]);
      AsideSound(Drawn(m), ActivitySnapshot(Generated(m.serial), "approval_request", RequestText(last)));
    }
  }

  lemma FarewellSound(c: BridgeConfig, w: World, stop: Stop, n: Narrative)
    requires Sound(n)
    ensures Sound(Farewell(c, w, stop, n))
  {
    match stop
    case Exhausted => StatusSound(c, n, "done"); SnapshotSound(c, w, StatusNoted(c, n, "done"));
    case AgentFailed(_) => StatusSound(c, n, "error");
    case NotConverged(_) => StatusSound(c, n, "error"); SnapshotSound(c, w, StatusNoted(c, n, "error"));
    case HandedBack => SnapshotSound(c, w, n); StatusSound(c, SnapshotNoted(c, w, n), "done");
    case AutoApproved => SnapshotSound(c, w, n); StatusSound(c, SnapshotNoted(c, w, n), "done");
    case InputRequested(_) => StatusSound(c, n, "awaiting_input"); SnapshotSound(c, w, StatusNoted(c, n, "awaiting_input"));
    case ApprovalNeeded(ev) =>
      var pending := PendingOf(ev.parts, ev.longRunningToolIDs);
      RequestsSound(n, pending);
      StatusSound(c, RequestsNoted(n, pending), "awaiting_approval");
      SnapshotSound(c, w, StatusNoted(c, RequestsNoted(n, pending), "awaiting_approval"));
  }

  lemma OpeningSound(c: BridgeConfig, input: Input, n: Narrative)
    requires Sound(n)
    ensures Sound(Opening(c, input, n))
  {
    var m := Noted(n, RunStarted(input.threadID, input.runID));
    AsideSound(n, RunStarted(input.threadID, input.runID));
    StatusSound(c, m, "running");
    AsideSound(StatusNoted(c, m, "running"), StateSnapshot);
  }

  lemma SpokenSound(c: BridgeConfig, w: World, n: Narrative)
    requires Sound(n) && c.translation.clientTools.None?
    ensures Sound(Spoken(c, w, n))
  {
    var (evs, stop) := Course(c, w, w.stream, 0);
    var m := EventsNoted(c.translation, n, evs);
    EventsSound(c.translation, n, evs);
    assert Sound(AllClosed(m));
    FarewellSound(c, w, stop, AllClosed(m));
    AsideSound(Farewell(c, w, stop, AllClosed(m)), TerminalFor(stop, TokenUsage.Aggregated(Billed(evs))));
  }

  class BridgeAgent {
    const cfg: BridgeConfig
    const store: RunStore

    constructor (cfg: BridgeConfig, store: RunStore)
      ensures this.cfg == cfg && this.store == store
    {
      this.cfg, this.store := cfg, store;
    }

    /** What has been said beyond the content, while nothing is being translated. */
    ghost function Story(emitter: EventEmitter): Narrative
      reads emitter
    {
      Beginning(emitter.serial, Remarks(emitter.out))
    }

    method EmitBackground(emitter: EventEmitter, e: Event)
      requires Background(e) && Scan(emitter.out).phase.Running? && Scan(emitter.out).view.Resting()
      modifies emitter`out
      ensures Scan(emitter.out) == old(Scan(emitter.out)) && Story(emitter) == Noted(old(Story(emitter)), e)
    {
      emitter.Emit(None, e);
      RemarksAppend(old(emitter.out), Emitted(None, e));
      ScanAppend(old(emitter.out), Emitted(None, e));
    }

    method EmitStatusDelta(emitter: EventEmitter, status: string)
      requires Scan(emitter.out).phase.Running? && Scan(emitter.out).view.Resting()
      modifies emitter`out
      ensures Scan(emitter.out) == old(Scan(emitter.out)) && Story(emitter) == StatusNoted(cfg, old(Story(emitter)), status)
    {
      if cfg.emitStateStatus {
        EmitBackground(emitter, StateDelta({("/status", status)}));
      }
    }

    method EmitSnapshot(emitter: EventEmitter, w: World)
      requires Scan(emitter.out).phase.Running? && Scan(emitter.out).view.Resting()
      modifies emitter`out
      ensures Scan(emitter.out) == old(Scan(emitter.out)) && Story(emitter) == SnapshotNoted(cfg, w, old(Story(emitter)))
    {
      if cfg.emitMessagesSnapshot && w.sessionRefreshed {
        EmitBackground(emitter, MessagesSnapshot);
      }
    }

    /** The run's last event. */
    method EmitTerminal(emitter: EventEmitter, e: Event)
      requires e.Terminal() && (Scan(emitter.out).phase.Running? || (Scan(emitter.out).phase.NotStarted? && e.RunError?))
      requires Scan(emitter.out).view.Resting()
      modifies emitter`out
      ensures emitter.out == old(emitter.out) + [Emitted(None, e)] && Story(emitter) == Noted(old(Story(emitter)), e)
      ensures Scan(emitter.out) == Client(Ended, old(Scan(emitter.out).view))
    {
      emitter.Emit(None, e);
      RemarksAppend(old(emitter.out), Emitted(None, e));
      ScanAppend(old(emitter.out), Emitted(None, e));
    }

    method EmitRaw(emitter: EventEmitter, e: Event)
      requires Scan(emitter.out).phase.Running? && !e.Terminal() && !e.RunStarted?
      modifies emitter`out
      ensures Scan(emitter.out) == Client(Running, NextView(old(Scan(emitter.out).view), Emitted(None, e)))
      ensures Story(emitter) == if Remark(e) then Noted(old(Story(emitter)), e) else old(Story(emitter))
    {
      emitter.Emit(None, e);
      ScanAppend(old(emitter.out), Emitted(None, e));
      RemarksAppend(old(emitter.out), Emitted(None, e));
    }

    /** A proposal shown again. */
    method Resurface(emitter: EventEmitter, p: PendingToolCall)
      requires Scan(emitter.out).phase.Running?
      requires var v := Scan(emitter.out).view; v.View? && v == At(v.spans)
      modifies emitter`out
      ensures Scan(emitter.out) == Client(Running, At(old(Scan(emitter.out).view.spans) + [Call(Given(p.id), p.args)]))
      ensures Story(emitter) == Noted(old(Story(emitter)), ToolCallStart(Given(p.id), p.name, None))
    {
      var id := Given(p.id);
      WholeCall(Scan(emitter.out).view, id, Json(p.args));
      EmitRaw(emitter, ToolCallStart(id, p.name, None));
      EmitArgsAndEnd(emitter, id, p.args);
    }

    method EmitArgsAndEnd(emitter: EventEmitter, id: ID, args: string)
      requires Scan(emitter.out).phase.Running?
      requires var v := Scan(emitter.out).view; v.Has(id) && v.agent.None?
      modifies emitter`out
      ensures Scan(emitter.out) == Client(Running, ArgsAndEnd(old(Scan(emitter.out).view), id, Json(args)))
      ensures Story(emitter) == old(Story(emitter))
    {
      ArgsAndEndShown(Scan(emitter.out).view, None, id, Json(args));
      EmitRaw(emitter, ToolCallArgs(id, args));
      EmitRaw(emitter, ToolCallEnd(id));
    }

    /** One proposal, re-surfaced and settled. */
    method Settle(emitter: EventEmitter, p: PendingToolCall, activity: Option<string>, result: string)
      requires Scan(emitter.out).phase.Running?
      requires var v := Scan(emitter.out).view; v.View? && v == At(v.spans)
      modifies emitter
      ensures Scan(emitter.out) == Client(Running, At(old(Scan(emitter.out).view.spans) + [Call(Given(p.id), p.args)]))
      ensures Story(emitter) == SettlementNoted(old(Story(emitter)), p, activity, result)
    {
      Resurface(emitter, p);
      Report(emitter, p, activity, result);
    }

    method Report(emitter: EventEmitter, p: PendingToolCall, activity: Option<string>, result: string)
      requires Scan(emitter.out).phase.Running? && (Scan(emitter.out).view.View? ==> Scan(emitter.out).view.agent.None?)
      modifies emitter
      ensures Scan(emitter.out) == old(Scan(emitter.out))
      ensures Story(emitter) == ReportNoted(old(Story(emitter)), p, activity, result)
    {
      if activity.Some? {
        var activityID := emitter.GenerateID();
        EmitRaw(emitter, ActivitySnapshot(activityID, "tool_use", activity.value));
      }
      EmitRaw(emitter, ToolCallResult(ResultOf(Given(p.id)), Given(p.id), result));
    }

    method SettleAll(emitter: EventEmitter, saved: PausedRun, entries: seq<ResumeEntry>, approvals: map<string, bool>)
        returns (parts: seq<FunctionResponse>)
      requires Scan(emitter.out) == Client(Running, At([]))
      requires Settles(entries, saved)
      requires forall id :: (if id in approvals then Some(approvals[id]) else None) == Decision(entries, id)
      modifies emitter
      ensures Scan(emitter.out) == Client(Running, At(Settled(saved, |saved.pending|)))
      ensures Story(emitter) == SettledNoted(entries, saved, |saved.pending|, old(Story(emitter)))
      ensures parts == Responses(entries, saved, |saved.pending|)
      ensures EachAnswered(entries, saved, parts) && EachReassembled(saved, Scan(emitter.out).view.spans)
      ensures EachShown(entries, saved, parts, Remarks(old(emitter.out)), Remarks(emitter.out))
    {
      SettledAnswers(entries, saved);
      SettledSpans(saved, |saved.pending|);
      SettledPieces(entries, saved, Story(emitter));
      parts := SettleEach(emitter, saved, entries, approvals);
    }

    method SettleEach(emitter: EventEmitter, saved: PausedRun, entries: seq<ResumeEntry>, approvals: map<string, bool>)
        returns (parts: seq<FunctionResponse>)
      requires Scan(emitter.out) == Client(Running, At([]))
      requires Settles(entries, saved)
      requires forall id :: (if id in approvals then Some(approvals[id]) else None) == Decision(entries, id)
      modifies emitter
      ensures Scan(emitter.out) == Client(Running, At(Settled(saved, |saved.pending|)))
      ensures Story(emitter) == SettledNoted(entries, saved, |saved.pending|, old(Story(emitter)))
      ensures parts == Responses(entries, saved, |saved.pending|)
    {
      parts := [];
      for i := 0 to |saved.pending|
        invariant Scan(emitter.out) == Client(Running, At(Settled(saved, i)))
        invariant Story(emitter) == SettledNoted(entries, saved, i, old(Story(emitter)))
        invariant parts == Responses(entries, saved, i)
      {
        var response := SettleNext(emitter, saved, entries, approvals, i, old(Story(emitter)));
        parts := parts + [response];
      }
    }

    method SettleNext(emitter: EventEmitter, saved: PausedRun, entries: seq<ResumeEntry>, approvals: map<string, bool>,
                      i: nat, ghost before: Narrative) returns (response: FunctionResponse)
      requires Settles(entries, saved) && i < |saved.pending|
      requires forall id :: (if id in approvals then Some(approvals[id]) else None) == Decision(entries, id)
      requires Scan(emitter.out) == Client(Running, At(Settled(saved, i)))
      requires Story(emitter) == SettledNoted(entries, saved, i, before)
      modifies emitter
      ensures Scan(emitter.out) == Client(Running, At(Settled(saved, i + 1)))
      ensures Story(emitter) == SettledNoted(entries, saved, i + 1, before)
      ensures Responses(entries, saved, i + 1) == Responses(entries, saved, i) + [response]
    {
      var p := saved.pending[i];
      var result := SettleOne(emitter, saved, entries, approvals, p);
      response := FunctionResponse(p.id, p.name, result);
    }

    method SettleOne(emitter: EventEmitter, saved: PausedRun, entries: seq<ResumeEntry>, approvals: map<string, bool>, p: PendingToolCall)
        returns (result: string)
      requires Scan(emitter.out).phase.Running?
      requires var v := Scan(emitter.out).view; v.View? && v == At(v.spans)
      requires Settles(entries, saved) && p in saved.pending
      requires forall id :: (if id in approvals then Some(approvals[id]) else None) == Decision(entries, id)
      modifies emitter
      ensures result == Outcome(entries, saved, p)
      ensures Scan(emitter.out) == Client(Running, At(old(Scan(emitter.out).view.spans) + [Call(Given(p.id), p.args)]))
      ensures Story(emitter) == SettlementNoted(old(Story(emitter)), p, Activity(entries, saved, p), result)
    {
      var activity;
      activity, result := Settlement(saved, entries, approvals, p);
      Settle(emitter, p, activity, result);
    }

    /** How one pending call is settled; denied calls are not announced as running. */
    method Settlement(saved: PausedRun, entries: seq<ResumeEntry>, approvals: map<string, bool>, p: PendingToolCall)
        returns (activity: Option<string>, result: string)
      requires Settles(entries, saved) && p in saved.pending
      requires forall id :: (if id in approvals then Some(approvals[id]) else None) == Decision(entries, id)
      ensures result == Outcome(entries, saved, p)
      ensures activity == Activity(entries, saved, p)
    {
      if saved.requestedInput.Some? {
        activity, result := Some("Running " + p.name), PayloadFor(entries, saved.requestedInput.value.interruptID).value;
      } else if p.id in approvals && approvals[p.id] {
        activity, result := Some("Running " + p.name + "(" + p.args + ")"), p.args;
      } else {
        activity, result := None, DENIAL;
      }
    }

    /** A resume that is refused ends the run. */
    method Refuse(emitter: EventEmitter, message: string)
      requires Scan(emitter.out) == Client(Running, At([]))
      modifies emitter`out
      ensures Scan(emitter.out) == Client(Ended, At([])) && Story(emitter) == Noted(old(Story(emitter)), RunError(message, []))
    {
      EmitTerminal(emitter, RunError(message, []));
    }

    /** The resume block: peek, validate, claim, and only then settle. */
    method ProcessResume(input: Input, w: World, emitter: EventEmitter)
        returns (proceed: bool, parts: seq<FunctionResponse>, savedState: map<string, string>, ghost spans: seq<Span>)
      requires store.Valid() && w.peekTime <= w.claimTime
      requires Scan(emitter.out) == Client(Running, At([]))
      modifies store`runs, emitter
      ensures store.Valid() && Words(spans) == []
      ensures proceed ==> Scan(emitter.out) == Client(Running, At(spans))
      ensures !proceed ==> Scan(emitter.out) == Client(Ended, At([])) && parts == []
      ensures input.resume == [] ==>
        proceed && parts == [] && savedState == map[] && spans == [] && store.runs == old(store.runs) && Story(emitter) == old(Story(emitter))
      ensures input.resume != [] ==>
        var key := RunKey(input.threadID, input.runID);
        var peeked := Answer(old(store.runs), key, w.peekTime, store.ttl);
        var claimed := Answer(old(store.runs), key, w.claimTime, store.ttl);
        && (proceed <==> peeked.Some? && claimed.Some? && Settles(input.resume, peeked.value))
        && (proceed ==>
          && parts == Responses(input.resume, peeked.value, |peeked.value.pending|)
          && spans == Settled(peeked.value, |peeked.value.pending|) && savedState == peeked.value.state
          && Story(emitter) == SettledNoted(input.resume, peeked.value, |peeked.value.pending|, old(Story(emitter)))
          && EachAnswered(input.resume, peeked.value, parts) && EachReassembled(peeked.value, spans)
          && EachShown(input.resume, peeked.value, parts, Remarks(old(emitter.out)), Remarks(emitter.out))
          && store.runs == old(store.runs) - {key})
        && (!proceed ==> Story(emitter) == Noted(old(Story(emitter)), RunError(Refusal(input.resume, peeked), [])))
        && (peeked.Some? && !Settles(input.resume, peeked.value) ==> store.runs == old(store.runs))
        && (forall k :: k != key ==> (k in store.runs <==> k in old(store.runs)))
        && forall k :: k in store.runs ==> k in old(store.runs) && store.runs[k] == old(store.runs)[k]
    {
      proceed, parts, savedState, spans := true, [], map[], [];
      if input.resume == [] {
        return;
      }
      var key := RunKey(input.threadID, input.runID);
      var peeked := store.Load(key, w.peekTime);
      if peeked.None? {
        Refuse(emitter, NO_RUN);
        proceed := false;
        return;
      }
      var saved := peeked.value;
      var approvals := ApprovalsFromResume(input.resume);
      var objection := CheckResume(input.resume, saved, approvals);
      if objection.Some? {
        Refuse(emitter, objection.value);
        proceed := false;
        return;
      }
      var claimed := store.LoadAndDelete(key, w.claimTime);
      if claimed.None? {
        Refuse(emitter, CLAIMED);
        proceed := false;
        return;
      }
      parts := SettleAll(emitter, saved, input.resume, approvals);
      savedState, spans := saved.state, Settled(saved, |saved.pending|);
      SettledIsSilent(saved, |saved.pending|);
    }

    method CheckResume(entries: seq<ResumeEntry>, saved: PausedRun, approvals: map<string, bool>) returns (objection: Option<string>)
      requires forall id :: (if id in approvals then Some(approvals[id]) else None) == Decision(entries, id)
      ensures objection == Objection(entries, saved)
      ensures objection.None? <==> Settles(entries, saved)
    {
      if saved.requestedInput.Some? {
        var id := saved.requestedInput.value.interruptID;
        return if PayloadFor(entries, id).Some? then None else Some("resume did not address requested input " + Quoted(id));
      }
      UndecidedExists(entries, saved.pending);
      var undecided := 0;
      for i := 0 to |saved.pending|
        invariant 0 <= undecided <= i
        invariant undecided == 0 <==> forall j :: 0 <= j < i ==> Decision(entries, saved.pending[j].id).Some?
        invariant undecided == i <==> forall j :: 0 <= j < i ==> Decision(entries, saved.pending[j].id).None?
      {
        if saved.pending[i].id !in approvals {
          undecided := undecided + 1;
        }
      }
      if undecided == 0 {
        return None;
      }
      if undecided == |saved.pending| {
        return Some("resume entries do not match any pending tool call for this run");
      }
      var first := FindUndecided(entries, saved.pending, approvals);
      return Some("resume did not address pending tool call " + Quoted(first));
    }

    method FindUndecided(entries: seq<ResumeEntry>, pending: seq<PendingToolCall>, approvals: map<string, bool>) returns (first: string)
      requires forall id :: (if id in approvals then Some(approvals[id]) else None) == Decision(entries, id)
      requires FirstUndecided(entries, pending).Some?
      ensures Some(first) == FirstUndecided(entries, pending)
    {
      assert pending[0..] == pending;
      var i := 0;
      while pending[i].id in approvals
        invariant 0 <= i < |pending| && FirstUndecided(entries, pending[i..]) == FirstUndecided(entries, pending)
        decreases |pending| - i
      {
        assert pending[i..][1..] == pending[i + 1..];
        i := i + 1;
      }
      first := pending[i].id;
    }

    method EmitApprovalRequests(emitter: EventEmitter, pending: seq<PendingToolCall>) returns (interrupts: seq<Interrupt>)
      requires Scan(emitter.out).phase.Running? && Scan(emitter.out).view.Resting()
      modifies emitter
      ensures Scan(emitter.out) == old(Scan(emitter.out)) && Story(emitter) == RequestsNoted(old(Story(emitter)), pending)
      ensures interrupts == InterruptsFor(pending)
    {
      interrupts := [];
      for i := 0 to |pending|
        invariant Scan(emitter.out) == old(Scan(emitter.out))
        invariant Story(emitter) == RequestsNoted(old(Story(emitter)), pending[..i])
        invariant interrupts == InterruptsFor(pending[..i])
      {
        assert pending[..i + 1][..i] == pending[..i];
        var id := emitter.GenerateID();
        EmitBackground(emitter, ActivitySnapshot(id, "approval_request", RequestText(pending[i])));
        interrupts := interrupts + [Interrupt(pending[i].id, "tool_call", pending[i].id)];
      }
      assert pending[..|pending|] == pending;
    }

    /** Everything a stopping run emits after its streams are closed, up to the terminal event. */
    method Finish(input: Input, w: World, emitter: EventEmitter, stop: Stop, usage: seq<Usage>)
      requires store.Valid() && Scan(emitter.out).phase.Running? && Scan(emitter.out).view.Resting()
      requires stop.InputRequested? ==> stop.ev.requestedInput.Some?
      requires stop.ApprovalNeeded? ==> stop.ev.requestedInput.None?
      modifies store`runs, emitter
      ensures store.Valid() && Scan(emitter.out) == Client(Ended, old(Scan(emitter.out).view))
      ensures emitter.out != [] && emitter.out[|emitter.out| - 1].event == TerminalFor(stop, usage)
      ensures Story(emitter) == Noted(Farewell(cfg, w, stop, old(Story(emitter))), TerminalFor(stop, usage))
      ensures stop.InputRequested? || stop.ApprovalNeeded? ==>
        Step(old(store.runs), Save(RunKey(input.threadID, input.runID), PausedFor(input, w, stop.ev)),
             w.saveTime, store.ttl, store.maxEntries, store.runs, None)
      ensures !stop.InputRequested? && !stop.ApprovalNeeded? ==> store.runs == old(store.runs)
    {
      match stop {
        case AgentFailed(_) =>
          EmitStatusDelta(emitter, "error");
        case NotConverged(_) =>
          EmitStatusDelta(emitter, "error");
          EmitSnapshot(emitter, w);
        case HandedBack =>
          EmitSnapshot(emitter, w);
          EmitStatusDelta(emitter, "done");
        case AutoApproved =>
          EmitSnapshot(emitter, w);
          EmitStatusDelta(emitter, "done");
        case InputRequested(ev) =>
          var pending := ExtractPendingToolCalls(ev);
          store.Save(RunKey(input.threadID, input.runID),
                     PausedRun(input.threadID, input.runID, w.sessionID, pending, ev.requestedInput, w.sessionState), w.saveTime);
          EmitStatusDelta(emitter, "awaiting_input");
          EmitSnapshot(emitter, w);
        case ApprovalNeeded(ev) =>
          var pending := ExtractPendingToolCalls(ev);
          var _ := EmitApprovalRequests(emitter, pending);
          store.Save(RunKey(input.threadID, input.runID),
                     PausedRun(input.threadID, input.runID, w.sessionID, pending, None, w.sessionState), w.saveTime);
          EmitStatusDelta(emitter, "awaiting_approval");
          EmitSnapshot(emitter, w);
        case Exhausted =>
          EmitStatusDelta(emitter, "done");
          EmitSnapshot(emitter, w);
      }
      EmitTerminal(emitter, TerminalFor(stop, usage));
    }

    /** Whether the run gets as far as invoking the agent. */
    ghost predicate Proceeds(input: Input, w: World)
      reads store
    {
      var key := RunKey(input.threadID, input.runID);
      var peeked := Answer(store.runs, key, w.peekTime, store.ttl);
      var claimed := Answer(store.runs, key, w.claimTime, store.ttl);
      && w.sessionResolved && w.messagesConverted && w.historySeeded
      && (input.resume != [] ==> peeked.Some? && claimed.Some? && Settles(input.resume, peeked.value))
    }

    /** The calls re-surfaced by a resume. */
    ghost function Resumed(input: Input, w: World): seq<Span>
      reads store
      requires Proceeds(input, w)
    {
      if input.resume == [] then []
      else
        var saved := Answer(store.runs, RunKey(input.threadID, input.runID), w.peekTime, store.ttl).value;
        Settled(saved, |saved.pending|)
    }

    method Fail(emitter: EventEmitter, message: string)
      requires Scan(emitter.out).view.Resting()
      requires Scan(emitter.out).phase.Running? || Scan(emitter.out).phase.NotStarted?
      modifies emitter`out
      ensures emitter.out == old(emitter.out) + [Emitted(None, RunError(message, []))]
      ensures Story(emitter) == Noted(old(Story(emitter)), RunError(message, []))
      ensures Scan(emitter.out) == Client(Ended, old(Scan(emitter.out).view))
      ensures Answered(old(emitter.out)) ==> Answered(emitter.out)
    {
      OneMoreRemark(emitter.out, Emitted(None, RunError(message, [])));
      EmitTerminal(emitter, RunError(message, []));
    }

    method Start(input: Input, emitter: EventEmitter)
      requires emitter.out == []
      modifies emitter`out
      ensures Scan(emitter.out) == Client(Running, At([])) && Story(emitter) == Opening(cfg, input, old(Story(emitter)))
      ensures Sound(Story(emitter)) && Answered(emitter.out)
    {
      OpeningSound(cfg, input, Story(emitter));
      RemarksAppend([], Emitted(None, RunStarted(input.threadID, input.runID)));
      emitter.Emit(None, RunStarted(input.threadID, input.runID));
      ScanAppend([], Emitted(None, RunStarted(input.threadID, input.runID)));
      EmitStatusDelta(emitter, "running");
      if cfg.emitStateSnapshot {
        EmitBackground(emitter, StateSnapshot);
      }
      RemarksAnswered(emitter.out);
    }

    ghost function Made(translator: EventTranslator): Progress
      requires translator.Shown().View?
      reads translator, translator.emitter
    {
      Progress(translator.Told(), translator.Narrated(), translator.usageEntries)
    }

    method TranslateOne(translator: EventTranslator, ev: AdkEvent)
      requires translator.Valid() && translator.config == cfg.translation
      modifies translator, translator.emitter
      ensures translator.Valid() && Made(translator) == Progressing(cfg.translation, old(Made(translator)), [ev])
    {
      ProgressingSingle(cfg.translation, Made(translator), ev);
      translator.Translate(ev);
    }

    /** One yield of the runner; a stop, if it ends the run. */
    method StreamOne(w: World, translator: EventTranslator, item: Yield, turns: nat, ghost course: (seq<AdkEvent>, Stop))
        returns (stop: Stop, newTurns: nat)
      requires translator.Valid() && translator.config == cfg.translation && course == Course(cfg, w, [item], turns)
      modifies translator, translator.emitter
      ensures translator.Valid() && stop == course.1 && newTurns == turns + CompletedTurns(course.0)
      ensures Made(translator) == Progressing(cfg.translation, old(Made(translator)), course.0)
    {
      CourseOfOne(cfg, w, item, turns);
      NothingTranslated(cfg.translation, Made(translator));
      stop, newTurns := Exhausted, turns;
      match item {
        case AgentFailure(message) =>
          stop := AgentFailed(message);
        case Nothing =>
        case Event(ev) =>
          TranslateOne(translator, ev);
          if !ev.partial && ev.turnComplete {
            newTurns := newTurns + 1;
          }
          var ended := StopAt(cfg, w, ev, newTurns);
          stop := if ended.Some? then ended.value else Exhausted;
      }
    }

    /** The next yield. */
    method Advance(w: World, translator: EventTranslator, i: nat, turns: nat, ghost start: Progress, ghost done: seq<AdkEvent>)
        returns (stop: Stop, newTurns: nat, ghost more: seq<AdkEvent>)
      requires translator.Valid() && translator.config == cfg.translation && i < |w.stream|
      requires Reached(cfg, w, start, i, turns, done, Exhausted, Made(translator))
      modifies translator, translator.emitter
      ensures translator.Valid() && Reached(cfg, w, start, i + 1, newTurns, more, stop, Made(translator))
    {
      ghost var course := Course(cfg, w, [w.stream[i]], turns);
      ghost var now := Made(translator);
      stop, newTurns := StreamOne(w, translator, w.stream[i], turns, course);
      more := done + course.0;
      ReachedNext(cfg, w, start, i, turns, done, now, course, newTurns, more, Made(translator));
    }

    /** The agent's events, translated until something stops the run. */
    method Drive(w: World, translator: EventTranslator) returns (stop: Stop)
      requires translator.Valid() && translator.config == cfg.translation
      modifies translator, translator.emitter
      ensures translator.Valid()
      ensures
        var (evs, why) := Course(cfg, w, w.stream, 0);
        && stop == why && Made(translator) == Progressing(cfg.translation, old(Made(translator)), evs)
        && exists k: nat :: EndsWith(cfg, w.stream, k) && Translated(w.stream, k, evs) && StopsFor(cfg, w, k, stop)
    {
      ghost var k := CourseMeans(cfg, w);
      stop := DriveOn(w, translator);
    }

    method DriveOn(w: World, translator: EventTranslator) returns (stop: Stop)
      requires translator.Valid() && translator.config == cfg.translation
      modifies translator, translator.emitter
      ensures translator.Valid()
      ensures
        var (evs, why) := Course(cfg, w, w.stream, 0);
        stop == why && Made(translator) == Progressing(cfg.translation, old(Made(translator)), evs)
    {
      stop := Exhausted;
      var turnCount, i := 0, 0;
      ghost var start, done: seq<AdkEvent> := Made(translator), [];
      StartCourse(cfg, w);
      NothingTranslated(cfg.translation, start);
      while i < |w.stream| && stop.Exhausted?
        invariant translator.Valid() && Reached(cfg, w, start, i, turnCount, done, stop, Made(translator))
        decreases |w.stream| - i
      {
        stop, turnCount, done := Advance(w, translator, i, turnCount, start, done);
        i := i + 1;
      }
      EndCourse(cfg, w, i, turnCount, done, stop);
    }

    /** Everything is translated, and what is open is closed. */
    method Conclude(w: World, translator: EventTranslator) returns (stop: Stop)
      requires translator.Valid() && translator.config == cfg.translation && translator.usageEntries == []
      modifies translator, translator.emitter
      ensures Scan(translator.emitter.out).phase.Running? && Scan(translator.emitter.out).view.Resting()
      ensures
        var (evs, why) := Course(cfg, w, w.stream, 0);
        && stop == why && translator.usageEntries == Billed(evs)
        && translator.Told() == RunTold(old(translator.Told()), old(translator.Narrated()), cfg.translation, evs)
        && translator.Narrated() == AgentLeft(Silenced(EventsNoted(cfg.translation, old(translator.Narrated()), evs)))
    {
      stop := Drive(w, translator);
      assert [] + Billed(Course(cfg, w, w.stream, 0).0) == Billed(Course(cfg, w, w.stream, 0).0);
      translator.CloseAll();
    }

    method Stream(w: World, emitter: EventEmitter) returns (stop: Stop, usage: seq<Usage>, ghost started: set<ID>)
      requires Scan(emitter.out).phase.Running? && Scan(emitter.out).view.View? && Scan(emitter.out).view.Idle()
      modifies emitter
      ensures Scan(emitter.out).phase.Running? && Scan(emitter.out).view.Resting()
      ensures
        var (evs, why) := Course(cfg, w, w.stream, 0);
        && stop == why && usage == TokenUsage.Aggregated(Billed(evs))
        && Heard(Scan(emitter.out).view, started)
          == RunTold(Heard(old(Scan(emitter.out).view), {}), old(Story(emitter)), cfg.translation, evs)
        && Story(emitter) == AllClosed(EventsNoted(cfg.translation, old(Story(emitter)), evs))
    {
      var translator := new EventTranslator(cfg.translation, emitter);
      stop := Conclude(w, translator);
      usage := TokenUsage.AggregateTokenUsage(translator.usageEntries);
      started := translator.startedTools;
    }

    method RunAgent(input: Input, w: World, emitter: EventEmitter, ghost spans: seq<Span>)
      requires store.Valid() && Words(spans) == []
      requires Scan(emitter.out).phase.Running? && Scan(emitter.out).view == At(spans)
      modifies store`runs, emitter
      ensures store.Valid() && Scan(emitter.out).phase.Ended? && Story(emitter) == Spoken(cfg, w, old(Story(emitter)))
      ensures
        var (evs, stop) := Course(cfg, w, w.stream, 0);
        && Reassembled(Scan(emitter.out).view, CallsIn(spans), old(Story(emitter)), cfg.translation, evs)
        && emitter.out != []
        && emitter.out[|emitter.out| - 1].event == TerminalFor(stop, TokenUsage.Aggregated(Billed(evs)))
        && KeptFor(input, w, stop, store.runs)
        && (!stop.InputRequested? && !stop.ApprovalNeeded? ==> store.runs == old(store.runs))
    {
      var stop, usage;
      ghost var started;
      stop, usage, started := Stream(w, emitter);
      RunVerdict(Scan(emitter.out).view, started, spans, old(Story(emitter)), cfg.translation, Course(cfg, w, w.stream, 0).0);
      Finish(input, w, emitter, stop, usage);
    }

    /** What a resume contributes to the runner's input: results of the paused calls. */
    ghost function ResumedParts(input: Input, w: World): seq<FunctionResponse>
      reads store
      requires Proceeds(input, w)
    {
      if input.resume == [] then []
      else
        var saved := Answer(store.runs, RunKey(input.threadID, input.runID), w.peekTime, store.ttl).value;
        Responses(input.resume, saved, |saved.pending|)
    }

    /** What a resume says before the agent runs. */
    ghost function ResumedStory(input: Input, w: World, n: Narrative): Narrative
      reads store
      requires Proceeds(input, w)
    {
      if input.resume == [] then n
      else
        var saved := Answer(store.runs, RunKey(input.threadID, input.runID), w.peekTime, store.ttl).value;
        SettledNoted(input.resume, saved, |saved.pending|, n)
    }

    /** Why a run does not get as far as its agent. */
    ghost function Reason(input: Input, w: World): string
      reads store
    {
      if !w.sessionResolved then "session resolve failed"
      else if !w.messagesConverted then "inbound message conversion failed"
      else if !w.historySeeded then "session history seed failed"
      else Refusal(input.resume, Answer(store.runs, RunKey(input.threadID, input.runID), w.peekTime, store.ttl))
    }

    /** The paused run's state, overridden by the request's. */
    ghost function ResumedState(input: Input, w: World): map<string, string>
      reads store
      requires Proceeds(input, w)
    {
      if input.resume == [] then input.state
      else Answer(store.runs, RunKey(input.threadID, input.runID), w.peekTime, store.ttl).value.state + input.state
    }

    /** The message that refuses a run. */
    lemma ReasonMeans(input: Input, w: World)
      ensures RefusedFor(input, w, Answer(store.runs, RunKey(input.threadID, input.runID), w.peekTime, store.ttl), Reason(input, w))
    {
      var peeked := Answer(store.runs, RunKey(input.threadID, input.runID), w.peekTime, store.ttl);
      if peeked.Some? {
        ObjectionSettles(input.resume, peeked.value);
        if Objection(input.resume, peeked.value).Some? {
          ObjectionMeans(input.resume, peeked.value);
        }
      }
    }

    /** What is left in the store when the paused run is claimed. */
    ghost function Claimed(input: Input): map<string, Entry>
      reads store
    {
      if input.resume == [] then store.runs else store.runs - {RunKey(input.threadID, input.runID)}
    }

    /** If the run was resumed, the runner gets the answers of the paused calls and the paused
        run's state, except where the request brings its own. */
    ghost predicate Resettled(input: Input, w: World, parts: seq<FunctionResponse>, state: map<string, string>)
      reads store
      requires Proceeds(input, w)
    {
      if input.resume == [] then parts == [] && state == input.state
      else
        var saved := Answer(store.runs, RunKey(input.threadID, input.runID), w.peekTime, store.ttl).value;
        && EachAnswered(input.resume, saved, parts)
        && state.Keys == saved.state.Keys + input.state.Keys
        && forall k :: k in state ==> state[k] == if k in input.state then input.state[k] else saved.state[k]
    }

    method Resume(input: Input, w: World, emitter: EventEmitter)
        returns (proceed: bool, parts: seq<FunctionResponse>, state: map<string, string>, ghost spans: seq<Span>)
      requires store.Valid() && w.peekTime <= w.claimTime && Scan(emitter.out) == Client(Running, At([]))
      requires w.sessionResolved && w.messagesConverted && w.historySeeded
      modifies store`runs, emitter
      ensures store.Valid() && (proceed <==> old(Proceeds(input, w)))
      ensures proceed ==> store.runs == old(Claimed(input)) && old(Resettled(input, w, parts, state))
      ensures !proceed ==> Scan(emitter.out) == Client(Ended, At([])) && parts == []
      ensures !proceed ==> Story(emitter) == Noted(old(Story(emitter)), RunError(old(Reason(input, w)), []))
      ensures proceed ==> Story(emitter) == old(ResumedStory(input, w, Story(emitter)))
      ensures proceed ==>
        && Scan(emitter.out) == Client(Running, At(spans)) && Words(spans) == [] && spans == old(Resumed(input, w))
        && parts == old(ResumedParts(input, w)) && state == old(ResumedState(input, w))
    {
      var savedState;
      proceed, parts, savedState, spans := ProcessResume(input, w, emitter);
      state := savedState + input.state;
    }

    lemma ResumedSound(input: Input, w: World, n: Narrative)
      requires Sound(n) && Proceeds(input, w) && n.agent.None?
      ensures Sound(ResumedStory(input, w, n)) && n.remarks <= ResumedStory(input, w, n).remarks
    {
      if input.resume != [] {
        var saved := Answer(store.runs, RunKey(input.threadID, input.runID), w.peekTime, store.ttl).value;
        SettledExtends(input.resume, saved, n);
        SettledSound(input.resume, saved, |saved.pending|, n);
      }
    }

    lemma RunAnswered(w: World, emitter: EventEmitter, n: Narrative)
      requires Sound(n) && cfg.translation.clientTools.None? && Story(emitter) == Spoken(cfg, w, n)
      ensures Answered(emitter.out)
    {
      SpokenSound(cfg, w, n);
      RemarksAnswered(emitter.out);
    }

    lemma RefusalAnswered(emitter: EventEmitter, n: Narrative, reason: string)
      requires Sound(n) && Story(emitter) == Noted(n, RunError(reason, []))
      ensures Answered(emitter.out)
    {
      AsideSound(n, RunError(reason, []));
      RemarksAnswered(emitter.out);
    }

    /** The agent's run, once the resume block is through. */
    method Pursue(input: Input, w: World, emitter: EventEmitter, ghost spans: seq<Span>, ghost n: Narrative, ghost before: map<string, Entry>)
      requires store.Valid() && Words(spans) == [] && store.runs == before
      requires Scan(emitter.out).phase.Running? && Scan(emitter.out).view == At(spans) && Story(emitter) == n && Sound(n)
      modifies store`runs, emitter
      ensures store.Valid() && Scan(emitter.out).phase.Ended? && Story(emitter) == Spoken(cfg, w, n)
      ensures (cfg.translation.clientTools.None? ==> Answered(emitter.out)) && n.remarks <= Remarks(emitter.out)
      ensures
        var (evs, stop) := Course(cfg, w, w.stream, 0);
        && Reassembled(Scan(emitter.out).view, CallsIn(spans), n, cfg.translation, evs)
        && emitter.out != []
        && emitter.out[|emitter.out| - 1].event == TerminalFor(stop, TokenUsage.Aggregated(Billed(evs)))
        && KeptFor(input, w, stop, store.runs)
        && exists k: nat :: Concludes(cfg, w, n, k, evs, Remarks(emitter.out)) && Saves(cfg, w, input, k, before, store.runs)
    {
      RunAgent(input, w, emitter, spans);
      SpokenExtends(cfg, w, n);
      ghost var k := SpokenMeans(cfg, w, n);
      SavesMeans(cfg, w, input, k, Course(cfg, w, w.stream, 0).1, before, store.runs);
      if cfg.translation.clientTools.None? {
        RunAnswered(w, emitter, n);
      }
    }

    /** The run from the resume block on. */
    method ResumeAndRun(input: Input, w: World, emitter: EventEmitter)
        returns (parts: seq<FunctionResponse>, state: map<string, string>)
      requires store.Valid() && w.peekTime <= w.claimTime && Scan(emitter.out) == Client(Running, At([]))
      requires w.sessionResolved && w.messagesConverted && w.historySeeded && Sound(Story(emitter))
      modifies store`runs, emitter
      ensures store.Valid() && Scan(emitter.out).phase.Ended?
      ensures cfg.translation.clientTools.None? ==> Answered(emitter.out)
      ensures Remarks(old(emitter.out)) <= Remarks(emitter.out)
      ensures !old(Proceeds(input, w)) ==> emitter.out != [] && emitter.out[|emitter.out| - 1].event == RunError(old(Reason(input, w)), [])
      ensures !old(Proceeds(input, w)) ==> Scan(emitter.out) == Client(Ended, At([])) && parts == []
      ensures Story(emitter) == if old(Proceeds(input, w)) then Spoken(cfg, w, old(ResumedStory(input, w, Story(emitter))))
                                else Noted(old(Story(emitter)), RunError(old(Reason(input, w)), []))
      ensures old(Proceeds(input, w)) ==>
        && parts == old(ResumedParts(input, w)) && state == old(ResumedState(input, w))
        && var (evs, stop) := Course(cfg, w, w.stream, 0);
        && Reassembled(Scan(emitter.out).view, CallsIn(old(Resumed(input, w))), old(ResumedStory(input, w, Story(emitter))), cfg.translation, evs)
        && emitter.out != []
        && emitter.out[|emitter.out| - 1].event == TerminalFor(stop, TokenUsage.Aggregated(Billed(evs)))
        && KeptFor(input, w, stop, store.runs)
        && old(Resettled(input, w, parts, state))
        && exists k: nat ::
          && Concludes(cfg, w, old(ResumedStory(input, w, Story(emitter))), k, evs, Remarks(emitter.out))
          && Saves(cfg, w, input, k, old(Claimed(input)), store.runs)
    {
      var proceed;
      ghost var spans;
      if Proceeds(input, w) {
        ResumedSound(input, w, Story(emitter));
      }
      proceed, parts, state, spans := Resume(input, w, emitter);
      if proceed {
        Pursue(input, w, emitter, spans, old(ResumedStory(input, w, Story(emitter))), old(Claimed(input)));
      } else {
        RefusalAnswered(emitter, old(Story(emitter)), old(Reason(input, w)));
        LastRemark(emitter.out);
      }
    }

    /** One run. It always ends with exactly one terminal event, and nothing open at the client,
        who has the words of the transcript of the translated events; the client also followed
        and reassembled their calls exactly when they are disciplined. The runner is given the results and the state of the
        paused run it resumes. As long as no tools are kept from the client, no result comes
        before its call was announced. */
    method RunInternal(input: Input, w: World, emitter: EventEmitter)
        returns (parts: seq<FunctionResponse>, state: map<string, string>)
      requires store.Valid() && w.peekTime <= w.claimTime && emitter.out == []
      modifies store`runs, emitter
      ensures store.Valid() && Scan(emitter.out).phase.Ended?
      ensures Scan(emitter.out).view.Resting()
      ensures !w.sessionResolved ==> |emitter.out| == 1 && emitter.out[0].event.RunError?
      ensures !old(Proceeds(input, w)) ==> Conforms(emitter.out) && parts == []
      ensures cfg.translation.clientTools.None? ==> Answered(emitter.out)
      ensures w.sessionResolved ==> FirstWords(cfg, input) <= Remarks(emitter.out)
      ensures !old(Proceeds(input, w)) ==>
        var peeked := Answer(old(store.runs), RunKey(input.threadID, input.runID), w.peekTime, store.ttl);
        && emitter.out != [] && emitter.out[|emitter.out| - 1].event.RunError?
        && RefusedFor(input, w, peeked, emitter.out[|emitter.out| - 1].event.message)
      ensures
        var opening := if w.sessionResolved then Opening(cfg, input, old(Story(emitter))) else old(Story(emitter));
        Story(emitter) == if old(Proceeds(input, w)) then Spoken(cfg, w, old(ResumedStory(input, w, opening)))
                          else Noted(opening, RunError(old(Reason(input, w)), []))
      ensures old(Proceeds(input, w)) ==>
        && parts == old(ResumedParts(input, w)) && state == old(ResumedState(input, w))
        && var (evs, stop) := Course(cfg, w, w.stream, 0);
        && (Conforms(emitter.out) <==> Disciplined(cfg.translation, evs))
        && Reassembled(Scan(emitter.out).view, CallsIn(old(Resumed(input, w))),
                       old(ResumedStory(input, w, Opening(cfg, input, Story(emitter)))), cfg.translation, evs)
        && emitter.out != []
        && emitter.out[|emitter.out| - 1].event == TerminalFor(stop, TokenUsage.Aggregated(Billed(evs)))
        && KeptFor(input, w, stop, store.runs)
        && old(Resettled(input, w, parts, state))
        && exists k: nat ::
          && Concludes(cfg, w, old(ResumedStory(input, w, Opening(cfg, input, Story(emitter)))), k, evs, Remarks(emitter.out))
          && Saves(cfg, w, input, k, old(Claimed(input)), store.runs)
    {
      ReasonMeans(input, w);
      parts, state := [], map[];
      if !w.sessionResolved {
        Fail(emitter, "session resolve failed");
        return;
      }
      OpeningMeans(cfg, input, emitter.serial);
      Start(input, emitter);
      if !w.messagesConverted {
        Fail(emitter, "inbound message conversion failed");
        return;
      }
      if !w.historySeeded {
        Fail(emitter, "session history seed failed");
        return;
      }
      parts, state := ResumeAndRun(input, w, emitter);
    }
  }
}
