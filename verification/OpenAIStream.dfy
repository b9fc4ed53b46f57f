/** Assembling a streamed chat completion (model/openai/stream.go, model/openai/tools.go). */
module OpenAIStream {
  import opened Events
  import opened StreamEnds

  /** A piece of a tool call; an index that is missing reads as zero. */
  datatype Fragment = Fragment(index: Option<int>, id: Option<string>, name: Option<string>, arguments: Option<string>)

  datatype Tokens = Tokens(prompt: int, completion: int, total: int)

  /** The lines of the stream. Chunks without choices and lines without data are skipped, and
      so are fragments of an unexpected shape. */
  datatype StreamEvent =
    | Chunk(content: string, fragments: seq<Option<Fragment>>, finishReason: Option<string>, usage: Option<Tokens>)
    | Skipped
    | Done
    | Malformed

  /** Some arguments, possibly none, or nothing for malformed text. */
  type Decoder<!A> = string -> Option<Option<A>>

  datatype FunctionCall<A> = FunctionCall(id: string, name: string, args: Option<A>)

  datatype Response<A> =
    | Reply(text: string, calls: seq<FunctionCall<A>>, partial: bool, finishReason: Option<string>, usage: Option<Tokens>)
    | TurnComplete
    | Interrupted
    | Failure

  // ----- Accumulating fragments -----

  datatype Call = Call(id: string, name: string, arguments: string)

  const Empty: Call := Call("", "", "")

  datatype Accumulator = Accumulator(calls: map<int, Call>, order: seq<int>)

  const Nothing: Accumulator := Accumulator(map[], [])

  predicate Consistent(a: Accumulator) { forall n :: 0 <= n < |a.order| ==> a.order[n] in a.calls }

  function Index(f: Fragment): int { if f.index.Some? then f.index.value else 0 }

  function Merged(c: Call, f: Fragment): Call {
    Call(if f.id.Some? && f.id.value != "" then f.id.value else c.id,
         if f.name.Some? && f.name.value != "" then f.name.value else c.name,
         c.arguments + if f.arguments.Some? then f.arguments.value else "")
  }

  function Add(a: Accumulator, f: Fragment): Accumulator {
    var i := Index(f);
    if i in a.calls then a.(calls := a.calls[i := Merged(a.calls[i], f)])
    else Accumulator(a.calls[i := Merged(Empty, f)], a.order + [i])
  }

  function Added(a: Accumulator, fs: seq<Fragment>): Accumulator {
    if fs == [] then a else Add(Added(a, fs[..|fs| - 1]), fs[|fs| - 1])
  }

  function Present(raw: seq<Option<Fragment>>): seq<Fragment> {
    if raw == [] then []
    else Present(raw[..|raw| - 1]) + if raw[|raw| - 1].Some? then [raw[|raw| - 1].value] else []
  }

  function Fragments(events: seq<StreamEvent>): seq<Fragment> {
    if events == [] then []
    else
      var last := events[|events| - 1];
      Fragments(events[..|events| - 1]) + if last.Chunk? then Present(last.fragments) else []
  }

  function Accumulated(events: seq<StreamEvent>): Accumulator { Added(Nothing, Fragments(events)) }

  // ----- Responses -----

  predicate Usable<A>(decode: Decoder<A>, c: Call) { c.arguments == "" || decode(c.arguments).Some? }

  function Translated<A>(decode: Decoder<A>, c: Call): FunctionCall<A>
    requires Usable(decode, c)
  {
    FunctionCall(c.id, c.name, if c.arguments == "" then None else decode(c.arguments).value)
  }

  function FunctionCalls<A>(decode: Decoder<A>, calls: map<int, Call>, order: seq<int>): (r: seq<FunctionCall<A>>)
    requires forall n :: 0 <= n < |order| ==> order[n] in calls
  {
    if order == [] then []
    else
      var c := calls[order[|order| - 1]];
      FunctionCalls(decode, calls, order[..|order| - 1]) + if Usable(decode, c) then [Translated(decode, c)] else []
  }

  function TranslateFinishReason(reason: string): string {
    if reason == "stop" || reason == "tool_calls" then "STOP"
    else if reason == "length" then "MAX_TOKENS"
    else if reason == "content_filter" then "SAFETY"
    else if reason == "" then "FINISH_REASON_UNSPECIFIED"
    else "OTHER"
  }

  /** The calls, the reason and the usage are reported once a reason is given. */
  function Answer<A>(decode: Decoder<A>, a: Accumulator, e: StreamEvent): Response<A>
    requires e.Chunk? && Consistent(a)
  {
    if e.finishReason.None? then Reply(e.content, [], true, None, None)
    else Reply(e.content, FunctionCalls(decode, a.calls, a.order), false, Some(TranslateFinishReason(e.finishReason.value)), e.usage)
  }

  lemma {:induction false} AddedIsConsistent(a: Accumulator, fs: seq<Fragment>)
    requires Consistent(a)
    ensures Consistent(Added(a, fs))
  {
    if fs != [] {
      AddedIsConsistent(a, fs[..|fs| - 1]);
    }
  }

  ghost function Yielded<A>(decode: Decoder<A>, events: seq<StreamEvent>): seq<Response<A>> {
    if events == [] then []
    else
      AddedIsConsistent(Nothing, Fragments(events));
      var last := events[|events| - 1];
      Yielded(decode, events[..|events| - 1]) + if last.Chunk? then [Answer(decode, Accumulated(events), last)] else []
  }

  predicate Ends(e: StreamEvent) { e.Done? || e.Malformed? }

  function Ending<A>(events: seq<StreamEvent>, cancelled: nat, broken: bool): seq<Response<A>> {
    var n := EndAt(events, cancelled, Ends);
    if n == |events| then (if broken then [Failure] else [])
    else if n == cancelled then [Interrupted]
    else if events[n].Done? then [TurnComplete]
    else [Failure]
  }

  // ----- The program -----

  method Extend(c: Call, f: Fragment) returns (acc: Call)
    ensures acc == Merged(c, f)
  {
    acc := c;
    if f.id.Some? && f.id.value != "" {
      acc := acc.(id := f.id.value);
    }
    if f.name.Some? && f.name.value != "" {
      acc := acc.(name := f.name.value);
    }
    if f.arguments.Some? {
      acc := acc.(arguments := acc.arguments + f.arguments.value);
    } else {
      assert acc.arguments + "" == acc.arguments;
    }
  }

  method Accumulate(calls0: map<int, Call>, order0: seq<int>, raw: seq<Option<Fragment>>)
    returns (calls: map<int, Call>, order: seq<int>)
    ensures Accumulator(calls, order) == Added(Accumulator(calls0, order0), Present(raw))
  {
    calls, order := calls0, order0;
    ghost var start := Accumulator(calls0, order0);
    for n := 0 to |raw|
      invariant Accumulator(calls, order) == Added(start, Present(raw[..n]))
    {
      assert raw[..n + 1][..n] == raw[..n];
      if raw[n].None? {
        assert Present(raw[..n]) + [] == Present(raw[..n]);
        continue;
      }
      var f := raw[n].value;
      AddedOneMore(start, Present(raw[..n]), f);
      var i := Index(f);
      if i !in calls {
        calls := calls[i := Empty];
        order := order + [i];
      }
      var acc := Extend(calls[i], f);
      calls := calls[i := acc];
    }
    assert raw[..|raw|] == raw;
  }

  lemma AddedOneMore(a: Accumulator, fs: seq<Fragment>, f: Fragment)
    ensures Added(a, fs + [f]) == Add(Added(a, fs), f)
  {
    assert (fs + [f])[..|fs|] == fs;
  }

  lemma {:induction false} AddedInTwo(a: Accumulator, xs: seq<Fragment>, ys: seq<Fragment>)
    ensures Added(a, xs + ys) == Added(Added(a, xs), ys)
  {
    if ys == [] {
      assert xs + ys == xs;
    } else {
      AddedInTwo(a, xs, ys[..|ys| - 1]);
      assert (xs + ys)[..|xs + ys| - 1] == xs + ys[..|ys| - 1];
    }
  }

  method ToolCallsToFunctionCalls<A>(decode: Decoder<A>, calls: map<int, Call>, order: seq<int>) returns (r: seq<FunctionCall<A>>)
    requires forall n :: 0 <= n < |order| ==> order[n] in calls
    ensures r == FunctionCalls(decode, calls, order)
  {
    r := [];
    for n := 0 to |order|
      invariant r == FunctionCalls(decode, calls, order[..n])
    {
      assert order[..n + 1][..n] == order[..n];
      var c := calls[order[n]];
      var args := None;
      if c.arguments != "" {
        var decoded := decode(c.arguments);
        if decoded.None? {
          continue;
        }
        args := decoded.value;
      }
      r := r + [FunctionCall(c.id, c.name, args)];
    }
    assert order[..|order|] == order;
  }

  method Consume<A>(decode: Decoder<A>, calls0: map<int, Call>, order0: seq<int>, e: StreamEvent)
    returns (calls: map<int, Call>, order: seq<int>, reply: Response<A>)
    requires e.Chunk? && Consistent(Accumulator(calls0, order0))
    ensures
      var a := Added(Accumulator(calls0, order0), Present(e.fragments));
      Accumulator(calls, order) == a && Consistent(a) && reply == Answer(decode, a, e)
  {
    calls, order := Accumulate(calls0, order0, e.fragments);
    AddedIsConsistent(Accumulator(calls0, order0), Present(e.fragments));
    reply := Reply(e.content, [], true, None, None);
    if e.finishReason.Some? {
      var functionCalls := ToolCallsToFunctionCalls(decode, calls, order);
      reply := Reply(e.content, functionCalls, false, Some(TranslateFinishReason(e.finishReason.value)), e.usage);
    }
  }

  /** The accumulated calls and the responses after one more event. */
  lemma OneMoreEvent<A>(decode: Decoder<A>, events: seq<StreamEvent>, n: nat)
    requires n < |events| && !Ends(events[n])
    ensures Consistent(Accumulated(events[..n])) && Consistent(Accumulated(events[..n + 1]))
    ensures events[n].Skipped? ==>
      Accumulated(events[..n + 1]) == Accumulated(events[..n]) && Yielded(decode, events[..n + 1]) == Yielded(decode, events[..n])
    ensures events[n].Chunk? ==>
      && Accumulated(events[..n + 1]) == Added(Accumulated(events[..n]), Present(events[n].fragments))
      && Yielded(decode, events[..n + 1]) == Yielded(decode, events[..n]) + [Answer(decode, Accumulated(events[..n + 1]), events[n])]
  {
    var before, after := events[..n], events[..n + 1];
    assert after[..n] == before && after[n] == events[n];
    AddedIsConsistent(Nothing, Fragments(before));
    AddedIsConsistent(Nothing, Fragments(after));
    if events[n].Skipped? {
      assert Fragments(before) + [] == Fragments(before);
      assert Yielded(decode, before) + [] == Yielded(decode, before);
    } else {
      AddedInTwo(Nothing, Fragments(before), Present(events[n].fragments));
    }
  }

  /** One reply for each chunk, and then how the stream ended. */
  method ParseStream<A>(decode: Decoder<A>, events: seq<StreamEvent>, cancelled: nat, broken: bool)
    returns (responses: seq<Response<A>>)
    ensures responses == Yielded(decode, events[..EndAt(events, cancelled, Ends)]) + Ending(events, cancelled, broken)
    ensures Reported(decode, events, cancelled, broken, responses)
  {
    StreamReported(decode, events, cancelled, broken);
    responses := ReadStream(decode, events, cancelled, broken);
  }

  method ReadStream<A>(decode: Decoder<A>, events: seq<StreamEvent>, cancelled: nat, broken: bool)
    returns (responses: seq<Response<A>>)
    ensures responses == Yielded(decode, events[..EndAt(events, cancelled, Ends)]) + Ending(events, cancelled, broken)
  {
    var calls: map<int, Call>, order: seq<int> := map[], [];
    responses := [];
    var n := 0;
    while n < |events| && n != cancelled && !Ends(events[n])
      invariant 0 <= n <= |events| && n <= cancelled
      invariant forall i :: 0 <= i < n ==> !Ends(events[i])
      invariant Accumulator(calls, order) == Accumulated(events[..n])
      invariant responses == Yielded(decode, events[..n])
    {
      OneMoreEvent(decode, events, n);
      if events[n].Chunk? {
        var reply;
        calls, order, reply := Consume(decode, calls, order, events[n]);
        responses := responses + [reply];
      }
      n := n + 1;
    }
    EndAtIs(events, cancelled, Ends, n);
    if n < |events| {
      if n == cancelled {
        return responses + [Interrupted];
      }
      return responses + [if events[n].Done? then TurnComplete else Failure];
    }
    if broken {
      return responses + [Failure];
    }
    assert responses + [] == responses;
  }

  // ----- Calls index by index -----

  /** A fragment without an index belongs to the first call. */
  predicate Belongs(f: Fragment, i: int) { f.index == Some(i) || (f.index.None? && i == 0) }

  /** The fragments of one call. */
  function Own(fs: seq<Fragment>, i: int): seq<Fragment> {
    if fs == [] then []
    else Own(fs[..|fs| - 1], i) + if Belongs(fs[|fs| - 1], i) then [fs[|fs| - 1]] else []
  }

  function LastNonEmpty(texts: seq<Option<string>>): string {
    if texts == [] then ""
    else
      var last := texts[|texts| - 1];
      if last.Some? && last.value != "" then last.value else LastNonEmpty(texts[..|texts| - 1])
  }

  function Concat(texts: seq<Option<string>>): string {
    if texts == [] then ""
    else Concat(texts[..|texts| - 1]) + if texts[|texts| - 1].Some? then texts[|texts| - 1].value else ""
  }

  function Ids(fs: seq<Fragment>): seq<Option<string>> { seq(|fs|, n requires 0 <= n < |fs| => fs[n].id) }
  function NamesOf(fs: seq<Fragment>): seq<Option<string>> { seq(|fs|, n requires 0 <= n < |fs| => fs[n].name) }
  function ArgumentsOf(fs: seq<Fragment>): seq<Option<string>> { seq(|fs|, n requires 0 <= n < |fs| => fs[n].arguments) }

  /** The last ID and name that are not empty, and all the arguments. */
  function CallFrom(own: seq<Fragment>): Call {
    Call(LastNonEmpty(Ids(own)), LastNonEmpty(NamesOf(own)), Concat(ArgumentsOf(own)))
  }

  /** The indices, each where it is first seen. */
  function FirstSeen(fs: seq<Fragment>): seq<int> {
    if fs == [] then []
    else
      var before, i := FirstSeen(fs[..|fs| - 1]), Index(fs[|fs| - 1]);
      if i in before then before else before + [i]
  }

  function At(a: Accumulator, i: int): Option<Call> { if i in a.calls then Some(a.calls[i]) else None }

  /** Each call is made of its own fragments alone. */
  lemma {:induction false} CallsAreIndependent(fs: seq<Fragment>, i: int)
    ensures At(Added(Nothing, fs), i) == if Own(fs, i) == [] then None else Some(CallFrom(Own(fs, i)))
  {
    if fs != [] {
      var before, f := fs[..|fs| - 1], fs[|fs| - 1];
      CallsAreIndependent(before, i);
      MergedIsFrom(Own(before, i), f);
      assert Own(before, i) + [] == Own(before, i);
    }
  }

  /** The calls stand in the order they are first seen. */
  lemma {:induction false} OrderIsFirstSeen(fs: seq<Fragment>)
    ensures Added(Nothing, fs).order == FirstSeen(fs)
  {
    if fs != [] {
      var before, f := fs[..|fs| - 1], fs[|fs| - 1];
      OrderIsFirstSeen(before);
      SeenHasOwn(before, Index(f));
      CallsAreIndependent(before, Index(f));
    }
  }

  lemma {:induction false} SeenHasOwn(fs: seq<Fragment>, i: int)
    ensures i in FirstSeen(fs) <==> Own(fs, i) != []
  {
    if fs != [] {
      SeenHasOwn(fs[..|fs| - 1], i);
    }
  }

  lemma MergedIsFrom(own: seq<Fragment>, f: Fragment)
    ensures CallFrom(own + [f]) == Merged(CallFrom(own), f)
    ensures own == [] ==> CallFrom(own) == Empty
  {
    var all := own + [f];
    assert Ids(all)[..|own|] == Ids(own) && NamesOf(all)[..|own|] == NamesOf(own) && ArgumentsOf(all)[..|own|] == ArgumentsOf(own);
  }

  lemma SameAt(a: Accumulator, b: Accumulator)
    requires forall i :: At(a, i) == At(b, i)
    ensures a.calls == b.calls
  {
    forall i ensures i in a.calls <==> i in b.calls
             ensures i in a.calls ==> a.calls[i] == b.calls[i]
    {
      assert At(a, i) == At(b, i);
    }
  }

  /** However the fragments of different calls are interleaved, the calls come out the same. */
  lemma InterleavingIsIrrelevant(xs: seq<Fragment>, ys: seq<Fragment>)
    requires FirstSeen(xs) == FirstSeen(ys) && forall i :: i in FirstSeen(xs) ==> Own(xs, i) == Own(ys, i)
    ensures Added(Nothing, xs) == Added(Nothing, ys)
  {
    OrderIsFirstSeen(xs);
    OrderIsFirstSeen(ys);
    forall i ensures At(Added(Nothing, xs), i) == At(Added(Nothing, ys), i) {
      CallsAreIndependent(xs, i);
      CallsAreIndependent(ys, i);
      SeenHasOwn(xs, i);
      SeenHasOwn(ys, i);
    }
    assert Added(Nothing, xs).calls == Added(Nothing, ys).calls by {
      SameAt(Added(Nothing, xs), Added(Nothing, ys));
    }
  }

  /** A call is reported exactly when its arguments are empty or can be decoded: the reported
      calls are those at the usable positions, translated, in order. */
  lemma {:induction false} UndecodableCallsAreDropped<A>(decode: Decoder<A>, calls: map<int, Call>, order: seq<int>) returns (at: seq<nat>)
    requires forall n :: 0 <= n < |order| ==> order[n] in calls
    ensures forall k, l :: 0 <= k < l < |at| ==> at[k] < at[l]
    ensures forall k :: 0 <= k < |at| ==> at[k] < |order| && Usable(decode, calls[order[at[k]]])
    ensures forall n :: 0 <= n < |order| && Usable(decode, calls[order[n]]) ==> n in at
    ensures
      var reported := FunctionCalls(decode, calls, order);
      |reported| == |at| && forall k :: 0 <= k < |at| ==> reported[k] == Translated(decode, calls[order[at[k]]])
  {
    at := [];
    if order != [] {
      var last := |order| - 1;
      at := UndecodableCallsAreDropped(decode, calls, order[..last]);
      if Usable(decode, calls[order[last]]) {
        at := at + [last];
      }
    }
  }

  lemma {:induction false} OnlyRepliesBefore<A>(decode: Decoder<A>, events: seq<StreamEvent>, k: nat)
    requires k < |Yielded(decode, events)|
    ensures Yielded(decode, events)[k].Reply?
  {
    var before := events[..|events| - 1];
    if k < |Yielded(decode, before)| {
      OnlyRepliesBefore(decode, before, k);
    }
  }

  /** The turn is completed, interrupted or failed by the last response only. */
  lemma CompletionComesLast<A>(decode: Decoder<A>, events: seq<StreamEvent>, cancelled: nat, broken: bool, k: nat)
    requires k + 1 < |Yielded(decode, events[..EndAt(events, cancelled, Ends)]) + Ending(events, cancelled, broken)|
    ensures (Yielded(decode, events[..EndAt(events, cancelled, Ends)]) + Ending(events, cancelled, broken))[k].Reply?
  {
    OnlyRepliesBefore(decode, events[..EndAt(events, cancelled, Ends)], k);
  }

  // ----- What each response says -----

  /** The number of chunks. */
  function Chunks(events: seq<StreamEvent>): nat {
    if events == [] then 0 else Chunks(events[..|events| - 1]) + if events[|events| - 1].Chunk? then 1 else 0
  }

  /** The reported call is the one the fragments of its index make, with its arguments decoded. */
  predicate CallOf<A(==)>(decode: Decoder<A>, own: seq<Fragment>, call: FunctionCall<A>) {
    var c := CallFrom(own);
    && call.id == c.id && call.name == c.name
    && if c.arguments == "" then call.args.None? else decode(c.arguments) == Some(call.args)
  }

  /** The reported calls are those at the given places among the indices seen: all whose joined
      arguments are empty or can be decoded, in order. */
  ghost predicate CallsAt<A>(decode: Decoder<A>, fs: seq<Fragment>, at: seq<nat>, calls: seq<FunctionCall<A>>) {
    var seen := FirstSeen(fs);
    && |at| == |calls| && (forall k, l :: 0 <= k < l < |at| ==> at[k] < at[l])
    && (forall k :: 0 <= k < |at| ==> at[k] < |seen| && CallOf(decode, Own(fs, seen[at[k]]), calls[k]))
    && forall n :: 0 <= n < |seen| ==>
      var arguments := CallFrom(Own(fs, seen[n])).arguments;
      n in at <==> arguments == "" || decode(arguments).Some?
  }

  predicate ReasonIs(reason: string, reported: Option<string>) {
    && (reason == "stop" || reason == "tool_calls" ==> reported == Some("STOP"))
    && (reason == "length" ==> reported == Some("MAX_TOKENS"))
    && (reason == "content_filter" ==> reported == Some("SAFETY"))
    && (reason == "" ==> reported == Some("FINISH_REASON_UNSPECIFIED"))
    && (reason !in {"stop", "tool_calls", "length", "content_filter", ""} ==> reported == Some("OTHER"))
  }

  /** The response to the last of some events, a chunk. */
  ghost predicate Answers<A>(decode: Decoder<A>, events: seq<StreamEvent>, r: Response<A>)
    requires events != [] && events[|events| - 1].Chunk?
  {
    var e := events[|events| - 1];
    && r.Reply? && r.text == e.content && (r.partial <==> e.finishReason.None?)
    && if e.finishReason.None? then r.calls == [] && r.finishReason.None? && r.usage.None?
       else
         && ReasonIs(e.finishReason.value, r.finishReason) && r.usage == e.usage
         && exists at :: CallsAt(decode, Fragments(events), at, r.calls)
  }

  lemma {:induction false} CallsReported<A>(decode: Decoder<A>, fs: seq<Fragment>, a: Accumulator)
    requires Consistent(a) && a == Added(Nothing, fs)
    ensures exists at :: CallsAt(decode, fs, at, FunctionCalls(decode, a.calls, a.order))
  {
    OrderIsFirstSeen(fs);
    var at := UndecodableCallsAreDropped(decode, a.calls, a.order);
    forall n | 0 <= n < |a.order| ensures a.calls[a.order[n]] == CallFrom(Own(fs, a.order[n])) {
      CallsAreIndependent(fs, a.order[n]);
      assert At(a, a.order[n]).Some?;
    }
    assert CallsAt(decode, fs, at, FunctionCalls(decode, a.calls, a.order));
  }

  lemma AnswerAnswers<A>(decode: Decoder<A>, events: seq<StreamEvent>)
    requires events != [] && events[|events| - 1].Chunk? && Consistent(Accumulated(events))
    ensures Answers(decode, events, Answer(decode, Accumulated(events), events[|events| - 1]))
  {
    CallsReported(decode, Fragments(events), Accumulated(events));
  }

  /** Chunk by chunk. */
  lemma {:induction false} ChunksAnswered<A>(decode: Decoder<A>, events: seq<StreamEvent>)
    ensures |Yielded(decode, events)| == Chunks(events)
    ensures forall i :: 0 <= i < |events| && events[i].Chunk? ==>
      Chunks(events[..i]) < Chunks(events) && Answers(decode, events[..i + 1], Yielded(decode, events)[Chunks(events[..i])])
  {
    if events != [] {
      var before, last := events[..|events| - 1], |events| - 1;
      ChunksAnswered(decode, before);
      AddedIsConsistent(Nothing, Fragments(events));
      if events[last].Chunk? {
        AnswerAnswers(decode, events);
      }
      forall i | 0 <= i < |events| && events[i].Chunk?
        ensures Chunks(events[..i]) < Chunks(events)
        ensures Answers(decode, events[..i + 1], Yielded(decode, events)[Chunks(events[..i])])
      {
        if i < last {
          assert before[..i] == events[..i] && before[..i + 1] == events[..i + 1] && before[i] == events[i];
        } else {
          assert events[..i] == before && events[..i + 1] == events;
        }
      }
    }
  }

  /** The events read: up to the end marker, a malformed line, the cancellation or the end. */
  predicate Read(events: seq<StreamEvent>, cancelled: nat, n: nat) {
    && n <= |events| && n <= cancelled && (forall i :: 0 <= i < n ==> events[i].Chunk? || events[i].Skipped?)
    && (n == |events| || n == cancelled || events[n].Done? || events[n].Malformed?)
  }

  /** What follows the replies. */
  predicate Closes<A(==)>(events: seq<StreamEvent>, cancelled: nat, broken: bool, n: nat, last: seq<Response<A>>)
    requires n <= |events|
  {
    if n == |events| then last == (if broken then [Failure] else [])
    else if n == cancelled then last == [Interrupted]
    else last == (if events[n].Done? then [TurnComplete] else [Failure])
  }

  /** One reply for each chunk read, in order, and then the ending. */
  ghost predicate Reported<A>(decode: Decoder<A>, events: seq<StreamEvent>, cancelled: nat, broken: bool, responses: seq<Response<A>>) {
    exists n: nat :: Read(events, cancelled, n) && ReportedUpTo(decode, events[..n], responses) &&
      Closes(events, cancelled, broken, n, responses[Chunks(events[..n])..])
  }

  ghost predicate ReportedUpTo<A>(decode: Decoder<A>, read: seq<StreamEvent>, responses: seq<Response<A>>) {
    && Chunks(read) <= |responses|
    && forall i :: 0 <= i < |read| && read[i].Chunk? ==>
      Chunks(read[..i]) < Chunks(read) && Answers(decode, read[..i + 1], responses[Chunks(read[..i])])
  }

  lemma {:induction false} ReadToEnd(events: seq<StreamEvent>, cancelled: nat)
    ensures Read(events, cancelled, EndAt(events, cancelled, Ends))
  {
    if events != [] && cancelled > 0 && !Ends(events[0]) {
      var n := EndAt(events[1..], cancelled - 1, Ends);
      ReadToEnd(events[1..], cancelled - 1);
      assert forall i :: 0 < i < |events| ==> events[i] == events[1..][i - 1];
    }
  }

  lemma StreamReported<A>(decode: Decoder<A>, events: seq<StreamEvent>, cancelled: nat, broken: bool)
    ensures Reported(decode, events, cancelled, broken, Yielded(decode, events[..EndAt(events, cancelled, Ends)]) + Ending(events, cancelled, broken))
  {
    var n := EndAt(events, cancelled, Ends);
    var replies, ending: seq<Response<A>> := Yielded(decode, events[..n]), Ending(events, cancelled, broken);
    ReadToEnd(events, cancelled);
    ChunksAnswered(decode, events[..n]);
    assert (replies + ending)[Chunks(events[..n])..] == ending;
    assert ReportedUpTo(decode, events[..n], replies + ending);
  }
}
