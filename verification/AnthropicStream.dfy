/** Assembling a streamed Anthropic response (model/anthropic/stream.go) and translating a
    whole one (model/anthropic/translate.go). */
module AnthropicStream {
  import opened Events
  import opened StreamEnds

  /** JSON text of tool inputs: parsing yields nothing for malformed text and for null. */
  datatype Codec<!A> = Codec(decode: string -> Option<A>, encode: Option<A> -> string)

  function Shown<T>(o: Option<T>): seq<T> { if o.Some? then [o.value] else [] }

  ghost predicate Lawful<A(!new)>(c: Codec<A>) {
    forall v :: c.decode(c.encode(v)) == v && c.encode(v) != ""
  }

  datatype Header = Header(blockType: string, id: string, name: string, signature: string)

  datatype Delta =
    | TextDelta(text: string) | ThinkingDelta(text: string) | InputDelta(json: string) | SignatureDelta(text: string) | OtherDelta

  /** A usage record, each counter present or not. */
  datatype Counters = Counters(input: Option<int>, output: Option<int>, cacheCreated: Option<int>, cacheRead: Option<int>)

  datatype Tokens = Tokens(prompt: int, candidates: int, total: int, cached: int)

  /** Custom metadata; an empty map is none. */
  type Metadata = map<string, int>

  /** Decoded stream events; a block start, a delta or a usage record may have an unexpected shape. */
  datatype StreamEvent =
    | MessageStart
    | BlockStart(index: int, header: Option<Header>)
    | BlockDelta(index: int, delta: Option<Delta>)
    | BlockStop(index: int)
    | MessageDelta(stopReason: Option<string>, usage: Option<Option<Counters>>)
    | MessageStop
    | Ignored
    | Malformed

  datatype Part<A> = TextPart(text: string) | CallPart(id: string, name: string, args: Option<A>) | ThoughtPart(text: string, signature: string)

  datatype Response<A> =
    | PartialText(text: string)
    | Complete(parts: seq<Part<A>>, finishReason: string, usage: Option<Tokens>, metadata: Metadata)
    | Interrupted
    | Failure

  // ----- One block -----

  datatype Block = Block(header: Header, text: string, thinking: string, json: string)

  /** What one event does to the block at its index. */
  function OnBlock<A>(c: Codec<A>, b: Option<Block>, e: StreamEvent): Option<Block> {
    match e
    case BlockStart(_, header) => if header.Some? then Some(Block(header.value, "", "", "")) else b
    case BlockDelta(_, delta) =>
      if b.None? || delta.None? then b
      else (match delta.value
            case TextDelta(t) => Some(b.value.(text := b.value.text + t))
            case ThinkingDelta(t) => Some(b.value.(thinking := b.value.thinking + t))
            case InputDelta(j) => Some(b.value.(json := b.value.json + j))
            case SignatureDelta(_) => b
            case OtherDelta => b)
    case BlockStop(_) =>
      if b.Some? && b.value.header.blockType == "tool_use" && b.value.json != ""
      then Some(b.value.(json := c.encode(c.decode(b.value.json)))) else b
    case _ => b
  }

  predicate Concerns(e: StreamEvent, index: int) {
    (e.BlockStart? || e.BlockDelta? || e.BlockStop?) && e.index == index
  }

  /** The events of one block. */
  function Own(events: seq<StreamEvent>, index: int): seq<StreamEvent> {
    if events == [] then []
    else
      var last := events[|events| - 1];
      Own(events[..|events| - 1], index) + if Concerns(last, index) then [last] else []
  }

  function BlockAfter<A>(c: Codec<A>, own: seq<StreamEvent>): Option<Block> {
    if own == [] then None else OnBlock(c, BlockAfter(c, own[..|own| - 1]), own[|own| - 1])
  }

  // ----- The whole stream -----

  datatype Accumulator = Accumulator(
    blocks: map<int, Block>, order: seq<int>, finishReason: string, usage: Option<Tokens>, metadata: Metadata)

  const Fresh: Accumulator := Accumulator(map[], [], "", None, map[])

  const CREATED: string := "cache_creation_input_tokens"
  const READ: string := "cache_read_input_tokens"

  function OrZero(n: Option<int>): int { if n.Some? then n.value else 0 }

  /** The counters of a record; missing ones count as zero. */
  function TokensOf(c: Counters): Tokens {
    Tokens(OrZero(c.input), OrZero(c.output), OrZero(c.input) + OrZero(c.output), OrZero(c.cacheRead))
  }

  /** The cache counters a streamed record has, zero or not. */
  function CacheMetadata(c: Counters): Metadata {
    (if c.cacheCreated.Some? then map[CREATED := c.cacheCreated.value] else map[]) +
    (if c.cacheRead.Some? then map[READ := c.cacheRead.value] else map[])
  }

  function At(a: Accumulator, index: int): Option<Block> { if index in a.blocks then Some(a.blocks[index]) else None }

  predicate Consistent(a: Accumulator) { forall n :: 0 <= n < |a.order| ==> a.order[n] in a.blocks }

  function Step<A>(c: Codec<A>, a: Accumulator, e: StreamEvent): Accumulator {
    match e
    case BlockStart(i, header) =>
      if header.None? then a else a.(blocks := a.blocks[i := OnBlock(c, None, e).value], order := a.order + [i])
    case BlockDelta(i, _) => if i in a.blocks then a.(blocks := a.blocks[i := OnBlock(c, Some(a.blocks[i]), e).value]) else a
    case BlockStop(i) => if i in a.blocks then a.(blocks := a.blocks[i := OnBlock(c, Some(a.blocks[i]), e).value]) else a
    case MessageDelta(reason, usage) =>
      a.(finishReason := if reason.Some? then reason.value else a.finishReason,
         usage := if usage.None? then a.usage else if usage.value.None? then None else Some(TokensOf(usage.value.value)),
         metadata := if usage.None? then a.metadata else if usage.value.None? then map[] else CacheMetadata(usage.value.value))
    case _ => a
  }

  function Accumulated<A>(c: Codec<A>, events: seq<StreamEvent>): (a: Accumulator)
    ensures Consistent(a)
  {
    if events == [] then Fresh else Step(c, Accumulated(c, events[..|events| - 1]), events[|events| - 1])
  }

  /** The finished part of a block, if it has one: empty text and unknown types have none. */
  function PartOf<A>(c: Codec<A>, b: Block): Option<Part<A>> {
    if b.header.blockType == "text" then (if b.text != "" then Some(TextPart(b.text)) else None)
    else if b.header.blockType == "tool_use" then
      Some(CallPart(b.header.id, b.header.name, if b.json != "" then c.decode(b.json) else None))
    else if b.header.blockType == "thinking" then Some(ThoughtPart(b.thinking, b.header.signature))
    else None
  }

  function PartsOf<A>(c: Codec<A>, blocks: map<int, Block>, order: seq<int>): seq<Part<A>>
    requires forall n :: 0 <= n < |order| ==> order[n] in blocks
  {
    if order == [] then []
    else
      var p := PartOf(c, blocks[order[|order| - 1]]);
      PartsOf(c, blocks, order[..|order| - 1]) + Shown(p)
  }

  function TranslateFinishReason(reason: string): string {
    if reason == "end_turn" || reason == "stop_sequence" || reason == "tool_use" then "STOP"
    else if reason == "max_tokens" then "MAX_TOKENS"
    else if reason == "refusal" then "SAFETY"
    else if reason == "" then "FINISH_REASON_UNSPECIFIED"
    else "OTHER"
  }

  function Finished<A>(c: Codec<A>, a: Accumulator): Response<A>
    requires Consistent(a)
  {
    Complete(PartsOf(c, a.blocks, a.order), TranslateFinishReason(a.finishReason), a.usage, a.metadata)
  }

  /** A text delta of a known block is yielded at once. */
  function Out<A>(a: Accumulator, e: StreamEvent): seq<Response<A>> {
    if e.BlockDelta? && e.index in a.blocks && e.delta.Some? && e.delta.value.TextDelta?
    then [PartialText(e.delta.value.text)] else []
  }

  function Yielded<A>(c: Codec<A>, events: seq<StreamEvent>): seq<Response<A>> {
    if events == [] then []
    else
      var before := events[..|events| - 1];
      Yielded(c, before) + Out(Accumulated(c, before), events[|events| - 1])
  }

  predicate Ends(e: StreamEvent) { e.MessageStop? || e.Malformed? }

  function Ending<A>(c: Codec<A>, events: seq<StreamEvent>, cancelled: nat, broken: bool): seq<Response<A>> {
    var n := EndAt(events, cancelled, Ends);
    if n == |events| then (if broken then [Failure] else [])
    else if n == cancelled then [Interrupted]
    else if events[n].MessageStop? then [Finished(c, Accumulated(c, events[..n]))]
    else [Failure]
  }

  method AssembleParts<A>(c: Codec<A>, blocks: map<int, Block>, order: seq<int>) returns (parts: seq<Part<A>>)
    requires forall n :: 0 <= n < |order| ==> order[n] in blocks
    ensures parts == PartsOf(c, blocks, order)
  {
    parts := [];
    for n := 0 to |order|
      invariant parts == PartsOf(c, blocks, order[..n])
    {
      assert order[..n + 1][..n] == order[..n];
      var acc := blocks[order[n]];
      if acc.header.blockType == "text" {
        if acc.text != "" {
          parts := parts + [TextPart(acc.text)];
        }
      } else if acc.header.blockType == "tool_use" {
        var args := None;
        if acc.json != "" {
          args := c.decode(acc.json);
        }
        parts := parts + [CallPart(acc.header.id, acc.header.name, args)];
      } else if acc.header.blockType == "thinking" {
        parts := parts + [ThoughtPart(acc.thinking, acc.header.signature)];
      }
    }
    assert order[..|order|] == order;
  }

  /** A usage record of an unexpected shape counts as none. */
  method ExtractUsage(usage: Option<Counters>) returns (tokens: Option<Tokens>)
    ensures tokens == if usage.None? then None else Some(TokensOf(usage.value))
  {
    if usage.None? {
      return None;
    }
    var um := Tokens(0, 0, 0, 0);
    if usage.value.input.Some? {
      um := um.(prompt := usage.value.input.value);
    }
    if usage.value.output.Some? {
      um := um.(candidates := usage.value.output.value);
    }
    um := um.(total := um.prompt + um.candidates);
    if usage.value.cacheRead.Some? {
      um := um.(cached := usage.value.cacheRead.value);
    }
    return Some(um);
  }

  method ExtractCacheMetadata(usage: Option<Counters>) returns (meta: Metadata)
    ensures meta == if usage.None? then map[] else CacheMetadata(usage.value)
  {
    meta := map[];
    if usage.None? {
      return;
    }
    if usage.value.cacheCreated.Some? {
      meta := meta[CREATED := usage.value.cacheCreated.value];
    }
    if usage.value.cacheRead.Some? {
      meta := meta[READ := usage.value.cacheRead.value];
    }
  }

  /** The parser's state. */
  class StreamParser<A> {
    const codec: Codec<A>
    var blocks: map<int, Block>
    var order: seq<int>
    var finishReason: string
    var usage: Option<Tokens>
    var metadata: Metadata

    ghost function State(): Accumulator
      reads this
    {
      Accumulator(blocks, order, finishReason, usage, metadata)
    }

    constructor (codec: Codec<A>)
      ensures this.codec == codec && State() == Fresh
    {
      this.codec := codec;
      blocks, order, finishReason, usage, metadata := map[], [], "", None, map[];
    }

    method Start(index: int, header: Header)
      modifies this`blocks, this`order
      ensures State() == Step(codec, old(State()), BlockStart(index, Some(header)))
    {
      blocks := blocks[index := Block(header, "", "", "")];
      order := order + [index];
    }

    method Extend(index: int, delta: Delta) returns (out: seq<Response<A>>)
      modifies this`blocks
      ensures State() == Step(codec, old(State()), BlockDelta(index, Some(delta)))
      ensures out == Out(old(State()), BlockDelta(index, Some(delta)))
    {
      out := [];
      if index !in blocks {
        return;
      }
      var acc := blocks[index];
      match delta {
        case TextDelta(text) =>
          blocks := blocks[index := acc.(text := acc.text + text)];
          out := [PartialText(text)];
        case ThinkingDelta(text) =>
          blocks := blocks[index := acc.(thinking := acc.thinking + text)];
        case InputDelta(json) =>
          blocks := blocks[index := acc.(json := acc.json + json)];
        case _ =>
          assert blocks[index := acc] == blocks;
      }
    }

    method Stop(index: int)
      modifies this`blocks
      ensures State() == Step(codec, old(State()), BlockStop(index))
    {
      if index !in blocks {
        return;
      }
      var acc := blocks[index];
      if acc.header.blockType == "tool_use" && acc.json != "" {
        blocks := blocks[index := acc.(json := codec.encode(codec.decode(acc.json)))];
      } else {
        assert blocks[index := acc] == blocks;
      }
    }

    /** Any event but those that end the stream. */
    method Consume(e: StreamEvent) returns (out: seq<Response<A>>)
      modifies this`blocks, this`order, this`finishReason, this`usage, this`metadata
      ensures State() == Step(codec, old(State()), e) && out == Out(old(State()), e)
    {
      out := [];
      match e {
        case BlockStart(index, header) =>
          if header.Some? {
            Start(index, header.value);
          }
        case BlockDelta(index, delta) =>
          if delta.Some? {
            out := Extend(index, delta.value);
          } else if index in blocks {
            assert blocks[index := blocks[index]] == blocks;
          }
        case BlockStop(index) =>
          Stop(index);
        case MessageDelta(reason, u) =>
          finishReason := if reason.Some? then reason.value else finishReason;
          if u.Some? {
            usage := ExtractUsage(u.value);
            metadata := ExtractCacheMetadata(u.value);
          }
        case _ =>
      }
    }
  }

  lemma OneMoreEvent<A>(c: Codec<A>, events: seq<StreamEvent>, i: nat)
    requires i < |events|
    ensures Accumulated(c, events[..i + 1]) == Step(c, Accumulated(c, events[..i]), events[i])
    ensures Yielded(c, events[..i + 1]) == Yielded(c, events[..i]) + Out(Accumulated(c, events[..i]), events[i])
  {
    assert events[..i + 1][..i] == events[..i];
  }

  method ReadEvents<A>(c: Codec<A>, parser: StreamParser<A>, events: seq<StreamEvent>, cancelled: nat)
    returns (responses: seq<Response<A>>, i: nat)
    requires parser.codec == c && parser.State() == Fresh
    modifies parser
    ensures i == EndAt(events, cancelled, Ends) && (i < |events| && i != cancelled ==> Ends(events[i]))
    ensures parser.State() == Accumulated(c, events[..i]) && responses == Yielded(c, events[..i])
  {
    responses, i := [], 0;
    while i < |events| && i != cancelled && !Ends(events[i])
      invariant 0 <= i <= |events| && i <= cancelled
      invariant forall k :: 0 <= k < i ==> !Ends(events[k])
      invariant parser.State() == Accumulated(c, events[..i]) && responses == Yielded(c, events[..i])
    {
      OneMoreEvent(c, events, i);
      var out := parser.Consume(events[i]);
      responses := responses + out;
      i := i + 1;
    }
    EndAtIs(events, cancelled, Ends, i);
  }

  /** The stream; the context is found cancelled once the given number of events was read, and a
      broken one fails after its last event. The responses are the texts as they come and the
      ending. */
  method ParseStream<A>(c: Codec<A>, events: seq<StreamEvent>, cancelled: nat, broken: bool)
    returns (responses: seq<Response<A>>)
    ensures responses == Yielded(c, events[..EndAt(events, cancelled, Ends)]) + Ending(c, events, cancelled, broken)
    ensures Reported(c, events, cancelled, broken, responses)
  {
    StreamReported(c, events, cancelled, broken);
    responses := ReadStream(c, events, cancelled, broken);
  }

  method ReadStream<A>(c: Codec<A>, events: seq<StreamEvent>, cancelled: nat, broken: bool)
    returns (responses: seq<Response<A>>)
    ensures responses == Yielded(c, events[..EndAt(events, cancelled, Ends)]) + Ending(c, events, cancelled, broken)
  {
    var parser := new StreamParser(c);
    var i;
    responses, i := ReadEvents(c, parser, events, cancelled);
    var ending := FinishStream(c, parser, events, i, cancelled, broken);
    responses := responses + ending;
  }

  method FinishStream<A>(c: Codec<A>, parser: StreamParser<A>, events: seq<StreamEvent>, i: nat, cancelled: nat, broken: bool)
    returns (ending: seq<Response<A>>)
    requires EndAt(events, cancelled, Ends) == i && parser.State() == Accumulated(c, events[..i])
    requires i < |events| && i != cancelled ==> Ends(events[i])
    ensures ending == Ending(c, events, cancelled, broken)
  {
    if i == |events| {
      return if broken then [Failure] else [];
    }
    if i == cancelled {
      return [Interrupted];
    }
    if events[i].Malformed? {
      return [Failure];
    }
    var parts := AssembleParts(c, parser.blocks, parser.order);
    return [Complete(parts, TranslateFinishReason(parser.finishReason), parser.usage, parser.metadata)];
  }

  // ----- The final response depends on the blocks one by one -----

  /** The indices in the order their blocks start. */
  function Starts(events: seq<StreamEvent>): seq<int> {
    if events == [] then []
    else
      var last := events[|events| - 1];
      Starts(events[..|events| - 1]) + if last.BlockStart? && last.header.Some? then [last.index] else []
  }

  function MessageDeltas(events: seq<StreamEvent>): seq<StreamEvent> {
    if events == [] then []
    else
      var last := events[|events| - 1];
      MessageDeltas(events[..|events| - 1]) + if last.MessageDelta? then [last] else []
  }

  /** Each block holds what its own events make of it, whatever came in between. */
  lemma {:induction false} BlocksAreIndependent<A>(c: Codec<A>, events: seq<StreamEvent>, index: int)
    ensures At(Accumulated(c, events), index) == BlockAfter(c, Own(events, index))
  {
    if events != [] {
      var before, last := events[..|events| - 1], events[|events| - 1];
      BlocksAreIndependent(c, before, index);
      if Concerns(last, index) {
        assert (Own(before, index) + [last])[..|Own(before, index)|] == Own(before, index);
        NoDeltaNoChange(c, BlockAfter(c, Own(before, index)), last);
      } else {
        assert Own(before, index) + [] == Own(before, index);
      }
    }
  }

  lemma NoDeltaNoChange<A>(c: Codec<A>, b: Option<Block>, e: StreamEvent)
    ensures b.None? && (e.BlockDelta? || e.BlockStop?) ==> OnBlock(c, b, e).None?
    ensures e.BlockStart? && e.header.Some? ==> OnBlock(c, b, e) == OnBlock(c, None, e)
    ensures e.BlockStart? && e.header.None? ==> OnBlock(c, b, e) == b
    ensures b.Some? ==> OnBlock(c, b, e).Some?
  {
  }

  lemma {:induction false} OrderIsStartOrder<A>(c: Codec<A>, events: seq<StreamEvent>)
    ensures Accumulated(c, events).order == Starts(events)
  {
    if events != [] {
      OrderIsStartOrder(c, events[..|events| - 1]);
    }
  }

  lemma {:induction false} RestFromMessageDeltas<A>(c: Codec<A>, events: seq<StreamEvent>)
    ensures
      var a, b := Accumulated(c, events), Accumulated(c, MessageDeltas(events));
      a.finishReason == b.finishReason && a.usage == b.usage && a.metadata == b.metadata
  {
    if events != [] {
      var before, last := events[..|events| - 1], events[|events| - 1];
      RestFromMessageDeltas(c, before);
      if last.MessageDelta? {
        assert (MessageDeltas(before) + [last])[..|MessageDeltas(before)|] == MessageDeltas(before);
      } else {
        assert MessageDeltas(before) + [] == MessageDeltas(before);
      }
    }
  }

  lemma {:induction false} PartsFromBlocks<A>(c: Codec<A>, m: map<int, Block>, n: map<int, Block>, order: seq<int>)
    requires forall k :: 0 <= k < |order| ==> order[k] in m && order[k] in n && m[order[k]] == n[order[k]]
    ensures PartsOf(c, m, order) == PartsOf(c, n, order)
  {
    if order != [] {
      PartsFromBlocks(c, m, n, order[..|order| - 1]);
    }
  }

  /** However the deltas of different blocks are interleaved, streams whose blocks start in
      the same order, get the same deltas each, and carry the same message deltas end in the
      same response. */
  lemma InterleavingIsIrrelevant<A>(c: Codec<A>, xs: seq<StreamEvent>, ys: seq<StreamEvent>)
    requires Starts(xs) == Starts(ys) && MessageDeltas(xs) == MessageDeltas(ys)
    requires forall i :: i in Starts(xs) ==> Own(xs, i) == Own(ys, i)
    ensures Finished(c, Accumulated(c, xs)) == Finished(c, Accumulated(c, ys))
  {
    var a, b := Accumulated(c, xs), Accumulated(c, ys);
    OrderIsStartOrder(c, xs);
    OrderIsStartOrder(c, ys);
    RestFromMessageDeltas(c, xs);
    RestFromMessageDeltas(c, ys);
    forall k | 0 <= k < |a.order| ensures a.order[k] in b.blocks && a.blocks[a.order[k]] == b.blocks[a.order[k]] {
      assert a.order[k] in Starts(xs);
      BlocksAreIndependent(c, xs, a.order[k]);
      BlocksAreIndependent(c, ys, a.order[k]);
    }
    PartsFromBlocks(c, a.blocks, b.blocks, a.order);
  }

  // ----- One complete response, last -----

  lemma {:induction false} OnlyPartialBefore<A>(c: Codec<A>, events: seq<StreamEvent>, k: nat)
    requires k < |Yielded(c, events)|
    ensures Yielded(c, events)[k].PartialText?
  {
    var before := events[..|events| - 1];
    if k < |Yielded(c, before)| {
      OnlyPartialBefore(c, before, k);
    }
  }

  /** Everything before the last response is a partial text. */
  lemma CompleteComesLast<A>(c: Codec<A>, events: seq<StreamEvent>, cancelled: nat, broken: bool, k: nat)
    requires k + 1 < |Yielded(c, events[..EndAt(events, cancelled, Ends)]) + Ending(c, events, cancelled, broken)|
    ensures (Yielded(c, events[..EndAt(events, cancelled, Ends)]) + Ending(c, events, cancelled, broken))[k].PartialText?
  {
    OnlyPartialBefore(c, events[..EndAt(events, cancelled, Ends)], k);
  }

  // ----- Agreement with the unstreamed translation -----

  datatype ContentBlock<A> =
    | TextBlock(text: string)
    | ToolBlock(id: string, name: string, input: Option<A>)
    | ThinkingBlock(thinking: string, signature: string)
    | OtherBlock

  function TranslateBlock<A>(b: ContentBlock<A>): seq<Part<A>> {
    match b
    case TextBlock(text) => [TextPart(text)]
    case ToolBlock(id, name, input) => [CallPart(id, name, input)]
    case ThinkingBlock(thinking, signature) => [ThoughtPart(thinking, signature)]
    case OtherBlock => []
  }

  function TranslateBlocks<A>(blocks: seq<ContentBlock<A>>): seq<Part<A>> {
    if blocks == [] then [] else TranslateBlocks(blocks[..|blocks| - 1]) + TranslateBlock(blocks[|blocks| - 1])
  }

  function Joined(own: seq<StreamEvent>, pick: Delta -> string): string {
    if own == [] then ""
    else
      var last := own[|own| - 1];
      Joined(own[..|own| - 1], pick) + if last.BlockDelta? && last.delta.Some? then pick(last.delta.value) else ""
  }

  function TextIn(d: Delta): string { if d.TextDelta? then d.text else "" }
  function ThinkingIn(d: Delta): string { if d.ThinkingDelta? then d.text else "" }
  function InputIn(d: Delta): string { if d.InputDelta? then d.json else "" }
  function SignatureIn(d: Delta): string { if d.SignatureDelta? then d.text else "" }

  /** A block's events in the order the service sends them: a start, deltas, at most one stop. */
  predicate Regular(own: seq<StreamEvent>) {
    && own != [] && own[0].BlockStart? && own[0].header.Some?
    && (forall k :: 0 < k < |own| - 1 ==> own[k].BlockDelta?)
    && (|own| > 1 ==> !own[|own| - 1].BlockStart?)
  }

  /** The block of the whole message that a stream of events stands for; a signature starts
      with the block and goes on in deltas. */
  function Assembled<A>(c: Codec<A>, own: seq<StreamEvent>): ContentBlock<A>
    requires Regular(own)
  {
    var h := own[0].header.value;
    if h.blockType == "text" then TextBlock(Joined(own, TextIn))
    else if h.blockType == "tool_use" then
      ToolBlock(h.id, h.name, if Joined(own, InputIn) != "" then c.decode(Joined(own, InputIn)) else None)
    else if h.blockType == "thinking" then ThinkingBlock(Joined(own, ThinkingIn), h.signature + Joined(own, SignatureIn))
    else OtherBlock
  }

  predicate OnlyDeltas(own: seq<StreamEvent>) {
    own != [] && own[0].BlockStart? && own[0].header.Some? && forall k :: 0 < k < |own| ==> own[k].BlockDelta?
  }

  lemma {:induction false} DeltasAccumulate<A>(c: Codec<A>, own: seq<StreamEvent>)
    requires OnlyDeltas(own)
    ensures BlockAfter(c, own) == Some(Block(own[0].header.value, Joined(own, TextIn), Joined(own, ThinkingIn), Joined(own, InputIn)))
  {
    var before := own[..|own| - 1];
    if |own| > 1 {
      DeltasAccumulate(c, before);
      assert Joined(before, TextIn) + "" == Joined(before, TextIn);
      assert Joined(before, ThinkingIn) + "" == Joined(before, ThinkingIn);
      assert Joined(before, InputIn) + "" == Joined(before, InputIn);
    } else {
      assert before == [];
    }
  }

  /** The deltas bring nothing for the signature of a thinking block. */
  predicate SignedAtStart(own: seq<StreamEvent>)
    requires Regular(own)
  {
    own[0].header.value.blockType == "thinking" ==> Joined(own, SignatureIn) == ""
  }

  lemma RegularAccumulates<A>(c: Codec<A>, own: seq<StreamEvent>)
    requires Regular(own)
    ensures
      var h, json := own[0].header.value, Joined(own, InputIn);
      BlockAfter(c, own) == Some(Block(h, Joined(own, TextIn), Joined(own, ThinkingIn),
        if own[|own| - 1].BlockStop? && h.blockType == "tool_use" && json != "" then c.encode(c.decode(json)) else json))
  {
    var before, last := own[..|own| - 1], own[|own| - 1];
    if |own| == 1 || last.BlockDelta? {
      DeltasAccumulate(c, own);
    } else {
      DeltasAccumulate(c, before);
      assert Joined(own, TextIn) == Joined(before, TextIn) + "" == Joined(before, TextIn);
      assert Joined(own, ThinkingIn) == Joined(before, ThinkingIn) + "" == Joined(before, ThinkingIn);
      assert Joined(own, InputIn) == Joined(before, InputIn) + "" == Joined(before, InputIn);
    }
  }

  /** A regular block ends up with the part of the assembled block exactly when its signature
      came at the start, unless it is a text block without any text: that one the stream
      leaves out and the translation keeps. */
  lemma BlockAgrees<A(!new)>(c: Codec<A>, own: seq<StreamEvent>)
    requires Lawful(c) && Regular(own)
    ensures BlockAfter(c, own).Some?
    ensures
      var part := Shown(PartOf(c, BlockAfter(c, own).value));
      var whole := TranslateBlock(Assembled(c, own));
      if Assembled(c, own) == TextBlock("") then part == []
      else |part| == |whole| && (part == whole <==> SignedAtStart(own))
  {
    RegularAccumulates(c, own);
    var h := own[0].header.value;
    if h.blockType == "thinking" {
      assert h.signature + Joined(own, SignatureIn) == h.signature <==> Joined(own, SignatureIn) == "";
      assert Shown(PartOf(c, BlockAfter(c, own).value))[0].signature == h.signature;
    }
  }

  /** Every block the stream starts is started once, in the regular way. */
  predicate RegularStream(events: seq<StreamEvent>) {
    forall i :: i in Starts(events) ==> Regular(Own(events, i))
  }

  /** No signature of the stream comes in deltas. */
  predicate AllSigned(events: seq<StreamEvent>, order: seq<int>)
    requires forall n :: 0 <= n < |order| ==> Regular(Own(events, order[n]))
  {
    forall n :: 0 <= n < |order| ==> SignedAtStart(Own(events, order[n]))
  }

  /** The content of the whole message, its blocks in the order they start. */
  function Message<A>(c: Codec<A>, events: seq<StreamEvent>, order: seq<int>): seq<ContentBlock<A>>
    requires forall n :: 0 <= n < |order| ==> Regular(Own(events, order[n]))
  {
    if order == [] then []
    else
      var before := order[..|order| - 1];
      Message(c, events, before) + [Assembled(c, Own(events, order[|order| - 1]))]
  }

  /** What is left of the parts of a message when its empty text blocks are skipped and its
      signatures, unless all are signed at the start, are cut. */
  ghost predicate Agrees<A>(parts: seq<Part<A>>, whole: seq<ContentBlock<A>>, signed: bool) {
    && |parts| <= |TranslateBlocks(whole)|
    && (TextBlock("") !in whole ==> |parts| == |TranslateBlocks(whole)| && (parts == TranslateBlocks(whole) <==> signed))
    && (TextBlock("") in whole ==> |parts| < |TranslateBlocks(whole)|)
  }

  lemma AgreementGrows<A>(parts: seq<Part<A>>, whole: seq<ContentBlock<A>>, signed: bool, part: seq<Part<A>>, b: ContentBlock<A>, start: bool)
    requires Agrees(parts, whole, signed)
    requires if b == TextBlock("") then part == [] else |part| == |TranslateBlock(b)| && (part == TranslateBlock(b) <==> start)
    ensures Agrees(parts + part, whole + [b], signed && start)
  {
    var longer := whole + [b];
    assert longer[..|longer| - 1] == whole;
    if TextBlock("") !in longer {
      var all, before := TranslateBlocks(longer), TranslateBlocks(whole);
      assert all == before + TranslateBlock(b);
      assert all[..|before|] == before && all[|before|..] == TranslateBlock(b);
      assert (parts + part)[..|before|] == parts && (parts + part)[|before|..] == part;
    }
  }

  lemma {:induction false} PartsAgree<A(!new)>(c: Codec<A>, events: seq<StreamEvent>, blocks: map<int, Block>, order: seq<int>)
    requires Lawful(c)
    requires forall n :: 0 <= n < |order| ==> Regular(Own(events, order[n])) && order[n] in blocks
    requires forall n :: 0 <= n < |order| ==> Some(blocks[order[n]]) == BlockAfter(c, Own(events, order[n]))
    ensures Agrees(PartsOf(c, blocks, order), Message(c, events, order), AllSigned(events, order))
  {
    if order != [] {
      var before, i := order[..|order| - 1], order[|order| - 1];
      PartsAgree(c, events, blocks, before);
      SignedOneMore(events, before, i);
      assert before + [i] == order;
      OnePartAgrees(c, Own(events, i), blocks[i], PartsOf(c, blocks, before), Message(c, events, before), AllSigned(events, before));
    }
  }

  lemma SignedOneMore(events: seq<StreamEvent>, before: seq<int>, i: int)
    requires Regular(Own(events, i)) && forall n :: 0 <= n < |before| ==> Regular(Own(events, before[n]))
    ensures AllSigned(events, before + [i]) <==> AllSigned(events, before) && SignedAtStart(Own(events, i))
  {
    var order := before + [i];
    assert order[|before|] == i && forall n :: 0 <= n < |before| ==> order[n] == before[n];
  }

  lemma OnePartAgrees<A(!new)>(c: Codec<A>, own: seq<StreamEvent>, b: Block, parts: seq<Part<A>>, whole: seq<ContentBlock<A>>, signed: bool)
    requires Lawful(c) && Regular(own) && Some(b) == BlockAfter(c, own) && Agrees(parts, whole, signed)
    ensures Agrees(parts + Shown(PartOf(c, b)), whole + [Assembled(c, own)], signed && SignedAtStart(own))
  {
    BlockAgrees(c, own);
    AgreementGrows(parts, whole, signed, Shown(PartOf(c, b)), Assembled(c, own), SignedAtStart(own));
  }

  lemma PartsMatch<A(!new)>(c: Codec<A>, events: seq<StreamEvent>)
    requires Lawful(c) && RegularStream(events)
    ensures
      var a := Accumulated(c, events);
      var whole := Message(c, events, Starts(events));
      PartsOf(c, a.blocks, a.order) == TranslateBlocks(whole) <==> TextBlock("") !in whole && AllSigned(events, Starts(events))
  {
    var a := Accumulated(c, events);
    OrderIsStartOrder(c, events);
    forall n | 0 <= n < |a.order| ensures Regular(Own(events, a.order[n])) && Some(a.blocks[a.order[n]]) == BlockAfter(c, Own(events, a.order[n])) {
      assert a.order[n] in Starts(events);
      BlocksAreIndependent(c, events, a.order[n]);
    }
    PartsAgree(c, events, a.blocks, a.order);
  }

  // ----- Reason and usage -----

  /** The whole message's usage: the last one reported. */
  function LastUsage(events: seq<StreamEvent>): Option<Counters> {
    if events == [] then None
    else
      var last := events[|events| - 1];
      if last.MessageDelta? && last.usage.Some? then last.usage.value else LastUsage(events[..|events| - 1])
  }

  function LastReason(events: seq<StreamEvent>): string {
    if events == [] then ""
    else
      var last := events[|events| - 1];
      if last.MessageDelta? && last.stopReason.Some? then last.stopReason.value else LastReason(events[..|events| - 1])
  }

  /** Unstreamed, both cache counters are kept, but only if one of them is positive. */
  function TranslateCache(c: Counters): Metadata {
    if OrZero(c.cacheCreated) > 0 || OrZero(c.cacheRead) > 0
    then map[CREATED := OrZero(c.cacheCreated), READ := OrZero(c.cacheRead)] else map[]
  }

  /** The unstreamed translation of a whole message. */
  function TranslateResponse<A>(content: seq<ContentBlock<A>>, stopReason: string, usage: Option<Counters>): Response<A> {
    Complete(TranslateBlocks(content), TranslateFinishReason(stopReason),
             if usage.Some? then Some(TokensOf(usage.value)) else None,
             if usage.Some? then TranslateCache(usage.value) else map[])
  }

  /** The cache counters come together, one of them positive, or not at all. */
  predicate CacheTogether(usage: Option<Counters>) {
    usage.Some? ==>
      (usage.value.cacheCreated.Some? <==> usage.value.cacheRead.Some?) &&
      (usage.value.cacheCreated.Some? ==> usage.value.cacheCreated.value > 0 || usage.value.cacheRead.value > 0)
  }

  lemma MetadataAgrees(c: Counters)
    ensures CacheMetadata(c) == TranslateCache(c) <==> CacheTogether(Some(c))
  {
    assert CREATED[6] != READ[6];
    assert CREATED in CacheMetadata(c) <==> c.cacheCreated.Some?;
    assert READ in CacheMetadata(c) <==> c.cacheRead.Some?;
    assert (CREATED in TranslateCache(c) <==> READ in TranslateCache(c));
    if CacheTogether(Some(c)) && c.cacheCreated.Some? {
      assert CacheMetadata(c) == map[CREATED := c.cacheCreated.value, READ := c.cacheRead.value];
    }
  }

  lemma {:induction false} ReasonAndUsage<A>(c: Codec<A>, events: seq<StreamEvent>)
    ensures
      var a, u := Accumulated(c, events), LastUsage(events);
      && a.finishReason == LastReason(events)
      && a.usage == (if u.Some? then Some(TokensOf(u.value)) else None)
      && a.metadata == if u.Some? then CacheMetadata(u.value) else map[]
  {
    if events != [] {
      ReasonAndUsage(c, events[..|events| - 1]);
    }
  }

  /** A regular stream ends with the response the unstreamed translation gives for the same
      message exactly when no text block of it is empty, no signature of a thinking block comes
      in deltas, and its cache counters come together; the finish reason and the token counts
      are the same in any case. */
  lemma StreamAgreesWithTranslation<A(!new)>(c: Codec<A>, events: seq<StreamEvent>)
    requires Lawful(c) && RegularStream(events)
    ensures
      var whole := Message(c, events, Starts(events));
      var streamed := Finished(c, Accumulated(c, events));
      var translated := TranslateResponse(whole, LastReason(events), LastUsage(events));
      var lossless := TextBlock("") !in whole && AllSigned(events, Starts(events));
      && (streamed == translated <==> lossless && CacheTogether(LastUsage(events)))
      && (streamed.parts == translated.parts <==> lossless)
      && (streamed.metadata == translated.metadata <==> CacheTogether(LastUsage(events)))
      && streamed.finishReason == translated.finishReason && streamed.usage == translated.usage
  {
    ReasonAndUsage(c, events);
    PartsMatch(c, events);
    if LastUsage(events).Some? {
      MetadataAgrees(LastUsage(events).value);
    }
  }

  // ----- What each response says -----

  /** The block of this index has started. */
  predicate Started(events: seq<StreamEvent>, index: int) {
    exists i :: 0 <= i < |events| && events[i].BlockStart? && events[i].header.Some? && events[i].index == index
  }

  /** The last event brings text for a block that has started. */
  predicate Speaks(events: seq<StreamEvent>) {
    && events != []
    && var e := events[|events| - 1];
    && e.BlockDelta? && e.delta.Some? && e.delta.value.TextDelta? && Started(events[..|events| - 1], e.index)
  }

  function Speeches(events: seq<StreamEvent>): nat {
    if events == [] then 0 else Speeches(events[..|events| - 1]) + if Speaks(events) then 1 else 0
  }

  lemma {:induction false} KnownIsStarted<A>(c: Codec<A>, events: seq<StreamEvent>, index: int)
    ensures index in Accumulated(c, events).blocks <==> Started(events, index)
  {
    if events != [] {
      var before, last := events[..|events| - 1], events[|events| - 1];
      KnownIsStarted(c, before, index);
      assert forall i :: 0 <= i < |before| ==> before[i] == events[i];
    }
  }

  /** The k-th response is the k-th text. */
  ghost predicate Spoken<A>(read: seq<StreamEvent>, responses: seq<Response<A>>) {
    && Speeches(read) <= |responses|
    && forall i :: 0 < i <= |read| && Speaks(read[..i]) ==>
      Speeches(read[..i]) <= Speeches(read) && responses[Speeches(read[..i]) - 1] == PartialText(read[i - 1].delta.value.text)
  }

  lemma {:induction false} TextsSpoken<A>(c: Codec<A>, read: seq<StreamEvent>)
    ensures |Yielded(c, read)| == Speeches(read) && Spoken(read, Yielded(c, read))
  {
    if read != [] {
      var before, e := read[..|read| - 1], read[|read| - 1];
      TextsSpoken(c, before);
      if e.BlockDelta? {
        KnownIsStarted(c, before, e.index);
      }
      forall i | 0 < i <= |read| && Speaks(read[..i])
        ensures Speeches(read[..i]) <= Speeches(read)
        ensures Yielded(c, read)[Speeches(read[..i]) - 1] == PartialText(read[i - 1].delta.value.text)
      {
        if i < |read| {
          assert before[..i] == read[..i] && before[i - 1] == read[i - 1];
        } else {
          assert read[..i] == read;
        }
      }
    }
  }

  predicate ReasonIs(reason: string, reported: string) {
    && (reason == "end_turn" || reason == "stop_sequence" || reason == "tool_use" ==> reported == "STOP")
    && (reason == "max_tokens" ==> reported == "MAX_TOKENS")
    && (reason == "refusal" ==> reported == "SAFETY")
    && (reason == "" ==> reported == "FINISH_REASON_UNSPECIFIED")
    && (reason !in {"end_turn", "stop_sequence", "tool_use", "max_tokens", "refusal", ""} ==> reported == "OTHER")
  }

  /** A missing counter is zero; the total is that of the input and the output. */
  predicate UsageIs(u: Option<Counters>, tokens: Option<Tokens>) {
    && (u.None? <==> tokens.None?)
    && (u.Some? ==>
      var c, t := u.value, tokens.value;
      && t.prompt == (if c.input.Some? then c.input.value else 0)
      && t.candidates == (if c.output.Some? then c.output.value else 0)
      && t.total == t.prompt + t.candidates
      && t.cached == if c.cacheRead.Some? then c.cacheRead.value else 0)
  }

  /** The cache counters that were reported, and nothing else. */
  predicate CacheIs(u: Option<Counters>, metadata: Metadata) {
    && (CREATED in metadata <==> u.Some? && u.value.cacheCreated.Some?)
    && (READ in metadata <==> u.Some? && u.value.cacheRead.Some?)
    && (CREATED in metadata ==> metadata[CREATED] == u.value.cacheCreated.value)
    && (READ in metadata ==> metadata[READ] == u.value.cacheRead.value)
    && metadata.Keys <= {CREATED, READ}
  }

  /** Which blocks have a part, and which part that is. */
  predicate PartIs<A(==)>(c: Codec<A>, b: Block, p: Part<A>) {
    && (b.header.blockType == "text" ==> p == TextPart(b.text) && b.text != "")
    && (b.header.blockType == "tool_use" ==>
      p.CallPart? && p.id == b.header.id && p.name == b.header.name && p.args == if b.json == "" then None else c.decode(b.json))
    && (b.header.blockType == "thinking" ==> p == ThoughtPart(b.thinking, b.header.signature))
  }

  predicate HasPart(b: Block) {
    (b.header.blockType == "text" && b.text != "") || b.header.blockType == "tool_use" || b.header.blockType == "thinking"
  }

  predicate PartAt<A(==)>(c: Codec<A>, own: seq<StreamEvent>, p: Part<A>) {
    BlockAfter(c, own).Some? && PartIs(c, BlockAfter(c, own).value, p)
  }

  /** The parts are those of the blocks at the given places in start order: all that have one. */
  ghost predicate PartsAt<A>(c: Codec<A>, events: seq<StreamEvent>, at: seq<nat>, parts: seq<Part<A>>) {
    var starts := Starts(events);
    && |at| == |parts| && (forall k, l :: 0 <= k < l < |at| ==> at[k] < at[l])
    && (forall k :: 0 <= k < |at| ==> at[k] < |starts| && PartAt(c, Own(events, starts[at[k]]), parts[k]))
    && forall n :: 0 <= n < |starts| ==> var b := BlockAfter(c, Own(events, starts[n])); b.Some? && (n in at <==> HasPart(b.value))
  }

  /** The response that completes the turn. */
  ghost predicate Completes<A>(c: Codec<A>, read: seq<StreamEvent>, r: Response<A>) {
    && r.Complete? && ReasonIs(LastReason(read), r.finishReason)
    && UsageIs(LastUsage(read), r.usage) && CacheIs(LastUsage(read), r.metadata)
    && exists at :: PartsAt(c, read, at, r.parts)
  }

  lemma {:induction false} PartsPlaced<A>(c: Codec<A>, blocks: map<int, Block>, order: seq<int>) returns (at: seq<nat>)
    requires forall n :: 0 <= n < |order| ==> order[n] in blocks
    ensures var parts := PartsOf(c, blocks, order);
      && |at| == |parts| && (forall k, l :: 0 <= k < l < |at| ==> at[k] < at[l])
      && (forall k :: 0 <= k < |at| ==> at[k] < |order| && PartIs(c, blocks[order[at[k]]], parts[k]))
    ensures forall n :: 0 <= n < |order| ==> (n in at <==> HasPart(blocks[order[n]]))
  {
    at := [];
    if order != [] {
      var last := |order| - 1;
      at := PartsPlaced(c, blocks, order[..last]);
      if HasPart(blocks[order[last]]) {
        at := at + [last];
      }
    }
  }

  lemma PartsReported<A>(c: Codec<A>, read: seq<StreamEvent>)
    ensures var a := Accumulated(c, read); exists at :: PartsAt(c, read, at, PartsOf(c, a.blocks, a.order))
  {
    var a := Accumulated(c, read);
    OrderIsStartOrder(c, read);
    var at := PartsPlaced(c, a.blocks, a.order);
    forall n | 0 <= n < |a.order| ensures BlockAfter(c, Own(read, a.order[n])) == Some(a.blocks[a.order[n]]) {
      BlocksAreIndependent(c, read, a.order[n]);
    }
    assert PartsAt(c, read, at, PartsOf(c, a.blocks, a.order));
  }

  lemma CacheReported(c: Counters)
    ensures CacheIs(Some(c), CacheMetadata(c))
  {
    assert CREATED[6] != READ[6];
  }

  lemma FinishedCompletes<A>(c: Codec<A>, read: seq<StreamEvent>)
    ensures Completes(c, read, Finished(c, Accumulated(c, read)))
  {
    ReasonAndUsage(c, read);
    PartsReported(c, read);
    if LastUsage(read).Some? {
      CacheReported(LastUsage(read).value);
    }
  }

  /** The events read: up to the end of the message, a malformed line, the cancellation or the end. */
  predicate Read(events: seq<StreamEvent>, cancelled: nat, n: nat) {
    && n <= |events| && n <= cancelled && (forall i :: 0 <= i < n ==> !events[i].MessageStop? && !events[i].Malformed?)
    && (n == |events| || n == cancelled || events[n].MessageStop? || events[n].Malformed?)
  }

  ghost predicate Closes<A>(c: Codec<A>, events: seq<StreamEvent>, cancelled: nat, broken: bool, n: nat, last: seq<Response<A>>)
    requires n <= |events|
  {
    if n == |events| then last == (if broken then [Failure] else [])
    else if n == cancelled then last == [Interrupted]
    else if events[n].MessageStop? then |last| == 1 && Completes(c, events[..n], last[0])
    else last == [Failure]
  }

  /** One response for each text read, in order, and then the ending. */
  ghost predicate Reported<A>(c: Codec<A>, events: seq<StreamEvent>, cancelled: nat, broken: bool, responses: seq<Response<A>>) {
    exists n: nat :: Read(events, cancelled, n) && Spoken(events[..n], responses) &&
      Closes(c, events, cancelled, broken, n, responses[Speeches(events[..n])..])
  }

  lemma {:induction false} ReadToEnd(events: seq<StreamEvent>, cancelled: nat)
    ensures Read(events, cancelled, EndAt(events, cancelled, Ends))
  {
    if events != [] && cancelled > 0 && !Ends(events[0]) {
      ReadToEnd(events[1..], cancelled - 1);
      assert forall i :: 0 < i < |events| ==> events[i] == events[1..][i - 1];
    }
  }

  lemma StreamReported<A>(c: Codec<A>, events: seq<StreamEvent>, cancelled: nat, broken: bool)
    ensures Reported(c, events, cancelled, broken, Yielded(c, events[..EndAt(events, cancelled, Ends)]) + Ending(c, events, cancelled, broken))
  {
    var n := EndAt(events, cancelled, Ends);
    var texts, ending := Yielded(c, events[..n]), Ending(c, events, cancelled, broken);
    ReadToEnd(events, cancelled);
    TextsSpoken(c, events[..n]);
    FinishedCompletes(c, events[..n]);
    assert (texts + ending)[Speeches(events[..n])..] == ending;
    assert Spoken(events[..n], texts + ending);
  }
}
