/** Rebuilding the message history from the events of a run (agui/mcp_middleware.go). */
module Reconstruct {
  import opened Events

  datatype ToolCall = ToolCall(id: ID, name: string, arguments: string)

  /** A conversation message; toolCallID is empty except on tool results. */
  datatype Message = Message(id: ID, role: string, content: Option<string>, toolCalls: seq<ToolCall>, toolCallID: ID)

  const NoID: ID := Given("")

  // ----- Specification: one event at a time -----

  /** The messages so far, the assistant message under construction, the text gathered by
      the builder, and the serial of the next generated message identifier. */
  datatype Builder = Builder(msgs: seq<Message>, current: Option<Message>, text: string, serial: nat)

  function WithArgs(calls: seq<ToolCall>, delta: string): seq<ToolCall> {
    if calls == [] then []
    else
      var last := calls[|calls| - 1];
      calls[|calls| - 1 := last.(arguments := last.arguments + delta)]
  }

  function Add(b: Builder, e: Event): Builder {
    match e
    case TextStart(id, role, _) =>
      b.(current := Some(Message(id, if role.Some? then role.value else "assistant", None, [], NoID)), text := "")
    case TextContent(_, delta) => b.(text := b.text + delta)
    case TextEnd(_) =>
      if b.current.None? then b
      else b.(msgs := b.msgs + [b.current.value.(content := Some(b.text))], current := None)
    case ToolCallStart(id, name, parent) =>
      var call := ToolCall(id, name, "");
      if b.current.Some? then
        b.(current := Some(b.current.value.(toolCalls := b.current.value.toolCalls + [call])))
      else if parent.Some? && !parent.value.IsEmpty() then
        b.(current := Some(Message(parent.value, "assistant", None, [call], NoID)))
      else
        b.(current := Some(Message(Generated(b.serial), "assistant", None, [call], NoID)), serial := b.serial + 1)
    case ToolCallArgs(_, delta) =>
      if b.current.Some? then b.(current := Some(b.current.value.(toolCalls := WithArgs(b.current.value.toolCalls, delta))))
      else b
    case ToolCallEnd(_) =>
      if b.current.None? then b else b.(msgs := b.msgs + [b.current.value], current := None)
    case ToolCallResult(messageID, id, content) =>
      b.(msgs := b.msgs + [Message(messageID, "tool", Some(content), [], id)])
    case _ => b
  }

  function AddAll(b: Builder, evs: seq<Event>): Builder {
    if evs == [] then b else Add(AddAll(b, evs[..|evs| - 1]), evs[|evs| - 1])
  }

  /** An unfinished message is flushed, with the builder's text if that is not empty. */
  function Flush(b: Builder): seq<Message> {
    if b.current.None? then b.msgs
    else if b.text != "" && b.current.value.content.None? then b.msgs + [b.current.value.(content := Some(b.text))]
    else b.msgs + [b.current.value]
  }

  function Rebuilt(original: seq<Message>, evs: seq<Event>, serial: nat): seq<Message> {
    Flush(AddAll(Builder(original, None, "", serial), evs))
  }

  // ----- The imperative reconstruction -----

  /** The message a new call goes to: the one under construction, or a new one. */
  method Holder(current: Option<Message>, parent: Option<ID>, emitter: EventEmitter) returns (holder: Message)
    modifies emitter`serial
    ensures forall msgs, text, id, name ::
      Add(Builder(msgs, current, text, old(emitter.serial)), ToolCallStart(id, name, parent))
      == Builder(msgs, Some(holder.(toolCalls := holder.toolCalls + [ToolCall(id, name, "")])), text, emitter.serial)
  {
    if current.Some? {
      return current.value;
    }
    var msgID;
    if parent.Some? && !parent.value.IsEmpty() {
      msgID := parent.value;
    } else {
      msgID := emitter.GenerateID();
    }
    holder := Message(msgID, "assistant", None, [], NoID);
    assert forall call: ToolCall :: [] + [call] == [call];
  }

  method ReconstructMessages(original: seq<Message>, evs: seq<Event>, emitter: EventEmitter) returns (msgs: seq<Message>)
    modifies emitter`serial
    ensures msgs == Rebuilt(original, evs, old(emitter.serial))
    ensures emitter.serial == AddAll(Builder(original, None, "", old(emitter.serial)), evs).serial
  {
    msgs := original;
    var current: Option<Message> := None;
    var text := "";
    for i := 0 to |evs|
      invariant Builder(msgs, current, text, emitter.serial)
        == AddAll(Builder(original, None, "", old(emitter.serial)), evs[..i])
    {
      assert evs[..i + 1][..i] == evs[..i];
      match evs[i] {
        case TextStart(id, role, _) =>
          current := Some(Message(id, if role.Some? then role.value else "assistant", None, [], NoID));
          text := "";
        case TextContent(_, delta) =>
          text := text + delta;
        case TextEnd(_) =>
          if current.Some? {
            msgs := msgs + [current.value.(content := Some(text))];
            current := None;
          }
        case ToolCallStart(id, name, parent) =>
          var holder := Holder(current, parent, emitter);
          current := Some(holder.(toolCalls := holder.toolCalls + [ToolCall(id, name, "")]));
        case ToolCallArgs(_, delta) =>
          if current.Some? && |current.value.toolCalls| > 0 {
            var calls := current.value.toolCalls;
            var last := calls[|calls| - 1];
            current := Some(current.value.(toolCalls := calls[|calls| - 1 := last.(arguments := last.arguments + delta)]));
          }
        case ToolCallEnd(_) =>
          if current.Some? {
            msgs := msgs + [current.value];
            current := None;
          }
        case ToolCallResult(messageID, id, content) =>
          msgs := msgs + [Message(messageID, "tool", Some(content), [], id)];
        case _ =>
      }
    }
    assert evs[..|evs|] == evs;
    if current.Some? {
      if text != "" && current.value.content.None? {
        current := Some(current.value.(content := Some(text)));
      }
      msgs := msgs + [current.value];
    }
  }

  // ----- Rebuilding what was rendered -----

  /** What an agent may say: a text message, one tool call, or a tool result. */
  datatype Item =
    | Text(id: ID, role: string, chunks: seq<string>)
    | Call(parent: Option<ID>, call: ID, name: string, chunks: seq<string>)
    | Result(messageID: ID, call: ID, content: string)

  function Joined(chunks: seq<string>): string {
    if chunks == [] then "" else Joined(chunks[..|chunks| - 1]) + chunks[|chunks| - 1]
  }

  /** Whether a call brings no message to belong to, so that one is made for it. */
  predicate Parentless(item: Item) { item.Call? && (item.parent.None? || item.parent.value.IsEmpty()) }

  /** The message of an item, given the next serial. */
  function MessageOf(item: Item, serial: nat): (m: Message)
    ensures item.Call? ==> m.content == None
  {
    match item
    case Text(id, role, chunks) => Message(id, role, Some(Joined(chunks)), [], NoID)
    case Call(parent, call, name, chunks) =>
      var id := if Parentless(item) then Generated(serial) else parent.value;
      Message(id, "assistant", None, [ToolCall(call, name, Joined(chunks))], NoID)
    case Result(messageID, call, content) => Message(messageID, "tool", Some(content), [], call)
  }

  function Deltas(item: Item, n: nat): seq<Event>
    requires !item.Result? && n <= |item.chunks|
  {
    if n == 0 then []
    else
      var chunk := item.chunks[n - 1];
      Deltas(item, n - 1) + [if item.Text? then TextContent(item.id, chunk) else ToolCallArgs(item.call, chunk)]
  }

  /** Bracketed events, the content split into deltas in whatever way. */
  function Rendered(item: Item): seq<Event> {
    match item
    case Text(id, role, chunks) => [TextStart(id, Some(role), "")] + Deltas(item, |chunks|) + [TextEnd(id)]
    case Call(parent, call, name, chunks) =>
      [ToolCallStart(call, name, parent)] + Deltas(item, |chunks|) + [ToolCallEnd(call)]
    case Result(messageID, call, content) => [ToolCallResult(messageID, call, content)]
  }

  function RenderedAll(items: seq<Item>): seq<Event> {
    if items == [] then [] else RenderedAll(items[..|items| - 1]) + Rendered(items[|items| - 1])
  }

  /** What the last text message said. */
  function LastText(items: seq<Item>): string {
    if items == [] then ""
    else if items[|items| - 1].Text? then Joined(items[|items| - 1].chunks)
    else LastText(items[..|items| - 1])
  }

  /** How many identifiers the items' messages draw. */
  function Drawn(items: seq<Item>): nat {
    if items == [] then 0 else Drawn(items[..|items| - 1]) + if Parentless(items[|items| - 1]) then 1 else 0
  }

  function MessagesOf(items: seq<Item>, serial: nat): seq<Message> {
    if items == [] then []
    else
      var before := items[..|items| - 1];
      MessagesOf(before, serial) + [MessageOf(items[|items| - 1], serial + Drawn(before))]
  }

  lemma {:induction false} AddAllConcat(b: Builder, xs: seq<Event>, ys: seq<Event>)
    ensures AddAll(b, xs + ys) == AddAll(AddAll(b, xs), ys)
  {
    if ys == [] {
      assert xs + ys == xs;
    } else {
      assert (xs + ys)[..|xs + ys| - 1] == xs + ys[..|ys| - 1];
      AddAllConcat(b, xs, ys[..|ys| - 1]);
    }
  }

  lemma AddOne(b: Builder, e: Event)
    ensures AddAll(b, [e]) == Add(b, e)
  {
    assert [e][..0] == [];
    assert AddAll(b, [e][..0]) == b;
  }

  /** The builder with more text gathered. */
  function Saying(b: Builder, text: string): Builder { b.(text := b.text + text) }

  lemma AddText(b: Builder, id: ID, sofar: string, delta: string)
    ensures Add(Saying(b, sofar), TextContent(id, delta)) == Saying(b, sofar + delta)
  {
    assert b.text + sofar + delta == b.text + (sofar + delta);
  }

  lemma JoinedOneMore(chunks: seq<string>, n: nat)
    requires 0 < n <= |chunks|
    ensures Joined(chunks[..n]) == Joined(chunks[..n - 1]) + chunks[n - 1]
  {
    assert chunks[..n][..n - 1] == chunks[..n - 1];
  }

  lemma LastDelta(b: Builder, item: Item, n: nat, e: Event)
    requires !item.Result? && 0 < n <= |item.chunks| && Deltas(item, n) == Deltas(item, n - 1) + [e]
    ensures AddAll(b, Deltas(item, n)) == Add(AddAll(b, Deltas(item, n - 1)), e)
  {
    AddAllConcat(b, Deltas(item, n - 1), [e]);
    AddOne(AddAll(b, Deltas(item, n - 1)), e);
  }

  lemma {:induction false} TextDeltas(b: Builder, item: Item, n: nat)
    requires item.Text? && n <= |item.chunks|
    ensures AddAll(b, Deltas(item, n)) == Saying(b, Joined(item.chunks[..n]))
  {
    if n == 0 {
      assert b.text + "" == b.text;
    } else {
      TextDeltas(b, item, n - 1);
      LastDelta(b, item, n, TextContent(item.id, item.chunks[n - 1]));
      JoinedOneMore(item.chunks, n);
      AddText(b, item.id, Joined(item.chunks[..n - 1]), item.chunks[n - 1]);
    }
  }

  /** The builder with one call under construction. */
  function Calling(b: Builder, call: ToolCall): Builder
    requires b.current.Some?
  {
    b.(current := Some(b.current.value.(toolCalls := [call])))
  }

  lemma AddArgs(b: Builder, call: ToolCall, id: ID, delta: string)
    requires b.current.Some?
    ensures Add(Calling(b, call), ToolCallArgs(id, delta)) == Calling(b, call.(arguments := call.arguments + delta))
  {
    assert [call][0 := call.(arguments := call.arguments + delta)] == [call.(arguments := call.arguments + delta)];
  }

  lemma {:induction false} ArgsDeltas(b: Builder, item: Item, call: ToolCall, n: nat)
    requires item.Call? && n <= |item.chunks| && b.current.Some? && call.arguments == ""
    ensures AddAll(Calling(b, call), Deltas(item, n)) == Calling(b, call.(arguments := Joined(item.chunks[..n])))
  {
    if n > 0 {
      var b0 := Calling(b, call);
      ArgsDeltas(b, item, call, n - 1);
      LastDelta(b0, item, n, ToolCallArgs(item.call, item.chunks[n - 1]));
      AddArgs(b, call.(arguments := Joined(item.chunks[..n - 1])), item.call, item.chunks[n - 1]);
      JoinedOneMore(item.chunks, n);
    }
  }

  lemma Bracketed(b: Builder, first: Event, middle: seq<Event>, last: Event)
    ensures AddAll(b, [first] + middle + [last]) == Add(AddAll(Add(b, first), middle), last)
  {
    AddAllConcat(b, [first] + middle, [last]);
    AddAllConcat(b, [first], middle);
    AddOne(b, first);
    AddOne(AddAll(Add(b, first), middle), last);
  }

  lemma TextRebuilt(b: Builder, item: Item)
    requires item.Text? && b.current.None?
    ensures AddAll(b, Rendered(item)) == ItemAdded(b, item)
  {
    var start := TextStart(item.id, Some(item.role), "");
    Bracketed(b, start, Deltas(item, |item.chunks|), TextEnd(item.id));
    TextDeltas(Add(b, start), item, |item.chunks|);
    assert item.chunks[..|item.chunks|] == item.chunks && "" + Joined(item.chunks) == Joined(item.chunks);
  }

  /** A call whose end never arrives: its start and its deltas. */
  function Begun(item: Item): seq<Event>
    requires item.Call?
  {
    [ToolCallStart(item.call, item.name, item.parent)] + Deltas(item, |item.chunks|)
  }

  lemma BegunCall(b: Builder, item: Item)
    requires item.Call? && b.current.None?
    ensures AddAll(b, Begun(item)) ==
      b.(current := Some(MessageOf(item, b.serial)), serial := b.serial + if Parentless(item) then 1 else 0)
  {
    var start, call := ToolCallStart(item.call, item.name, item.parent), ToolCall(item.call, item.name, "");
    AddAllConcat(b, [start], Deltas(item, |item.chunks|));
    AddOne(b, start);
    assert Add(b, start) == Calling(Add(b, start), call);
    ArgsDeltas(Add(b, start), item, call, |item.chunks|);
    assert item.chunks[..|item.chunks|] == item.chunks;
  }

  lemma CallRebuilt(b: Builder, item: Item)
    requires item.Call? && b.current.None?
    ensures AddAll(b, Rendered(item)) == ItemAdded(b, item)
  {
    BegunCall(b, item);
    AddAllConcat(b, Begun(item), [ToolCallEnd(item.call)]);
    AddOne(AddAll(b, Begun(item)), ToolCallEnd(item.call));
  }

  /** The builder once an item is rendered between messages. */
  function ItemAdded(b: Builder, item: Item): Builder {
    Builder(b.msgs + [MessageOf(item, b.serial)], None, if item.Text? then Joined(item.chunks) else b.text,
            b.serial + if Parentless(item) then 1 else 0)
  }

  lemma ItemRebuilt(b: Builder, item: Item)
    requires b.current.None?
    ensures AddAll(b, Rendered(item)) == ItemAdded(b, item)
  {
    match item
    case Text(_, _, _) => TextRebuilt(b, item);
    case Call(_, _, _, _) => CallRebuilt(b, item);
    case Result(messageID, call, content) => AddOne(b, ToolCallResult(messageID, call, content));
  }

  /** The builder after rendered items: their messages, the last text, the next serial. */
  function After(original: seq<Message>, items: seq<Item>, serial: nat): Builder {
    Builder(original + MessagesOf(items, serial), None, LastText(items), serial + Drawn(items))
  }

  lemma {:induction false} OneMoreItem(original: seq<Message>, items: seq<Item>, serial: nat)
    requires items != []
    ensures After(original, items, serial) == ItemAdded(After(original, items[..|items| - 1], serial), items[|items| - 1])
  {
    var before, m := MessagesOf(items[..|items| - 1], serial), MessageOf(items[|items| - 1], serial + Drawn(items[..|items| - 1]));
    assert original + before + [m] == original + (before + [m]);
  }

  lemma {:induction false} ItemsRebuilt(original: seq<Message>, items: seq<Item>, serial: nat)
    ensures AddAll(Builder(original, None, "", serial), RenderedAll(items)) == After(original, items, serial)
  {
    if items == [] {
      assert original + [] == original;
    } else {
      var before, last := items[..|items| - 1], items[|items| - 1];
      ItemsRebuilt(original, before, serial);
      AddAllConcat(Builder(original, None, "", serial), RenderedAll(before), Rendered(last));
      ItemRebuilt(After(original, before, serial), last);
      OneMoreItem(original, items, serial);
    }
  }

  /** Rebuilding rendered messages returns the original history followed by exactly those
      messages, however their contents were split; calls without a parent message get
      messages with the next identifiers. */
  lemma RebuildInvertsRender(original: seq<Message>, items: seq<Item>, serial: nat)
    ensures Rebuilt(original, RenderedAll(items), serial) == original + MessagesOf(items, serial)
  {
    ItemsRebuilt(original, items, serial);
  }

  // ----- Everything else is ignored, nothing is lost -----

  predicate Relevant(e: Event) {
    e.TextStart? || e.TextContent? || e.TextEnd? || e.ToolCallStart? || e.ToolCallArgs? || e.ToolCallEnd? || e.ToolCallResult?
  }

  function OnlyRelevant(evs: seq<Event>): seq<Event> {
    if evs == [] then []
    else OnlyRelevant(evs[..|evs| - 1]) + if Relevant(evs[|evs| - 1]) then [evs[|evs| - 1]] else []
  }

  /** Other events may be interleaved anywhere. */
  lemma {:induction false} OthersIgnored(b: Builder, evs: seq<Event>)
    ensures AddAll(b, OnlyRelevant(evs)) == AddAll(b, evs)
  {
    if evs != [] {
      var last := evs[|evs| - 1];
      OthersIgnored(b, evs[..|evs| - 1]);
      if Relevant(last) {
        AddAllConcat(b, OnlyRelevant(evs[..|evs| - 1]), [last]);
        AddOne(AddAll(b, OnlyRelevant(evs[..|evs| - 1])), last);
      } else {
        assert OnlyRelevant(evs) == OnlyRelevant(evs[..|evs| - 1]);
      }
    }
  }

  /** The original history is kept as it is. */
  lemma {:induction false} HistoryKept(b: Builder, evs: seq<Event>)
    ensures b.msgs <= AddAll(b, evs).msgs
  {
    if evs != [] {
      HistoryKept(b, evs[..|evs| - 1]);
    }
  }

  // ----- Unfinished calls -----

  /** The message under construction gets the builder's text, if there is any. */
  function Flushed(msgs: seq<Message>, m: Message, text: string): seq<Message> {
    msgs + [if text != "" && m.content.None? then m.(content := Some(text)) else m]
  }

  lemma FlushedCall(msgs: seq<Message>, m: Message, text: string)
    requires m.content.None?
    ensures Flushed(msgs, m, text) == msgs + [m] <==> text == ""
    ensures text != "" ==> Flushed(msgs, m, text) == msgs + [m.(content := Some(text))]
  {
    var full := m.(content := Some(text));
    assert (msgs + [m])[|msgs|] == m && (msgs + [full])[|msgs|] == full;
  }

  lemma LeftOpen(b: Builder, evs: seq<Event>, here: Builder, item: Item) returns (rebuilt: seq<Message>)
    requires AddAll(b, evs) == here && here.current.None? && item.Call?
    ensures rebuilt == Flush(AddAll(b, evs + Begun(item)))
    ensures rebuilt == Flushed(here.msgs, MessageOf(item, here.serial), here.text)
  {
    rebuilt := Flush(AddAll(b, evs + Begun(item)));
    AddAllConcat(b, evs, Begun(item));
    BegunCall(here, item);
  }

  /** The builder's text is only reset when a text message starts, so a call whose end never
      arrives takes over what the last text message said: its message is rebuilt without
      content if and only if that was nothing. */
  lemma {:induction false} UnfinishedCallTakesOldText(original: seq<Message>, items: seq<Item>, item: Item, serial: nat)
    returns (rebuilt: seq<Message>)
    requires item.Call?
    ensures rebuilt == Rebuilt(original, RenderedAll(items) + Begun(item), serial)
    ensures
      var b := After(original, items, serial);
      var bare := MessageOf(item, b.serial);
      && (rebuilt == b.msgs + [bare] <==> b.text == "")
      && (b.text != "" ==> rebuilt == b.msgs + [bare.(content := Some(b.text))])
  {
    var b := After(original, items, serial);
    ItemsRebuilt(original, items, serial);
    rebuilt := LeftOpen(Builder(original, None, "", serial), RenderedAll(items), b, item);
    FlushedCall(b.msgs, MessageOf(item, b.serial), b.text);
  }

  /** For example, after one finished text message. */
  lemma {:induction false} UnfinishedCallAfterText(id: ID, call: ID, text: string, serial: nat)
    requires text != ""
    ensures
      Rebuilt([], RenderedAll([Text(id, "assistant", [text])]) + Begun(Call(None, call, "f", [])), serial) ==
        [Message(id, "assistant", Some(text), [], NoID),
         Message(Generated(serial), "assistant", Some(text), [ToolCall(call, "f", "")], NoID)]
  {
    var said := Text(id, "assistant", [text]);
    assert [text][..0] == [] && Joined([text]) == Joined([]) + text == "" + text == text;
    assert [said][..0] == [] && Drawn([]) == 0;
    assert MessagesOf([said], serial) == MessagesOf([], serial) + [MessageOf(said, serial)] == [MessageOf(said, serial)];
    var rebuilt := UnfinishedCallTakesOldText([], [said], Call(None, call, "f", []), serial);
  }
}
