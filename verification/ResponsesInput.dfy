/** Pairing calls with their results in a converted history (model/openai/responses.go). */
module ResponsesInput {
  import opened Decimals
  import opened Events

  /** Arguments and outputs are JSON text; None when they cannot be encoded. */
  datatype Part =
    | CallPart(id: string, name: string, args: Option<string>)
    | AnswerPart(id: string, output: Option<string>)
    | MediaPart
    | TextPart(text: string)

  datatype Content = Content(role: string, parts: seq<Part>)

  datatype Item =
    | Message(role: string, contentType: string, text: string)
    | FunctionCall(callID: string, name: string, args: string)
    | FunctionOutput(callID: string, output: string)

  datatype Error = MissingName | UnknownCallID(id: string) | MissingCallID | UnsupportedPart

  datatype Result<T> = Ok(value: T) | Err(error: Error)

  predicate Space(c: char) {
    '\t' <= c <= '\r' || c == ' ' || c == '\U{85}' || c == '\U{A0}' || c == '\U{1680}' || '\U{2000}' <= c <= '\U{200a}' ||
    c == '\U{2028}' || c == '\U{2029}' || c == '\U{202f}' || c == '\U{205f}' || c == '\U{3000}'
  }

  predicate Blank(s: string) { forall i :: 0 <= i < |s| ==> Space(s[i]) }

  function OpenAIRole(role: string): string { if role == "model" then "assistant" else role }

  function Message1(role: string, text: string): Item {
    Message(OpenAIRole(role), if OpenAIRole(role) == "assistant" then "output_text" else "input_text", text)
  }

  function Joined(texts: seq<string>): string {
    if texts == [] then "" else Joined(texts[..|texts| - 1]) + texts[|texts| - 1]
  }

  function GeneratedCallID(n: nat): string { "adk-openai-call-" + Decimal(n) }

  function ArgsText(args: Option<string>): string { if args.Some? then args.value else "{}" }

  function OutputText(output: Option<string>): string { if output.Some? then output.value else "null" }

  // ----- The conversion, part by part -----

  datatype Progress = Progress(items: seq<Item>, texts: seq<string>, nextID: nat, pending: seq<string>)

  const Start: Progress := Progress([], [], 0, [])

  function Flushed(role: string, p: Progress): Progress {
    if p.texts == [] then p
    else if Blank(Joined(p.texts)) then p.(texts := [])
    else p.(items := p.items + [Message1(role, Joined(p.texts))], texts := [])
  }

  function OnCall(p: Progress, id: string, name: string, args: Option<string>): Result<Progress> {
    if name == "" then Err(MissingName)
    else
      var n := if id == "" then p.nextID + 1 else p.nextID;
      var callID := if id == "" then GeneratedCallID(n) else id;
      Ok(p.(items := p.items + [FunctionCall(callID, name, ArgsText(args))], nextID := n, pending := p.pending + [callID]))
  }

  function OnAnswer(p: Progress, id: string, output: Option<string>): Result<Progress> {
    if id != "" then
      if id in p.pending then Ok(p.(items := p.items + [FunctionOutput(id, OutputText(output))]))
      else Err(UnknownCallID(id))
    else if p.pending == [] then Err(MissingCallID)
    else Ok(p.(items := p.items + [FunctionOutput(p.pending[0], OutputText(output))], pending := p.pending[1..]))
  }

  function OnPart(role: string, p: Progress, part: Part): Result<Progress> {
    match part
    case CallPart(id, name, args) => OnCall(Flushed(role, p), id, name, args)
    case AnswerPart(id, output) => OnAnswer(Flushed(role, p), id, output)
    case MediaPart => Err(UnsupportedPart)
    case TextPart(text) => Ok(if Blank(text) then p else p.(texts := p.texts + [text]))
  }

  function OnParts(role: string, p: Progress, parts: seq<Part>): Result<Progress> {
    if parts == [] then Ok(p)
    else
      var before := OnParts(role, p, parts[..|parts| - 1]);
      if before.Err? then before else OnPart(role, before.value, parts[|parts| - 1])
  }

  function OnContent(p: Progress, c: Content): Result<Progress> {
    var r := OnParts(c.role, p, c.parts);
    if r.Err? then r else Ok(Flushed(c.role, r.value))
  }

  /** The whole history; missing contents are skipped. */
  function Converted(contents: seq<Option<Content>>): Result<Progress> {
    if contents == [] then Ok(Start)
    else
      var before := Converted(contents[..|contents| - 1]);
      var last := contents[|contents| - 1];
      if before.Err? || last.None? then before else OnContent(before.value, last.value)
  }

  /** Items converted earlier play no part in the conversion. */
  function After(pre: seq<Item>, r: Result<Progress>): Result<Progress> {
    if r.Err? then r else Ok(r.value.(items := pre + r.value.items))
  }

  lemma FlushedAfter(role: string, pre: seq<Item>, p: Progress)
    ensures Flushed(role, p.(items := pre + p.items)) == After(pre, Ok(Flushed(role, p))).value
  {
    if p.texts != [] && !Blank(Joined(p.texts)) {
      assert pre + p.items + [Message1(role, Joined(p.texts))] == pre + Flushed(role, p).items;
    }
  }

  lemma CallAfter(pre: seq<Item>, p: Progress, id: string, name: string, args: Option<string>)
    ensures OnCall(p.(items := pre + p.items), id, name, args) == After(pre, OnCall(p, id, name, args))
  {
    var r := OnCall(p, id, name, args);
    if r.Ok? {
      assert pre + p.items + [r.value.items[|p.items|]] == pre + r.value.items;
    }
  }

  lemma AnswerAfter(pre: seq<Item>, p: Progress, id: string, output: Option<string>)
    ensures OnAnswer(p.(items := pre + p.items), id, output) == After(pre, OnAnswer(p, id, output))
  {
    var r := OnAnswer(p, id, output);
    if r.Ok? {
      assert pre + p.items + [r.value.items[|p.items|]] == pre + r.value.items;
    }
  }

  lemma PartAfter(role: string, pre: seq<Item>, p: Progress, part: Part)
    ensures OnPart(role, p.(items := pre + p.items), part) == After(pre, OnPart(role, p, part))
  {
    FlushedAfter(role, pre, p);
    var f := Flushed(role, p);
    match part
    case CallPart(id, name, args) => CallAfter(pre, f, id, name, args);
    case AnswerPart(id, output) => AnswerAfter(pre, f, id, output);
    case _ =>
  }

  lemma {:induction false} PartsAfter(role: string, pre: seq<Item>, p: Progress, parts: seq<Part>)
    ensures OnParts(role, p.(items := pre + p.items), parts) == After(pre, OnParts(role, p, parts))
  {
    if parts != [] {
      PartsAfter(role, pre, p, parts[..|parts| - 1]);
      var before := OnParts(role, p, parts[..|parts| - 1]);
      if before.Ok? {
        PartAfter(role, pre, before.value, parts[|parts| - 1]);
      }
    }
  }

  lemma ContentAfter(pre: seq<Item>, p: Progress, c: Content)
    ensures OnContent(p.(items := pre + p.items), c) == After(pre, OnContent(p, c))
  {
    PartsAfter(c.role, pre, p, c.parts);
    var r := OnParts(c.role, p, c.parts);
    if r.Ok? {
      FlushedAfter(c.role, pre, r.value);
    }
  }

  // ----- The program -----

  class CallTracker {
    var nextID: nat
    var pendingCalls: seq<string>

    constructor ()
      ensures nextID == 0 && pendingCalls == []
    {
      nextID, pendingCalls := 0, [];
    }

    method NewCallID() returns (id: string)
      modifies this`nextID
      ensures nextID == old(nextID) + 1 && id == GeneratedCallID(nextID)
    {
      nextID := nextID + 1;
      id := GeneratedCallID(nextID);
    }

    method RegisterCall(id: string)
      modifies this`pendingCalls
      ensures pendingCalls == old(pendingCalls) + [id]
    {
      pendingCalls := pendingCalls + [id];
    }

    method ResolveResponseCallID(id: string) returns (r: Result<string>)
      modifies this`pendingCalls
      ensures id != "" ==> pendingCalls == old(pendingCalls) && r == if id in pendingCalls then Ok(id) else Err(UnknownCallID(id))
      ensures id == "" && old(pendingCalls) == [] ==> pendingCalls == [] && r == Err(MissingCallID)
      ensures id == "" && old(pendingCalls) != [] ==> r == Ok(old(pendingCalls)[0]) && pendingCalls == old(pendingCalls)[1..]
    {
      if id != "" {
        for i := 0 to |pendingCalls|
          invariant id !in pendingCalls[..i]
        {
          if pendingCalls[i] == id {
            return Ok(id);
          }
        }
        return Err(UnknownCallID(id));
      }
      if |pendingCalls| == 0 {
        return Err(MissingCallID);
      }
      var oldest := pendingCalls[0];
      pendingCalls := pendingCalls[1..];
      return Ok(oldest);
    }
  }

  method FlushText(role: string, items: seq<Item>, texts: seq<string>) returns (flushed: seq<Item>)
    ensures forall n, pending :: Flushed(role, Progress(items, texts, n, pending)) == Progress(flushed, [], n, pending)
  {
    flushed := items;
    if texts == [] {
      return;
    }
    var text := "";
    for i := 0 to |texts|
      invariant text == Joined(texts[..i])
    {
      assert texts[..i + 1][..i] == texts[..i];
      text := text + texts[i];
    }
    assert texts[..|texts|] == texts;
    if !Blank(text) {
      flushed := items + [Message1(role, text)];
    }
  }

  method ConvertCall(id: string, name: string, args: Option<string>, ct: CallTracker) returns (r: Result<Item>)
    modifies ct
    ensures forall items, texts ::
      OnCall(Progress(items, texts, old(ct.nextID), old(ct.pendingCalls)), id, name, args)
      == if r.Ok? then Ok(Progress(items + [r.value], texts, ct.nextID, ct.pendingCalls)) else Err(r.error)
  {
    if name == "" {
      return Err(MissingName);
    }
    var callID := id;
    if callID == "" {
      callID := ct.NewCallID();
    }
    ct.RegisterCall(callID);
    r := Ok(FunctionCall(callID, name, ArgsText(args)));
  }

  method ConvertAnswer(id: string, output: Option<string>, ct: CallTracker) returns (r: Result<Item>)
    modifies ct
    ensures forall items, texts ::
      OnAnswer(Progress(items, texts, old(ct.nextID), old(ct.pendingCalls)), id, output)
      == if r.Ok? then Ok(Progress(items + [r.value], texts, ct.nextID, ct.pendingCalls)) else Err(r.error)
  {
    var callID := ct.ResolveResponseCallID(id);
    r := if callID.Ok? then Ok(FunctionOutput(callID.value, OutputText(output))) else Err(callID.error);
  }

  method ConvertPart(role: string, part: Part, items: seq<Item>, texts: seq<string>, ct: CallTracker)
    returns (r: Result<(seq<Item>, seq<string>)>)
    modifies ct
    ensures OnPart(role, Progress(items, texts, old(ct.nextID), old(ct.pendingCalls)), part)
      == if r.Ok? then Ok(Progress(r.value.0, r.value.1, ct.nextID, ct.pendingCalls)) else Err(r.error)
  {
    if part.TextPart? {
      return Ok((items, if part.text != "" && !Blank(part.text) then texts + [part.text] else texts));
    }
    if part.MediaPart? {
      return Err(UnsupportedPart);
    }
    var flushed := FlushText(role, items, texts);
    var item;
    if part.CallPart? {
      item := ConvertCall(part.id, part.name, part.args, ct);
    } else {
      item := ConvertAnswer(part.id, part.output, ct);
    }
    r := if item.Ok? then Ok((flushed + [item.value], [])) else Err(item.error);
  }

  method ContentToInputItems(c: Content, ct: CallTracker) returns (r: Result<seq<Item>>)
    modifies ct
    ensures
      var want := OnContent(Progress([], [], old(ct.nextID), old(ct.pendingCalls)), c);
      if want.Ok? then r == Ok(want.value.items) && ct.nextID == want.value.nextID && ct.pendingCalls == want.value.pending
      else r == Err(want.error)
  {
    var items, texts := [], [];
    ghost var start := Progress([], [], ct.nextID, ct.pendingCalls);
    for i := 0 to |c.parts|
      invariant OnParts(c.role, start, c.parts[..i]) == Ok(Progress(items, texts, ct.nextID, ct.pendingCalls))
    {
      assert c.parts[..i + 1][..i] == c.parts[..i];
      var next := ConvertPart(c.role, c.parts[i], items, texts, ct);
      if next.Err? {
        FailsOn(c.role, start, c.parts, i);
        return Err(next.error);
      }
      items, texts := next.value.0, next.value.1;
    }
    assert c.parts[..|c.parts|] == c.parts;
    items := FlushText(c.role, items, texts);
    r := Ok(items);
  }

  /** The first failure is the outcome. */
  lemma {:induction false} FailsOn(role: string, p: Progress, parts: seq<Part>, i: nat)
    requires i < |parts| && OnParts(role, p, parts[..i + 1]).Err?
    ensures OnParts(role, p, parts) == OnParts(role, p, parts[..i + 1])
  {
    if i + 1 == |parts| {
      assert parts[..i + 1] == parts;
    } else {
      var before := parts[..|parts| - 1];
      assert before[..i + 1] == parts[..i + 1];
      FailsOn(role, p, before, i);
    }
  }

  method ContentsToInputItems(contents: seq<Option<Content>>, ct: CallTracker) returns (r: Result<seq<Item>>)
    requires ct.nextID == 0 && ct.pendingCalls == []
    modifies ct
    ensures
      var want := Converted(contents);
      r == if want.Ok? then Ok(want.value.items) else Err(want.error)
  {
    var items := [];
    for i := 0 to |contents|
      invariant Converted(contents[..i]) == Ok(Progress(items, [], ct.nextID, ct.pendingCalls))
    {
      assert contents[..i + 1][..i] == contents[..i];
      if contents[i].None? {
        continue;
      }
      var c := contents[i].value;
      ghost var start := Progress([], [], ct.nextID, ct.pendingCalls);
      ContentAfter(items, start, c);
      assert items + [] == items;
      var converted := ContentToInputItems(c, ct);
      if converted.Err? {
        ConversionFails(contents, i);
        return Err(converted.error);
      }
      NothingLeft(start, c);
      items := items + converted.value;
    }
    assert contents[..|contents|] == contents;
    r := Ok(items);
  }

  lemma NothingLeft(p: Progress, c: Content)
    ensures OnContent(p, c).Ok? ==> OnContent(p, c).value.texts == []
  {
  }

  lemma {:induction false} ConversionFails(contents: seq<Option<Content>>, i: nat)
    requires i < |contents| && Converted(contents[..i + 1]).Err?
    ensures Converted(contents) == Converted(contents[..i + 1])
  {
    if i + 1 == |contents| {
      assert contents[..i + 1] == contents;
    } else {
      var before := contents[..|contents| - 1];
      assert before[..i + 1] == contents[..i + 1];
      ConversionFails(before, i);
    }
  }

  // ----- What the items say -----

  function Calls(items: seq<Item>): seq<string> {
    if items == [] then []
    else
      var last := items[|items| - 1];
      Calls(items[..|items| - 1]) + if last.FunctionCall? then [last.callID] else []
  }

  function Outputs(items: seq<Item>): seq<string> {
    if items == [] then []
    else
      var last := items[|items| - 1];
      Outputs(items[..|items| - 1]) + if last.FunctionOutput? then [last.callID] else []
  }

  /** Every output follows a call with its ID. */
  ghost predicate Answered(items: seq<Item>) {
    forall k :: 0 <= k < |items| && items[k].FunctionOutput? ==>
      exists j :: 0 <= j < k && items[j].FunctionCall? && items[j].callID == items[k].callID
  }

  datatype Piece = Letter(role: string, kind: string, c: char) | Called(name: string, args: string) | Put(output: string)

  /** A model's text is an assistant's output, everybody else's is input. */
  function Letters(role: string, text: string): seq<Piece> {
    if role == "model" || role == "assistant" then LettersOf("assistant", "output_text", text) else LettersOf(role, "input_text", text)
  }

  function LettersOf(role: string, kind: string, text: string): seq<Piece> {
    seq(|text|, i requires 0 <= i < |text| => Letter(role, kind, text[i]))
  }

  /** What is said, letter by letter and call by call, wherever one message ends and the next begins. */
  function Told(items: seq<Item>): seq<Piece> {
    if items == [] then []
    else
      Told(items[..|items| - 1]) +
      match items[|items| - 1]
      case Message(role, kind, text) => LettersOf(role, kind, text)
      case FunctionCall(_, name, args) => [Called(name, args)]
      case FunctionOutput(_, output) => [Put(output)]
  }

  // ----- What the history says -----

  datatype Said = Said(role: string, part: Part)

  function SaidIn(role: string, parts: seq<Part>): seq<Said> {
    if parts == [] then [] else SaidIn(role, parts[..|parts| - 1]) + [Said(role, parts[|parts| - 1])]
  }

  function SaidBy(contents: seq<Option<Content>>): seq<Said> {
    if contents == [] then []
    else
      var last := contents[|contents| - 1];
      SaidBy(contents[..|contents| - 1]) + if last.Some? then SaidIn(last.value.role, last.value.parts) else []
  }

  /** How many calls carry no ID. */
  function Unnamed(said: seq<Said>): nat {
    if said == [] then 0
    else
      var last := said[|said| - 1].part;
      Unnamed(said[..|said| - 1]) + if last.CallPart? && last.id == "" then 1 else 0
  }

  /** The calls' IDs, their own or the next of the generated ones. */
  function CallIDs(said: seq<Said>): seq<string> {
    if said == [] then []
    else
      var before, last := said[..|said| - 1], said[|said| - 1].part;
      CallIDs(before) +
      if !last.CallPart? then [] else if last.id == "" then [GeneratedCallID(Unnamed(before) + 1)] else [last.id]
  }

  function Labels(said: seq<Said>): seq<string> {
    if said == [] then []
    else
      var last := said[|said| - 1].part;
      Labels(said[..|said| - 1]) + if last.AnswerPart? then [last.id] else []
  }

  function Unlabelled(labels: seq<string>): (n: nat)
    ensures n <= |labels|
  {
    if labels == [] then 0
    else Unlabelled(labels[..|labels| - 1]) + if labels[|labels| - 1] == "" then 1 else 0
  }

  function Spoken(said: seq<Said>): seq<Piece> {
    if said == [] then []
    else
      var last := said[|said| - 1];
      Spoken(said[..|said| - 1]) +
      match last.part
      case TextPart(text) => if Blank(text) then [] else Letters(last.role, text)
      case CallPart(_, name, args) => [Called(name, if args.Some? then args.value else "{}")]
      case AnswerPart(_, output) => [Put(if output.Some? then output.value else "null")]
      case MediaPart => []
  }

  // ----- Invariants of the conversion -----

  ghost predicate Tracked(p: Progress, said: seq<Said>) {
    var u := Unlabelled(Labels(said));
    && Calls(p.items) == CallIDs(said) && p.nextID == Unnamed(said)
    && u <= |CallIDs(said)| && p.pending == CallIDs(said)[u..]
  }

  /** A labelled answer goes to the call it names, the others to the calls in order. */
  ghost predicate Paired(outputs: seq<string>, labels: seq<string>, calls: seq<string>) {
    && |outputs| == |labels|
    && forall k :: 0 <= k < |labels| ==> PairedAt(outputs, labels, calls, k)
  }

  ghost predicate PairedAt(outputs: seq<string>, labels: seq<string>, calls: seq<string>, k: nat)
    requires k < |outputs| == |labels|
  {
    if labels[k] != "" then outputs[k] == labels[k]
    else Unlabelled(labels[..k]) < |calls| && outputs[k] == calls[Unlabelled(labels[..k])]
  }

  ghost predicate InOrder(role: string, p: Progress, said: seq<Said>) {
    && Told(p.items) + Letters(role, Joined(p.texts)) == Spoken(said)
    && (p.texts != [] ==> !Blank(Joined(p.texts)))
  }

  ghost predicate Faithful(role: string, p: Progress, said: seq<Said>) {
    && Tracked(p, said) && Paired(Outputs(p.items), Labels(said), CallIDs(said))
    && Answered(p.items) && InOrder(role, p, said)
  }

  lemma ItemAdded(items: seq<Item>, x: Item)
    ensures Calls(items + [x]) == Calls(items) + if x.FunctionCall? then [x.callID] else []
    ensures Outputs(items + [x]) == Outputs(items) + if x.FunctionOutput? then [x.callID] else []
    ensures Told(items + [x]) == Told(items) + match x
      case Message(role, kind, text) => LettersOf(role, kind, text)
      case FunctionCall(_, name, args) => [Called(name, args)]
      case FunctionOutput(_, output) => [Put(output)]
  {
    assert (items + [x])[..|items|] == items;
  }

  lemma PartSaid(said: seq<Said>, x: Said)
    ensures Unnamed(said + [x]) == Unnamed(said) + if x.part.CallPart? && x.part.id == "" then 1 else 0
    ensures CallIDs(said + [x]) == CallIDs(said) +
      if !x.part.CallPart? then [] else if x.part.id == "" then [GeneratedCallID(Unnamed(said) + 1)] else [x.part.id]
    ensures Labels(said + [x]) == Labels(said) + if x.part.AnswerPart? then [x.part.id] else []
    ensures Spoken(said + [x]) == Spoken(said) + match x.part
      case TextPart(text) => if Blank(text) then [] else Letters(x.role, text)
      case CallPart(_, name, args) => [Called(name, if args.Some? then args.value else "{}")]
      case AnswerPart(_, output) => [Put(if output.Some? then output.value else "null")]
      case MediaPart => []
  {
    assert (said + [x])[..|said|] == said;
  }

  lemma {:induction false} CallsAreItems(items: seq<Item>, id: string)
    requires id in Calls(items)
    ensures exists j :: 0 <= j < |items| && items[j].FunctionCall? && items[j].callID == id
  {
    var before, last := items[..|items| - 1], items[|items| - 1];
    if last.FunctionCall? && last.callID == id {
      assert items[|items| - 1].FunctionCall?;
    } else {
      CallsAreItems(before, id);
      var j :| 0 <= j < |before| && before[j].FunctionCall? && before[j].callID == id;
      assert items[j] == before[j];
    }
  }

  lemma FlushKeeps(role: string, p: Progress, said: seq<Said>)
    requires Faithful(role, p, said)
    ensures Faithful(role, Flushed(role, p), said) && Flushed(role, p).texts == []
  {
    if p.texts != [] {
      var m := Message1(role, Joined(p.texts));
      ItemAdded(p.items, m);
      assert Told(p.items + [m]) == Told(p.items) + Letters(role, Joined(p.texts));
      assert Calls(p.items) + [] == Calls(p.items) && Outputs(p.items) + [] == Outputs(p.items);
      NothingPending(role, Flushed(role, p), Flushed(role, p));
    }
  }

  /** With no text pending the role does not matter. */
  lemma AnyRole(role: string, other: string, p: Progress, said: seq<Said>)
    requires Faithful(role, p, said) && p.texts == []
    ensures Faithful(other, p, said)
  {
    NothingPending(role, p, p);
    NothingPending(other, p, p);
  }

  lemma CallKeeps(role: string, p: Progress, said: seq<Said>, x: Said)
    requires Faithful(role, p, said) && p.texts == []
    requires x.part.CallPart? && OnCall(p, x.part.id, x.part.name, x.part.args).Ok?
    ensures Faithful(role, OnCall(p, x.part.id, x.part.name, x.part.args).value, said + [x])
  {
    var q := OnCall(p, x.part.id, x.part.name, x.part.args).value;
    var item := q.items[|p.items|];
    assert q.items == p.items + [item];
    ItemAdded(p.items, item);
    PartSaid(said, x);
    assert Labels(said) + [] == Labels(said) && Outputs(p.items) + [] == Outputs(p.items);
    forall k | 0 <= k < |Labels(said)| ensures PairedAt(Outputs(q.items), Labels(said), CallIDs(said + [x]), k) {
      assert PairedAt(Outputs(p.items), Labels(said), CallIDs(said), k);
    }
    AnsweredGrows(p.items, item);
    NothingPending(role, p, q);
  }

  lemma NothingPending(role: string, p: Progress, q: Progress)
    requires p.texts == q.texts == []
    ensures Told(p.items) + Letters(role, Joined(p.texts)) == Told(p.items)
    ensures Told(q.items) + Letters(role, Joined(q.texts)) == Told(q.items)
  {
    assert Letters(role, "") == [];
  }

  lemma AnsweredGrows(items: seq<Item>, x: Item)
    requires Answered(items) && (x.FunctionOutput? ==> x.callID in Calls(items))
    ensures Answered(items + [x])
  {
    var all := items + [x];
    forall k | 0 <= k < |all| && all[k].FunctionOutput?
      ensures exists j :: 0 <= j < k && all[j].FunctionCall? && all[j].callID == all[k].callID
    {
      if k < |items| {
        var j :| 0 <= j < k && items[j].FunctionCall? && items[j].callID == items[k].callID;
        assert all[j] == items[j];
      } else {
        CallsAreItems(items, x.callID);
        var j :| 0 <= j < |items| && items[j].FunctionCall? && items[j].callID == x.callID;
        assert all[j] == items[j];
      }
    }
  }

  lemma PairedGrows(outputs: seq<string>, labels: seq<string>, calls: seq<string>, output: string, wanted: string)
    requires Paired(outputs, labels, calls)
    requires if wanted != "" then output == wanted else Unlabelled(labels) < |calls| && output == calls[Unlabelled(labels)]
    ensures Paired(outputs + [output], labels + [wanted], calls)
    ensures Unlabelled(labels + [wanted]) == Unlabelled(labels) + if wanted == "" then 1 else 0
  {
    var longer := labels + [wanted];
    assert longer[..|labels|] == labels;
    forall k | 0 <= k < |longer| ensures PairedAt(outputs + [output], longer, calls, k) {
      if k < |labels| {
        assert PairedAt(outputs, labels, calls, k);
        assert longer[..k] == labels[..k];
      }
    }
  }

  lemma AnswerKeeps(role: string, p: Progress, said: seq<Said>, x: Said)
    requires Faithful(role, p, said) && p.texts == []
    requires x.part.AnswerPart? && OnAnswer(p, x.part.id, x.part.output).Ok?
    ensures Faithful(role, OnAnswer(p, x.part.id, x.part.output).value, said + [x])
  {
    var q := OnAnswer(p, x.part.id, x.part.output).value;
    var item := q.items[|p.items|];
    assert q.items == p.items + [item];
    ItemAdded(p.items, item);
    PartSaid(said, x);
    assert CallIDs(said) + [] == CallIDs(said) && Calls(p.items) + [] == Calls(p.items);
    NothingPending(role, p, q);
    assert item.callID in p.pending;
    PairedGrows(Outputs(p.items), Labels(said), CallIDs(said), item.callID, x.part.id);
    AnsweredGrows(p.items, item);
  }

  lemma TextKeeps(role: string, p: Progress, said: seq<Said>, text: string)
    requires Faithful(role, p, said)
    ensures Faithful(role, OnPart(role, p, TextPart(text)).value, said + [Said(role, TextPart(text))])
  {
    PartSaid(said, Said(role, TextPart(text)));
    assert CallIDs(said) + [] == CallIDs(said) && Labels(said) + [] == Labels(said) && Spoken(said) + [] == Spoken(said);
    if !Blank(text) {
      TextInOrder(role, Told(p.items), p.texts, text);
    }
  }

  lemma TextInOrder(role: string, told: seq<Piece>, texts: seq<string>, text: string)
    requires !Blank(text)
    ensures told + Letters(role, Joined(texts + [text])) == told + Letters(role, Joined(texts)) + Letters(role, text)
    ensures !Blank(Joined(texts + [text]))
  {
    assert (texts + [text])[..|texts|] == texts;
    assert Letters(role, Joined(texts) + text) == Letters(role, Joined(texts)) + Letters(role, text);
    BlankParts(Joined(texts), text);
  }

  lemma BlankParts(s: string, t: string)
    ensures Blank(s + t) ==> Blank(t)
  {
    forall i | 0 <= i < |t| && Blank(s + t) ensures Space(t[i]) {
      assert t[i] == (s + t)[|s| + i];
    }
  }

  lemma PartKeeps(role: string, p: Progress, said: seq<Said>, part: Part)
    requires Faithful(role, p, said) && OnPart(role, p, part).Ok?
    ensures Faithful(role, OnPart(role, p, part).value, said + [Said(role, part)])
  {
    FlushKeeps(role, p, said);
    match part
    case CallPart(_, _, _) => CallKeeps(role, Flushed(role, p), said, Said(role, part));
    case AnswerPart(_, _) => AnswerKeeps(role, Flushed(role, p), said, Said(role, part));
    case TextPart(text) => TextKeeps(role, p, said, text);
    case MediaPart =>
  }

  lemma {:induction false} PartsKeep(role: string, p: Progress, said: seq<Said>, parts: seq<Part>)
    requires Faithful(role, p, said) && OnParts(role, p, parts).Ok?
    ensures Faithful(role, OnParts(role, p, parts).value, said + SaidIn(role, parts))
  {
    if parts == [] {
      assert said + [] == said;
    } else {
      var before, last := parts[..|parts| - 1], parts[|parts| - 1];
      var q := OnParts(role, p, before);
      assert OnParts(role, p, parts) == OnPart(role, q.value, last);
      PartsKeep(role, p, said, before);
      PartKeeps(role, q.value, said + SaidIn(role, before), last);
      assert said + SaidIn(role, before) + [Said(role, last)] == said + SaidIn(role, parts);
    }
  }

  /** In a converted history the calls have the IDs of the history, a labelled answer goes to
      the call it names and the others to the calls in order, every output follows its call,
      and what is said comes in the order it was said, nothing lost or added. */
  lemma {:induction false} HistoryIsFaithful(contents: seq<Option<Content>>)
    requires Converted(contents).Ok?
    ensures forall role :: Faithful(role, Converted(contents).value, SaidBy(contents))
    ensures Converted(contents).value.texts == []
  {
    if contents == [] {
      assert forall role: string :: Letters(role, "") == [];
    } else {
      var before, last := contents[..|contents| - 1], contents[|contents| - 1];
      HistoryIsFaithful(before);
      if last.Some? {
        var c, p := last.value, Converted(before).value;
        PartsKeep(c.role, p, SaidBy(before), c.parts);
        FlushKeeps(c.role, OnParts(c.role, p, c.parts).value, SaidBy(before) + SaidIn(c.role, c.parts));
        forall role ensures Faithful(role, Converted(contents).value, SaidBy(contents)) {
          AnyRole(c.role, role, Converted(contents).value, SaidBy(contents));
        }
      } else {
        assert SaidBy(before) + [] == SaidBy(before);
      }
    }
  }

  lemma PiecesKept(contents: seq<Option<Content>>)
    requires Converted(contents).Ok?
    ensures Told(Converted(contents).value.items) == Spoken(SaidBy(contents))
  {
    HistoryIsFaithful(contents);
    var p := Converted(contents).value;
    assert Faithful("", p, SaidBy(contents));
    assert Told(p.items) + [] == Told(p.items);
  }

  // ----- Which histories are converted -----

  /** A part that can be converted after those before it: no media, a call with a name, and an
      answer to an open call, the one it names or the oldest. */
  predicate Convertible(said: seq<Said>, i: int)
    requires 0 <= i < |said|
  {
    var calls, used := CallIDs(said[..i]), Unlabelled(Labels(said[..i]));
    match said[i].part
    case MediaPart => false
    case TextPart(_) => true
    case CallPart(_, name, _) => name != ""
    case AnswerPart(id, _) => used < |calls| && (id != "" ==> id in calls[used..])
  }

  predicate AllConvertible(said: seq<Said>) { forall i :: 0 <= i < |said| ==> Convertible(said, i) }

  /** The first part that cannot be converted, and what is wrong with it. */
  predicate Objects(said: seq<Said>, i: int, error: Error) {
    && 0 <= i < |said| && !Convertible(said, i) && (forall j :: 0 <= j < i ==> Convertible(said, j))
    && match said[i].part
       case CallPart(_, _, _) => error == MissingName
       case AnswerPart(id, _) => error == if id != "" then UnknownCallID(id) else MissingCallID
       case _ => error == UnsupportedPart
  }

  ghost predicate Decided(r: Result<Progress>, said: seq<Said>) {
    if r.Ok? then AllConvertible(said) else exists i :: Objects(said, i, r.error)
  }

  lemma ConvertibleAlone(said: seq<Said>, more: seq<Said>, i: int)
    requires 0 <= i < |said|
    ensures Convertible(said + more, i) <==> Convertible(said, i)
  {
    assert (said + more)[..i] == said[..i];
  }

  lemma PartDecided(role: string, p: Progress, said: seq<Said>, part: Part)
    requires Faithful(role, p, said) && AllConvertible(said)
    ensures Decided(OnPart(role, p, part), said + [Said(role, part)])
  {
    var all, n := said + [Said(role, part)], |said|;
    FlushKeeps(role, p, said);
    assert all[..n] == said && all[n].part == part;
    forall j | 0 <= j < n ensures Convertible(all, j) {
      ConvertibleAlone(said, [Said(role, part)], j);
    }
    var r := OnPart(role, p, part);
    assert r.Ok? <==> Convertible(all, n);
    if r.Err? {
      assert Objects(all, n, r.error);
    }
  }

  lemma ErrorStays(r: Result<Progress>, said: seq<Said>, more: seq<Said>)
    requires r.Err? && Decided(r, said)
    ensures Decided(r, said + more)
  {
    var i :| Objects(said, i, r.error);
    forall j | 0 <= j <= i ensures Convertible(said + more, j) <==> Convertible(said, j) {
      ConvertibleAlone(said, more, j);
    }
    assert Objects(said + more, i, r.error);
  }

  lemma {:induction false} PartsDecided(role: string, p: Progress, said: seq<Said>, parts: seq<Part>)
    requires Faithful(role, p, said) && AllConvertible(said)
    ensures Decided(OnParts(role, p, parts), said + SaidIn(role, parts))
  {
    if parts == [] {
      assert said + [] == said;
    } else {
      var before, last := parts[..|parts| - 1], parts[|parts| - 1];
      var sofar, r := said + SaidIn(role, before), OnParts(role, p, before);
      PartsDecided(role, p, said, before);
      assert sofar + [Said(role, last)] == said + SaidIn(role, parts);
      if r.Err? {
        ErrorStays(r, sofar, [Said(role, last)]);
      } else {
        PartsKeep(role, p, said, before);
        PartDecided(role, r.value, sofar, last);
      }
    }
  }

  /** A history is converted exactly if each of its parts can be; otherwise the error is that of
      the first part that cannot. */
  lemma {:induction false} ConvertsExactly(contents: seq<Option<Content>>)
    ensures Decided(Converted(contents), SaidBy(contents))
  {
    if contents != [] {
      var before, last := contents[..|contents| - 1], contents[|contents| - 1];
      ConvertsExactly(before);
      var r := Converted(before);
      if last.None? {
        assert SaidBy(before) + [] == SaidBy(before);
      } else if r.Err? {
        ErrorStays(r, SaidBy(before), SaidIn(last.value.role, last.value.parts));
      } else {
        HistoryIsFaithful(before);
        assert Faithful(last.value.role, r.value, SaidBy(before));
        PartsDecided(last.value.role, r.value, SaidBy(before), last.value.parts);
      }
    }
  }

  // ----- Who answers whom -----

  /** When no answer carries an ID, the k-th output goes to the k-th call. */
  lemma UnlabelledPairInOrder(contents: seq<Option<Content>>, k: nat)
    requires Converted(contents).Ok?
    requires forall i :: 0 <= i < |Labels(SaidBy(contents))| ==> Labels(SaidBy(contents))[i] == ""
    requires k < |Outputs(Converted(contents).value.items)|
    ensures
      var items := Converted(contents).value.items;
      k < |Calls(items)| && Outputs(items)[k] == Calls(items)[k]
  {
    HistoryIsFaithful(contents);
    var p, said := Converted(contents).value, SaidBy(contents);
    assert Faithful("", p, said);
    assert PairedAt(Outputs(p.items), Labels(said), CallIDs(said), k);
    AllUnlabelled(Labels(said)[..k]);
  }

  lemma {:induction false} AllUnlabelled(labels: seq<string>)
    requires forall i :: 0 <= i < |labels| ==> labels[i] == ""
    ensures Unlabelled(labels) == |labels|
  {
    if labels != [] {
      AllUnlabelled(labels[..|labels| - 1]);
    }
  }

  ghost predicate Distinct(s: seq<string>) { forall i, j :: 0 <= i < j < |s| ==> s[i] != s[j] }

  /** A labelled answer does not use up the call it names. */
  ghost predicate LabelsApart(labels: seq<string>, calls: seq<string>) {
    && (forall i, j :: 0 <= i < j < |labels| && labels[i] != "" ==> labels[i] != labels[j])
    && (forall i :: 0 <= i < |labels| && labels[i] != "" ==> labels[i] !in calls[..Min(Unlabelled(labels), |calls|)])
  }

  function Min(a: nat, b: nat): nat { if a < b then a else b }

  lemma {:induction false} EarlierUnlabelled(labels: seq<string>, j: nat)
    requires j < |labels| && labels[j] == ""
    ensures Unlabelled(labels[..j]) < Unlabelled(labels)
    ensures forall i :: 0 <= i < j && labels[i] == "" ==> Unlabelled(labels[..i]) < Unlabelled(labels[..j])
  {
    var before := labels[..|labels| - 1];
    if j < |before| {
      EarlierUnlabelled(before, j);
      assert before[..j] == labels[..j];
      assert forall i :: 0 <= i < j ==> before[..i] == labels[..i];
    } else {
      forall i | 0 <= i < j && labels[i] == "" ensures Unlabelled(labels[..i]) < Unlabelled(labels[..j]) {
        EarlierUnlabelled(before, i);
        assert before[..i] == labels[..i];
      }
    }
  }

  lemma {:induction false} NthUnlabelled(labels: seq<string>, n: nat) returns (k: nat)
    requires n < Unlabelled(labels)
    ensures k < |labels| && labels[k] == "" && Unlabelled(labels[..k]) == n
  {
    var before := labels[..|labels| - 1];
    if n < Unlabelled(before) {
      k := NthUnlabelled(before, n);
      assert before[..k] == labels[..k];
    } else {
      k := |before|;
    }
  }

  /** Calls with distinct IDs get at most one output each exactly when no label comes twice
      and none names a call that an answer without a label takes. */
  lemma AnsweredOnce(outputs: seq<string>, labels: seq<string>, calls: seq<string>)
    requires Paired(outputs, labels, calls) && Distinct(calls)
    ensures Distinct(outputs) <==> LabelsApart(labels, calls)
  {
    assert forall k :: 0 <= k < |labels| ==> PairedAt(outputs, labels, calls, k);
    if Distinct(outputs) {
      forall i, n | 0 <= i < |labels| && labels[i] != "" && 0 <= n < Min(Unlabelled(labels), |calls|)
        ensures calls[n] != labels[i]
      {
        var k := NthUnlabelled(labels, n);
        assert PairedAt(outputs, labels, calls, k) && PairedAt(outputs, labels, calls, i);
      }
      forall i, j | 0 <= i < j < |labels| && labels[i] != "" ensures labels[i] != labels[j] {
        assert PairedAt(outputs, labels, calls, i) && PairedAt(outputs, labels, calls, j);
      }
    }
    if LabelsApart(labels, calls) {
      forall i, j | 0 <= i < j < |outputs| ensures outputs[i] != outputs[j] {
        assert PairedAt(outputs, labels, calls, i) && PairedAt(outputs, labels, calls, j);
        if labels[j] == "" {
          EarlierUnlabelled(labels, j);
        }
        if labels[i] == "" {
          EarlierUnlabelled(labels, i);
        }
      }
    }
  }

  /** An answer that names the oldest open call leaves it to the next answer without a name. */
  lemma NamedAnswerIsRepeated(p: Progress, first: Option<string>, second: Option<string>)
    requires p.pending != [] && p.pending[0] != ""
    ensures
      var q := OnAnswer(p, p.pending[0], first);
      q.Ok? &&
      var r := OnAnswer(q.value, "", second);
      r.Ok? && Outputs(r.value.items) == Outputs(p.items) + [p.pending[0], p.pending[0]]
  {
    var x, y := FunctionOutput(p.pending[0], OutputText(first)), FunctionOutput(p.pending[0], OutputText(second));
    ItemAdded(p.items, x);
    ItemAdded(p.items + [x], y);
  }

  // ----- Generated IDs -----

  lemma GeneratedDiffer(m: nat, n: nat)
    requires GeneratedCallID(m) == GeneratedCallID(n)
    ensures m == n
  {
    var pre := "adk-openai-call-";
    assert GeneratedCallID(m)[|pre|..] == Decimal(m) && GeneratedCallID(n)[|pre|..] == Decimal(n);
    DecimalInjective(m, n);
  }
}
