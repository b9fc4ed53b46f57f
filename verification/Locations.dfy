/** Which locations of a document a patch leaves alone. */
module Locations {
  import opened Decimals
  import opened Events
  import opened JsonPatch

  // ----- Indices -----

  lemma {:induction false} NumeralPositive(s: string)
    requires Digits(s) && s[0] != '0'
    ensures Numeral(s) > 0
  {
    if |s| > 1 {
      NumeralPositive(s[..|s| - 1]);
    }
  }

  /** Different index tokens are different indices. */
  lemma {:induction false} IndexInjective(a: string, b: string)
    requires Index(a).Some? && Index(a) == Index(b)
    ensures a == b
  {
    var a', b' := a[..|a| - 1], b[..|b| - 1];
    assert a == a' + [a[|a| - 1]] && b == b' + [b[|b| - 1]];
    assert a[|a| - 1] == b[|b| - 1] && Numeral(a') == Numeral(b');
    if a' != [] {
      NumeralPositive(a');
    }
    if b' != [] {
      NumeralPositive(b');
    }
    if a' != [] && b' != [] {
      IndexInjective(a', b');
    }
  }

  /** Swapping a value leaves every location that is neither above nor below it. */
  lemma {:induction false} SwapLeavesOthers(doc: Json, at: seq<string>, x: Json, other: seq<string>)
    requires EditAt(doc, at, Swap(x)).Some? && !(at <= other) && !(other <= at)
    ensures Get(EditAt(doc, at, Swap(x)).value, other) == Get(doc, other)
    decreases at
  {
    assert at == [at[0]] + at[1..] && other == [other[0]] + other[1..];
    match doc
    case Obj(f) =>
      if at[0] == other[0] && at[0] in f && |at| > 1 {
        SwapLeavesOthers(f[at[0]], at[1..], x, other[1..]);
      }
    case Arr(items) =>
      if Index(at[0]).Some? && Index(at[0]) == Index(other[0]) {
        IndexInjective(at[0], other[0]);
        if |at| > 1 {
          SwapLeavesOthers(items[Index(at[0]).value], at[1..], x, other[1..]);
        }
      }
    case _ =>
  }

  // ----- Locations beside a patch -----

  /** What a token leads to. */
  function Child(doc: Option<Json>, token: string): Option<Json> {
    if doc.None? then None else Get(doc.value, [token])
  }

  /** The paths part, and where they do, an edit at the first one that shifts items does not
      shift the items of an array that the second one leads through. */
  predicate Beside(doc: Option<Json>, path: seq<string>, shifts: bool, other: seq<string>)
    decreases path
  {
    && path != [] && other != []
    && if path[0] == other[0] then Beside(Child(doc, path[0]), path[1..], shifts, other[1..])
       else shifts && |path| == 1 && doc.Some? ==> !doc.value.Arr?
  }

  /** The operation changes neither the location nor anything above or below it, nor shifts it. */
  predicate Spares(doc: Json, op: PatchOp, other: seq<string>) {
    && Parse(op.path).Some?
    && match op
       case Test(_, _) => true
       case Replace(_, _) => Beside(Some(doc), Parse(op.path).value, false, other)
       case Move(from, _) =>
         && Parse(from).Some? && Beside(Some(doc), Parse(from).value, true, other)
         && Beside(Some(doc), Parse(op.path).value, true, other)
       case _ => Beside(Some(doc), Parse(op.path).value, true, other)
  }

  predicate SparesAll(doc: Json, ops: seq<PatchOp>, other: seq<string>) {
    forall i :: 0 <= i < |ops| ==> Spares(doc, ops[i], other)
  }

  lemma ChildOf(doc: Json, path: seq<string>)
    requires path != []
    ensures
      var c := Child(Some(doc), path[0]);
      match doc
      case Obj(f) => c == if path[0] in f then Some(f[path[0]]) else None
      case Arr(items) => var i := Index(path[0]); c == if i.Some? && i.value < |items| then Some(items[i.value]) else None
      case _ => c == None
  {
    var token := path[0];
    assert [token][1..] == [] && [token][0] == token;
    match doc
    case Obj(f) => assert token in f ==> Get(f[token], [token][1..]) == Some(f[token]);
    case Arr(items) =>
      var i := Index(token);
      assert i.Some? && i.value < |items| ==> Get(items[i.value], [token][1..]) == Some(items[i.value]);
    case _ =>
  }

  /** An edit changes one child only, and arrays stay arrays. */
  lemma EditedChild(doc: Json, path: seq<string>, e: Edit, other: seq<string>)
    requires Beside(Some(doc), path, !e.Swap?, other) && EditAt(doc, path, e).Some?
    ensures EditAt(doc, path, e).value.Arr? <==> doc.Arr?
    ensures EditAt(doc, path, e).value.Obj? <==> doc.Obj?
    ensures
      var was, now := Child(Some(doc), other[0]), Child(EditAt(doc, path, e), other[0]);
      if path[0] != other[0] then now == was
      else was.Some? && EditAt(was.value, path[1..], e).Some? && now == EditAt(was.value, path[1..], e)
  {
    var d := EditAt(doc, path, e).value;
    ChildOf(doc, path);
    ChildOf(doc, other);
    ChildOf(d, other);
    if doc.Arr? && path[0] != other[0] && Index(path[0]).Some? && Index(path[0]) == Index(other[0]) {
      IndexInjective(path[0], other[0]);
    }
  }

  /** An edit leaves the locations beside it. */
  lemma {:induction false} EditKeeps(doc: Json, path: seq<string>, e: Edit, other: seq<string>)
    requires Beside(Some(doc), path, !e.Swap?, other) && EditAt(doc, path, e).Some?
    ensures Get(EditAt(doc, path, e).value, other) == Get(doc, other)
    decreases path
  {
    var d := EditAt(doc, path, e).value;
    EditedChild(doc, path, e, other);
    GetStep(doc, other);
    GetStep(d, other);
    if path[0] == other[0] {
      EditKeeps(Child(Some(doc), other[0]).value, path[1..], e, other[1..]);
    }
  }

  lemma GetStep(doc: Json, path: seq<string>)
    requires path != []
    ensures Get(doc, path) == var c := Child(Some(doc), path[0]); if c.None? then None else Get(c.value, path[1..])
  {
    ChildOf(doc, path);
  }

  /** What is beside a location stays beside it. */
  lemma {:induction false} BesideKept(doc: Json, path: seq<string>, e: Edit, other: seq<string>, q: seq<string>, shifts: bool)
    requires Beside(Some(doc), path, !e.Swap?, other) && EditAt(doc, path, e).Some?
    requires Beside(Some(doc), q, shifts, other)
    ensures Beside(EditAt(doc, path, e), q, shifts, other)
    decreases path
  {
    EditedChild(doc, path, e, other);
    if path[0] == other[0] == q[0] {
      BesideKept(Child(Some(doc), other[0]).value, path[1..], e, other[1..], q[1..], shifts);
    }
  }

  lemma SparesKept(doc: Json, path: seq<string>, e: Edit, other: seq<string>, op: PatchOp)
    requires Beside(Some(doc), path, !e.Swap?, other) && EditAt(doc, path, e).Some? && Spares(doc, op, other)
    ensures Spares(EditAt(doc, path, e).value, op, other)
  {
    if !op.Test? {
      BesideKept(doc, path, e, other, Parse(op.path).value, !op.Replace?);
      if op.Move? {
        BesideKept(doc, path, e, other, Parse(op.from).value, true);
      }
    }
  }

  /** A successful operation leaves what it spares, and what others spare remains spared. */
  lemma OpSpares(doc: Json, op: PatchOp, other: seq<string>, next: PatchOp)
    requires Spares(doc, op, other) && Apply(doc, op).Some? && Spares(doc, next, other)
    ensures Get(Apply(doc, op).value, other) == Get(doc, other) && Spares(Apply(doc, op).value, next, other)
  {
    var path := Parse(op.path).value;
    match op
    case Add(_, v) => EditKeeps(doc, path, Put(v), other); SparesKept(doc, path, Put(v), other, next);
    case Remove(_) => EditKeeps(doc, path, Drop, other); SparesKept(doc, path, Drop, other, next);
    case Replace(_, v) => EditKeeps(doc, path, Swap(v), other); SparesKept(doc, path, Swap(v), other, next);
    case Move(from, _) => MoveSpares(doc, Parse(from).value, path, other, next);
    case Copy(from, _) =>
      var v := Get(doc, Parse(from).value).value;
      EditKeeps(doc, path, Put(v), other);
      SparesKept(doc, path, Put(v), other, next);
    case Test(_, _) =>
  }

  lemma MoveSpares(doc: Json, source: seq<string>, path: seq<string>, other: seq<string>, next: PatchOp)
    requires Beside(Some(doc), source, true, other) && Beside(Some(doc), path, true, other) && Spares(doc, next, other)
    requires Get(doc, source).Some? && EditAt(doc, source, Drop).Some?
    requires EditAt(EditAt(doc, source, Drop).value, path, Put(Get(doc, source).value)).Some?
    ensures
      var d := EditAt(EditAt(doc, source, Drop).value, path, Put(Get(doc, source).value)).value;
      Get(d, other) == Get(doc, other) && Spares(d, next, other)
  {
    var d, v := EditAt(doc, source, Drop).value, Get(doc, source).value;
    EditKeeps(doc, source, Drop, other);
    SparesKept(doc, source, Drop, other, next);
    BesideKept(doc, source, Drop, other, path, true);
    EditKeeps(d, path, Put(v), other);
    SparesKept(d, path, Put(v), other, next);
  }

  lemma {:induction false} PatchSpares(doc: Json, ops: seq<PatchOp>, other: seq<string>)
    requires SparesAll(doc, ops, other) && ApplyAll(doc, ops).Some?
    ensures Get(ApplyAll(doc, ops).value, other) == Get(doc, other)
    decreases ops
  {
    if ops != [] {
      var d := Apply(doc, ops[0]).value;
      OpSpares(doc, ops[0], other, ops[0]);
      forall i | 0 <= i < |ops| - 1 ensures Spares(d, ops[1..][i], other) {
        OpSpares(doc, ops[0], other, ops[i + 1]);
      }
      PatchSpares(d, ops[1..], other);
    }
  }

  lemma {:induction false} BesideNothing(doc: Option<Json>, path: seq<string>, shifts: bool, other: seq<string>)
    requires Beside(doc, path, shifts, other)
    ensures Beside(None, path, shifts, other) && Beside(Some(Obj(map[])), path, shifts, other)
    decreases path
  {
    ChildOf(Obj(map[]), path);
    if path[0] == other[0] {
      BesideNothing(Child(doc, path[0]), path[1..], shifts, other[1..]);
    }
  }
}
