/** JSON documents, JSON pointers (RFC 6901) and JSON patches (RFC 6902). */
module JsonPatch {
  import opened Decimals
  import opened Events

  datatype Json =
    | Null
    | Bool(b: bool)
    | Number(n: real)
    | Str(s: string)
    | Arr(items: seq<Json>)
    | Obj(fields: map<string, Json>)

  type Fields = map<string, Json>

  // ----- Pointers -----

  function Split(s: string): (parts: seq<string>)
    ensures parts != []
  {
    if s == "" then [""]
    else
      var rest := Split(s[1..]);
      if s[0] == '/' then [""] + rest else [[s[0]] + rest[0]] + rest[1..]
  }

  function Unescape(s: string): string {
    if |s| >= 2 && s[0] == '~' && s[1] == '1' then ['/'] + Unescape(s[2..])
    else if |s| >= 2 && s[0] == '~' && s[1] == '0' then ['~'] + Unescape(s[2..])
    else if s == "" then ""
    else [s[0]] + Unescape(s[1..])
  }

  function UnescapeAll(parts: seq<string>): (r: seq<string>)
    ensures |r| == |parts| && forall i :: 0 <= i < |r| ==> r[i] == Unescape(parts[i])
  {
    if parts == [] then [] else [Unescape(parts[0])] + UnescapeAll(parts[1..])
  }

  /** The tokens of a pointer; a non-empty pointer starts with a slash. */
  function Parse(pointer: string): Option<seq<string>> {
    if pointer == "" then Some([])
    else if pointer[0] != '/' then None
    else Some(UnescapeAll(Split(pointer[1..])))
  }

  /** Keys that can be appended to a pointer as they are. */
  predicate PlainKey(k: string) { '/' !in k && Unescape(k) == k }

  lemma {:induction false} SplitConcat(a: string, b: string)
    ensures Split(a + "/" + b) == Split(a) + Split(b)
  {
    if a == "" {
      assert a + "/" + b == "/" + b && ("/" + b)[1..] == b;
    } else {
      assert (a + "/" + b)[1..] == a[1..] + "/" + b;
      SplitConcat(a[1..], b);
    }
  }

  lemma {:induction false} SplitPlain(k: string)
    ensures '/' !in k <==> Split(k) == [k]
  {
    if k != "" {
      SplitPlain(k[1..]);
      assert k == [k[0]] + k[1..];
      if k[0] != '/' && Split(k[1..]) == [k[1..]] {
        assert [[k[0]] + k[1..]] == [k];
      }
      if k[0] == '/' {
        assert |Split(k)| == 1 + |Split(k[1..])|;
      } else if Split(k) == [k] {
        assert Split(k)[0] == [k[0]] + Split(k[1..])[0];
        assert Split(k[1..])[0] == k[1..] by { assert k[1..] == ([k[0]] + Split(k[1..])[0])[1..]; }
        assert |Split(k)| == |Split(k[1..])|;
        assert Split(k[1..]) == [k[1..]];
      }
    }
  }

  lemma {:induction false} UnescapeAllConcat(a: seq<string>, b: seq<string>)
    ensures UnescapeAll(a + b) == UnescapeAll(a) + UnescapeAll(b)
  {
  }

  lemma {:induction false} OnePart(k: string)
    requires |Split(k)| == 1
    ensures Split(k) == [k]
  {
    if k != "" {
      OnePart(k[1..]);
      assert k == [k[0]] + k[1..];
    }
  }

  lemma PlainTokens(k: string)
    ensures UnescapeAll(Split(k)) == [k] <==> PlainKey(k)
  {
    SplitPlain(k);
    if |Split(k)| == 1 {
      OnePart(k);
    }
  }

  lemma AppendTokens(pointer: string, k: string)
    requires Parse(pointer).Some?
    ensures Parse(pointer + "/" + k) == Some(Parse(pointer).value + UnescapeAll(Split(k)))
  {
    var p := pointer + "/" + k;
    if pointer == "" {
      assert p[1..] == k;
      assert [] + UnescapeAll(Split(k)) == UnescapeAll(Split(k));
    } else {
      assert p[1..] == pointer[1..] + "/" + k;
      SplitConcat(pointer[1..], k);
      UnescapeAllConcat(Split(pointer[1..]), Split(k));
    }
  }

  /** Appending a key to a pointer names that key exactly when the key is plain. */
  lemma AppendKey(pointer: string, k: string)
    requires Parse(pointer).Some?
    ensures Parse(pointer + "/" + k) == Some(Parse(pointer).value + [k]) <==> PlainKey(k)
  {
    AppendTokens(pointer, k);
    PlainTokens(k);
    var base, tail := Parse(pointer).value, UnescapeAll(Split(k));
    assert (base + tail)[|base|..] == tail && (base + [k])[|base|..] == [k];
  }

  // ----- Locations -----

  /** Array indices have no leading zeros. */
  function Index(token: string): Option<nat> {
    if Digits(token) && (token[0] != '0' || |token| == 1) then Some(Numeral(token)) else None
  }

  function Get(doc: Json, path: seq<string>): Option<Json>
    decreases path
  {
    if path == [] then Some(doc)
    else match doc
      case Obj(f) => if path[0] in f then Get(f[path[0]], path[1..]) else None
      case Arr(items) =>
        var i := Index(path[0]);
        if i.Some? && i.value < |items| then Get(items[i.value], path[1..]) else None
      case _ => None
  }

  /** Putting a value (insert or overwrite), swapping an existing one, dropping one. */
  datatype Edit = Put(v: Json) | Swap(v: Json) | Drop

  function EditField(f: Fields, k: string, e: Edit): Option<Json> {
    match e
    case Put(v) => Some(Obj(f[k := v]))
    case Swap(v) => if k in f then Some(Obj(f[k := v])) else None
    case Drop => if k in f then Some(Obj(f - {k})) else None
  }

  function EditItem(items: seq<Json>, token: string, e: Edit): Option<Json> {
    var i := Index(token);
    match e
    case Put(v) =>
      if token == "-" then Some(Arr(items + [v]))
      else if i.Some? && i.value <= |items| then Some(Arr(items[..i.value] + [v] + items[i.value..]))
      else None
    case Swap(v) => if i.Some? && i.value < |items| then Some(Arr(items[i.value := v])) else None
    case Drop => if i.Some? && i.value < |items| then Some(Arr(items[..i.value] + items[i.value + 1..])) else None
  }

  function EditAt(doc: Json, path: seq<string>, e: Edit): Option<Json>
    decreases path
  {
    if path == [] then (if e.Drop? then None else Some(e.v))
    else match doc
      case Obj(f) =>
        if |path| == 1 then EditField(f, path[0], e)
        else if path[0] !in f then None
        else (match EditAt(f[path[0]], path[1..], e)
              case None => None
              case Some(d) => Some(Obj(f[path[0] := d])))
      case Arr(items) =>
        if |path| == 1 then EditItem(items, path[0], e)
        else
          var i := Index(path[0]);
          if i.None? || i.value >= |items| then None
          else (match EditAt(items[i.value], path[1..], e)
                case None => None
                case Some(d) => Some(Arr(items[i.value := d])))
      case _ => None
  }

  // ----- Patches -----

  datatype PatchOp =
    | Add(path: string, value: Json)
    | Remove(path: string)
    | Replace(path: string, value: Json)
    | Move(from: string, path: string)
    | Copy(from: string, path: string)
    | Test(path: string, value: Json)

  predicate ProperPrefix(a: seq<string>, b: seq<string>) { a <= b && a != b }

  /** One operation, by sections 4.1 to 4.6 of RFC 6902; None when it fails. */
  function Apply(doc: Json, op: PatchOp): Option<Json> {
    if Parse(op.path).None? || ((op.Move? || op.Copy?) && Parse(op.from).None?) then None
    else
      var path := Parse(op.path).value;
      match op
      case Add(_, v) => EditAt(doc, path, Put(v))
      case Remove(_) => EditAt(doc, path, Drop)
      case Replace(_, v) => EditAt(doc, path, Swap(v))
      case Move(_, _) =>
        var source := Parse(op.from).value;
        if ProperPrefix(source, path) || Get(doc, source).None? then None
        else (match EditAt(doc, source, Drop)
              case None => None
              case Some(d) => EditAt(d, path, Put(Get(doc, source).value)))
      case Copy(_, _) =>
        var source := Parse(op.from).value;
        if Get(doc, source).None? then None else EditAt(doc, path, Put(Get(doc, source).value))
      case Test(_, v) => if Get(doc, path) == Some(v) then Some(doc) else None
  }

  /** A patch is atomic (section 5): it fails as soon as one operation fails. */
  function ApplyAll(doc: Json, ops: seq<PatchOp>): Option<Json>
    decreases ops
  {
    if ops == [] then Some(doc)
    else match Apply(doc, ops[0])
      case None => None
      case Some(d) => ApplyAll(d, ops[1..])
  }

  lemma ApplySingle(doc: Json, op: PatchOp)
    ensures ApplyAll(doc, [op]) == Apply(doc, op)
  {
    assert [op][1..] == [];
    match Apply(doc, op)
    case None =>
    case Some(d) => assert ApplyAll(d, [op][1..]) == Some(d);
  }

  lemma {:induction false} ApplyAllConcat(doc: Json, xs: seq<PatchOp>, ys: seq<PatchOp>)
    ensures ApplyAll(doc, xs + ys) == match ApplyAll(doc, xs) case None => None case Some(d) => ApplyAll(d, ys)
    decreases xs
  {
    if xs == [] {
      assert xs + ys == ys;
    } else {
      assert (xs + ys)[1..] == xs[1..] + ys;
      match Apply(doc, xs[0])
      case None =>
      case Some(d) => ApplyAllConcat(d, xs[1..], ys);
    }
  }

  // ----- Laws of editing -----

  /** What putting, swapping and dropping an item of an array means (sections 4.1 to 4.3): an item
      put at an index moves the later ones up, "-" is the place after the last, a dropped item
      lets the later ones move down, and only existing items are swapped or dropped. */
  lemma ItemMeans(items: seq<Json>, token: string, v: Json)
    ensures EditItem(items, "-", Put(v)) == Some(Arr(items + [v]))
    ensures
      var i := Index(token);
      i.Some? ==>
        var put, swapped, dropped := EditItem(items, token, Put(v)), EditItem(items, token, Swap(v)), EditItem(items, token, Drop);
        && (put.Some? <==> i.value <= |items|) && (swapped.Some? <==> i.value < |items|) && (dropped.Some? <==> i.value < |items|)
        && (put.Some? ==> put.value.Arr? && |put.value.items| == |items| + 1)
        && (swapped.Some? ==> swapped.value.Arr? && |swapped.value.items| == |items|)
        && (dropped.Some? ==> dropped.value.Arr? && |dropped.value.items| == |items| - 1)
        && (forall j :: put.Some? && 0 <= j <= |items| ==>
          put.value.items[j] == if j < i.value then items[j] else if j == i.value then v else items[j - 1])
        && (forall j :: swapped.Some? && 0 <= j < |items| ==> swapped.value.items[j] == if j == i.value then v else items[j])
        && (forall j :: dropped.Some? && 0 <= j < |items| - 1 ==> dropped.value.items[j] == if j < i.value then items[j] else items[j + 1])
    ensures Index(token).None? ==>
      EditItem(items, token, Swap(v)).None? && EditItem(items, token, Drop).None? && (token != "-" ==> EditItem(items, token, Put(v)).None?)
  {
    assert !Digits("-") by {
      assert "-"[0] == '-';
    }
  }

  /** Only what is there can be swapped or dropped; what was swapped or put is then there. */
  lemma {:induction false} EditMeans(doc: Json, path: seq<string>, v: Json)
    ensures EditAt(doc, path, Swap(v)).Some? <==> Get(doc, path).Some?
    ensures EditAt(doc, path, Drop).Some? <==> path != [] && Get(doc, path).Some?
    ensures EditAt(doc, path, Swap(v)).Some? ==> Get(EditAt(doc, path, Swap(v)).value, path) == Some(v)
    ensures EditAt(doc, path, Put(v)).Some? && (path == [] || path[|path| - 1] != "-") ==> Get(EditAt(doc, path, Put(v)).value, path) == Some(v)
    decreases path
  {
    if path != [] {
      match doc
      case Obj(f) =>
        if |path| == 1 {
          assert path[1..] == [];
        } else if path[0] in f {
          EditMeans(f[path[0]], path[1..], v);
        }
      case Arr(items) =>
        var i := Index(path[0]);
        if |path| == 1 {
          assert path[1..] == [];
          ItemMeans(items, path[0], v);
        } else if i.Some? && i.value < |items| {
          EditMeans(items[i.value], path[1..], v);
        }
      case _ =>
    }
  }

  /** What can take a value under a token: an object, or an array up to its end. */
  predicate Takes(parent: Option<Json>, token: string) {
    match parent
    case Some(Obj(_)) => true
    case Some(Arr(items)) => token == "-" || (Index(token).Some? && Index(token).value <= |items|)
    case _ => false
  }

  /** A put demands its parent, and nothing else. */
  lemma {:induction false} PutAsks(doc: Json, path: seq<string>, v: Json)
    requires path != []
    ensures EditAt(doc, path, Put(v)).Some? <==> Takes(Get(doc, path[..|path| - 1]), path[|path| - 1])
    decreases path
  {
    var parent := path[..|path| - 1];
    if |path| == 1 {
      assert path[1..] == [];
      if doc.Arr? {
        ItemMeans(doc.items, path[0], v);
      }
    } else {
      assert parent[1..] == path[1..][..|path| - 2] && parent[0] == path[0];
      match doc
      case Obj(f) =>
        if path[0] in f {
          PutAsks(f[path[0]], path[1..], v);
        }
      case Arr(items) =>
        var i := Index(path[0]);
        if i.Some? && i.value < |items| {
          PutAsks(items[i.value], path[1..], v);
        }
      case _ =>
    }
  }

  /** What the operations demand: a test that the value is there, and a removal or replacement
      that something is. */
  lemma OperationMeans(doc: Json, op: PatchOp)
    requires Parse(op.path).Some?
    ensures op.Test? ==> Apply(doc, op) == if Get(doc, Parse(op.path).value) == Some(op.value) then Some(doc) else None
    ensures op.Remove? && Apply(doc, op).Some? ==> Get(doc, Parse(op.path).value).Some?
    ensures op.Replace? ==> (Apply(doc, op).Some? <==> Get(doc, Parse(op.path).value).Some?)
  {
    match op
    case Remove(_) => EditMeans(doc, Parse(op.path).value, Null);
    case Replace(_, v) => EditMeans(doc, Parse(op.path).value, v);
    case _ =>
  }

  /** A copy demands its source and puts its value at the target. */
  lemma CopyMeans(doc: Json, op: PatchOp, source: seq<string>, path: seq<string>)
    requires op.Copy? && Parse(op.path) == Some(path) && Parse(op.from) == Some(source)
    ensures Apply(doc, op).Some? ==> Get(doc, source).Some?
    ensures Apply(doc, op).Some? && path != [] && path[|path| - 1] != "-" ==> Get(Apply(doc, op).value, path) == Get(doc, source)
  {
    if Get(doc, source).Some? {
      EditMeans(doc, path, Get(doc, source).value);
    }
  }

  /** A move does so as well, after emptying the source, and does not go below it. */
  lemma MoveMeans(doc: Json, op: PatchOp, source: seq<string>, path: seq<string>)
    requires op.Move? && Parse(op.path) == Some(path) && Parse(op.from) == Some(source)
    ensures Apply(doc, op).Some? ==> Get(doc, source).Some? && !ProperPrefix(source, path)
    ensures Apply(doc, op).Some? && path != [] && path[|path| - 1] != "-" ==> Get(Apply(doc, op).value, path) == Get(doc, source)
  {
    if Get(doc, source).Some? && EditAt(doc, source, Drop).Some? {
      EditMeans(EditAt(doc, source, Drop).value, path, Get(doc, source).value);
    }
  }

  /** Editing below an existing location is swapping that location's value. */
  lemma {:induction false} EditBelow(doc: Json, path: seq<string>, k: string, e: Edit, here: Json, edited: Json)
    requires Get(doc, path) == Some(here) && here.Obj?
    requires EditField(here.fields, k, e) == Some(edited)
    ensures EditAt(doc, path + [k], e) == EditAt(doc, path, Swap(edited))
    decreases path
  {
    if path == [] {
      assert path + [k] == [k];
    } else {
      var p := path + [k];
      assert p[0] == path[0] && p[1..] == path[1..] + [k] && |p| > 1;
      match doc
      case Obj(f) =>
        EditBelow(f[path[0]], path[1..], k, e, here, edited);
        if |path| == 1 {
          assert path[1..] == [];
        }
      case Arr(items) =>
        EditBelow(items[Index(path[0]).value], path[1..], k, e, here, edited);
        if |path| == 1 {
          assert path[1..] == [];
        }
      case _ =>
    }
  }

  /** An existing location can be swapped, and then holds the new value. */
  lemma {:induction false} SwapThenGet(doc: Json, path: seq<string>, x: Json)
    requires Get(doc, path).Some?
    ensures EditAt(doc, path, Swap(x)).Some? && Get(EditAt(doc, path, Swap(x)).value, path) == Some(x)
    decreases path
  {
    if path != [] {
      match doc
      case Obj(f) =>
        SwapThenGet(f[path[0]], path[1..], x);
        if |path| == 1 {
          assert path[1..] == [];
        }
      case Arr(items) =>
        SwapThenGet(items[Index(path[0]).value], path[1..], x);
        if |path| == 1 {
          assert path[1..] == [];
        }
      case _ =>
    }
  }

  lemma {:induction false} SwapTwice(doc: Json, path: seq<string>, x: Json, y: Json)
    requires Get(doc, path).Some? && EditAt(doc, path, Swap(x)).Some?
    ensures EditAt(EditAt(doc, path, Swap(x)).value, path, Swap(y)) == EditAt(doc, path, Swap(y))
    decreases path
  {
    if path != [] {
      match doc
      case Obj(f) =>
        SwapThenGet(doc, path, x);
        if |path| == 1 {
          assert f[path[0] := x][path[0] := y] == f[path[0] := y];
        } else {
          SwapThenGet(f[path[0]], path[1..], x);
          SwapThenGet(f[path[0]], path[1..], y);
          SwapTwice(f[path[0]], path[1..], x, y);
          var d := EditAt(f[path[0]], path[1..], Swap(x)).value;
          var d' := EditAt(f[path[0]], path[1..], Swap(y)).value;
          assert f[path[0] := d][path[0] := d'] == f[path[0] := d'];
        }
      case Arr(items) =>
        var i := Index(path[0]).value;
        if |path| == 1 {
          assert items[i := x][i := y] == items[i := y];
        } else {
          SwapThenGet(items[i], path[1..], x);
          SwapThenGet(items[i], path[1..], y);
          SwapTwice(items[i], path[1..], x, y);
          var d := EditAt(items[i], path[1..], Swap(x)).value;
          var d' := EditAt(items[i], path[1..], Swap(y)).value;
          assert items[i := d][i := d'] == items[i := d'];
        }
      case _ =>
    }
  }

  lemma {:induction false} SwapSame(doc: Json, path: seq<string>, x: Json)
    requires Get(doc, path) == Some(x)
    ensures EditAt(doc, path, Swap(x)) == Some(doc)
    decreases path
  {
    if path != [] {
      match doc
      case Obj(f) =>
        SwapSame(f[path[0]], path[1..], x);
        assert f[path[0] := f[path[0]]] == f;
        if |path| == 1 {
          assert path[1..] == [];
        }
      case Arr(items) =>
        var i := Index(path[0]).value;
        SwapSame(items[i], path[1..], x);
        assert items[i := items[i]] == items;
        if |path| == 1 {
          assert path[1..] == [];
        }
      case _ =>
    }
  }

  /** A value that was put can be read back, except through the end-of-array token. */
  lemma {:induction false} PutThenGet(doc: Json, path: seq<string>, v: Json)
    requires EditAt(doc, path, Put(v)).Some? && (path != [] ==> path[|path| - 1] != "-")
    ensures Get(EditAt(doc, path, Put(v)).value, path) == Some(v)
    decreases path
  {
    if path != [] {
      assert |path| == 1 ==> path[1..] == [];
      match doc
      case Obj(f) =>
        if |path| > 1 {
          PutThenGet(f[path[0]], path[1..], v);
        }
      case Arr(items) =>
        if |path| > 1 {
          PutThenGet(items[Index(path[0]).value], path[1..], v);
        }
      case _ =>
    }
  }
}
