/** Shared state with patches and diffs (agui/state.go). */
module StateDiff {
  import opened Events
  import opened JsonPatch
  import opened Locations

  /** The value under the key is added, removed or changed. */
  predicate Changed(was: Fields, want: Fields, k: string) {
    if k in was && k in want then was[k] != want[k] else k in was || k in want
  }

  predicate Inner(was: Fields, want: Fields, k: string) { k in was && k in want && was[k].Obj? && want[k].Obj? }

  /** Every key on the path of an operation of the diff is plain. */
  predicate PlainPaths(was: Json, want: Json)
    requires was.Obj? && want.Obj?
    decreases want
  {
    && (forall k :: k in want.fields && Changed(was.fields, want.fields, k) ==>
      PlainKey(k) && (Inner(was.fields, want.fields, k) ==> PlainPaths(was.fields[k], want.fields[k])))
    && forall k :: k in was.fields && k !in want.fields ==> PlainKey(k)
  }

  // ----- The paths of a diff -----

  function PathOf(keys: seq<string>): string {
    if keys == [] then "" else "/" + keys[0] + PathOf(keys[1..])
  }

  /** The keys lead to something added, removed or replaced. */
  predicate Emits(was: Json, want: Json, keys: seq<string>)
    requires was.Obj? && want.Obj?
    decreases keys
  {
    && keys != [] && Changed(was.fields, want.fields, keys[0])
    && if |keys| == 1 then !Inner(was.fields, want.fields, keys[0])
       else Inner(was.fields, want.fields, keys[0]) && Emits(was.fields[keys[0]], want.fields[keys[0]], keys[1..])
  }

  ghost predicate Emitted(op: PatchOp, prefix: string, was: Fields, want: Fields) {
    && (op.Add? || op.Remove? || op.Replace?)
    && exists keys :: Emits(Obj(was), Obj(want), keys) && op.path == prefix + PathOf(keys)
  }

  ghost predicate AllEmitted(ops: seq<PatchOp>, prefix: string, was: Fields, want: Fields) {
    forall i :: 0 <= i < |ops| ==> Emitted(ops[i], prefix, was, want)
  }

  /** What the diff asks for where the keys lead: what is missing is added, what is not wanted is
      removed, and what is different is replaced. */
  function Asked(prefix: string, was: Fields, want: Fields, keys: seq<string>): PatchOp
    requires Emits(Obj(was), Obj(want), keys)
    decreases keys
  {
    var k := keys[0];
    var path := prefix + "/" + k;
    if |keys| > 1 then Asked(path, was[k].fields, want[k].fields, keys[1..])
    else if k !in was then Add(path, want[k])
    else if k !in want then Remove(path)
    else Replace(path, want[k])
  }

  predicate Asks(ops: seq<PatchOp>, trail: seq<seq<string>>, keys: set<string>, prefix: string, was: Fields, want: Fields) {
    && |trail| == |ops|
    && forall i :: 0 <= i < |ops| ==>
      Emits(Obj(was), Obj(want), trail[i]) && trail[i][0] in keys && ops[i] == Asked(prefix, was, want, trail[i])
  }

  predicate Distinct(trail: seq<seq<string>>) {
    forall i, j :: 0 <= i < j < |trail| ==> trail[i] != trail[j]
  }

  ghost predicate Covers(trail: seq<seq<string>>, keys: set<string>, was: Fields, want: Fields) {
    forall p :: Emits(Obj(was), Obj(want), p) && p[0] in keys ==> p in trail
  }

  /** The operations are those that the diff asks for below the given keys, each of them once. */
  ghost predicate Lists(ops: seq<PatchOp>, trail: seq<seq<string>>, keys: set<string>, prefix: string, was: Fields, want: Fields) {
    Asks(ops, trail, keys, prefix, was, want) && Distinct(trail) && Covers(trail, keys, was, want)
  }

  lemma ListsNothing(k: string, prefix: string, was: Fields, want: Fields)
    requires !Changed(was, want, k)
    ensures Lists([], [], {k}, prefix, was, want)
  {
  }

  lemma ListsHere(op: PatchOp, k: string, prefix: string, was: Fields, want: Fields)
    requires Changed(was, want, k) && !Inner(was, want, k)
    requires op == if k !in was then Add(prefix + "/" + k, want[k]) else if k !in want then Remove(prefix + "/" + k) else Replace(prefix + "/" + k, want[k])
    ensures Lists([op], [[k]], {k}, prefix, was, want)
  {
    assert Emits(Obj(was), Obj(want), [k]);
    forall p | Emits(Obj(was), Obj(want), p) && p[0] in {k} ensures p in [[k]] {
      assert p == [k] && [[k]][0] == p;
    }
  }

  function Under(k: string, trail: seq<seq<string>>): (r: seq<seq<string>>)
    ensures |r| == |trail| && forall i :: 0 <= i < |r| ==> r[i] == [k] + trail[i]
  {
    seq(|trail|, i requires 0 <= i < |trail| => [k] + trail[i])
  }

  lemma AskedBelow(k: string, prefix: string, was: Fields, want: Fields, below: seq<string>)
    requires Inner(was, want, k) && Changed(was, want, k) && Emits(was[k], want[k], below)
    ensures Emits(Obj(was), Obj(want), [k] + below)
    ensures Asked(prefix, was, want, [k] + below) == Asked(prefix + "/" + k, was[k].fields, want[k].fields, below)
  {
    var keys := [k] + below;
    assert keys[0] == k && keys[1..] == below && |keys| > 1;
  }

  lemma AsksBelow(ops: seq<PatchOp>, trail: seq<seq<string>>, k: string, prefix: string, was: Fields, want: Fields, keys: set<string>)
    requires Inner(was, want, k) && Changed(was, want, k)
    requires Asks(ops, trail, keys, prefix + "/" + k, was[k].fields, want[k].fields)
    ensures Asks(ops, Under(k, trail), {k}, prefix, was, want)
  {
    var under := Under(k, trail);
    forall i | 0 <= i < |ops|
      ensures Emits(Obj(was), Obj(want), under[i]) && under[i][0] == k && ops[i] == Asked(prefix, was, want, under[i])
    {
      AskedBelow(k, prefix, was, want, trail[i]);
    }
  }

  lemma CoversBelow(trail: seq<seq<string>>, k: string, was: Fields, want: Fields, keys: set<string>)
    requires Inner(was, want, k) && keys == was[k].fields.Keys + want[k].fields.Keys
    requires Covers(trail, keys, was[k].fields, want[k].fields)
    ensures Covers(Under(k, trail), {k}, was, want)
  {
    var under := Under(k, trail);
    forall p | Emits(Obj(was), Obj(want), p) && p[0] in {k} ensures p in under {
      var q := p[1..];
      assert p == [k] + q && Emits(Obj(was[k].fields), Obj(want[k].fields), q) && q[0] in keys;
      var i :| 0 <= i < |trail| && trail[i] == q;
      assert under[i] == p;
    }
  }

  lemma ListsBelow(ops: seq<PatchOp>, trail: seq<seq<string>>, k: string, prefix: string, was: Fields, want: Fields, keys: set<string>)
    requires Inner(was, want, k) && Changed(was, want, k) && keys == was[k].fields.Keys + want[k].fields.Keys
    requires Lists(ops, trail, keys, prefix + "/" + k, was[k].fields, want[k].fields)
    ensures Lists(ops, Under(k, trail), {k}, prefix, was, want)
  {
    AsksBelow(ops, trail, k, prefix, was, want, keys);
    CoversBelow(trail, k, was, want, keys);
    var under := Under(k, trail);
    forall i, j | 0 <= i < j < |under| ensures under[i] != under[j] {
      assert under[i][1..] == trail[i] && under[j][1..] == trail[j];
    }
  }

  lemma AsksConcat(ops: seq<PatchOp>, trail: seq<seq<string>>, keys: set<string>,
      more: seq<PatchOp>, tail: seq<seq<string>>, others: set<string>, prefix: string, was: Fields, want: Fields)
    requires Asks(ops, trail, keys, prefix, was, want) && Asks(more, tail, others, prefix, was, want)
    ensures Asks(ops + more, trail + tail, keys + others, prefix, was, want)
  {
    var all, paths := ops + more, trail + tail;
    forall i | 0 <= i < |all|
      ensures Emits(Obj(was), Obj(want), paths[i]) && paths[i][0] in keys + others && all[i] == Asked(prefix, was, want, paths[i])
    {
      if i < |ops| {
        assert paths[i] == trail[i] && all[i] == ops[i];
      } else {
        assert paths[i] == tail[i - |ops|] && all[i] == more[i - |ops|];
      }
    }
  }

  lemma DistinctConcat(trail: seq<seq<string>>, keys: set<string>, tail: seq<seq<string>>, others: set<string>)
    requires Distinct(trail) && Distinct(tail) && keys !! others
    requires forall i :: 0 <= i < |trail| ==> trail[i] != [] && trail[i][0] in keys
    requires forall i :: 0 <= i < |tail| ==> tail[i] != [] && tail[i][0] in others
    ensures Distinct(trail + tail)
  {
    var all := trail + tail;
    forall i, j | 0 <= i < j < |all| ensures all[i] != all[j] {
      if i < |trail| <= j {
        assert all[i] == trail[i] && all[j] == tail[j - |trail|];
      }
    }
  }

  lemma ListsConcat(ops: seq<PatchOp>, trail: seq<seq<string>>, keys: set<string>,
      more: seq<PatchOp>, tail: seq<seq<string>>, others: set<string>, prefix: string, was: Fields, want: Fields)
    requires Lists(ops, trail, keys, prefix, was, want) && Lists(more, tail, others, prefix, was, want) && keys !! others
    ensures Lists(ops + more, trail + tail, keys + others, prefix, was, want)
  {
    AsksConcat(ops, trail, keys, more, tail, others, prefix, was, want);
    DistinctConcat(trail, keys, tail, others);
    assert Covers(trail + tail, keys + others, was, want) by {
      forall p | Emits(Obj(was), Obj(want), p) && p[0] in keys + others ensures p in trail + tail {
        assert p in trail || p in tail;
      }
    }
  }

  lemma {:induction false} AskedPath(prefix: string, was: Fields, want: Fields, keys: seq<string>)
    requires Emits(Obj(was), Obj(want), keys)
    ensures
      var op := Asked(prefix, was, want, keys);
      (op.Add? || op.Remove? || op.Replace?) && op.path == prefix + PathOf(keys)
    decreases keys
  {
    var k := keys[0];
    assert prefix + ("/" + k + PathOf(keys[1..])) == prefix + "/" + k + PathOf(keys[1..]);
    if |keys| > 1 {
      AskedPath(prefix + "/" + k, was[k].fields, want[k].fields, keys[1..]);
    } else {
      assert keys[1..] == [];
    }
  }

  lemma ListsEmitted(ops: seq<PatchOp>, trail: seq<seq<string>>, keys: set<string>, prefix: string, was: Fields, want: Fields)
    requires Lists(ops, trail, keys, prefix, was, want)
    ensures AllEmitted(ops, prefix, was, want)
  {
    forall i | 0 <= i < |ops| ensures Emitted(ops[i], prefix, was, want) {
      AskedPath(prefix, was, want, trail[i]);
    }
  }

  /** The patch turns old into new at the location, for every document that holds old there. */
  ghost predicate Turns(ops: seq<PatchOp>, at: seq<string>, was: Fields, want: Fields) {
    forall doc :: Get(doc, at) == Some(Obj(was)) ==> ApplyAll(doc, ops) == EditAt(doc, at, Swap(Obj(want)))
  }

  lemma TurnsNothing(at: seq<string>, m: Fields)
    ensures Turns([], at, m, m)
  {
    forall doc | Get(doc, at) == Some(Obj(m)) ensures ApplyAll(doc, []) == EditAt(doc, at, Swap(Obj(m))) {
      SwapSame(doc, at, Obj(m));
    }
  }

  lemma TurnsConcat(xs: seq<PatchOp>, ys: seq<PatchOp>, at: seq<string>, a: Fields, b: Fields, c: Fields)
    requires Turns(xs, at, a, b) && Turns(ys, at, b, c)
    ensures Turns(xs + ys, at, a, c)
  {
    forall doc | Get(doc, at) == Some(Obj(a)) ensures ApplyAll(doc, xs + ys) == EditAt(doc, at, Swap(Obj(c))) {
      ApplyAllConcat(doc, xs, ys);
      SwapThenGet(doc, at, Obj(b));
      SwapTwice(doc, at, Obj(b), Obj(c));
    }
  }

  /** A single operation on a key of the object. */
  lemma TurnsKey(op: PatchOp, at: seq<string>, k: string, e: Edit, m: Fields, n: Fields)
    requires Parse(op.path) == Some(at + [k]) && EditField(m, k, e) == Some(Obj(n))
    requires match op case Add(_, v) => e == Put(v) case Replace(_, v) => e == Swap(v) case Remove(_) => e == Drop case _ => false
    ensures Turns([op], at, m, n)
  {
    forall doc | Get(doc, at) == Some(Obj(m)) ensures ApplyAll(doc, [op]) == EditAt(doc, at, Swap(Obj(n))) {
      EditBelow(doc, at, k, e, Obj(m), Obj(n));
      assert [op][1..] == [];
    }
  }

  /** Turning a nested object turns the object around it. */
  lemma TurnsNested(ops: seq<PatchOp>, at: seq<string>, k: string, m: Fields, inner: Fields)
    requires k in m && m[k].Obj? && Turns(ops, at + [k], m[k].fields, inner)
    ensures Turns(ops, at, m, m[k := Obj(inner)])
  {
    forall doc | Get(doc, at) == Some(Obj(m)) ensures ApplyAll(doc, ops) == EditAt(doc, at, Swap(Obj(m[k := Obj(inner)]))) {
      GetBelow(doc, at, k);
      EditBelow(doc, at, k, Swap(Obj(inner)), Obj(m), Obj(m[k := Obj(inner)]));
    }
  }

  lemma {:induction false} GetBelow(doc: Json, at: seq<string>, k: string)
    requires Get(doc, at).Some? && Get(doc, at).value.Obj? && k in Get(doc, at).value.fields
    ensures Get(doc, at + [k]) == Some(Get(doc, at).value.fields[k])
    decreases at
  {
    var p := at + [k];
    if at == [] {
      assert p == [k] && p[1..] == [];
    } else {
      assert p[0] == at[0] && p[1..] == at[1..] + [k];
      match doc
      case Obj(f) => GetBelow(f[at[0]], at[1..], k);
      case Arr(items) => GetBelow(items[Index(at[0]).value], at[1..], k);
      case _ =>
    }
  }

  /** The keys already visited are as in the new object, the others as in the old one. */
  function Mixed(was: Fields, want: Fields, visited: set<string>): Fields {
    map k | k in was.Keys + want.Keys && (if k in visited then k in want else k in was) ::
      if k in visited then want[k] else was[k]
  }

  lemma MixedEnds(was: Fields, want: Fields)
    ensures Mixed(was, want, {}) == was
    ensures Mixed(was, want, was.Keys + want.Keys) == want
  {
  }

  lemma MixedStep(was: Fields, want: Fields, visited: set<string>, k: string)
    requires k !in visited && k in was.Keys + want.Keys
    ensures k in want ==> Mixed(was, want, visited + {k}) == Mixed(was, want, visited)[k := want[k]]
    ensures k !in want ==> Mixed(was, want, visited + {k}) == Mixed(was, want, visited) - {k}
    ensures k in was ==> k in Mixed(was, want, visited) && Mixed(was, want, visited)[k] == was[k]
    ensures k !in was ==> k !in Mixed(was, want, visited)
  {
  }

  /** What one key contributes, and that it contributes nothing exactly when it is unchanged. */
  method DiffKey(prefix: string, k: string, was: Fields, want: Fields, ghost visited: set<string>)
    returns (ops: seq<PatchOp>, ghost trail: seq<seq<string>>)
    requires k in want && k !in visited
    ensures ops == [] <==> k in was && was[k] == want[k]
    ensures Lists(ops, trail, {k}, prefix, was, want)
    ensures Parse(prefix).Some? && PlainPaths(Obj(was), Obj(want)) ==>
      Turns(ops, Parse(prefix).value, Mixed(was, want, visited), Mixed(was, want, visited + {k}))
    decreases Obj(want), 0
  {
    var path := prefix + "/" + k;
    var nv := want[k];
    ghost var plain := Parse(prefix).Some? && PlainPaths(Obj(was), Obj(want));
    ghost var m, n := Mixed(was, want, visited), Mixed(was, want, visited + {k});
    MixedStep(was, want, visited, k);
    if plain && Changed(was, want, k) {
      AppendKey(prefix, k);
    }
    if k !in was {
      ops, trail := [Add(path, nv)], [[k]];
      ListsHere(ops[0], k, prefix, was, want);
      if plain {
        TurnsKey(ops[0], Parse(prefix).value, k, Put(nv), m, n);
      }
      return;
    }
    var ov := was[k];
    if ov.Obj? && nv.Obj? {
      ops, trail := DiffMaps(path, ov.fields, nv.fields);
      if ov != nv {
        ListsBelow(ops, trail, k, prefix, was, want, ov.fields.Keys + nv.fields.Keys);
      } else {
        ListsNothing(k, prefix, was, want);
      }
      trail := Under(k, trail);
      if plain && ov != nv {
        TurnsNested(ops, Parse(prefix).value, k, m, nv.fields);
      } else if plain {
        assert m[k := nv] == m;
        TurnsNothing(Parse(prefix).value, m);
      }
    } else if ov != nv {
      ops, trail := [Replace(path, nv)], [[k]];
      ListsHere(ops[0], k, prefix, was, want);
      if plain {
        TurnsKey(ops[0], Parse(prefix).value, k, Swap(nv), m, n);
      }
    } else {
      ops, trail := [], [];
      ListsNothing(k, prefix, was, want);
      if plain {
        assert m[k := nv] == m;
        TurnsNothing(Parse(prefix).value, m);
      }
    }
  }

  /** The additions and changes. */
  method DiffWanted(prefix: string, was: Fields, want: Fields) returns (ops: seq<PatchOp>, ghost trail: seq<seq<string>>)
    ensures ops == [] <==> forall k :: k in want ==> k in was && was[k] == want[k]
    ensures Lists(ops, trail, want.Keys, prefix, was, want)
    ensures Parse(prefix).Some? && PlainPaths(Obj(was), Obj(want)) ==>
      Turns(ops, Parse(prefix).value, was, Mixed(was, want, want.Keys))
    decreases Obj(want), 1
  {
    ghost var plain := Parse(prefix).Some? && PlainPaths(Obj(was), Obj(want));
    ops, trail := [], [];
    var todo := want.Keys;
    ghost var visited: set<string> := {};
    MixedEnds(was, want);
    if plain {
      TurnsNothing(Parse(prefix).value, was);
    }
    while todo != {}
      invariant todo <= want.Keys && visited == want.Keys - todo
      invariant ops == [] <==> forall k :: k in visited ==> k in was && was[k] == want[k]
      invariant Lists(ops, trail, visited, prefix, was, want)
      invariant plain ==> Turns(ops, Parse(prefix).value, was, Mixed(was, want, visited))
      decreases todo
    {
      var k :| k in todo;
      var more, rest := DiffKey(prefix, k, was, want, visited);
      if plain {
        TurnsConcat(ops, more, Parse(prefix).value, was, Mixed(was, want, visited), Mixed(was, want, visited + {k}));
      }
      ListsConcat(ops, trail, visited, more, rest, {k}, prefix, was, want);
      ops, trail := ops + more, trail + rest;
      visited := visited + {k};
      todo := todo - {k};
    }
    assert visited == want.Keys;
  }

  lemma TurnsRemoval(op: PatchOp, prefix: string, k: string, was: Fields, want: Fields, visited: set<string>)
    requires op == Remove(prefix + "/" + k) && k in was && k !in want && k !in visited
    requires Parse(prefix).Some? && PlainPaths(Obj(was), Obj(want))
    ensures Turns([op], Parse(prefix).value, Mixed(was, want, visited), Mixed(was, want, visited + {k}))
  {
    AppendKey(prefix, k);
    MixedStep(was, want, visited, k);
    TurnsKey(op, Parse(prefix).value, k, Drop, Mixed(was, want, visited), Mixed(was, want, visited + {k}));
  }

  /** The removals. */
  method DiffUnwanted(prefix: string, was: Fields, want: Fields) returns (ops: seq<PatchOp>, ghost trail: seq<seq<string>>)
    ensures ops == [] <==> was.Keys <= want.Keys
    ensures Lists(ops, trail, was.Keys - want.Keys, prefix, was, want)
    ensures Parse(prefix).Some? && PlainPaths(Obj(was), Obj(want)) ==>
      Turns(ops, Parse(prefix).value, Mixed(was, want, want.Keys), want)
  {
    ghost var plain := Parse(prefix).Some? && PlainPaths(Obj(was), Obj(want));
    ops, trail := [], [];
    var todo := was.Keys;
    ghost var visited, start := want.Keys, Mixed(was, want, want.Keys);
    if plain {
      TurnsNothing(Parse(prefix).value, start);
    }
    while todo != {}
      invariant todo <= was.Keys && visited == want.Keys + (was.Keys - todo)
      invariant ops == [] <==> was.Keys - todo <= want.Keys
      invariant Lists(ops, trail, visited - want.Keys, prefix, was, want)
      invariant plain ==> Turns(ops, Parse(prefix).value, start, Mixed(was, want, visited))
      decreases todo
    {
      var k :| k in todo;
      if k !in want {
        var op := Remove(prefix + "/" + k);
        ListsHere(op, k, prefix, was, want);
        ListsConcat(ops, trail, visited - want.Keys, [op], [[k]], {k}, prefix, was, want);
        assert visited + {k} - want.Keys == visited - want.Keys + {k};
        if plain {
          TurnsRemoval(op, prefix, k, was, want, visited);
          TurnsConcat(ops, [op], Parse(prefix).value, start, Mixed(was, want, visited), Mixed(was, want, visited + {k}));
        }
        ops, trail := ops + [op], trail + [[k]];
      } else {
        assert visited + {k} == visited;
      }
      visited := visited + {k};
      todo := todo - {k};
    }
    MixedEnds(was, want);
    assert visited == was.Keys + want.Keys;
    assert visited - want.Keys == was.Keys - want.Keys;
  }

  /** Patch operations between two objects, visiting the keys in whatever order the maps
      yield them: exactly one for every location that differs. Applied to any document holding
      the old object at the prefix, they put the new object there and change nothing else; there
      are none exactly when nothing changed. */
  method DiffMaps(prefix: string, was: Fields, want: Fields) returns (ops: seq<PatchOp>, ghost trail: seq<seq<string>>)
    ensures ops == [] <==> was == want
    ensures Lists(ops, trail, was.Keys + want.Keys, prefix, was, want)
    ensures Parse(prefix).Some? && PlainPaths(Obj(was), Obj(want)) ==>
      Turns(ops, Parse(prefix).value, was, want)
    decreases Obj(want), 2
  {
    var changes, changed := DiffWanted(prefix, was, want);
    var removals, removed := DiffUnwanted(prefix, was, want);
    if Parse(prefix).Some? && PlainPaths(Obj(was), Obj(want)) {
      TurnsConcat(changes, removals, Parse(prefix).value, was, Mixed(was, want, want.Keys), want);
    }
    ListsConcat(changes, changed, want.Keys, removals, removed, was.Keys - want.Keys, prefix, was, want);
    assert want.Keys + (was.Keys - want.Keys) == was.Keys + want.Keys;
    ops, trail := changes + removals, changed + removed;
  }

  /** For a single added key: its path gives the new object exactly when the key is plain. */
  lemma AddedKeyExact(was: Fields, k: string, v: Json)
    requires k !in was
    ensures Apply(Obj(was), Add("" + "/" + k, v)) == Some(Obj(was[k := v])) <==> PlainKey(k)
  {
    AppendTokens("", k);
    PlainTokens(k);
    var tokens := UnescapeAll(Split(k));
    assert Parse("") == Some([]) && [] + tokens == tokens;
    if Apply(Obj(was), Add("" + "/" + k, v)) == Some(Obj(was[k := v])) {
      assert k in was[k := v];
      assert tokens[0] == k;
      assert |tokens| == 1;
      assert tokens == [k];
    }
  }

  // ----- Keys that are not plain -----

  /** The location that the path of the keys names. */
  function Tokens(keys: seq<string>): seq<string> {
    if keys == [] then [] else UnescapeAll(Split(keys[0])) + Tokens(keys[1..])
  }

  lemma Regrouped<T>(a: seq<T>, b: seq<T>, c: seq<T>)
    ensures a + (b + c) == a + b + c
  {
  }

  lemma {:induction false} PathTokens(prefix: string, keys: seq<string>)
    requires Parse(prefix).Some?
    ensures Parse(prefix + PathOf(keys)) == Some(Parse(prefix).value + Tokens(keys))
    decreases keys
  {
    if keys == [] {
      assert prefix + "" == prefix && Parse(prefix).value + [] == Parse(prefix).value;
    } else {
      var longer, first := prefix + "/" + keys[0], UnescapeAll(Split(keys[0]));
      AppendTokens(prefix, keys[0]);
      PathTokens(longer, keys[1..]);
      Regrouped(prefix, "/" + keys[0], PathOf(keys[1..]));
      Regrouped(prefix, "/", keys[0]);
      assert prefix + PathOf(keys) == longer + PathOf(keys[1..]);
      Regrouped(Parse(prefix).value, first, Tokens(keys[1..]));
    }
  }

  lemma {:induction false} UnescapeShortens(s: string)
    ensures |Unescape(s)| <= |s| && (|Unescape(s)| == |s| ==> Unescape(s) == s)
  {
    if |s| >= 2 && s[0] == '~' && (s[1] == '1' || s[1] == '0') {
      UnescapeShortens(s[2..]);
    } else if s != "" {
      UnescapeShortens(s[1..]);
      assert s == [s[0]] + s[1..];
    }
  }

  lemma {:induction false} FirstPartShortens(s: string)
    ensures |Split(s)[0]| <= |s| && (|Split(s)[0]| == |s| ==> '/' !in s && Split(s)[0] == s)
  {
    if s != "" {
      FirstPartShortens(s[1..]);
      assert s == [s[0]] + s[1..];
    }
  }

  /** The path of a plain key, or of one that is not longer, does not lead to a key that is not plain. */
  lemma LeadsElsewhere(k: string, bad: string)
    requires !PlainKey(bad) && (PlainKey(k) || |k| <= |bad|)
    ensures UnescapeAll(Split(k))[0] != bad
  {
    var first := Split(k)[0];
    FirstPartShortens(k);
    UnescapeShortens(first);
    if PlainKey(k) {
      PlainTokens(k);
    }
  }

  lemma {:induction false} Longest(keys: set<string>) returns (k: string)
    requires keys != {}
    ensures k in keys && forall other :: other in keys ==> |other| <= |k|
  {
    k :| k in keys;
    if keys != {k} {
      var rest := Longest(keys - {k});
      k := if |rest| > |k| then rest else k;
    }
  }

  /** The changed keys that are not plain. */
  function Bad(was: Fields, want: Fields): set<string> {
    set k | k in was.Keys + want.Keys && Changed(was, want, k) && !PlainKey(k)
  }

  /** Some location that has to change is left alone by every operation of the diff. */
  ghost predicate Blind(was: Json, want: Json, at: seq<string>)
    requires was.Obj? && want.Obj?
  {
    && at != [] && Get(was, at) != Get(want, at)
    && forall keys :: Emits(was, want, keys) ==> Beside(Some(was), Tokens(keys), true, at)
  }

  lemma BlindAtLongest(was: Json, want: Json, k: string)
    requires was.Obj? && want.Obj? && k in Bad(was.fields, want.fields)
    requires forall other :: other in Bad(was.fields, want.fields) ==> |other| <= |k|
    ensures Blind(was, want, [k])
  {
    ChildOf(was, [k]);
    ChildOf(want, [k]);
    GetStep(was, [k]);
    GetStep(want, [k]);
    forall keys | Emits(was, want, keys) ensures Beside(Some(was), Tokens(keys), true, [k]) {
      LeadsElsewhere(keys[0], k);
    }
  }

  lemma BlindBelow(was: Json, want: Json, k: string, at: seq<string>)
    requires was.Obj? && want.Obj? && Bad(was.fields, want.fields) == {}
    requires Inner(was.fields, want.fields, k) && Blind(was.fields[k], want.fields[k], at)
    ensures Blind(was, want, [k] + at)
  {
    var here := [k] + at;
    assert here[1..] == at;
    ChildOf(was, here);
    ChildOf(want, here);
    GetStep(was, here);
    GetStep(want, here);
    forall keys | Emits(was, want, keys) ensures Beside(Some(was), Tokens(keys), true, here) {
      assert keys[0] !in Bad(was.fields, want.fields);
      PlainTokens(keys[0]);
      assert Tokens(keys) == [keys[0]] + Tokens(keys[1..]);
    }
  }

  lemma {:induction false} BlindSpot(was: Json, want: Json) returns (at: seq<string>)
    requires was.Obj? && want.Obj? && !PlainPaths(was, want)
    ensures Blind(was, want, at)
    decreases want
  {
    var bad := Bad(was.fields, want.fields);
    if bad != {} {
      var k := Longest(bad);
      BlindAtLongest(was, want, k);
      at := [k];
    } else {
      assert forall k :: k in was.fields.Keys + want.fields.Keys ==> k !in bad;
      var k :| k in want.fields && Changed(was.fields, want.fields, k)
        && Inner(was.fields, want.fields, k) && !PlainPaths(was.fields[k], want.fields[k]);
      var below := BlindSpot(was.fields[k], want.fields[k]);
      BlindBelow(was, want, k, below);
      at := [k] + below;
    }
  }

  lemma {:induction false} BesideWeakens(doc: Option<Json>, path: seq<string>, other: seq<string>)
    requires Beside(doc, path, true, other)
    ensures Beside(doc, path, false, other)
    decreases path
  {
    if path[0] == other[0] {
      BesideWeakens(Child(doc, path[0]), path[1..], other[1..]);
    }
  }

  /** The hypothesis is needed: a diff with a key that is not plain on one of its paths never
      yields the target. */
  lemma UnplainDiffFails(was: Fields, want: Fields, ops: seq<PatchOp>)
    requires AllEmitted(ops, "", was, want) && !PlainPaths(Obj(was), Obj(want))
    ensures Patched(was, ops) != (want, true)
  {
    var at := BlindSpot(Obj(was), Obj(want));
    forall i | 0 <= i < |ops| ensures Spares(Obj(was), ops[i], at) {
      assert Emitted(ops[i], "", was, want);
      var keys :| Emits(Obj(was), Obj(want), keys) && ops[i].path == "" + PathOf(keys);
      PathTokens("", keys);
      assert [] + Tokens(keys) == Tokens(keys);
      BesideWeakens(Some(Obj(was)), Tokens(keys), at);
    }
    if ApplyAll(Obj(was), ops).Some? {
      PatchSpares(Obj(was), ops, at);
    }
  }

  // ----- The state manager -----

  /** The state after a patch and whether it succeeded; a patch that replaces the whole
      document by something that is not an object empties the state, and fails unless that is null. */
  function Patched(state: Fields, ops: seq<PatchOp>): (Fields, bool) {
    match ApplyAll(Obj(state), ops)
    case None => (state, false)
    case Some(d) => if d.Obj? then (d.fields, true) else (map[], d.Null?)
  }

  class StateManager {
    var state: Fields

    constructor (initial: Fields)
      ensures state == initial
    {
      state := initial;
    }

    method Set(newState: Fields)
      modifies this
      ensures state == newState
    {
      state := newState;
    }

    method Apply(patch: seq<PatchOp>) returns (ok: bool)
      modifies this
      ensures (state, ok) == Patched(old(state), patch)
      ensures
        var result := ApplyAll(Obj(old(state)), patch);
        && (result.None? ==> !ok && state == old(state))
        && (result.Some? && result.value.Obj? ==> ok && Obj(state) == result.value)
        && (result.Some? && !result.value.Obj? ==> state == map[] && (ok <==> result.value == Null))
    {
      var applied := ApplyAll(Obj(state), patch);
      if applied.None? {
        return false;
      }
      state := map[];
      if applied.value.Null? {
        return true;
      }
      if !applied.value.Obj? {
        return false;
      }
      state := applied.value.fields;
      return true;
    }

    /** Applying the diff to the state yields the target exactly when all keys on its paths are plain. */
    method Diff(target: Fields) returns (ops: seq<PatchOp>)
      ensures ops == [] <==> state == target
      ensures exists trail :: Lists(ops, trail, state.Keys + target.Keys, "", state, target)
      ensures Patched(state, ops) == (target, true) <==> PlainPaths(Obj(state), Obj(target))
    {
      ghost var trail;
      ops, trail := DiffMaps("", state, target);
      ListsEmitted(ops, trail, state.Keys + target.Keys, "", state, target);
      if PlainPaths(Obj(state), Obj(target)) {
        assert Get(Obj(state), []) == Some(Obj(state));
      } else {
        UnplainDiffFails(state, target, ops);
      }
    }
  }
}
