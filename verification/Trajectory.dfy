/** Matching of tool-call trajectories (eval/trajectory_evaluator.go). */
module Trajectory {
  import opened FirstFitLimits
  import opened GreedyMatching

  /** Decoded argument values; Nil is JSON null. */
  datatype Value =
    | Nil
    | Text(s: string)
    | Float(x: real)
    | Int(n: int)
    | Bool(b: bool)
    | Map(fields: map<string, Value>)
    | List(items: seq<Value>)

  datatype FunctionCall = FunctionCall(name: string, args: map<string, Value>)

  const NIL_TEXT: string := "<nil>"

  // ----- Equality -----

  /** Values of different kinds differ, except that null, which is compared by its printed
      form, equals the text that form consists of. */
  predicate ValuesEqual(a: Value, b: Value) {
    match a
    case Nil => b.Nil? || b == Text(NIL_TEXT)
    case Text(s) => b.Text? && s == b.s
    case Float(x) => b.Float? && x == b.x
    case Int(n) => b.Int? && n == b.n
    case Bool(v) => b.Bool? && v == b.b
    case Map(f) => b.Map? && |f| == |b.fields| && forall k :: k in f ==> k in b.fields && ValuesEqual(f[k], b.fields[k])
    case List(xs) => b.List? && |xs| == |b.items| && forall i :: 0 <= i < |xs| ==> ValuesEqual(xs[i], b.items[i])
  }

  predicate MapsEqual(a: map<string, Value>, b: map<string, Value>) {
    |a| == |b| && forall k :: k in a ==> k in b && ValuesEqual(a[k], b[k])
  }

  predicate CallsEqual(a: FunctionCall, b: FunctionCall) { a.name == b.name && MapsEqual(a.args, b.args) }

  /** No text anywhere in the value reads like a printed null. */
  predicate NoNilText(v: Value) {
    match v
    case Text(s) => s != NIL_TEXT
    case Map(f) => forall k :: k in f ==> NoNilText(f[k])
    case List(xs) => forall i :: 0 <= i < |xs| ==> NoNilText(xs[i])
    case _ => true
  }

  predicate Plain(c: FunctionCall) { forall k :: k in c.args ==> NoNilText(c.args[k]) }

  /** The same value with every such text replaced by null. */
  function Nulled(v: Value): Value {
    match v
    case Text(s) => if s == NIL_TEXT then Nil else v
    case Map(f) => Map(map k | k in f :: Nulled(f[k]))
    case List(xs) => List(NulledAll(xs))
    case _ => v
  }

  function NulledAll(xs: seq<Value>): (ys: seq<Value>)
    ensures |ys| == |xs| && forall i :: 0 <= i < |xs| ==> ys[i] == Nulled(xs[i])
  {
    if xs == [] then [] else [Nulled(xs[0])] + NulledAll(xs[1..])
  }

  /** A length check and a one-way scan of the keys compare the key sets. */
  lemma SameKeys<V>(a: map<string, V>, b: map<string, V>)
    requires |a| == |b| && forall k :: k in a ==> k in b
    ensures a.Keys == b.Keys
  {
    var more := b.Keys - a.Keys;
    assert b.Keys == a.Keys + more;
    assert |b.Keys| == |a.Keys| + |more|;
  }

  lemma {:induction false} EqualIsReflexive(v: Value)
    ensures ValuesEqual(v, v)
  {
    match v
    case Map(f) => forall k | k in f ensures ValuesEqual(f[k], f[k]) { EqualIsReflexive(f[k]); }
    case List(xs) => forall i | 0 <= i < |xs| ensures ValuesEqual(xs[i], xs[i]) { EqualIsReflexive(xs[i]); }
    case _ =>
  }

  lemma {:induction false} EqualMeansSame(a: Value, b: Value)
    requires ValuesEqual(a, b) && NoNilText(b)
    ensures a == b
  {
    match a
    case Map(f) =>
      SameKeys(f, b.fields);
      forall k | k in f ensures f[k] == b.fields[k] { EqualMeansSame(f[k], b.fields[k]); }
      assert f == b.fields;
    case List(xs) =>
      forall i | 0 <= i < |xs| ensures xs[i] == b.items[i] { EqualMeansSame(xs[i], b.items[i]); }
      assert xs == b.items;
    case _ =>
  }

  lemma {:induction false} NulledIsEqual(v: Value)
    ensures ValuesEqual(Nulled(v), v)
    ensures Nulled(v) == v ==> NoNilText(v)
  {
    match v
    case Map(f) =>
      var g := map k | k in f :: Nulled(f[k]);
      assert g.Keys == f.Keys && |g| == |g.Keys| && |f| == |f.Keys|;
      forall k | k in f ensures ValuesEqual(g[k], f[k]) && (Nulled(v) == v ==> NoNilText(f[k])) {
        NulledIsEqual(f[k]);
        assert Nulled(v) == v ==> g == f && g[k] == f[k];
      }
    case List(xs) =>
      forall i | 0 <= i < |xs| ensures ValuesEqual(NulledAll(xs)[i], xs[i]) && (Nulled(v) == v ==> NoNilText(xs[i])) {
        NulledIsEqual(xs[i]);
        assert Nulled(v) == v ==> NulledAll(xs)[i] == xs[i];
      }
    case _ =>
  }

  /** Comparing against an expected value is structural equality exactly when that value
      contains no text reading "<nil>". */
  lemma EqualityExact(b: Value)
    ensures (forall a :: ValuesEqual(a, b) <==> a == b) <==> NoNilText(b)
  {
    NulledIsEqual(b);
    EqualIsReflexive(b);
    if NoNilText(b) {
      forall a ensures ValuesEqual(a, b) <==> a == b {
        if ValuesEqual(a, b) {
          EqualMeansSame(a, b);
        }
      }
    } else {
      assert ValuesEqual(Nulled(b), b) && Nulled(b) != b;
    }
  }

  lemma CallsEqualExact(a: FunctionCall, b: FunctionCall)
    requires Plain(b)
    ensures CallsEqual(a, b) <==> a == b
  {
    if CallsEqual(a, b) {
      SameKeys(a.args, b.args);
      forall k | k in a.args ensures a.args[k] == b.args[k] { EqualMeansSame(a.args[k], b.args[k]); }
      assert a.args == b.args;
    } else if a == b {
      forall k | k in a.args ensures ValuesEqual(a.args[k], b.args[k]) { EqualIsReflexive(a.args[k]); }
    }
  }

  predicate AllPlain(calls: seq<FunctionCall>) { forall i :: 0 <= i < |calls| ==> Plain(calls[i]) }

  lemma PlainIsExact(calls: seq<FunctionCall>)
    requires AllPlain(calls)
    ensures Exact(CallsEqual, calls)
  {
    forall i, c | 0 <= i < |calls| ensures CallsEqual(c, calls[i]) <==> c == calls[i] {
      CallsEqualExact(c, calls[i]);
    }
  }

  // ----- Where first fit fails -----

  function Query(v: Value): FunctionCall { FunctionCall("f", map["q" := v]) }

  lemma QueriesEqual(a: Value, b: Value)
    ensures CallsEqual(Query(a), Query(b)) <==> ValuesEqual(a, b)
  {
    var f, g := Query(a).args, Query(b).args;
    assert f.Keys == {"q"} && g.Keys == {"q"} && |f| == |f.Keys| && |g| == |g.Keys|;
    assert "q" in f && "q" in g;
  }

  /** Equal values differ only in where a text stands for null. */
  lemma {:induction false} EqualNulled(a: Value, b: Value)
    requires ValuesEqual(a, b)
    ensures Nulled(a) == Nulled(b)
  {
    match a
    case Map(f) =>
      SameKeys(f, b.fields);
      forall k | k in f ensures Nulled(f[k]) == Nulled(b.fields[k]) { EqualNulled(f[k], b.fields[k]); }
      assert (map k | k in f :: Nulled(f[k])) == map k | k in b.fields :: Nulled(b.fields[k]);
    case List(xs) =>
      forall i | 0 <= i < |xs| ensures Nulled(xs[i]) == Nulled(b.items[i]) { EqualNulled(xs[i], b.items[i]); }
      assert NulledAll(xs) == NulledAll(b.items);
    case _ =>
  }

  lemma {:induction false} EqualIsTransitive(a: Value, b: Value, c: Value)
    requires ValuesEqual(a, b) && ValuesEqual(b, c)
    ensures ValuesEqual(a, c)
  {
    match a
    case Map(f) =>
      forall k | k in f ensures ValuesEqual(f[k], c.fields[k]) { EqualIsTransitive(f[k], b.fields[k], c.fields[k]); }
    case List(xs) =>
      forall i | 0 <= i < |xs| ensures ValuesEqual(xs[i], c.items[i]) { EqualIsTransitive(xs[i], b.items[i], c.items[i]); }
    case _ =>
  }

  /** The same call with every text that reads like null replaced by null. */
  function NulledCall(c: FunctionCall): FunctionCall {
    FunctionCall(c.name, map k | k in c.args :: Nulled(c.args[k]))
  }

  lemma CallsOrder(a: FunctionCall, b: FunctionCall, c: FunctionCall)
    ensures CallsEqual(a, a) && CallsEqual(NulledCall(a), a)
    ensures CallsEqual(a, b) ==> NulledCall(a) == NulledCall(b)
    ensures CallsEqual(a, b) && CallsEqual(b, c) ==> CallsEqual(a, c)
  {
    var n := NulledCall(a).args;
    assert n.Keys == a.args.Keys && |n| == |n.Keys| && |a.args| == |a.args.Keys|;
    forall k | k in a.args ensures ValuesEqual(a.args[k], a.args[k]) && ValuesEqual(n[k], a.args[k]) {
      EqualIsReflexive(a.args[k]);
      NulledIsEqual(a.args[k]);
    }
    if CallsEqual(a, b) {
      SameKeys(a.args, b.args);
      forall k | k in a.args ensures Nulled(a.args[k]) == Nulled(b.args[k]) { EqualNulled(a.args[k], b.args[k]); }
      assert NulledCall(a).args == NulledCall(b).args;
      if CallsEqual(b, c) {
        forall k | k in a.args ensures ValuesEqual(a.args[k], c.args[k]) {
          EqualIsTransitive(a.args[k], b.args[k], c.args[k]);
        }
      }
    }
  }

  /** Of two expected calls that differ only in where a text stands for null, the later one
      accepts the earlier one. */
  predicate Compatible(expected: seq<FunctionCall>) {
    forall i, j :: 0 <= i < j < |expected| && NulledCall(expected[i]) == NulledCall(expected[j]) ==> CallsEqual(expected[i], expected[j])
  }

  lemma CallYields(e: FunctionCall, f: FunctionCall)
    ensures Yields(CallsEqual, e, f) <==> (NulledCall(e) == NulledCall(f) ==> CallsEqual(e, f))
  {
    CallsOrder(e, e, e);
    CallsOrder(f, f, f);
    if NulledCall(e) == NulledCall(f) && Yields(CallsEqual, e, f) {
      assert CallsEqual(NulledCall(e), e) && CallsEqual(NulledCall(e), f) && CallsEqual(e, e);
    }
    if NulledCall(e) == NulledCall(f) ==> CallsEqual(e, f) {
      forall a, b | CallsEqual(a, e) && CallsEqual(a, f) && CallsEqual(b, e) ensures CallsEqual(b, f) {
        CallsOrder(a, e, e);
        CallsOrder(a, f, f);
        CallsOrder(b, e, f);
      }
    }
  }

  /** First fit decides every list of actual calls rightly exactly when the expected calls are
      compatible; without texts that read like null they always are. */
  lemma FirstFitIsRight(expected: seq<FunctionCall>)
    ensures AlwaysRight(CallsEqual, expected) <==> Compatible(expected)
    ensures Compatible(expected) <==> Exchangeable(CallsEqual, expected)
    ensures AllPlain(expected) ==> Compatible(expected)
  {
    forall i, j | 0 <= i < j < |expected|
      ensures Yields(CallsEqual, expected[i], expected[j]) <==>
        (NulledCall(expected[i]) == NulledCall(expected[j]) ==> CallsEqual(expected[i], expected[j]))
    {
      CallYields(expected[i], expected[j]);
    }
    forall k | 0 <= k < |expected| ensures Matched(CallsEqual, expected[k]) {
      CallsOrder(expected[k], expected[k], expected[k]);
    }
    FirstFitExactly(CallsEqual, expected);
    if AllPlain(expected) {
      PlainIsCompatible(expected);
    }
  }

  lemma PlainIsCompatible(expected: seq<FunctionCall>)
    requires AllPlain(expected)
    ensures Compatible(expected)
  {
    forall i, j | 0 <= i < j < |expected| && NulledCall(expected[i]) == NulledCall(expected[j])
      ensures CallsEqual(expected[i], expected[j])
    {
      var e, f := expected[i], expected[j];
      CallsOrder(e, e, e);
      CallsOrder(f, f, f);
      CallsEqualExact(NulledCall(e), e);
      CallsEqualExact(NulledCall(f), f);
    }
  }

  /** With the text "<nil>" among the expected arguments a matching can exist although first
      fit, having given the null away, finds none; and the comparison is not symmetric. */
  lemma NilTextMisleads()
    ensures
      var expected := [Query(Text(NIL_TEXT)), Query(Nil)];
      var actual := [Query(Nil), Query(Text(NIL_TEXT))];
      && Matching(CallsEqual, actual, expected, [1, 0]) && !FirstFit(CallsEqual, actual, Nobody(2), expected)
      && CallsEqual(actual[0], expected[0]) && !CallsEqual(actual[1], expected[1])
      && ValuesEqual(Nil, Text(NIL_TEXT)) && !ValuesEqual(Text(NIL_TEXT), Nil) && !Compatible(expected)
  {
    var f, g := Query(Text(NIL_TEXT)), Query(Nil);
    assert NulledCall(f).args == map["q" := Nil] == NulledCall(g).args;
    assert [f, g][0] == f && [f, g][1] == g;
    QueriesEqual(Nil, Nil);
    QueriesEqual(Nil, Text(NIL_TEXT));
    QueriesEqual(Text(NIL_TEXT), Nil);
    QueriesEqual(Text(NIL_TEXT), Text(NIL_TEXT));
  }

  // ----- The score -----

  datatype MatchType = MatchExact | MatchInOrder | MatchAnyOrder

  method CompareToolCalls(matchType: MatchType, actual: seq<FunctionCall>, expected: seq<FunctionCall>) returns (score: real)
    ensures expected == [] ==> score == if actual == [] then 1.0 else 0.0
    ensures expected != [] && matchType.MatchExact? ==> (score == 1.0 <==> Exactly(CallsEqual, actual, expected))
    ensures expected != [] && matchType.MatchInOrder? ==> (score == 1.0 <==> InOrder(CallsEqual, actual, expected))
    ensures expected != [] && matchType.MatchAnyOrder? ==>
      (score == 1.0 <==> FirstFit(CallsEqual, actual, Nobody(|actual|), expected)) && (score == 1.0 ==> AnyOrder(CallsEqual, actual, expected))
    ensures expected != [] && matchType.MatchAnyOrder? && Compatible(expected) ==>
      (score == 1.0 <==> AnyOrder(CallsEqual, actual, expected))
    ensures expected != [] && matchType.MatchAnyOrder? && AllPlain(expected) ==>
      (score == 1.0 <==> multiset(expected) <= multiset(actual))
  {
    if |expected| == 0 {
      return if |actual| == 0 then 1.0 else 0.0;
    }
    if AllPlain(expected) {
      PlainIsExact(expected);
    }
    FirstFitIsRight(expected);
    assert AlwaysRight(CallsEqual, expected) ==>
      (FirstFit(CallsEqual, actual, Nobody(|actual|), expected) <==> AnyOrder(CallsEqual, actual, expected));
    match matchType {
      case MatchExact => score := CompareExact(CallsEqual, actual, expected);
      case MatchInOrder => score := CompareInOrder(CallsEqual, actual, expected);
      case MatchAnyOrder => score := CompareAnyOrder(CallsEqual, actual, expected);
    }
  }
}
