/** Greedy matching of two sequences under an arbitrary comparison
    (eval/trajectory_evaluator.go, the three compare functions). */
module GreedyMatching {
  /** Against these expected items the comparison is equality. */
  ghost predicate Exact<C(!new)>(eq: (C, C) -> bool, expected: seq<C>) {
    forall i, c :: 0 <= i < |expected| ==> (eq(c, expected[i]) <==> c == expected[i])
  }

  // ----- What the match types mean -----

  /** Position i of the expected calls is met by position at[i] of the actual ones. */
  ghost predicate Matching<C(!new)>(eq: (C, C) -> bool, actual: seq<C>, expected: seq<C>, at: seq<nat>) {
    && |at| == |expected|
    && (forall i :: 0 <= i < |at| ==> at[i] < |actual| && eq(actual[at[i]], expected[i]))
    && forall i, j :: 0 <= i < j < |at| ==> at[i] != at[j]
  }

  ghost predicate Increasing(at: seq<nat>) { forall i, j :: 0 <= i < j < |at| ==> at[i] < at[j] }

  ghost predicate Exactly<C(!new)>(eq: (C, C) -> bool, actual: seq<C>, expected: seq<C>) {
    |actual| == |expected| && forall i :: 0 <= i < |actual| ==> eq(actual[i], expected[i])
  }

  /** The expected calls are a subsequence of the actual ones. */
  ghost predicate InOrder<C(!new)>(eq: (C, C) -> bool, actual: seq<C>, expected: seq<C>) {
    exists at :: Matching(eq, actual, expected, at) && Increasing(at)
  }

  /** The expected calls can be assigned distinct actual ones. */
  ghost predicate AnyOrder<C(!new)>(eq: (C, C) -> bool, actual: seq<C>, expected: seq<C>) {
    exists at :: Matching(eq, actual, expected, at)
  }

  lemma ExactImpliesInOrder<C(!new)>(eq: (C, C) -> bool, actual: seq<C>, expected: seq<C>)
    requires Exactly(eq, actual, expected)
    ensures InOrder(eq, actual, expected)
  {
    var at: seq<nat> := seq(|actual|, i requires 0 <= i => i);
    assert Matching(eq, actual, expected, at) && Increasing(at);
  }

  lemma InOrderImpliesAnyOrder<C(!new)>(eq: (C, C) -> bool, actual: seq<C>, expected: seq<C>)
    requires InOrder(eq, actual, expected)
    ensures AnyOrder(eq, actual, expected)
  {
  }

  // ----- The matchers -----

  method CompareExact<C(!new)>(eq: (C, C) -> bool, actual: seq<C>, expected: seq<C>) returns (score: real)
    ensures score == if Exactly(eq, actual, expected) then 1.0 else 0.0
  {
    if |actual| != |expected| {
      return 0.0;
    }
    for i := 0 to |expected|
      invariant forall k :: 0 <= k < i ==> eq(actual[k], expected[k])
    {
      if !eq(actual[i], expected[i]) {
        return 0.0;
      }
    }
    return 1.0;
  }

  /** An increasing matching of the first expected calls with the first n actual ones. */
  ghost predicate Prefix<C(!new)>(eq: (C, C) -> bool, actual: seq<C>, n: nat, expected: seq<C>, at: seq<nat>) {
    && n <= |actual| && |at| <= |expected| && Increasing(at)
    && forall i :: 0 <= i < |at| ==> at[i] < n && eq(actual[at[i]], expected[i])
  }

  /** No such matching reaches further into the expected calls than the greedy scan. */
  ghost predicate Furthest<C(!new)>(eq: (C, C) -> bool, actual: seq<C>, n: nat, expected: seq<C>, reached: nat) {
    forall at :: Prefix(eq, actual, n, expected, at) ==> |at| <= reached
  }

  lemma FrontIsPrefix<C(!new)>(eq: (C, C) -> bool, actual: seq<C>, n: nat, expected: seq<C>, at: seq<nat>)
    requires Prefix(eq, actual, n, expected, at) && at != []
    ensures at[|at| - 1] < n && Prefix(eq, actual, at[|at| - 1], expected, at[..|at| - 1])
  {
    var front, last := at[..|at| - 1], at[|at| - 1];
    assert forall i :: 0 <= i < |front| ==> front[i] == at[i] < last;
  }

  lemma WiderPrefix<C(!new)>(eq: (C, C) -> bool, actual: seq<C>, m: nat, n: nat, expected: seq<C>, at: seq<nat>)
    requires Prefix(eq, actual, m, expected, at) && m <= n <= |actual|
    ensures Prefix(eq, actual, n, expected, at)
  {
  }

  lemma ReachesNothing<C(!new)>(eq: (C, C) -> bool, actual: seq<C>, expected: seq<C>)
    ensures Furthest(eq, actual, 0, expected, 0)
  {
    var none: nat := 0;
    forall at | Prefix(eq, actual, none, expected, at) ensures |at| <= none {
      if at != [] {
        FrontIsPrefix(eq, actual, none, expected, at);
        assert false;
      }
    }
  }

  lemma ReachesNoFurther<C(!new)>(eq: (C, C) -> bool, actual: seq<C>, expected: seq<C>, i: nat, reached: nat, at: seq<nat>)
    requires i < |actual| && reached < |expected| && Furthest(eq, actual, i, expected, reached)
    requires Prefix(eq, actual, i + 1, expected, at)
    ensures |at| <= if eq(actual[i], expected[reached]) then reached + 1 else reached
  {
    if at != [] {
      var n := |at| - 1;
      FrontIsPrefix(eq, actual, i + 1, expected, at);
      WiderPrefix(eq, actual, at[n], i, expected, at[..n]);
      assert n <= reached;
      if at[n] < i {
        assert forall k :: 0 <= k < |at| ==> at[k] <= at[n] < i;
        assert Prefix(eq, actual, i, expected, at);
      }
    }
  }

  lemma ScanStep<C(!new)>(eq: (C, C) -> bool, actual: seq<C>, expected: seq<C>, i: nat, reached: nat)
    requires i < |actual| && reached < |expected| && Furthest(eq, actual, i, expected, reached)
    ensures Furthest(eq, actual, i + 1, expected, if eq(actual[i], expected[reached]) then reached + 1 else reached)
  {
    forall at | Prefix(eq, actual, i + 1, expected, at)
      ensures |at| <= if eq(actual[i], expected[reached]) then reached + 1 else reached
    {
      ReachesNoFurther(eq, actual, expected, i, reached, at);
    }
  }

  lemma ExtendPrefix<C(!new)>(eq: (C, C) -> bool, actual: seq<C>, expected: seq<C>, i: nat, at: seq<nat>)
    requires i < |actual| && |at| < |expected| && Prefix(eq, actual, i, expected, at)
    ensures Prefix(eq, actual, i + 1, expected, at)
    ensures eq(actual[i], expected[|at|]) ==> Prefix(eq, actual, i + 1, expected, at + [i])
  {
  }

  lemma InOrderIsFullPrefix<C(!new)>(eq: (C, C) -> bool, actual: seq<C>, expected: seq<C>)
    ensures InOrder(eq, actual, expected) <==> exists at :: Prefix(eq, actual, |actual|, expected, at) && |at| == |expected|
  {
    if at :| Prefix(eq, actual, |actual|, expected, at) && |at| == |expected| {
      assert Matching(eq, actual, expected, at) && Increasing(at);
    }
    if at :| Matching(eq, actual, expected, at) && Increasing(at) {
      assert Prefix(eq, actual, |actual|, expected, at);
    }
  }

  /** The scan after i actual calls: what it matched, and that nothing matches further. */
  ghost predicate Scanned<C(!new)>(eq: (C, C) -> bool, actual: seq<C>, expected: seq<C>, i: nat, at: seq<nat>) {
    Prefix(eq, actual, i, expected, at) && Furthest(eq, actual, i, expected, |at|)
  }

  lemma ScanOn<C(!new)>(eq: (C, C) -> bool, actual: seq<C>, expected: seq<C>, i: nat, at: seq<nat>)
    requires i < |actual| && |at| < |expected| && Scanned(eq, actual, expected, i, at)
    ensures Scanned(eq, actual, expected, i + 1, if eq(actual[i], expected[|at|]) then at + [i] else at)
  {
    ScanStep(eq, actual, expected, i, |at|);
    ExtendPrefix(eq, actual, expected, i, at);
  }

  lemma ScanDecides<C(!new)>(eq: (C, C) -> bool, actual: seq<C>, expected: seq<C>, i: nat, at: seq<nat>)
    requires Scanned(eq, actual, expected, i, at) && (i == |actual| || |at| == |expected|)
    ensures InOrder(eq, actual, expected) <==> |at| == |expected|
  {
    InOrderIsFullPrefix(eq, actual, expected);
    if |at| == |expected| {
      WiderPrefix(eq, actual, i, |actual|, expected, at);
    }
  }

  /** The greedy scan finds a subsequence exactly when there is one. */
  method CompareInOrder<C(!new)>(eq: (C, C) -> bool, actual: seq<C>, expected: seq<C>) returns (score: real)
    ensures score == if InOrder(eq, actual, expected) then 1.0 else 0.0
  {
    var expIdx, i := 0, 0;
    ghost var at: seq<nat> := [];
    ReachesNothing(eq, actual, expected);
    while i < |actual| && expIdx < |expected|
      invariant Scanned(eq, actual, expected, i, at) && |at| == expIdx <= |expected|
    {
      ScanOn(eq, actual, expected, i, at);
      if eq(actual[i], expected[expIdx]) {
        at := at + [i];
        expIdx := expIdx + 1;
      }
      i := i + 1;
    }
    ScanDecides(eq, actual, expected, i, at);
    return if expIdx == |expected| then 1.0 else 0.0;
  }

  // ----- Any order -----

  /** The actual calls used up, and those still free. */
  ghost function Picked<C(!new)>(actual: seq<C>, used: seq<bool>, which: bool): multiset<C>
    requires |used| == |actual|
  {
    if actual == [] then multiset{}
    else
      var n := |actual| - 1;
      var before := Picked(actual[..n], used[..n], which);
      if used[n] == which then before + multiset{actual[n]} else before
  }

  lemma {:induction false} PickedSplit<C(!new)>(actual: seq<C>, used: seq<bool>)
    requires |used| == |actual|
    ensures Picked(actual, used, true) + Picked(actual, used, false) == multiset(actual)
  {
    if actual != [] {
      var n := |actual| - 1;
      PickedSplit(actual[..n], used[..n]);
      assert actual == actual[..n] + [actual[n]];
    }
  }

  lemma {:induction false} FreeIsUnused<C(!new)>(actual: seq<C>, used: seq<bool>, c: C)
    requires |used| == |actual| && c in Picked(actual, used, false)
    ensures exists i :: 0 <= i < |actual| && !used[i] && actual[i] == c
  {
    var n := |actual| - 1;
    if !used[n] && actual[n] == c {
      assert actual[n] == c;
    } else {
      FreeIsUnused(actual[..n], used[..n], c);
      var i :| 0 <= i < n && !used[..n][i] && actual[..n][i] == c;
      assert !used[i] && actual[i] == c;
    }
  }

  lemma {:induction false} PickedOne<C(!new)>(actual: seq<C>, used: seq<bool>, i: nat)
    requires |used| == |actual| && i < |actual| && !used[i]
    ensures Picked(actual, used[i := true], true) == Picked(actual, used, true) + multiset{actual[i]}
  {
    var n := |actual| - 1;
    if i < n {
      PickedOne(actual[..n], used[..n], i);
      assert used[i := true][..n] == used[..n][i := true];
    } else {
      assert used[i := true][..n] == used[..n];
    }
  }

  lemma {:induction false} NothingPicked<C(!new)>(actual: seq<C>, used: seq<bool>)
    requires |used| == |actual| && forall i :: 0 <= i < |used| ==> !used[i]
    ensures Picked(actual, used, true) == multiset{}
  {
    if actual != [] {
      NothingPicked(actual[..|actual| - 1], used[..|actual| - 1]);
    }
  }

  /** An expected call without a free equal one is missing from the actual calls. */
  lemma Missing<C(!new)>(eq: (C, C) -> bool, actual: seq<C>, used: seq<bool>, expected: seq<C>, j: nat)
    requires |used| == |actual| && j < |expected| && Picked(actual, used, true) == multiset(expected[..j])
    requires forall i :: 0 <= i < |actual| && !used[i] ==> actual[i] != expected[j]
    ensures !(multiset(expected) <= multiset(actual))
  {
    PickedSplit(actual, used);
    if expected[j] in Picked(actual, used, false) {
      FreeIsUnused(actual, used, expected[j]);
      assert false;
    }
    assert expected == expected[..j] + ([expected[j]] + expected[j + 1..]);
    assert Picked(actual, used, false)[expected[j]] == 0;
    assert multiset(actual)[expected[j]] == multiset(expected[..j])[expected[j]] < multiset(expected)[expected[j]];
  }

  /** The first free actual call equal to the expected one, or the number of actual calls. */
  predicate FirstFree<C(!new)>(eq: (C, C) -> bool, actual: seq<C>, used: seq<bool>, exp: C, i: nat)
    requires |used| == |actual|
  {
    && i <= |actual| && (i < |actual| ==> !used[i] && eq(actual[i], exp))
    && forall k :: 0 <= k < i && !used[k] ==> !eq(actual[k], exp)
  }

  /** Each expected call in turn takes the first free actual call equal to it. */
  ghost predicate FirstFit<C(!new)>(eq: (C, C) -> bool, actual: seq<C>, used: seq<bool>, expected: seq<C>)
    requires |used| == |actual|
    decreases expected
  {
    expected == [] ||
    exists i: nat :: i < |actual| && FirstFree(eq, actual, used, expected[0], i) && FirstFit(eq, actual, used[i := true], expected[1..])
  }

  function Nobody(n: nat): (used: seq<bool>)
    ensures |used| == n
  {
    seq(n, i => false)
  }

  method FindFree<C(!new)>(eq: (C, C) -> bool, actual: seq<C>, used: array<bool>, exp: C) returns (i: nat)
    requires used.Length == |actual|
    ensures FirstFree(eq, actual, used[..], exp, i)
  {
    i := 0;
    while i < |actual|
      invariant 0 <= i <= |actual|
      invariant forall k :: 0 <= k < i && !used[k] ==> !eq(actual[k], exp)
    {
      if !used[i] && eq(actual[i], exp) {
        return;
      }
      i := i + 1;
    }
  }

  /** First-fit picking: what it finds is a matching, and where the comparison is equality it
      finds one exactly when the expected items are included as a multiset. */
  method CompareAnyOrder<C(!new)>(eq: (C, C) -> bool, actual: seq<C>, expected: seq<C>) returns (score: real)
    ensures score == if FirstFit(eq, actual, Nobody(|actual|), expected) then 1.0 else 0.0
    ensures score == 1.0 ==> AnyOrder(eq, actual, expected)
    ensures Exact(eq, expected) ==> (score == 1.0 <==> multiset(expected) <= multiset(actual))
  {
    var used := new bool[|actual|](i => false);
    ghost var at: seq<nat> := [];
    NothingPicked(actual, used[..]);
    assert used[..] == Nobody(|actual|) && expected[0..] == expected;
    for j := 0 to |expected|
      invariant Matching(eq, actual, expected[..j], at)
      invariant forall k :: k in at ==> k < |actual| && used[k]
      invariant FirstFit(eq, actual, Nobody(|actual|), expected) <==> FirstFit(eq, actual, used[..], expected[j..])
      invariant Exact(eq, expected) ==> Picked(actual, used[..], true) == multiset(expected[..j])
    {
      assert expected[j..][1..] == expected[j + 1..];
      var i := FindFree(eq, actual, used, expected[j]);
      if i == |actual| {
        if Exact(eq, expected) {
          forall k | 0 <= k < |actual| && !used[..][k] ensures actual[k] != expected[j] {
          }
          Missing(eq, actual, used[..], expected, j);
        }
        return 0.0;
      }
      assert expected[..j + 1] == expected[..j] + [expected[j]];
      if Exact(eq, expected) {
        PickedOne(actual, used[..], i);
      }
      ghost var before := used[..];
      used[i] := true;
      assert used[..] == before[i := true];
      at := at + [i];
    }
    assert expected[..|expected|] == expected;
    PickedSplit(actual, used[..]);
    return 1.0;
  }

  lemma WithoutLast<C(!new)>(actual: seq<C>, at: seq<nat>, used: seq<bool>)
    requires at != [] && |used| == |actual| && forall i, j :: 0 <= i < j < |at| ==> at[i] != at[j]
    requires forall i :: 0 <= i < |at| ==> at[i] < |actual|
    requires forall i :: 0 <= i < |actual| ==> (used[i] <==> i in at)
    ensures
      var n := |at| - 1;
      var rest := used[at[n] := false];
      && rest[at[n] := true] == used
      && forall i :: 0 <= i < |actual| ==> (rest[i] <==> i in at[..n])
  {
    var n := |at| - 1;
    assert at == at[..n] + [at[n]];
    assert used[at[n]] by { assert at[n] in at; }
    assert at[n] !in at[..n];
  }

  lemma {:induction false} PickedAt<C(!new)>(eq: (C, C) -> bool, actual: seq<C>, expected: seq<C>, at: seq<nat>, used: seq<bool>)
    requires Matching(eq, actual, expected, at) && Exact(eq, expected) && |used| == |actual|
    requires forall i :: 0 <= i < |actual| ==> (used[i] <==> i in at)
    ensures Picked(actual, used, true) == multiset(expected)
  {
    if at == [] {
      NothingPicked(actual, used);
    } else {
      var n := |at| - 1;
      var rest := used[at[n] := false];
      WithoutLast(actual, at, used);
      MatchingFront(eq, actual, expected, at);
      PickedAt(eq, actual, expected[..n], at[..n], rest);
      PickedOne(actual, rest, at[n]);
      assert multiset(expected) == multiset(expected[..n]) + multiset{expected[n]} by {
        assert expected == expected[..n] + [expected[n]];
      }
    }
  }

  lemma MatchingFront<C(!new)>(eq: (C, C) -> bool, actual: seq<C>, expected: seq<C>, at: seq<nat>)
    requires Matching(eq, actual, expected, at) && at != [] && Exact(eq, expected)
    ensures Matching(eq, actual, expected[..|at| - 1], at[..|at| - 1]) && Exact(eq, expected[..|at| - 1])
    ensures at[|at| - 1] < |actual| && eq(actual[at[|at| - 1]], expected[|at| - 1])
  {
  }

  /** Nobody is left over: included as a multiset, each expected item finds a free equal one. */
  lemma {:induction false} InclusionMatches<C(!new)>(eq: (C, C) -> bool, actual: seq<C>, expected: seq<C>, j: nat) returns (at: seq<nat>)
    requires Exact(eq, expected) && multiset(expected) <= multiset(actual) && j <= |expected|
    ensures Matching(eq, actual, expected[..j], at)
  {
    at := [];
    if j > 0 {
      at := InclusionMatches(eq, actual, expected, j - 1);
      var front := expected[..j - 1];
      var used := seq(|actual|, i => i in at);
      assert Exact(eq, front);
      PickedAt(eq, actual, front, at, used);
      if forall i :: 0 <= i < |actual| && !used[i] ==> actual[i] != expected[j - 1] {
        Missing(eq, actual, used, expected, j - 1);
        assert false;
      }
      var i :| 0 <= i < |actual| && !used[i] && actual[i] == expected[j - 1];
      at := at + [i];
    }
  }

  /** Under equality a matching exists exactly when the expected calls are included as a multiset. */
  lemma AnyOrderIsInclusion<C(!new)>(eq: (C, C) -> bool, actual: seq<C>, expected: seq<C>)
    requires Exact(eq, expected)
    ensures AnyOrder(eq, actual, expected) <==> multiset(expected) <= multiset(actual)
  {
    if at :| Matching(eq, actual, expected, at) {
      var used := seq(|actual|, i => i in at);
      PickedAt(eq, actual, expected, at, used);
      PickedSplit(actual, used);
    }
    if multiset(expected) <= multiset(actual) {
      var at := InclusionMatches(eq, actual, expected, |expected|);
      assert expected[..|expected|] == expected;
    }
  }

  // ----- When first fit finds every matching -----

  /** What matches e and f at once never matches e in place of f alone: nothing matches both,
      or everything that matches e matches f. */
  ghost predicate Yields<C(!new)>(eq: (C, C) -> bool, e: C, f: C) {
    forall a, b :: eq(a, e) && eq(a, f) && eq(b, e) ==> eq(b, f)
  }

  /** An earlier expected item can always be exchanged with the later one it takes from. */
  ghost predicate Exchangeable<C(!new)>(eq: (C, C) -> bool, expected: seq<C>) {
    forall i, j :: 0 <= i < j < |expected| ==> Yields(eq, expected[i], expected[j])
  }

  ghost predicate Unused(used: seq<bool>, at: seq<nat>) {
    forall k :: 0 <= k < |at| ==> at[k] < |used| && !used[at[k]]
  }

  lemma LeastFree<C(!new)>(eq: (C, C) -> bool, actual: seq<C>, used: seq<bool>, exp: C, q: nat) returns (p: nat)
    requires |used| == |actual| && q < |actual| && !used[q] && eq(actual[q], exp)
    ensures p <= q && FirstFree(eq, actual, used, exp, p)
  {
    p := 0;
    while used[p] || !eq(actual[p], exp)
      invariant p <= q && forall k :: 0 <= k < p && !used[k] ==> !eq(actual[k], exp)
      decreases q - p
    {
      p := p + 1;
    }
  }

  /** The rest of a matching, once the first expected item has taken p instead of its own. */
  lemma Exchanged<C(!new)>(eq: (C, C) -> bool, actual: seq<C>, used: seq<bool>, expected: seq<C>, at: seq<nat>, p: nat)
    returns (rest: seq<nat>)
    requires |used| == |actual| && expected != [] && Matching(eq, actual, expected, at) && Unused(used, at)
    requires Exchangeable(eq, expected) && p < |actual| && eq(actual[p], expected[0])
    ensures Matching(eq, actual, expected[1..], rest) && Unused(used[p := true], rest)
  {
    if j :| 0 < j < |at| && at[j] == p {
      assert Yields(eq, expected[0], expected[j]);
      assert eq(actual[at[0]], expected[j]);
      rest := at[1..][j - 1 := at[0]];
    } else {
      rest := at[1..];
    }
  }

  lemma {:induction false} FirstFitFollows<C(!new)>(eq: (C, C) -> bool, actual: seq<C>, used: seq<bool>, expected: seq<C>, at: seq<nat>)
    requires |used| == |actual| && Matching(eq, actual, expected, at) && Unused(used, at) && Exchangeable(eq, expected)
    ensures FirstFit(eq, actual, used, expected)
    decreases expected
  {
    if expected != [] {
      var p := LeastFree(eq, actual, used, expected[0], at[0]);
      var rest := Exchanged(eq, actual, used, expected, at, p);
      FirstFitFollows(eq, actual, used[p := true], expected[1..], rest);
    }
  }

  /** Each item has the first place that was free and matched it. */
  ghost predicate Greedy<C(!new)>(eq: (C, C) -> bool, actual: seq<C>, used: seq<bool>, expected: seq<C>, at: seq<nat>)
    requires |used| == |actual|
  {
    && Matching(eq, actual, expected, at) && Unused(used, at)
    && forall k, p :: 0 <= k < |at| && 0 <= p < at[k] && !used[p] && eq(actual[p], expected[k]) ==> p in at[..k]
  }

  lemma {:induction false} FirstFitIsGreedy<C(!new)>(eq: (C, C) -> bool, actual: seq<C>, used: seq<bool>, expected: seq<C>) returns (at: seq<nat>)
    requires |used| == |actual| && FirstFit(eq, actual, used, expected)
    ensures Greedy(eq, actual, used, expected, at)
    decreases expected
  {
    at := [];
    if expected != [] {
      var p: nat :| p < |actual| && FirstFree(eq, actual, used, expected[0], p) && FirstFit(eq, actual, used[p := true], expected[1..]);
      var rest := FirstFitIsGreedy(eq, actual, used[p := true], expected[1..]);
      at := [p] + rest;
      forall k, q | 0 <= k < |at| && 0 <= q < at[k] && !used[q] && eq(actual[q], expected[k]) ensures q in at[..k] {
        if k > 0 {
          assert at[..k] == [p] + rest[..k - 1];
        }
      }
    }
  }

  /** With exchangeable expected items first fit finds a matching whenever there is one. */
  lemma FirstFitFinds<C(!new)>(eq: (C, C) -> bool, actual: seq<C>, expected: seq<C>)
    requires Exchangeable(eq, expected)
    ensures FirstFit(eq, actual, Nobody(|actual|), expected) <==> AnyOrder(eq, actual, expected)
  {
    if FirstFit(eq, actual, Nobody(|actual|), expected) {
      var at := FirstFitIsGreedy(eq, actual, Nobody(|actual|), expected);
    }
    if at :| Matching(eq, actual, expected, at) {
      FirstFitFollows(eq, actual, Nobody(|actual|), expected, at);
    }
  }
}
