/** For which expected items first fit is right about every list of actual ones. */
module FirstFitLimits {
  import opened GreedyMatching

  /** Every expected item is matched by something. */
  ghost predicate Matchable<C(!new)>(eq: (C, C) -> bool, expected: seq<C>) {
    forall k :: 0 <= k < |expected| ==> Matched(eq, expected[k])
  }

  ghost predicate Matched<C(!new)>(eq: (C, C) -> bool, e: C) { exists x :: eq(x, e) }

  ghost predicate AlwaysRight<C(!new)>(eq: (C, C) -> bool, expected: seq<C>) {
    forall actual :: FirstFit(eq, actual, Nobody(|actual|), expected) <==> AnyOrder(eq, actual, expected)
  }

  /** Everything that matches e matches f. */
  ghost predicate Within<C(!new)>(eq: (C, C) -> bool, e: C, f: C) { forall x :: eq(x, e) ==> eq(x, f) }

  // ----- Counting -----

  function Image(at: seq<nat>, d: set<nat>): (r: set<nat>)
    requires forall k :: k in d ==> k < |at|
    ensures forall k :: k in d ==> at[k] in r
  {
    set k | k in d :: at[k]
  }

  lemma {:induction false} ImageSize(at: seq<nat>, d: set<nat>)
    requires forall k :: k in d ==> k < |at|
    ensures |Image(at, d)| <= |d|
    ensures (forall i, j :: 0 <= i < j < |at| ==> at[i] != at[j]) ==> |Image(at, d)| == |d|
    decreases |d|
  {
    if d != {} {
      var k :| k in d;
      ImageSize(at, d - {k});
      assert Image(at, d) == Image(at, d - {k}) + {at[k]};
    }
  }

  lemma Fewer(s: set<nat>, t: set<nat>)
    requires s <= t
    ensures |s| <= |t|
  {
    assert t == s + (t - s);
  }

  // ----- A list that breaks first fit -----

  /** The expected items that can only be matched by what matches f, and that a matches. */
  ghost predicate Takes<C(!new)>(eq: (C, C) -> bool, e: C, f: C, a: C) { eq(a, e) && Within(eq, e, f) }

  /** The positions of the first n expected items that take a. */
  ghost function Takers<C(!new)>(eq: (C, C) -> bool, expected: seq<C>, n: nat, f: C, a: C): (r: set<nat>)
    requires n <= |expected|
    ensures forall k :: k in r <==> 0 <= k < n && Takes(eq, expected[k], f, a)
    ensures |r| <= n
  {
    if n == 0 then {}
    else
      var before := Takers(eq, expected, n - 1, f, a);
      if Takes(eq, expected[n - 1], f, a) then before + {n - 1} else before
  }

  lemma {:induction false} TakersGrow<C(!new)>(eq: (C, C) -> bool, expected: seq<C>, m: nat, n: nat, f: C, a: C)
    requires m <= n <= |expected|
    ensures |Takers(eq, expected, m, f, a)| <= |Takers(eq, expected, n, f, a)|
    ensures m < n && Takes(eq, expected[m], f, a) ==> |Takers(eq, expected, m, f, a)| < |Takers(eq, expected, n, f, a)|
  {
    if m < n {
      TakersGrow(eq, expected, m, n - 1, f, a);
      if m == n - 1 && Takes(eq, expected[m], f, a) {
        assert m !in Takers(eq, expected, m, f, a);
      }
    }
  }

  /** The taker with a given number of takers before it. */
  lemma {:induction false} TakerAt<C(!new)>(eq: (C, C) -> bool, expected: seq<C>, n: nat, f: C, a: C, p: nat) returns (k: nat)
    requires n <= |expected| && p < |Takers(eq, expected, n, f, a)|
    ensures k < n && Takes(eq, expected[k], f, a) && |Takers(eq, expected, k, f, a)| == p
  {
    if p == |Takers(eq, expected, n - 1, f, a)| {
      k := n - 1;
    } else {
      k := TakerAt(eq, expected, n - 1, f, a, p);
    }
  }

  /** Something for each expected item, from outside what matches f where that is possible. */
  lemma {:induction false} Supplies<C(!new)>(eq: (C, C) -> bool, expected: seq<C>, n: nat, f: C) returns (x: seq<C>)
    requires Matchable(eq, expected) && n <= |expected|
    ensures |x| == n
    ensures forall k :: 0 <= k < n ==> eq(x[k], expected[k])
    ensures forall k :: 0 <= k < n && eq(x[k], f) ==> Within(eq, expected[k], f)
  {
    x := [];
    if n > 0 {
      x := Supplies(eq, expected, n - 1, f);
      assert Matched(eq, expected[n - 1]);
      var y :| eq(y, expected[n - 1]);
      if !Within(eq, expected[n - 1], f) {
        y :| eq(y, expected[n - 1]) && !eq(y, f);
      }
      x := x + [y];
    }
  }

  function Copies<C>(c: nat, a: C): (r: seq<C>)
    ensures |r| == c && forall p :: 0 <= p < c ==> r[p] == a
  {
    if c == 0 then [] else Copies(c - 1, a) + [a]
  }

  /** The supplies, with a filler in the places of the takers. */
  ghost function Filled<C(!new)>(eq: (C, C) -> bool, expected: seq<C>, n: nat, f: C, a: C, x: seq<C>, filler: C): (r: seq<C>)
    requires |x| == |expected| && n <= |x|
    ensures |r| == n && forall k :: 0 <= k < n ==> r[k] == if Takes(eq, expected[k], f, a) then filler else x[k]
  {
    if n == 0 then []
    else Filled(eq, expected, n - 1, f, a, x, filler) + [if Takes(eq, expected[n - 1], f, a) then filler else x[n - 1]]
  }

  /** A copy of a for each taker, then the supplies. */
  ghost function Breaking<C(!new)>(eq: (C, C) -> bool, expected: seq<C>, f: C, a: C, x: seq<C>, filler: C): (actual: seq<C>)
    requires |x| == |expected|
    ensures var c := |Takers(eq, expected, |expected|, f, a)|;
      && |actual| == c + |expected| && (forall p :: 0 <= p < c ==> actual[p] == a)
      && forall p :: c <= p < |actual| ==> actual[p] == if Takes(eq, expected[p - c], f, a) then filler else x[p - c]
  {
    Copies(|Takers(eq, expected, |expected|, f, a)|, a) + Filled(eq, expected, |expected|, f, a, x, filler)
  }

  /** Where the expected items find their supplies. */
  ghost function Places<C(!new)>(eq: (C, C) -> bool, expected: seq<C>, n: nat, f: C, a: C): (at: seq<nat>)
    requires n <= |expected|
    ensures |at| == n && forall k :: 0 <= k < n ==> at[k] == PlaceOf(eq, expected, k, f, a)
  {
    if n == 0 then [] else Places(eq, expected, n - 1, f, a) + [PlaceOf(eq, expected, n - 1, f, a)]
  }

  ghost function PlaceOf<C(!new)>(eq: (C, C) -> bool, expected: seq<C>, k: nat, f: C, a: C): nat
    requires k < |expected|
  {
    if Takes(eq, expected[k], f, a) then |Takers(eq, expected, k, f, a)| else |Takers(eq, expected, |expected|, f, a)| + k
  }

  lemma PlaceFits<C(!new)>(eq: (C, C) -> bool, expected: seq<C>, f: C, a: C, x: seq<C>, filler: C, k: nat)
    requires |x| == |expected| && k < |x| && eq(x[k], expected[k])
    ensures
      var p, actual := PlaceOf(eq, expected, k, f, a), Breaking(eq, expected, f, a, x, filler);
      p < |actual| && eq(actual[p], expected[k])
  {
    TakersGrow(eq, expected, k, |expected|, f, a);
  }

  lemma PlacesDiffer<C(!new)>(eq: (C, C) -> bool, expected: seq<C>, f: C, a: C, k: nat, l: nat)
    requires k < l < |expected|
    ensures PlaceOf(eq, expected, k, f, a) != PlaceOf(eq, expected, l, f, a)
  {
    TakersGrow(eq, expected, k, l, f, a);
    TakersGrow(eq, expected, k, |expected|, f, a);
    TakersGrow(eq, expected, l, |expected|, f, a);
  }

  lemma PlacesMatch<C(!new)>(eq: (C, C) -> bool, expected: seq<C>, f: C, a: C, x: seq<C>, actual: seq<C>, filler: C) returns (at: seq<nat>)
    requires |x| == |expected| && forall k :: 0 <= k < |x| ==> eq(x[k], expected[k])
    requires actual == Breaking(eq, expected, f, a, x, filler)
    ensures Matching(eq, actual, expected, at)
  {
    at := Places(eq, expected, |expected|, f, a);
    forall k | 0 <= k < |at| ensures at[k] < |actual| && eq(actual[at[k]], expected[k]) {
      PlaceFits(eq, expected, f, a, x, filler, k);
    }
    PlacesApart(eq, expected, f, a, at);
  }

  lemma PlacesApart<C(!new)>(eq: (C, C) -> bool, expected: seq<C>, f: C, a: C, at: seq<nat>)
    requires |at| == |expected| && forall k :: 0 <= k < |at| ==> at[k] == PlaceOf(eq, expected, k, f, a)
    ensures forall k, l :: 0 <= k < l < |at| ==> at[k] != at[l]
  {
    forall k, l | 0 <= k < l < |at| ensures at[k] != at[l] {
      PlacesDiffer(eq, expected, f, a, k, l);
    }
  }

  ghost function Inside<C(!new)>(eq: (C, C) -> bool, actual: seq<C>, f: C): set<nat> {
    set p: nat | p < |actual| && eq(actual[p], f)
  }

  ghost function Confined<C(!new)>(eq: (C, C) -> bool, expected: seq<C>, f: C): set<nat> {
    set k: nat | k < |expected| && Within(eq, expected[k], f)
  }

  lemma InsideIsPlaced<C(!new)>(eq: (C, C) -> bool, expected: seq<C>, f: C, a: C, x: seq<C>, filler: C, p: nat) returns (k: nat)
    requires |x| == |expected| && !eq(filler, f)
    requires forall k :: 0 <= k < |x| && eq(x[k], f) ==> Within(eq, expected[k], f)
    requires p in Inside(eq, Breaking(eq, expected, f, a, x, filler), f)
    ensures k in Confined(eq, expected, f) && p == PlaceOf(eq, expected, k, f, a)
  {
    var c := |Takers(eq, expected, |expected|, f, a)|;
    if p < c {
      k := TakerAt(eq, expected, |expected|, f, a, p);
    } else {
      k := p - c;
    }
  }

  /** No more of the list matches f than there are items confined to f. */
  lemma FewInside<C(!new)>(eq: (C, C) -> bool, expected: seq<C>, f: C, a: C, x: seq<C>, filler: C)
    requires |x| == |expected| && !eq(filler, f)
    requires forall k :: 0 <= k < |x| && eq(x[k], f) ==> Within(eq, expected[k], f)
    ensures |Inside(eq, Breaking(eq, expected, f, a, x, filler), f)| <= |Confined(eq, expected, f)|
  {
    var at, d := Places(eq, expected, |expected|, f, a), Confined(eq, expected, f);
    var inside := Inside(eq, Breaking(eq, expected, f, a, x, filler), f);
    forall p | p in inside ensures p in Image(at, d) {
      var k := InsideIsPlaced(eq, expected, f, a, x, filler, p);
      assert at[k] == p;
    }
    Fewer(inside, Image(at, d));
    ImageSize(at, d);
  }

  /** First fit gives some item that is not confined to f something that matches f: the items
      before the i-th that take copies of a leave one over. */
  lemma Misplaced<C(!new)>(eq: (C, C) -> bool, actual: seq<C>, expected: seq<C>, i: nat, j: nat, a: C, c: nat, at: seq<nat>) returns (k: nat)
    requires i < j < |expected| && eq(a, expected[i]) && eq(a, expected[j]) && !Within(eq, expected[i], expected[j])
    requires c == |Takers(eq, expected, |expected|, expected[j], a)| <= |actual| && forall p :: 0 <= p < c ==> actual[p] == a
    requires Greedy(eq, actual, Nobody(|actual|), expected, at)
    ensures k < |expected| && !Within(eq, expected[k], expected[j]) && at[k] < c
  {
    if l: nat :| l < i && at[l] < c && !Within(eq, expected[l], expected[j]) {
      return l;
    }
    var p := LeftOver(eq, actual, expected, i, j, a, c, at);
    assert actual[p] == a;
    k := i;
  }

  lemma LeftOver<C(!new)>(eq: (C, C) -> bool, actual: seq<C>, expected: seq<C>, i: nat, j: nat, a: C, c: nat, at: seq<nat>) returns (p: nat)
    requires i < j < |expected| && eq(a, expected[j]) && Matching(eq, actual, expected, at)
    requires c == |Takers(eq, expected, |expected|, expected[j], a)| <= |actual| && forall p :: 0 <= p < c ==> actual[p] == a
    requires forall l :: 0 <= l < i && at[l] < c ==> Within(eq, expected[l], expected[j])
    ensures p < c && p !in at[..i]
  {
    var early := Takers(eq, expected, i, expected[j], a);
    TakersGrow(eq, expected, i, j, expected[j], a);
    TakersGrow(eq, expected, j, |expected|, expected[j], a);
    ImageSize(at, early);
    p := Spare(c, Image(at, early));
    forall l | 0 <= l < i && at[l] < c ensures at[l] in Image(at, early) {
      assert eq(actual[at[l]], expected[l]);
      assert l in early;
    }
    assert forall l :: 0 <= l < i ==> at[..i][l] != p;
  }

  /** A number that is left over. */
  lemma {:induction false} Spare(c: nat, taken: set<nat>) returns (p: nat)
    requires |taken| < c
    ensures p < c && p !in taken
  {
    if c - 1 !in taken {
      p := c - 1;
    } else {
      p := Spare(c - 1, taken - {c - 1});
    }
  }

  /** Items confined to f use up all that matches f, so a matching gives the others none of it. */
  lemma Starved<C(!new)>(eq: (C, C) -> bool, actual: seq<C>, expected: seq<C>, f: C, at: seq<nat>, k: nat)
    requires Matching(eq, actual, expected, at) && k < |expected| && !Within(eq, expected[k], f)
    requires at[k] < |actual| && eq(actual[at[k]], f)
    ensures |Inside(eq, actual, f)| > |Confined(eq, expected, f)|
  {
    var d := Confined(eq, expected, f) + {k};
    forall p | p in Image(at, d) ensures p in Inside(eq, actual, f) {
      var l :| l in d && p == at[l];
      assert eq(actual[at[l]], expected[l]);
    }
    Fewer(Image(at, d), Inside(eq, actual, f));
    ImageSize(at, d);
  }

  lemma MissedByFirstFit<C(!new)>(eq: (C, C) -> bool, actual: seq<C>, expected: seq<C>, i: nat, j: nat, a: C, c: nat)
    requires i < j < |expected| && eq(a, expected[i]) && eq(a, expected[j]) && !Within(eq, expected[i], expected[j])
    requires c == |Takers(eq, expected, |expected|, expected[j], a)| <= |actual| && forall p :: 0 <= p < c ==> actual[p] == a
    requires |Inside(eq, actual, expected[j])| <= |Confined(eq, expected, expected[j])|
    ensures !FirstFit(eq, actual, Nobody(|actual|), expected)
  {
    if FirstFit(eq, actual, Nobody(|actual|), expected) {
      var at := FirstFitIsGreedy(eq, actual, Nobody(|actual|), expected);
      var k := Misplaced(eq, actual, expected, i, j, a, c, at);
      assert actual[at[k]] == a;
      Starved(eq, actual, expected, expected[j], at, k);
    }
  }

  /** Where two expected items are not exchangeable, some list has a matching that first fit misses. */
  lemma Breaks<C(!new)>(eq: (C, C) -> bool, expected: seq<C>, i: nat, j: nat)
    requires Matchable(eq, expected) && i < j < |expected| && !Yields(eq, expected[i], expected[j])
    ensures !AlwaysRight(eq, expected)
  {
    var f := expected[j];
    var a, b :| eq(a, expected[i]) && eq(a, f) && eq(b, expected[i]) && !eq(b, f);
    var x := Supplies(eq, expected, |expected|, f);
    var actual := Breaking(eq, expected, f, a, x, b);
    var at := PlacesMatch(eq, expected, f, a, x, actual, b);
    FewInside(eq, expected, f, a, x, b);
    MissedByFirstFit(eq, actual, expected, i, j, a, |Takers(eq, expected, |expected|, f, a)|);
    Refuted(eq, actual, expected, at);
  }

  lemma Refuted<C(!new)>(eq: (C, C) -> bool, actual: seq<C>, expected: seq<C>, at: seq<nat>)
    requires Matching(eq, actual, expected, at) && !FirstFit(eq, actual, Nobody(|actual|), expected)
    ensures !AlwaysRight(eq, expected)
  {
    assert AnyOrder(eq, actual, expected);
  }

  /** First fit is right about every list of actual items exactly when the expected ones are
      exchangeable, or nothing at all can match one of them. */
  lemma FirstFitExactly<C(!new)>(eq: (C, C) -> bool, expected: seq<C>)
    ensures AlwaysRight(eq, expected) <==> Exchangeable(eq, expected) || !Matchable(eq, expected)
  {
    if Exchangeable(eq, expected) {
      forall actual ensures FirstFit(eq, actual, Nobody(|actual|), expected) <==> AnyOrder(eq, actual, expected) {
        FirstFitFinds(eq, actual, expected);
      }
    } else if Matchable(eq, expected) {
      var i, j :| 0 <= i < j < |expected| && !Yields(eq, expected[i], expected[j]);
      Breaks(eq, expected, i, j);
    } else {
      forall actual ensures FirstFit(eq, actual, Nobody(|actual|), expected) <==> AnyOrder(eq, actual, expected) {
        NothingMatches(eq, actual, expected);
      }
    }
  }

  lemma NothingMatches<C(!new)>(eq: (C, C) -> bool, actual: seq<C>, expected: seq<C>)
    requires !Matchable(eq, expected)
    ensures !FirstFit(eq, actual, Nobody(|actual|), expected) && !AnyOrder(eq, actual, expected)
  {
    if FirstFit(eq, actual, Nobody(|actual|), expected) {
      var at := FirstFitIsGreedy(eq, actual, Nobody(|actual|), expected);
      AllMatched(eq, actual, expected, at);
    }
    if at :| Matching(eq, actual, expected, at) {
      AllMatched(eq, actual, expected, at);
    }
  }

  lemma AllMatched<C(!new)>(eq: (C, C) -> bool, actual: seq<C>, expected: seq<C>, at: seq<nat>)
    requires Matching(eq, actual, expected, at)
    ensures Matchable(eq, expected)
  {
    forall k | 0 <= k < |expected| ensures Matched(eq, expected[k]) {
      assert eq(actual[at[k]], expected[k]);
    }
  }
}
