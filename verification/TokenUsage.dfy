/** Merging token usage entries by provider and model (agui/token_usage.go). */
module TokenUsage {
  import opened Events

  // ----- Specification -----

  /** The composite map key, and how it is split back. */
  function KeyOf(e: Usage): string { e.provider + ['\0'] + e.model }

  function SplitKey(key: string): (r: (string, string)) {
    if key == [] then ([], [])
    else if key[0] == '\0' then ([], key[1..])
    else var (p, m) := SplitKey(key[1..]); ([key[0]] + p, m)
  }

  /** The entry as the aggregator labels it. */
  function Relabelled(e: Usage): Usage {
    var (p, m) := SplitKey(KeyOf(e));
    e.(provider := p, model := m)
  }

  /** The labelling is right exactly for providers without a NUL. */
  lemma {:induction false} RelabelledIsIdentity(e: Usage)
    ensures Relabelled(e) == e <==> '\0' !in e.provider
  {
    SplitConcat(e.provider, e.model);
  }

  lemma {:induction false} SplitConcat(p: string, m: string)
    ensures '\0' !in p ==> SplitKey(p + ['\0'] + m) == (p, m)
    ensures '\0' in p ==> |SplitKey(p + ['\0'] + m).0| < |p|
  {
    if p != [] {
      assert (p + ['\0'] + m)[1..] == p[1..] + ['\0'] + m;
      SplitConcat(p[1..], m);
      assert p == [p[0]] + p[1..];
    }
  }

  function Plus(a: Option<int>, b: Option<int>): Option<int> {
    match (a, b)
    case (Some(x), Some(y)) => Some(x + y)
    case (Some(_), None) => a
    case (None, _) => b
  }

  function Merge(a: Usage, b: Usage): Usage {
    Usage(a.provider, a.model, Plus(a.input, b.input), Plus(a.output, b.output), Plus(a.total, b.total),
          Plus(a.reasoning, b.reasoning), Plus(a.cached, b.cached))
  }

  function Zero(key: string): Usage {
    var (p, m) := SplitKey(key); Usage(p, m, None, None, None, None, None)
  }

  /** All entries of one key, merged. */
  function Total(entries: seq<Usage>, key: string): Usage {
    if entries == [] then Zero(key)
    else
      var before := Total(entries[..|entries| - 1], key);
      if KeyOf(entries[|entries| - 1]) == key then Merge(before, entries[|entries| - 1]) else before
  }

  /** The keys in order of first appearance. */
  function Keys(entries: seq<Usage>): seq<string> {
    if entries == [] then []
    else
      var before := Keys(entries[..|entries| - 1]);
      var key := KeyOf(entries[|entries| - 1]);
      if key in before then before else before + [key]
  }

  function Totals(entries: seq<Usage>, keys: seq<string>): (r: seq<Usage>)
    ensures |r| == |keys| && forall i :: 0 <= i < |keys| ==> r[i] == Total(entries, keys[i])
  {
    if keys == [] then [] else Totals(entries, keys[..|keys| - 1]) + [Total(entries, keys[|keys| - 1])]
  }

  function Aggregated(entries: seq<Usage>): seq<Usage> { Totals(entries, Keys(entries)) }

  // ----- The imperative aggregator -----

  method AggregateTokenUsage(entries: seq<Usage>) returns (out: seq<Usage>)
    ensures out == Aggregated(entries)
  {
    var order: seq<string> := [];
    var aggs: map<string, Usage> := map[];
    for n := 0 to |entries|
      invariant order == Keys(entries[..n])
      invariant aggs.Keys == set k | k in order
      invariant forall k :: k in aggs ==> aggs[k] == Total(entries[..n], k)
      invariant forall k :: k !in order ==> Total(entries[..n], k) == Zero(k)
    {
      var e := entries[n];
      assert entries[..n + 1][..n] == entries[..n] && entries[..n + 1][n] == e;
      var key := KeyOf(e);
      if key !in aggs {
        var (p, m) := SplitKey(key);
        aggs := aggs[key := Usage(p, m, None, None, None, None, None)];
        order := order + [key];
      }
      aggs := aggs[key := Merge(aggs[key], e)];
    }
    assert entries[..|entries|] == entries;
    out := Listed(entries, order, aggs);
  }

  method Listed(ghost entries: seq<Usage>, order: seq<string>, aggs: map<string, Usage>) returns (out: seq<Usage>)
    requires forall n :: 0 <= n < |order| ==> order[n] in aggs && aggs[order[n]] == Total(entries, order[n])
    ensures out == Totals(entries, order)
  {
    out := [];
    for n := 0 to |order|
      invariant out == Totals(entries, order[..n])
    {
      assert order[..n + 1][..n] == order[..n];
      out := out + [aggs[order[n]]];
    }
    assert order[..|order|] == order;
  }

  // ----- What aggregation keeps -----

  lemma {:induction false} KeysDistinct(entries: seq<Usage>)
    ensures forall i, j :: 0 <= i < j < |Keys(entries)| ==> Keys(entries)[i] != Keys(entries)[j]
    ensures forall k :: k in Keys(entries) <==> exists i :: 0 <= i < |entries| && KeyOf(entries[i]) == k
  {
    if entries != [] {
      var before := entries[..|entries| - 1];
      KeysDistinct(before);
      assert forall i :: 0 <= i < |before| ==> entries[i] == before[i];
      assert KeyOf(entries[|entries| - 1]) in Keys(entries);
    }
  }

  function Without(keys: seq<string>, seen: seq<string>): seq<string> {
    if keys == [] then []
    else
      var before := Without(keys[..|keys| - 1], seen);
      if keys[|keys| - 1] in seen then before else before + [keys[|keys| - 1]]
  }

  lemma {:induction false} KeysConcat(xs: seq<Usage>, ys: seq<Usage>)
    ensures Keys(xs + ys) == Keys(xs) + Without(Keys(ys), Keys(xs))
    ensures forall k :: k in Without(Keys(ys), Keys(xs)) <==> k in Keys(ys) && k !in Keys(xs)
  {
    if ys == [] {
      assert xs + ys == xs;
    } else {
      var y := ys[|ys| - 1];
      assert (xs + ys)[..|xs + ys| - 1] == xs + ys[..|ys| - 1];
      KeysConcat(xs, ys[..|ys| - 1]);
      var before := Keys(ys[..|ys| - 1]);
      assert (before + [KeyOf(y)])[..|before|] == before;
    }
  }

  lemma MergeAssociative(a: Usage, b: Usage, c: Usage)
    ensures Merge(Merge(a, b), c) == Merge(a, Merge(b, c))
  {
  }

  lemma {:induction false} TotalConcat(xs: seq<Usage>, ys: seq<Usage>, key: string)
    ensures Total(xs + ys, key) == Merge(Total(xs, key), Total(ys, key))
  {
    if ys == [] {
      assert xs + ys == xs;
    } else {
      assert (xs + ys)[..|xs + ys| - 1] == xs + ys[..|ys| - 1];
      TotalConcat(xs, ys[..|ys| - 1], key);
      MergeAssociative(Total(xs, key), Total(ys[..|ys| - 1], key), ys[|ys| - 1]);
    }
  }

  datatype Counter = Input | Output | Whole | Reasoning | Cached

  function Reading(u: Usage, c: Counter): Option<int> {
    match c
    case Input => u.input
    case Output => u.output
    case Whole => u.total
    case Reasoning => u.reasoning
    case Cached => u.cached
  }

  /** The sum of a counter over the entries of a key that have it. */
  function SumOf(entries: seq<Usage>, key: string, c: Counter): int {
    if entries == [] then 0
    else
      SumOf(entries[..|entries| - 1], key, c) +
      var last := entries[|entries| - 1];
      if KeyOf(last) == key && Reading(last, c).Some? then Reading(last, c).value else 0
  }

  /** A counter is reported exactly when some entry of that key had it, and adds them up. */
  lemma {:induction false} CounterReported(entries: seq<Usage>, key: string, c: Counter)
    ensures Reading(Total(entries, key), c).Some? <==>
      exists i :: 0 <= i < |entries| && KeyOf(entries[i]) == key && Reading(entries[i], c).Some?
    ensures Reading(Total(entries, key), c).Some? ==> Reading(Total(entries, key), c).value == SumOf(entries, key, c)
    ensures Reading(Total(entries, key), c).None? ==> SumOf(entries, key, c) == 0
  {
    if entries != [] {
      var before, last := entries[..|entries| - 1], entries[|entries| - 1];
      CounterReported(before, key, c);
      assert forall i :: 0 <= i < |before| ==> entries[i] == before[i];
      MergedReading(Total(before, key), last, c);
      assert last == entries[|entries| - 1];
    }
  }

  lemma MergedReading(a: Usage, b: Usage, c: Counter)
    ensures Reading(Merge(a, b), c) == Plus(Reading(a, c), Reading(b, c))
  {
  }

  lemma {:induction false} TotalLabel(entries: seq<Usage>, key: string)
    ensures Total(entries, key).provider == SplitKey(key).0 && Total(entries, key).model == SplitKey(key).1
  {
    if entries != [] {
      TotalLabel(entries[..|entries| - 1], key);
    }
  }

  /** Keys are recovered by splitting. */
  lemma {:induction false} JoinSplit(key: string)
    requires '\0' in key
    ensures SplitKey(key).0 + ['\0'] + SplitKey(key).1 == key
  {
    if key[0] != '\0' {
      assert key == [key[0]] + key[1..];
      JoinSplit(key[1..]);
      assert [key[0]] + SplitKey(key[1..]).0 + ['\0'] + SplitKey(key[1..]).1
        == [key[0]] + (SplitKey(key[1..]).0 + ['\0'] + SplitKey(key[1..]).1);
    }
  }

  lemma TotalKey(entries: seq<Usage>, key: string)
    requires '\0' in key
    ensures KeyOf(Total(entries, key)) == key
  {
    TotalLabel(entries, key);
    JoinSplit(key);
  }

  lemma {:induction false} TotalsOfTotals(entries: seq<Usage>, keys: seq<string>, key: string)
    requires forall k :: k in keys ==> '\0' in k
    requires forall i, j :: 0 <= i < j < |keys| ==> keys[i] != keys[j]
    ensures Keys(Totals(entries, keys)) == keys
    ensures Total(Totals(entries, keys), key) == if key in keys then Merge(Zero(key), Total(entries, key)) else Zero(key)
  {
    if keys != [] {
      var before, last := keys[..|keys| - 1], keys[|keys| - 1];
      assert keys == before + [last];
      TotalsOfTotals(entries, before, key);
      TotalKey(entries, last);
      assert Totals(entries, keys)[..|keys| - 1] == Totals(entries, before);
    }
  }

  lemma {:induction false} AbsentTotal(entries: seq<Usage>, key: string)
    requires key !in Keys(entries)
    ensures Total(entries, key) == Zero(key)
  {
    if entries != [] {
      AbsentTotal(entries[..|entries| - 1], key);
    }
  }

  lemma ZeroIsNeutral(u: Usage, key: string)
    requires u.provider == SplitKey(key).0 && u.model == SplitKey(key).1
    ensures Merge(Zero(key), u) == u && Merge(u, Zero(key)) == u
  {
  }

  /** Nothing is lost: the aggregate has the same total for every key, and the same keys. */
  lemma AggregationConserves(entries: seq<Usage>, key: string)
    ensures Keys(Aggregated(entries)) == Keys(entries)
    ensures Total(Aggregated(entries), key) == Total(entries, key)
  {
    KeysDistinct(entries);
    forall k | k in Keys(entries) ensures '\0' in k {
      var i :| 0 <= i < |entries| && KeyOf(entries[i]) == k;
      assert k[|entries[i].provider|] == '\0';
    }
    TotalsOfTotals(entries, Keys(entries), key);
    TotalLabel(entries, key);
    ZeroIsNeutral(Total(entries, key), key);
    if key !in Keys(entries) {
      AbsentTotal(entries, key);
    }
  }

  lemma SameTotals(xs: seq<Usage>, ys: seq<Usage>)
    requires Keys(xs) == Keys(ys)
    requires forall k :: Total(xs, k) == Total(ys, k)
    ensures Aggregated(xs) == Aggregated(ys)
  {
  }

  /** Aggregating in two batches and then together is aggregating at once. */
  lemma AggregationIsModular(xs: seq<Usage>, ys: seq<Usage>)
    ensures Aggregated(Aggregated(xs) + Aggregated(ys)) == Aggregated(xs + ys)
  {
    AggregationConserves(xs, "");
    AggregationConserves(ys, "");
    KeysConcat(xs, ys);
    KeysConcat(Aggregated(xs), Aggregated(ys));
    forall k ensures Total(Aggregated(xs) + Aggregated(ys), k) == Total(xs + ys, k) {
      AggregationConserves(xs, k);
      AggregationConserves(ys, k);
      TotalConcat(xs, ys, k);
      TotalConcat(Aggregated(xs), Aggregated(ys), k);
    }
    SameTotals(Aggregated(xs) + Aggregated(ys), xs + ys);
  }
}
