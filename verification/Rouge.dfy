/** The ROUGE-1 score over exact reals (eval/rouge_evaluator.go). */
module Rouge {
  /** The characters of words; texts are lower-cased before. */
  type Letters = char -> bool

  // ----- Tokens -----

  /** The finished tokens and the one under way. */
  function Scan(word: Letters, text: string): (r: (seq<string>, string)) {
    if text == "" then ([], "")
    else
      var (tokens, current) := Scan(word, text[..|text| - 1]);
      var c := text[|text| - 1];
      if word(c) then (tokens, current + [c])
      else (if current != "" then tokens + [current] else tokens, "")
  }

  function Closed(scan: (seq<string>, string)): seq<string> { if scan.1 != "" then scan.0 + [scan.1] else scan.0 }

  function Tokens(word: Letters, text: string): seq<string> { Closed(Scan(word, text)) }

  method Tokenize(word: Letters, text: string) returns (tokens: seq<string>)
    ensures tokens == Tokens(word, text)
  {
    tokens := [];
    var current := "";
    for n := 0 to |text|
      invariant (tokens, current) == Scan(word, text[..n])
    {
      assert text[..n + 1][..n] == text[..n];
      if word(text[n]) {
        current := current + [text[n]];
      } else {
        if |current| > 0 {
          tokens := tokens + [current];
        }
        current := "";
      }
    }
    assert text[..|text|] == text;
    if |current| > 0 {
      tokens := tokens + [current];
    }
  }

  predicate AllWord(word: Letters, s: string) { forall i :: 0 <= i < |s| ==> word(s[i]) }

  /** Any other character ends a token, and the text after it is read afresh. */
  lemma {:induction false} TokensSplit(word: Letters, a: string, c: char, b: string)
    requires !word(c)
    ensures Scan(word, a + [c] + b) == (Tokens(word, a) + Scan(word, b).0, Scan(word, b).1)
    ensures Tokens(word, a + [c] + b) == Tokens(word, a) + Tokens(word, b)
  {
    var text := a + [c] + b;
    if b == "" {
      assert text == a + [c] && text[..|text| - 1] == a;
      assert Tokens(word, a) + [] == Tokens(word, a);
    } else {
      var before := b[..|b| - 1];
      TokensSplit(word, a, c, before);
      assert text[..|text| - 1] == a + [c] + before;
      assert text[|text| - 1] == b[|b| - 1];
    }
  }

  /** A run of word characters is one token. */
  lemma {:induction false} WordIsToken(word: Letters, s: string)
    requires AllWord(word, s)
    ensures Scan(word, s) == ([], s)
    ensures Tokens(word, s) == if s == "" then [] else [s]
  {
    if s != "" {
      WordIsToken(word, s[..|s| - 1]);
      assert s[..|s| - 1] + [s[|s| - 1]] == s;
    }
  }

  lemma {:induction false} TokensAreWords(word: Letters, text: string, n: nat)
    requires n < |Tokens(word, text)|
    ensures Tokens(word, text)[n] != "" && AllWord(word, Tokens(word, text)[n])
  {
    ScanIsWords(word, text);
  }

  lemma {:induction false} ScanIsWords(word: Letters, text: string)
    ensures AllWord(word, Scan(word, text).1)
    ensures forall n :: 0 <= n < |Scan(word, text).0| ==> Scan(word, text).0[n] != "" && AllWord(word, Scan(word, text).0[n])
  {
    if text != "" {
      ScanIsWords(word, text[..|text| - 1]);
    }
  }

  // ----- Counting -----

  method CountUnigrams(tokens: seq<string>) returns (counts: map<string, nat>)
    ensures forall g :: g in counts <==> g in multiset(tokens)
    ensures forall g :: g in counts ==> counts[g] == multiset(tokens)[g]
  {
    counts := map[];
    for i := 0 to |tokens|
      invariant forall g :: g in counts <==> g in multiset(tokens[..i])
      invariant forall g :: g in counts ==> counts[g] == multiset(tokens[..i])[g]
    {
      assert tokens[..i + 1] == tokens[..i] + [tokens[i]];
      counts := counts[tokens[i] := (if tokens[i] in counts then counts[tokens[i]] else 0) + 1];
    }
    assert tokens[..|tokens|] == tokens;
  }

  /** The tokens two texts share, counted with their repetitions, in whatever order they are visited. */
  method Overlap(candidate: seq<string>, reference: seq<string>) returns (overlap: nat)
    ensures overlap == |multiset(candidate) * multiset(reference)|
  {
    var candidateCounts := CountUnigrams(candidate);
    var referenceCounts := CountUnigrams(reference);
    overlap := 0;
    var left := referenceCounts.Keys;
    ghost var shared := multiset(candidate) * multiset(reference);
    ghost var rest := shared;
    while left != {}
      invariant left <= referenceCounts.Keys
      invariant overlap + |rest| == |shared|
      invariant forall g :: rest[g] == if g in left then shared[g] else 0
      decreases left
    {
      var gram :| gram in left;
      if gram in candidateCounts {
        var c, r := candidateCounts[gram], referenceCounts[gram];
        overlap := overlap + if c < r then c else r;
      }
      rest := rest[gram := 0];
      left := left - {gram};
    }
    assert rest == multiset{};
  }

  // ----- The score -----

  /** Twice the shared tokens over all tokens. */
  function Ideal(candidate: seq<string>, reference: seq<string>): real {
    if candidate == [] && reference == [] then 1.0
    else 2.0 * |multiset(candidate) * multiset(reference)| as real / (|candidate| + |reference|) as real
  }

  /** Rounding to three digits, a half upwards. */
  function Rounded(x: real): real { (x * 1000.0 + 0.5).Floor as real / 1000.0 }

  lemma FMeasure(o: real, a: real, b: real)
    requires o > 0.0 && a > 0.0 && b > 0.0
    ensures o / a + o / b > 0.0
    ensures 2.0 * (o / a) * (o / b) / (o / a + o / b) == 2.0 * o / (a + b)
  {
    var p, r := o / a, o / b;
    assert p * a == o && r * b == o;
    assert p > 0.0 && r > 0.0;
    assert (p * r) * a == o * r && (p * r) * b == o * p;
    assert (2.0 * p * r) * (a + b) == (2.0 * o) * (p + r);
    Quotients(2.0 * p * r, p + r, 2.0 * o, a + b);
  }

  lemma Quotients(u: real, v: real, x: real, y: real)
    requires v > 0.0 && y > 0.0 && u * y == x * v
    ensures u / v == x / y
  {
    var q := x / y;
    assert q * y == x;
    assert u * y == (q * v) * y;
    assert u == q * v;
  }

  method RoundedFMeasure(overlap: nat, candidates: nat, references: nat) returns (score: real)
    requires candidates > 0 && references > 0
    ensures score == Rounded(2.0 * overlap as real / (candidates + references) as real)
  {
    var precision := overlap as real / candidates as real;
    var recall := overlap as real / references as real;
    if overlap == 0 {
      assert precision + recall == 0.0;
      assert 2.0 * overlap as real / (candidates + references) as real == 0.0;
    } else {
      FMeasure(overlap as real, candidates as real, references as real);
      assert (candidates + references) as real == candidates as real + references as real;
    }
    if precision + recall == 0.0 {
      assert overlap == 0;
      return 0.0;
    }
    var fMeasure := 2.0 * precision * recall / (precision + recall);
    assert fMeasure == 2.0 * overlap as real / (candidates + references) as real;
    score := Rounded(fMeasure);
  }

  method Rouge1Score(word: Letters, lower: string -> string, candidate: string, reference: string) returns (score: real)
    ensures score == Rounded(Ideal(Tokens(word, lower(candidate)), Tokens(word, lower(reference))))
  {
    var candidateTokens := Tokenize(word, lower(candidate));
    var referenceTokens := Tokenize(word, lower(reference));
    if |referenceTokens| == 0 && |candidateTokens| == 0 {
      return 1.0;
    }
    if |referenceTokens| == 0 || |candidateTokens| == 0 {
      NoneShared(candidateTokens, referenceTokens);
      return 0.0;
    }
    var overlap := Overlap(candidateTokens, referenceTokens);
    score := RoundedFMeasure(overlap, |candidateTokens|, |referenceTokens|);
  }

  lemma NoneShared(c: seq<string>, r: seq<string>)
    requires (c == []) != (r == [])
    ensures Ideal(c, r) == 0.0
  {
    Bounds(c, r);
    AtLeast(0.0, (|c| + |r|) as real, 0.0);
  }

  lemma Bounds(c: seq<string>, r: seq<string>)
    ensures |multiset(c) * multiset(r)| <= |c| && |multiset(c) * multiset(r)| <= |r|
    ensures |multiset(c) * multiset(r)| == |c| == |r| <==> multiset(c) == multiset(r)
  {
    var m, n := multiset(c), multiset(r);
    assert |m| == |c| && |n| == |r|;
    assert |m - n| == |m| - |m * n|;
    assert m * n == n * m && |n - m| == |n| - |n * m|;
    if |m - n| == 0 && |n - m| == 0 {
      assert m - n == multiset{} && n - m == multiset{};
      forall g ensures m[g] == n[g] {
        assert (m - n)[g] == 0 && (n - m)[g] == 0;
      }
    }
    if m == n {
      assert m * n == m;
    }
  }

  lemma IdealIsSymmetric(c: seq<string>, r: seq<string>)
    ensures Ideal(c, r) == Ideal(r, c)
  {
    assert multiset(c) * multiset(r) == multiset(r) * multiset(c);
  }

  /** The score is the harmonic mean of the precision and the recall of the shared tokens. */
  lemma IdealIsHarmonicMean(c: seq<string>, r: seq<string>)
    requires c != [] && r != []
    ensures
      var shared := |multiset(c) * multiset(r)| as real;
      var precision, recall := shared / |c| as real, shared / |r| as real;
      Ideal(c, r) == if precision + recall == 0.0 then 0.0 else 2.0 * precision * recall / (precision + recall)
  {
    var shared := |multiset(c) * multiset(r)| as real;
    AtLeast(shared, |c| as real, 0.0);
    AtLeast(shared, |r| as real, 0.0);
    if shared > 0.0 {
      FMeasure(shared, |c| as real, |r| as real);
    } else {
      AtLeast(0.0, |c| as real, 0.0);
    }
  }

  /** The score lies between 0 and 1 and is 1 exactly for the same tokens in any order. */
  lemma IdealRange(c: seq<string>, r: seq<string>)
    ensures 0.0 <= Ideal(c, r) <= 1.0
    ensures Ideal(c, r) == 1.0 <==> multiset(c) == multiset(r)
  {
    Bounds(c, r);
    if c != [] || r != [] {
      var o, all := |multiset(c) * multiset(r)| as real, (|c| + |r|) as real;
      Fraction(2.0 * o, all);
    }
  }

  lemma Sign(u: real, y: real)
    requires y > 0.0
    ensures u * y >= 0.0 <==> u >= 0.0
  {
  }

  lemma AtLeast(x: real, y: real, k: real)
    requires y > 0.0
    ensures x / y >= k <==> x >= k * y
  {
    var q := x / y;
    assert q * y == x;
    assert (q - k) * y == x - k * y;
    Sign(q - k, y);
  }

  lemma Fraction(x: real, y: real)
    requires 0.0 <= x <= y && y > 0.0
    ensures 0.0 <= x / y <= 1.0 && (x / y == 1.0 <==> x == y)
  {
    AtLeast(x, y, 0.0);
    AtLeast(x, y, 1.0);
    AtLeast(-x, y, -1.0);
    assert -x / y == -(x / y);
  }

  /** Rounding keeps the range, moves the score by at most half a thousandth and gives 1
      exactly from 0.9995 on. */
  lemma RoundedRange(x: real)
    requires 0.0 <= x <= 1.0
    ensures 0.0 <= Rounded(x) <= 1.0
    ensures -0.0005 <= Rounded(x) - x <= 0.0005
    ensures Rounded(x) == 1.0 <==> x >= 0.9995
  {
    var y := x * 1000.0 + 0.5;
    assert 0.5 <= y <= 1000.5;
    assert 0 <= y.Floor <= 1000;
  }

  /** So long texts that differ by one token already score 1. */
  lemma LongTextsScoreOne(c: seq<string>, g: string)
    requires |c| >= 1000
    ensures Rounded(Ideal(c + [g], c)) == 1.0 && multiset(c + [g]) != multiset(c)
  {
    var m, n := multiset(c + [g]), multiset(c);
    assert m == n + multiset{g};
    assert m[g] == n[g] + 1;
    assert m * n == n;
    assert Ideal(c + [g], c) == 2.0 * |c| as real / (|c| + 1 + |c|) as real;
    IdealRange(c + [g], c);
    AtLeast(2.0 * |c| as real, (|c| + 1 + |c|) as real, 0.9995);
    RoundedRange(Ideal(c + [g], c));
  }
}
