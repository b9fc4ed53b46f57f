/** Sets of names listed in ascending order, as sort.Strings leaves them. */
module SortedNames {
  predicate Below(a: string, b: string) {
    a == "" || (b != "" && (a[0] < b[0] || (a[0] == b[0] && Below(a[1..], b[1..]))))
  }

  lemma {:induction false} BelowIsAnOrder(a: string, b: string)
    ensures Below(a, b) || Below(b, a)
    ensures Below(a, b) && Below(b, a) ==> a == b
  {
    if a != "" && b != "" && a[0] == b[0] {
      BelowIsAnOrder(a[1..], b[1..]);
      assert a == [a[0]] + a[1..] && b == [b[0]] + b[1..];
    }
  }

  lemma {:induction false} BelowIsTransitive(a: string, b: string, c: string)
    requires Below(a, b) && Below(b, c)
    ensures Below(a, c)
  {
    if a != "" && a[0] == b[0] == c[0] {
      BelowIsTransitive(a[1..], b[1..], c[1..]);
    }
  }

  /** The names in ascending order, each once. */
  ghost predicate IsSorted(r: seq<string>, s: set<string>) {
    && (forall i, j :: 0 <= i < j < |r| ==> r[i] != r[j] && Below(r[i], r[j]))
    && (forall x :: x in r <==> x in s)
  }

  lemma EmptyOrNot(a: seq<string>, s: set<string>)
    requires IsSorted(a, s)
    ensures a == [] <==> s == {}
  {
    if a != [] {
      assert a[0] in s;
    }
  }

  lemma {:induction false} SortedIsUnique(a: seq<string>, b: seq<string>, s: set<string>)
    requires IsSorted(a, s) && IsSorted(b, s)
    ensures a == b
  {
    EmptyOrNot(a, s);
    EmptyOrNot(b, s);
    if s != {} {
      assert a[0] in b && b[0] in a;
      BelowIsAnOrder(a[0], b[0]);
      assert a == [a[0]] + a[1..] && b == [b[0]] + b[1..];
      TailIsSorted(a, s);
      TailIsSorted(b, s);
      SortedIsUnique(a[1..], b[1..], s - {a[0]});
    }
  }

  lemma TailIsSorted(a: seq<string>, s: set<string>)
    requires IsSorted(a, s) && a != []
    ensures IsSorted(a[1..], s - {a[0]})
  {
    forall x ensures x in a[1..] <==> x in s - {a[0]} {
      if x in s && x != a[0] {
        var i :| 0 <= i < |a| && a[i] == x;
        assert a[1..][i - 1] == x;
      }
    }
  }

  function Inserted(r: seq<string>, x: string): seq<string> {
    if r == [] || Below(x, r[0]) then [x] + r else [r[0]] + Inserted(r[1..], x)
  }

  lemma {:induction false} InsertedIsSorted(r: seq<string>, x: string, s: set<string>)
    requires IsSorted(r, s) && x !in s
    ensures IsSorted(Inserted(r, x), s + {x})
  {
    if r == [] {
    } else if Below(x, r[0]) {
      forall j | 0 <= j < |r| ensures Below(x, r[j]) && r[j] != x {
        assert r[j] in s;
        if j > 0 {
          BelowIsTransitive(x, r[0], r[j]);
        }
      }
    } else {
      BelowIsAnOrder(x, r[0]);
      assert r[0] in s;
      TailIsSorted(r, s);
      var rest := Inserted(r[1..], x);
      InsertedIsSorted(r[1..], x, s - {r[0]});
      forall y | y in rest ensures Below(r[0], y) && y != r[0] {
        if y != x {
          assert y in r[1..];
        }
      }
    }
  }

  /** What sort.Strings makes of the names of a map. */
  ghost function Sorted(s: set<string>): (r: seq<string>)
    ensures IsSorted(r, s)
  {
    if s == {} then []
    else
      var x :| x in s;
      var rest := Sorted(s - {x});
      InsertedIsSorted(rest, x, s - {x});
      assert s - {x} + {x} == s;
      Inserted(rest, x)
  }

  method SortedKeys(s: set<string>) returns (r: seq<string>)
    ensures r == Sorted(s)
  {
    r := [];
    var left := s;
    while left != {}
      invariant left <= s && IsSorted(r, s - left)
      decreases left
    {
      var x :| x in left;
      InsertedIsSorted(r, x, s - left);
      assert s - left + {x} == s - (left - {x});
      r := Inserted(r, x);
      left := left - {x};
    }
    assert s - left == s;
    SortedIsUnique(r, Sorted(s), s);
  }
}
