/** Python's `sorted()` on the two element types the hub sorts: strings,
    compared code point by code point, and sets of integers. */
module Sorting {

  /** Python's `a <= b` on `str`. */
  predicate StrLe(a: string, b: string)
    decreases |a|
  {
    a == [] || (b != [] && (a[0] < b[0] || (a[0] == b[0] && StrLe(a[1..], b[1..]))))
  }

  lemma {:induction false} StrLeTotal(a: string, b: string)
    ensures StrLe(a, b) || StrLe(b, a)
    decreases |a|
  {
    if a != [] && b != [] && a[0] == b[0] {
      StrLeTotal(a[1..], b[1..]);
    }
  }

  lemma {:induction false} StrLeTrans(a: string, b: string, c: string)
    requires StrLe(a, b) && StrLe(b, c)
    ensures StrLe(a, c)
    decreases |a|
  {
    if a != [] && b != [] && c != [] && a[0] == b[0] && b[0] == c[0] {
      StrLeTrans(a[1..], b[1..], c[1..]);
    }
  }

  lemma {:induction false} StrLeRefl(a: string)
    ensures StrLe(a, a)
    decreases |a|
  {
    if a != [] {
      StrLeRefl(a[1..]);
    }
  }

  lemma {:induction false} StrLeAntisym(a: string, b: string)
    requires StrLe(a, b) && StrLe(b, a)
    ensures a == b
    decreases |a|
  {
    if a != [] {
      StrLeAntisym(a[1..], b[1..]);
      assert a == [a[0]] + a[1..] && b == [b[0]] + b[1..];
    }
  }

  predicate SortedStrings(s: seq<string>)
  {
    forall i, j :: 0 <= i < j < |s| ==> StrLe(s[i], s[j])
  }

  function Insert(x: string, s: seq<string>): seq<string>
  {
    if s == [] || StrLe(x, s[0]) then [x] + s else [s[0]] + Insert(x, s[1..])
  }

  /** `sorted(xs)` by insertion. */
  function SortStrings(xs: seq<string>): seq<string>
  {
    if xs == [] then [] else Insert(xs[0], SortStrings(xs[1..]))
  }

  lemma {:induction false} InsertPermutes(x: string, s: seq<string>)
    ensures multiset(Insert(x, s)) == multiset(s) + multiset{x}
    decreases |s|
  {
    if s != [] && !StrLe(x, s[0]) {
      InsertPermutes(x, s[1..]);
      assert s == [s[0]] + s[1..];
    }
  }

  lemma {:induction false} InsertSorted(x: string, s: seq<string>)
    requires SortedStrings(s)
    ensures SortedStrings(Insert(x, s))
    decreases |s|
  {
    if s == [] {
    } else if StrLe(x, s[0]) {
      forall e | e in s ensures StrLe(x, e) {
        var k :| 0 <= k < |s| && s[k] == e;
        if k > 0 {
          StrLeTrans(x, s[0], e);
        }
      }
      SortedCons(x, s);
    } else {
      StrLeTotal(x, s[0]);
      InsertSorted(x, s[1..]);
      InsertPermutes(x, s[1..]);
      var t := Insert(x, s[1..]);
      forall e | e in t ensures StrLe(s[0], e) {
        assert e in multiset(t);
        assert e in multiset(s[1..]) + multiset{x};
        if e != x {
          var k :| 0 <= k < |s[1..]| && s[1..][k] == e;
          assert s[k + 1] == e;
        }
      }
      SortedCons(s[0], t);
    }
  }

  /** A string at most every element of a sorted sequence can go first. */
  lemma SortedCons(y: string, t: seq<string>)
    requires SortedStrings(t)
    requires forall e :: e in t ==> StrLe(y, e)
    ensures SortedStrings([y] + t)
  {
    var r := [y] + t;
    forall i, j | 0 <= i < j < |r| ensures StrLe(r[i], r[j]) {
      assert r[j] == t[j - 1] && r[j] in t;
      if i > 0 {
        assert r[i] == t[i - 1];
      }
    }
  }

  /** `sorted(xs)` is ordered and holds exactly the elements of `xs`. */
  lemma {:induction false} SortStringsCorrect(xs: seq<string>)
    ensures SortedStrings(SortStrings(xs))
    ensures multiset(SortStrings(xs)) == multiset(xs)
    decreases |xs|
  {
    if xs != [] {
      SortStringsCorrect(xs[1..]);
      InsertSorted(xs[0], SortStrings(xs[1..]));
      InsertPermutes(xs[0], SortStrings(xs[1..]));
      assert xs == [xs[0]] + xs[1..];
    }
  }

  /** Two sorted orderings of the same strings are the same sequence, so
      `SortStrings` is `sorted()` whatever algorithm computes it. */
  lemma {:induction false} SortedUnique(a: seq<string>, b: seq<string>)
    requires SortedStrings(a) && SortedStrings(b) && multiset(a) == multiset(b)
    ensures a == b
    decreases |a|
  {
    assert |b| == |a| by { assert |multiset(a)| == |a| && |multiset(b)| == |b|; }
    if a != [] {
      SameHead(a, b);
      assert a == [a[0]] + a[1..] && b == [b[0]] + b[1..];
      TailMultiset(a);
      TailMultiset(b);
      SortedUnique(a[1..], b[1..]);
    }
  }

  lemma TailMultiset(a: seq<string>)
    requires a != []
    ensures multiset(a[1..]) == multiset(a) - multiset{a[0]}
  {
    assert a == [a[0]] + a[1..];
  }

  lemma SameHead(a: seq<string>, b: seq<string>)
    requires SortedStrings(a) && SortedStrings(b) && multiset(a) == multiset(b)
    requires a != [] && b != []
    ensures a[0] == b[0]
  {
    assert a[0] in multiset(b);
    assert b[0] in multiset(a);
    var i :| 0 <= i < |b| && b[i] == a[0];
    var j :| 0 <= j < |a| && a[j] == b[0];
    StrLeRefl(a[0]);
    StrLeRefl(b[0]);
    assert StrLe(b[0], a[0]) by { if i > 0 { assert StrLe(b[0], b[i]); } }
    assert StrLe(a[0], b[0]) by { if j > 0 { assert StrLe(a[0], a[j]); } }
    StrLeAntisym(a[0], b[0]);
  }

  // ------------------------------------------------------------ integers

  predicate StrictlyAscending(s: seq<int>)
  {
    forall i, j :: 0 <= i < j < |s| ==> s[i] < s[j]
  }

  /** Insert `x` into a strictly ascending sequence unless it is there. */
  function InsertNew(x: int, s: seq<int>): (r: seq<int>)
    requires StrictlyAscending(s)
    ensures StrictlyAscending(r)
    ensures forall y :: y in r <==> y == x || y in s
    decreases |s|
  {
    if s == [] then [x]
    else if x < s[0] then
      assert forall y :: y in s ==> s[0] <= y by {
        forall y | y in s ensures s[0] <= y {
          var k :| 0 <= k < |s| && s[k] == y;
          assert k == 0 || s[0] < s[k];
        }
      }
      [x] + s
    else if x == s[0] then s
    else
      var t := InsertNew(x, s[1..]);
      assert forall y :: y in t ==> s[0] < y by {
        forall y | y in t ensures s[0] < y {
          if y != x {
            var k :| 0 <= k < |s[1..]| && s[1..][k] == y;
            assert s[k + 1] == y;
          }
        }
      }
      assert forall y :: y in s <==> y == s[0] || y in s[1..] by {
        assert s == [s[0]] + s[1..];
      }
      assert forall k :: 0 <= k < |t| ==> t[k] in t;
      [s[0]] + t
  }

  /** `sorted(set(xs))`: the distinct elements of `xs` in ascending order. */
  function SortedDistinct(xs: seq<int>): (r: seq<int>)
    ensures StrictlyAscending(r)
    ensures forall y :: y in r <==> y in xs
    decreases |xs|
  {
    if xs == [] then []
    else
      assert forall y :: y in xs <==> y == xs[0] || y in xs[1..] by {
        assert xs == [xs[0]] + xs[1..];
      }
      InsertNew(xs[0], SortedDistinct(xs[1..]))
  }
}
