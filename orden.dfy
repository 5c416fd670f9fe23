/** Stable sorting and truncation, as the handlers use Array.prototype.sort
    (stable since ES2019) with a numeric comparator `(a, b) => key(b) - key(a)`,
    followed by `slice(0, n)`. */
module Orden {

  /** Inserts `x`, which came before every element of `s` in the input, in front of
      the first element whose key is not larger, so equal keys keep input order. */
  function InsertDesc<T>(x: T, s: seq<T>, key: T -> real): (r: seq<T>)
    ensures |r| == |s| + 1
    ensures multiset(r) == multiset(s) + multiset{x}
  {
    if s == [] || key(x) >= key(s[0]) then [x] + s
    else
      assert s == [s[0]] + s[1..];
      [s[0]] + InsertDesc(x, s[1..], key)
  }

  /** Stable sort by `key`, largest first. */
  function SortDesc<T>(s: seq<T>, key: T -> real): (r: seq<T>)
    ensures |r| == |s|
    ensures multiset(r) == multiset(s)
  {
    if s == [] then []
    else
      assert s == [s[0]] + s[1..];
      InsertDesc(s[0], SortDesc(s[1..], key), key)
  }

  ghost predicate SortedDesc<T>(s: seq<T>, key: T -> real) {
    forall i, j :: 0 <= i < j < |s| ==> key(s[i]) >= key(s[j])
  }

  /** `a` may precede `b`: larger key first, smaller rank first among equal keys. */
  ghost predicate Before<T>(a: T, b: T, key: T -> real, rank: T -> int) {
    key(a) > key(b) || (key(a) == key(b) && rank(a) < rank(b))
  }

  /** Sorted by `key` descending, and by `rank` ascending among equal keys. */
  ghost predicate SortedLex<T>(s: seq<T>, key: T -> real, rank: T -> int) {
    forall i, j :: 0 <= i < j < |s| ==> Before(s[i], s[j], key, rank)
  }

  /** An element no smaller than every element of a sorted list may go in front. */
  lemma ConsSorted<T>(y: T, t: seq<T>, key: T -> real)
    requires SortedDesc(t, key)
    requires forall z :: z in t ==> key(y) >= key(z)
    ensures SortedDesc([y] + t, key)
  {
    forall i, j | 0 <= i < j < |[y] + t| ensures key(([y] + t)[i]) >= key(([y] + t)[j]) {
      assert ([y] + t)[j] == t[j - 1];
      if i == 0 {
        assert t[j - 1] in t;
      } else {
        assert ([y] + t)[i] == t[i - 1];
      }
    }
  }

  lemma {:induction false} InsertDescSorted<T>(x: T, s: seq<T>, key: T -> real)
    requires SortedDesc(s, key)
    ensures SortedDesc(InsertDesc(x, s, key), key)
    decreases |s|
  {
    if s == [] {
      assert InsertDesc(x, s, key) == [x];
    } else if key(x) >= key(s[0]) {
      forall z | z in s ensures key(x) >= key(z) {
        var k :| 0 <= k < |s| && s[k] == z;
      }
      ConsSorted(x, s, key);
    } else {
      InsertDescSorted(x, s[1..], key);
      var t := InsertDesc(x, s[1..], key);
      forall y | y in t ensures key(s[0]) >= key(y) {
        assert y in multiset(t);
        if y != x {
          assert y in multiset(s[1..]);
          var k :| 0 <= k < |s[1..]| && s[1..][k] == y;
          assert s[k + 1] == y;
        }
      }
      ConsSorted(s[0], t, key);
    }
  }

  /** The result of SortDesc is ordered by `key`, largest first. */
  lemma {:induction false} SortDescSorted<T>(s: seq<T>, key: T -> real)
    ensures SortedDesc(SortDesc(s, key), key)
    decreases |s|
  {
    if s != [] {
      SortDescSorted(s[1..], key);
      InsertDescSorted(s[0], SortDesc(s[1..], key), key);
    }
  }

  lemma ConsSortedLex<T>(y: T, t: seq<T>, key: T -> real, rank: T -> int)
    requires SortedLex(t, key, rank)
    requires forall z :: z in t ==> Before(y, z, key, rank)
    ensures SortedLex([y] + t, key, rank)
  {
    var r := [y] + t;
    forall i, j | 0 <= i < j < |r| ensures Before(r[i], r[j], key, rank) {
      if i == 0 {
        assert r[j] == t[j - 1];
        assert t[j - 1] in t;
      } else {
        assert r[i] == t[i - 1] && r[j] == t[j - 1];
      }
    }
  }

  lemma {:induction false} InsertDescLex<T>(x: T, s: seq<T>, key: T -> real, rank: T -> int)
    requires SortedLex(s, key, rank)
    requires forall y :: y in s ==> rank(x) < rank(y)
    ensures SortedLex(InsertDesc(x, s, key), key, rank)
    decreases |s|
  {
    if s == [] || key(x) >= key(s[0]) {
      forall z | z in s ensures Before(x, z, key, rank) {
        var k :| 0 <= k < |s| && s[k] == z;
        if k > 0 {
          assert Before(s[0], s[k], key, rank);
        }
      }
      ConsSortedLex(x, s, key, rank);
    } else {
      assert forall y :: y in s[1..] ==> y in s;
      assert SortedLex(s[1..], key, rank) by {
        forall i, j | 0 <= i < j < |s[1..]| ensures Before(s[1..][i], s[1..][j], key, rank) {
          assert s[1..][i] == s[i + 1] && s[1..][j] == s[j + 1];
        }
      }
      InsertDescLex(x, s[1..], key, rank);
      var t := InsertDesc(x, s[1..], key);
      forall y | y in t ensures Before(s[0], y, key, rank) {
        assert y in multiset(t);
        if y != x {
          assert y in multiset(s[1..]);
          var k :| 0 <= k < |s[1..]| && s[1..][k] == y;
          assert s[k + 1] == y;
        }
      }
      ConsSortedLex(s[0], t, key, rank);
    }
  }

  /** Stability: when the input is strictly increasing in `rank`, equal keys
      come out in increasing `rank`, i.e. in input order. */
  lemma {:induction false} SortDescStable<T>(s: seq<T>, key: T -> real, rank: T -> int)
    requires forall i, j :: 0 <= i < j < |s| ==> rank(s[i]) < rank(s[j])
    ensures SortedLex(SortDesc(s, key), key, rank)
    decreases |s|
  {
    if s != [] {
      SortDescStable(s[1..], key, rank);
      var t := SortDesc(s[1..], key);
      forall y | y in t ensures rank(s[0]) < rank(y) {
        assert y in multiset(s[1..]);
        var k :| 0 <= k < |s[1..]| && s[1..][k] == y;
        assert s[k + 1] == y;
      }
      InsertDescLex(s[0], t, key, rank);
    }
  }

  /** `slice(0, n)`: the first `n` elements, or all of them when there are fewer. */
  function Take<T>(s: seq<T>, n: nat): (r: seq<T>)
    ensures |r| == if |s| < n then |s| else n
    ensures forall i :: 0 <= i < |r| ==> r[i] == s[i]
  {
    s[..if |s| < n then |s| else n]
  }
}
