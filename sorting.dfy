/**
 * The table operations the reports end with: `sort_values(ascending=False)`
 * by a numeric column, and `head(n)`.
 */
module Sorting {
  import opened Tally

  /** Non-increasing in `key`. */
  predicate SortedDesc<T>(s: seq<T>, key: T -> real) {
    forall i, j :: 0 <= i < j < |s| ==> key(s[i]) >= key(s[j])
  }

  /** A line whose key bounds a sorted table's keys can go in front of it. */
  lemma SortedCons<T>(h: T, rest: seq<T>, key: T -> real)
    requires SortedDesc(rest, key)
    requires forall i :: 0 <= i < |rest| ==> key(h) >= key(rest[i])
    ensures SortedDesc([h] + rest, key)
  {
    var r := [h] + rest;
    forall i, j | 0 <= i < j < |r| ensures key(r[i]) >= key(r[j]) {
      assert r[j] == rest[j - 1];
      if i > 0 {
        assert r[i] == rest[i - 1];
      }
    }
  }

  /** Inserts x after every element whose key is at least x's, keeping the order of equal keys. */
  function Insert<T>(x: T, s: seq<T>, key: T -> real): (r: seq<T>)
    requires SortedDesc(s, key)
    ensures SortedDesc(r, key)
    ensures multiset(r) == multiset(s) + multiset{x}
    ensures forall y :: y in r ==> y == x || y in s
    decreases |s|
  {
    if |s| == 0 then [x]
    else if key(s[0]) >= key(x) then
      var rest := Insert(x, s[1..], key);
      assert s == [s[0]] + s[1..];
      assert forall i :: 0 <= i < |rest| ==> key(s[0]) >= key(rest[i]) by {
        forall i | 0 <= i < |rest| ensures key(s[0]) >= key(rest[i]) {
          assert rest[i] in rest;
          if rest[i] != x {
            var k :| 0 <= k < |s[1..]| && s[1..][k] == rest[i];
            assert s[k + 1] == rest[i];
          }
        }
      }
      SortedCons(s[0], rest, key);
      [s[0]] + rest
    else
      SortedCons(x, s, key);
      [x] + s
  }

  /** Stable insertion sort, largest key first. */
  function SortDesc<T>(xs: seq<T>, key: T -> real): (s: seq<T>)
    ensures SortedDesc(s, key)
    ensures multiset(s) == multiset(xs)
    ensures |s| == |xs|
    decreases |xs|
  {
    if |xs| == 0 then []
    else
      assert xs == xs[..|xs| - 1] + [xs[|xs| - 1]];
      var s := Insert(xs[|xs| - 1], SortDesc(xs[..|xs| - 1], key), key);
      assert |s| == |multiset(s)|;
      s
  }

  /** Inserting among lines of equal key appends: the sort is stable. */
  lemma {:induction false} InsertEqualKeys<T>(x: T, s: seq<T>, key: T -> real)
    requires forall i :: 0 <= i < |s| ==> key(s[i]) == key(x)
    ensures SortedDesc(s, key)
    ensures Insert(x, s, key) == s + [x]
    decreases |s|
  {
    if |s| > 0 {
      InsertEqualKeys(x, s[1..], key);
      assert s == [s[0]] + s[1..];
    }
  }

  /** A non-empty table is its first lines followed by its last line. */
  lemma SplitLast<T>(xs: seq<T>)
    requires |xs| > 0
    ensures xs == xs[..|xs| - 1] + [xs[|xs| - 1]]
  {
  }

  /** Sorting a table whose lines all have the same key leaves it as it is. */
  lemma {:induction false} SortEqualKeys<T>(xs: seq<T>, key: T -> real, c: real)
    requires forall i :: 0 <= i < |xs| ==> key(xs[i]) == c
    ensures SortDesc(xs, key) == xs
    decreases |xs|
  {
    if |xs| > 0 {
      var init, last := xs[..|xs| - 1], xs[|xs| - 1];
      SplitLast(xs);
      assert forall i :: 0 <= i < |init| ==> key(init[i]) == c by {
        forall i | 0 <= i < |init| ensures key(init[i]) == c {
          assert init[i] == xs[i];
        }
      }
      SortEqualKeys(init, key, c);
      InsertEqualKeys(last, init, key);
      calc {
        SortDesc(xs, key);
        Insert(last, SortDesc(init, key), key);
        { assert SortDesc(init, key) == init; }
        Insert(last, init, key);
        init + [last];
        xs;
      }
    }
  }

  /** The first line of the sorted table has the largest key of the table. */
  lemma SortedFirstIsMax<T>(xs: seq<T>, key: T -> real, x: T)
    requires x in xs
    ensures |SortDesc(xs, key)| > 0
    ensures key(SortDesc(xs, key)[0]) >= key(x)
  {
    var s := SortDesc(xs, key);
    assert x in multiset(s);
    var i :| 0 <= i < |s| && s[i] == x;
  }

  /** The number of rows `head(n)` keeps; a negative n drops the last -n rows. */
  function HeadLength(len: nat, n: int): (k: nat)
    ensures k <= len
    ensures n >= 0 ==> k == if n < len then n else len
    ensures n < 0 ==> k == if len + n > 0 then len + n else 0
  {
    if n >= 0 then (if n < len then n else len)
    else if len + n > 0 then len + n else 0
  }

  /** pandas `head(n)`: the first rows. */
  function Head<T>(xs: seq<T>, n: int): (h: seq<T>)
    ensures |h| == HeadLength(|xs|, n)
    ensures h == xs[..|h|]
  {
    xs[..HeadLength(|xs|, n)]
  }

  /** A prefix of a sorted table is sorted. */
  lemma HeadSorted<T>(xs: seq<T>, n: int, key: T -> real)
    requires SortedDesc(xs, key)
    ensures SortedDesc(Head(xs, n), key)
  {
  }

  /** A prefix holds no more of any element than the whole table. */
  lemma PrefixMultiset<T>(s: seq<T>, k: nat)
    requires k <= |s|
    ensures multiset(s[..k]) <= multiset(s)
  {
    assert s == s[..k] + s[k..];
    assert multiset(s) == multiset(s[..k]) + multiset(s[k..]);
  }

  /** In a sorted table, every line after the first k has a key no larger than any of the first k. */
  lemma SuffixBelowPrefix<T>(s: seq<T>, k: nat, key: T -> real)
    requires SortedDesc(s, key)
    requires k <= |s|
    ensures forall y :: y in multiset(s) - multiset(s[..k]) ==> forall i :: 0 <= i < k ==> key(y) <= key(s[i])
  {
    assert s == s[..k] + s[k..];
    assert multiset(s) - multiset(s[..k]) == multiset(s[k..]);
    forall y | y in multiset(s[k..]) ensures forall i :: 0 <= i < k ==> key(y) <= key(s[i]) {
      var j :| 0 <= j < |s[k..]| && s[k..][j] == y;
      assert s[k + j] == y;
    }
  }

  /**
   * The first n lines by `key`, largest first: `sort_values(key, ascending=False).head(n)`.
   * Every line left out has a key no larger than any line kept.
   */
  function TopBy<T>(xs: seq<T>, key: T -> real, n: int): (r: seq<T>)
    ensures |r| == HeadLength(|xs|, n)
    ensures SortedDesc(r, key)
    ensures multiset(r) <= multiset(xs)
    ensures forall y :: y in multiset(xs) - multiset(r) ==> forall i :: 0 <= i < |r| ==> key(y) <= key(r[i])
  {
    var s := SortDesc(xs, key);
    var k := HeadLength(|s|, n);
    HeadSorted(s, n, key);
    PrefixMultiset(s, k);
    SuffixBelowPrefix(s, k, key);
    Head(s, n)
  }

  /** A table without duplicates has every element once. */
  lemma {:induction false} DistinctCountsOne<T>(s: seq<T>, x: T)
    requires Distinct(s)
    ensures multiset(s)[x] <= 1
    decreases |s|
  {
    if |s| > 0 {
      assert s == [s[0]] + s[1..];
      assert Distinct(s[1..]) by {
        forall i, j | 0 <= i < j < |s[1..]| ensures s[1..][i] != s[1..][j] {
          assert s[1..][i] == s[i + 1] && s[1..][j] == s[j + 1];
        }
      }
      DistinctCountsOne(s[1..], x);
      if x == s[0] {
        assert x !in s[1..] by {
          forall j | 0 <= j < |s[1..]| ensures s[1..][j] != x {
            assert s[1..][j] == s[j + 1];
          }
        }
      }
    }
  }

  /** Reordering or dropping lines of a table without duplicates gives a table without duplicates. */
  lemma PermutationDistinct<T>(a: seq<T>, b: seq<T>)
    requires multiset(b) <= multiset(a)
    requires Distinct(a)
    ensures Distinct(b)
  {
    forall i, j | 0 <= i < j < |b| ensures b[i] != b[j] {
      if b[i] == b[j] {
        assert b == b[..j] + b[j..];
        assert b[i] in b[..j] && b[j] in b[j..];
        assert multiset(b)[b[i]] >= 2 by {
          assert multiset(b) == multiset(b[..j]) + multiset(b[j..]);
        }
        DistinctCountsOne(a, b[i]);
        assert false;
      }
    }
  }
}
