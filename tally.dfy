/**
 * Group-by arithmetic shared by the reports: sums of a column over a table,
 * the rows of one group, and the list of distinct group keys. Every report
 * that groups rows and sums a column is stated with these.
 */
module Tally {

  /** The sum of a real column (pandas `sum` of an empty column is 0). */
  function Sum<T>(xs: seq<T>, value: T -> real): real {
    if |xs| == 0 then 0.0 else value(xs[0]) + Sum(xs[1..], value)
  }

  /** The sum of an integer column. */
  function SumNat<T>(xs: seq<T>, value: T -> nat): nat {
    if |xs| == 0 then 0 else value(xs[0]) + SumNat(xs[1..], value)
  }

  /** The rows whose key is in `keys`, in their original order. */
  function GroupIn<T(!new), K(==)>(xs: seq<T>, key: T -> K, keys: set<K>): (g: seq<T>)
    ensures |g| <= |xs|
    ensures forall x :: x in g <==> x in xs && key(x) in keys
  {
    if |xs| == 0 then []
    else (if key(xs[0]) in keys then [xs[0]] else []) + GroupIn(xs[1..], key, keys)
  }

  /** The rows of the group of key k. */
  function Group<T(!new), K(==)>(xs: seq<T>, key: T -> K, k: K): (g: seq<T>)
    ensures |g| <= |xs|
    ensures forall x :: x in g <==> x in xs && key(x) == k
  {
    GroupIn(xs, key, {k})
  }

  predicate Distinct<K(==)>(ks: seq<K>) {
    forall i, j :: 0 <= i < j < |ks| ==> ks[i] != ks[j]
  }

  /** The elements of a sequence, as a set. */
  function SetOf<K(!new)>(ks: seq<K>): (s: set<K>)
    ensures forall k :: k in s <==> k in ks
  {
    set k | k in ks
  }

  /** The distinct keys of a table, each once. */
  function Keys<T(!new), K(==,!new)>(xs: seq<T>, key: T -> K): (ks: seq<K>)
    ensures Distinct(ks)
    ensures |ks| <= |xs|
    ensures forall k :: k in ks <==> exists x :: x in xs && key(x) == k
  {
    if |xs| == 0 then []
    else
      var rest := Keys(xs[1..], key);
      assert forall x :: x in xs[1..] ==> x in xs;
      assert forall x :: x in xs ==> x == xs[0] || x in xs[1..];
      if key(xs[0]) in rest then rest else [key(xs[0])] + rest
  }

  lemma {:induction false} SumAppend<T>(a: seq<T>, b: seq<T>, value: T -> real)
    ensures Sum(a + b, value) == Sum(a, value) + Sum(b, value)
    decreases |a|
  {
    if |a| == 0 {
      assert a + b == b;
    } else {
      assert (a + b)[1..] == a[1..] + b;
      SumAppend(a[1..], b, value);
    }
  }

  /** Splitting a key off a set of keys splits the sum over the selected rows. */
  lemma {:induction false} SumGroupInSplit<T(!new), K>(xs: seq<T>, key: T -> K, k: K, keys: set<K>, value: T -> real)
    requires k !in keys
    ensures Sum(GroupIn(xs, key, {k} + keys), value)
         == Sum(Group(xs, key, k), value) + Sum(GroupIn(xs, key, keys), value)
    decreases |xs|
  {
    if |xs| > 0 {
      SumGroupInSplit(xs[1..], key, k, keys, value);
      var x := xs[0];
      var both, one, rest := GroupIn(xs, key, {k} + keys), Group(xs, key, k), GroupIn(xs, key, keys);
      assert both == (if key(x) in {k} + keys then [x] else []) + GroupIn(xs[1..], key, {k} + keys);
      assert one == (if key(x) == k then [x] else []) + Group(xs[1..], key, k);
      assert rest == (if key(x) in keys then [x] else []) + GroupIn(xs[1..], key, keys);
      SumAppend(if key(x) in {k} + keys then [x] else [], GroupIn(xs[1..], key, {k} + keys), value);
      SumAppend(if key(x) == k then [x] else [], Group(xs[1..], key, k), value);
      SumAppend(if key(x) in keys then [x] else [], GroupIn(xs[1..], key, keys), value);
    }
  }

  /** When every row's key is selected, the selected rows sum to the whole column. */
  lemma {:induction false} SumGroupInAll<T(!new), K>(xs: seq<T>, key: T -> K, keys: set<K>, value: T -> real)
    requires forall x :: x in xs ==> key(x) in keys
    ensures Sum(GroupIn(xs, key, keys), value) == Sum(xs, value)
    decreases |xs|
  {
    if |xs| > 0 {
      assert forall x :: x in xs[1..] ==> x in xs;
      SumGroupInAll(xs[1..], key, keys, value);
    }
  }

  /** No row selected: the sum is 0. */
  lemma {:induction false} SumGroupInNone<T(!new), K>(xs: seq<T>, key: T -> K, keys: set<K>, value: T -> real)
    requires forall x :: x in xs ==> key(x) !in keys
    ensures GroupIn(xs, key, keys) == []
    decreases |xs|
  {
    if |xs| > 0 {
      assert forall x :: x in xs[1..] ==> x in xs;
      SumGroupInNone(xs[1..], key, keys, value);
    }
  }
}
