/**
 * Text operations the engine relies on: Python's `str.lower()` restricted to
 * the alphabets that occur in the operation labels (ASCII and Russian
 * Cyrillic), and Python's code-point ordering of strings, used when pandas
 * sorts group keys.
 */
module Text {

  /** Upper-case letters that `Lower` folds: A-Z, А-Я and Ё. */
  predicate IsUpper(c: char) {
    ('A' <= c <= 'Z') || ('\U{0410}' <= c <= '\U{042F}') || c == '\U{0401}'
  }

  function LowerChar(c: char): (l: char)
    ensures !IsUpper(l)
    ensures !IsUpper(c) ==> l == c
    ensures IsUpper(c) ==> l != c
  {
    if 'A' <= c <= 'Z' then (c as int + 32) as char
    else if '\U{0410}' <= c <= '\U{042F}' then (c as int + 32) as char
    else if c == '\U{0401}' then '\U{0451}'
    else c
  }

  /** Python's `s.lower()` on the modelled alphabets. */
  function Lower(s: string): (r: string)
    ensures |r| == |s|
    ensures forall i :: 0 <= i < |s| ==> r[i] == LowerChar(s[i]) && !IsUpper(r[i])
  {
    seq(|s|, i requires 0 <= i < |s| => LowerChar(s[i]))
  }

  /** A lower-cased string contains no upper-case letter, so lowering it again changes nothing. */
  lemma LowerIdempotent(s: string)
    ensures Lower(Lower(s)) == Lower(s)
  {
  }

  /**
   * No lower-cased string equals a string that holds an upper-case letter:
   * a comparison of `Lower(x)` against such a literal is always false.
   */
  lemma {:induction false} LowerNeverHasUpper(s: string, t: string, i: nat)
    requires i < |t| && IsUpper(t[i])
    ensures Lower(s) != t
  {
    if |s| == |t| {
      assert !IsUpper(Lower(s)[i]);
    }
  }

  /** Python's `a < b` on strings: lexicographic by code point, a proper prefix first. */
  predicate StrLess(a: string, b: string)
    decreases |a|
  {
    if |a| == 0 then |b| > 0
    else if |b| == 0 then false
    else if a[0] == b[0] then StrLess(a[1..], b[1..])
    else a[0] < b[0]
  }

  lemma {:induction false} StrLessIrreflexive(a: string)
    ensures !StrLess(a, a)
    decreases |a|
  {
    if |a| > 0 {
      StrLessIrreflexive(a[1..]);
    }
  }

  lemma {:induction false} StrLessTransitive(a: string, b: string, c: string)
    requires StrLess(a, b) && StrLess(b, c)
    ensures StrLess(a, c)
    decreases |a|
  {
    if |a| > 0 && |b| > 0 && |c| > 0 && a[0] == b[0] && b[0] == c[0] {
      StrLessTransitive(a[1..], b[1..], c[1..]);
    }
  }

  lemma {:induction false} StrLessTotal(a: string, b: string)
    requires a != b
    ensures StrLess(a, b) || StrLess(b, a)
    decreases |a|
  {
    if |a| > 0 && |b| > 0 && a[0] == b[0] {
      assert a == [a[0]] + a[1..] && b == [b[0]] + b[1..];
      StrLessTotal(a[1..], b[1..]);
    }
  }

  /** Strictly ascending in Python's string order (so also free of duplicates). */
  predicate StrictlyAscending(ds: seq<string>) {
    forall i, j :: 0 <= i < j < |ds| ==> StrLess(ds[i], ds[j])
  }

  /** Inserts `d` into a strictly ascending list unless it is already there. */
  function InsertSorted(d: string, ds: seq<string>): (r: seq<string>)
    requires StrictlyAscending(ds)
    ensures StrictlyAscending(r)
    ensures forall x :: x in r <==> x in ds || x == d
    decreases |ds|
  {
    if |ds| == 0 then [d]
    else if d == ds[0] then ds
    else if StrLess(d, ds[0]) then
      assert forall j :: 0 < j < |ds| ==> StrLess(d, ds[j]) by {
        forall j | 0 < j < |ds| ensures StrLess(d, ds[j]) {
          StrLessTransitive(d, ds[0], ds[j]);
        }
      }
      [d] + ds
    else
      StrLessTotal(d, ds[0]);
      var rest := InsertSorted(d, ds[1..]);
      assert forall x :: x in rest ==> StrLess(ds[0], x) by {
        forall x | x in rest ensures StrLess(ds[0], x) {
          if x != d {
            var j :| 0 <= j < |ds[1..]| && ds[1..][j] == x;
            assert ds[j + 1] == x;
          }
        }
      }
      [ds[0]] + rest
  }
}
