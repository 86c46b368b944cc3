/**
 * Ordering of strings as Rust's `Ord for String` gives it (character by
 * character, a proper prefix first), and `sort()` followed by `dedup()` on
 * a vector of strings: the result is strictly increasing and holds exactly
 * the strings of the input.
 */
module Sorting {
  /** `a < b` for Rust strings. */
  predicate Less(a: string, b: string)
    decreases |a|
  {
    if |a| == 0 then |b| > 0
    else if |b| == 0 then false
    else a[0] < b[0] || (a[0] == b[0] && Less(a[1..], b[1..]))
  }

  lemma {:induction false} LessIrreflexive(a: string)
    ensures !Less(a, a)
    decreases |a|
  {
    if |a| > 0 {
      LessIrreflexive(a[1..]);
    }
  }

  /** Any two distinct strings are ordered one way or the other, and never both. */
  lemma {:induction false} LessTotal(a: string, b: string)
    ensures a != b ==> Less(a, b) || Less(b, a)
    ensures !(Less(a, b) && Less(b, a))
    decreases |a|
  {
    if |a| > 0 && |b| > 0 {
      LessTotal(a[1..], b[1..]);
      if a[0] == b[0] && a != b {
        assert a == [a[0]] + a[1..] && b == [b[0]] + b[1..];
      }
    }
  }

  lemma {:induction false} LessTrans(a: string, b: string, c: string)
    requires Less(a, b) && Less(b, c)
    ensures Less(a, c)
    decreases |a|
  {
    if |a| > 0 && a[0] == b[0] && b[0] == c[0] {
      LessTrans(a[1..], b[1..], c[1..]);
    }
  }

  predicate StrictlySorted(s: seq<string>) {
    forall i, j :: 0 <= i < j < |s| ==> Less(s[i], s[j])
  }

  /** Insertion into a strictly increasing list, skipping a string already there. */
  function Insert(s: seq<string>, x: string): seq<string> {
    if |s| == 0 then [x]
    else if x == s[0] then s
    else if Less(x, s[0]) then [x] + s
    else [s[0]] + Insert(s[1..], x)
  }

  lemma {:induction false} InsertSpec(s: seq<string>, x: string)
    requires StrictlySorted(s)
    ensures StrictlySorted(Insert(s, x))
    ensures forall y :: y in Insert(s, x) <==> y in s || y == x
  {
    if |s| > 0 && x != s[0] && !Less(x, s[0]) {
      var rest := s[1..];
      InsertSpec(rest, x);
      LessTotal(x, s[0]);
      assert forall y :: y in s <==> y == s[0] || y in rest;
      var r := Insert(s, x);
      assert r == [s[0]] + Insert(rest, x);
      forall i, j | 0 <= i < j < |r|
        ensures Less(r[i], r[j])
      {
        if i == 0 {
          assert r[j] in Insert(rest, x);
          if r[j] != x {
            assert r[j] in rest;
            var k :| 0 <= k < |rest| && rest[k] == r[j];
            assert s[k + 1] == r[j];
          }
        }
      }
    } else if |s| > 0 && x != s[0] {
      var r := Insert(s, x);
      forall i, j | 0 <= i < j < |r|
        ensures Less(r[i], r[j])
      {
        if i == 0 && j > 1 {
          LessTrans(x, s[0], s[j - 1]);
        }
      }
    }
  }

  /** `v.sort(); v.dedup();` */
  function SortDedup(s: seq<string>): seq<string> {
    if |s| == 0 then [] else Insert(SortDedup(s[..|s| - 1]), s[|s| - 1])
  }

  /** Sorting and deduplicating gives a strictly increasing list of exactly the input's strings. */
  lemma {:induction false} SortDedupSpec(s: seq<string>)
    ensures StrictlySorted(SortDedup(s))
    ensures forall y :: y in SortDedup(s) <==> y in s
  {
    if |s| > 0 {
      var init := s[..|s| - 1];
      SortDedupSpec(init);
      InsertSpec(SortDedup(init), s[|s| - 1]);
      assert forall y :: y in s <==> y in init || y == s[|s| - 1];
    }
  }

  /**
   * A strictly increasing list is determined by its elements, so any
   * sort-then-dedup yields `SortDedup`.
   */
  lemma {:induction false} SortedUnique(a: seq<string>, b: seq<string>)
    requires StrictlySorted(a) && StrictlySorted(b)
    requires forall y :: y in a <==> y in b
    ensures a == b
    decreases |a|
  {
    if |a| > 0 {
      assert a[0] in b;
    }
    if |b| > 0 {
      assert b[0] in a;
    }
    if |a| > 0 && |b| > 0 {
      LessTotal(a[0], b[0]);
      assert a[0] == b[0];
      forall y
        ensures y in a[1..] <==> y in b[1..]
      {
        if y in a[1..] {
          var k :| 1 <= k < |a| && a[k] == y;
          assert Less(a[0], y);
          LessIrreflexive(a[0]);
          assert y in b;
        }
        if y in b[1..] {
          var k :| 1 <= k < |b| && b[k] == y;
          assert Less(b[0], y);
          LessIrreflexive(b[0]);
          assert y in a;
        }
      }
      SortedUnique(a[1..], b[1..]);
      assert a == [a[0]] + a[1..] && b == [b[0]] + b[1..];
    }
  }
}
