/**
 * Option and Result, the shapes Rust's Option<T> and Result<T, E> take in
 * this model, and `filter_map` over a sequence.
 */
module Wrappers {
  datatype Option<T> = None | Some(value: T)

  datatype Result<T, E> = Ok(value: T) | Err(error: E)

  /** `iter().filter_map(f).collect()`: what `f` keeps, in the order of `s`. */
  function FilterMap<A, B>(s: seq<A>, f: A -> Option<B>): (r: seq<B>)
    ensures |r| <= |s|
  {
    if |s| == 0 then []
    else FilterMap(s[..|s| - 1], f) + (match f(s[|s| - 1]) case Some(b) => [b] case None => [])
  }

  /** Filtering commutes with concatenation: survivors keep their relative order. */
  lemma {:induction false} FilterMapAppend<A, B>(s: seq<A>, t: seq<A>, f: A -> Option<B>)
    ensures FilterMap(s + t, f) == FilterMap(s, f) + FilterMap(t, f)
    decreases |t|
  {
    if |t| == 0 {
      assert s + t == s;
    } else {
      assert (s + t)[..|s + t| - 1] == s + t[..|t| - 1];
      FilterMapAppend(s, t[..|t| - 1], f);
    }
  }

  /** Exactly the values `f` produces for some entry survive. */
  lemma {:induction false} FilterMapMembers<A, B>(s: seq<A>, f: A -> Option<B>, b: B)
    ensures b in FilterMap(s, f) <==> exists i :: 0 <= i < |s| && f(s[i]) == Some(b)
  {
    if |s| > 0 {
      var init, last := s[..|s| - 1], s[|s| - 1];
      var tail: seq<B> := match f(last) case Some(c) => [c] case None => [];
      assert FilterMap(s, f) == FilterMap(init, f) + tail;
      assert b in tail <==> f(last) == Some(b);
      FilterMapMembers(init, f, b);
      if b in FilterMap(s, f) {
        if b in FilterMap(init, f) {
          var i :| 0 <= i < |init| && f(init[i]) == Some(b);
          assert s[i] == init[i];
        } else {
          assert f(s[|s| - 1]) == Some(b);
        }
      }
      if exists i :: 0 <= i < |s| && f(s[i]) == Some(b) {
        var i :| 0 <= i < |s| && f(s[i]) == Some(b);
        if i < |init| {
          assert init[i] == s[i];
        }
      }
    }
  }

  /** Nothing survives exactly when `f` rejects every entry. */
  lemma {:induction false} FilterMapEmpty<A, B>(s: seq<A>, f: A -> Option<B>)
    ensures FilterMap(s, f) == [] <==> forall i :: 0 <= i < |s| ==> f(s[i]).None?
  {
    if |s| > 0 {
      var init := s[..|s| - 1];
      FilterMapEmpty(init, f);
      assert forall i :: 0 <= i < |init| ==> init[i] == s[i];
    }
  }

  /** The first survivor comes from the first entry `f` keeps. */
  lemma {:induction false} FilterMapFirst<A, B>(s: seq<A>, f: A -> Option<B>)
    requires FilterMap(s, f) != []
    ensures exists k :: 0 <= k < |s| && f(s[k]) == Some(FilterMap(s, f)[0])
                        && forall j :: 0 <= j < k ==> f(s[j]).None?
  {
    var init := s[..|s| - 1];
    assert forall i :: 0 <= i < |init| ==> init[i] == s[i];
    if FilterMap(init, f) == [] {
      FilterMapEmpty(init, f);
      assert f(s[|s| - 1]).Some?;
    } else {
      FilterMapFirst(init, f);
      var k :| 0 <= k < |init| && f(init[k]) == Some(FilterMap(init, f)[0])
                && forall j :: 0 <= j < k ==> f(init[j]).None?;
      assert f(s[k]) == Some(FilterMap(s, f)[0]);
    }
  }

  /** When `f` keeps every entry, there is one result per entry, in order. */
  lemma {:induction false} FilterMapTotal<A, B>(s: seq<A>, f: A -> Option<B>)
    requires forall i :: 0 <= i < |s| ==> f(s[i]).Some?
    ensures |FilterMap(s, f)| == |s|
    ensures forall i :: 0 <= i < |s| ==> FilterMap(s, f)[i] == f(s[i]).value
  {
    if |s| > 0 {
      var init := s[..|s| - 1];
      assert forall i :: 0 <= i < |init| ==> init[i] == s[i];
      FilterMapTotal(init, f);
      assert FilterMap(s, f) == FilterMap(init, f) + [f(s[|s| - 1]).value];
    }
  }

  /** A sum over a list of a natural-valued measure. */
  function SumBy<T>(xs: seq<T>, f: T -> nat): nat {
    if |xs| == 0 then 0 else f(xs[0]) + SumBy(xs[1..], f)
  }

  lemma {:induction false} SumByAppend<T>(a: seq<T>, b: seq<T>, f: T -> nat)
    ensures SumBy(a + b, f) == SumBy(a, f) + SumBy(b, f)
  {
    if |a| > 0 {
      assert (a + b)[1..] == a[1..] + b;
      SumByAppend(a[1..], b, f);
    } else {
      assert a + b == b;
    }
  }
}
