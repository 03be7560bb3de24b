/** Order-preserving filtering of sequences (`Array.prototype.filter`) and first-hit search. */
module Seqs {
  import opened Wrappers

  /** The elements of `s` that satisfy `p`, in their original order. */
  function Filter<T>(p: T -> bool, s: seq<T>): (r: seq<T>)
    ensures |r| <= |s|
    ensures forall x :: x in r ==> x in s && p(x)
    ensures forall x :: x in s && p(x) ==> x in r
    ensures forall x :: x in s ==> multiset(r)[x] == if p(x) then multiset(s)[x] else 0
  {
    if s == [] then []
    else
      assert s == [s[0]] + s[1..];
      (if p(s[0]) then [s[0]] else []) + Filter(p, s[1..])
  }

  /** `r` can be obtained from `s` by deleting elements. */
  predicate IsSubsequence<T(==)>(r: seq<T>, s: seq<T>)
    decreases |s|
  {
    if s == [] then r == []
    else (r != [] && r[0] == s[0] && IsSubsequence(r[1..], s[1..])) || IsSubsequence(r, s[1..])
  }

  lemma {:induction false} FilterIsSubsequence<T>(p: T -> bool, s: seq<T>)
    ensures IsSubsequence(Filter(p, s), s)
  {
    if s != [] {
      FilterIsSubsequence(p, s[1..]);
      if p(s[0]) {
        assert Filter(p, s)[1..] == Filter(p, s[1..]);
      } else {
        assert Filter(p, s) == Filter(p, s[1..]);
      }
    }
  }

  /** Filtering a concatenation filters each part. */
  lemma {:induction false} FilterConcat<T>(p: T -> bool, a: seq<T>, b: seq<T>)
    ensures Filter(p, a + b) == Filter(p, a) + Filter(p, b)
  {
    if a == [] {
      assert a + b == b;
    } else {
      assert (a + b)[1..] == a[1..] + b;
      FilterConcat(p, a[1..], b);
    }
  }

  /** Filtering depends only on which elements satisfy the predicate. */
  lemma {:induction false} FilterSamePredicate<T>(p: T -> bool, q: T -> bool, s: seq<T>)
    requires forall x :: x in s ==> p(x) == q(x)
    ensures Filter(p, s) == Filter(q, s)
  {
    if s != [] {
      FilterSamePredicate(p, q, s[1..]);
    }
  }

  /** A predicate that holds of every element keeps the whole sequence. */
  lemma {:induction false} FilterKeepsAll<T>(p: T -> bool, s: seq<T>)
    requires forall x :: x in s ==> p(x)
    ensures Filter(p, s) == s
  {
    if s != [] {
      FilterKeepsAll(p, s[1..]);
    }
  }

  /** A predicate that holds of no element keeps nothing. */
  lemma {:induction false} FilterKeepsNone<T>(p: T -> bool, s: seq<T>)
    requires forall x :: x in s ==> !p(x)
    ensures Filter(p, s) == []
  {
    if s != [] {
      FilterKeepsNone(p, s[1..]);
    }
  }

  /** `i` is the first position of `s` at which `f` gives a value. */
  predicate FirstHitAt<T, U>(f: T -> Option<U>, s: seq<T>, i: int) {
    0 <= i < |s| && f(s[i]).Some? && forall k :: 0 <= k < i ==> f(s[k]).None?
  }

  /** The value `f` gives at the first position of `s` where it gives one. */
  function FirstHit<T, U>(f: T -> Option<U>, s: seq<T>): (r: Option<U>)
    ensures r.None? <==> forall i :: 0 <= i < |s| ==> f(s[i]).None?
    decreases |s|
  {
    if s == [] then None
    else if f(s[0]).Some? then f(s[0])
    else
      assert forall i :: 1 <= i < |s| ==> s[i] == s[1..][i - 1];
      FirstHit(f, s[1..])
  }

  lemma {:induction false} FirstHitAtIsResult<T, U>(f: T -> Option<U>, s: seq<T>, i: nat)
    requires FirstHitAt(f, s, i)
    ensures FirstHit(f, s) == f(s[i])
    decreases i
  {
    if i > 0 {
      assert FirstHitAt(f, s[1..], i - 1) by {
        forall k | 0 <= k < i - 1 ensures f(s[1..][k]).None? {
          assert s[1..][k] == s[k + 1];
        }
      }
      FirstHitAtIsResult(f, s[1..], i - 1);
    }
  }

  lemma {:induction false} FirstHitWitness<T, U>(f: T -> Option<U>, s: seq<T>)
    requires FirstHit(f, s).Some?
    ensures exists i :: FirstHitAt(f, s, i) && f(s[i]) == FirstHit(f, s)
    decreases |s|
  {
    if f(s[0]).Some? {
      assert FirstHitAt(f, s, 0);
    } else {
      FirstHitWitness(f, s[1..]);
      var j :| FirstHitAt(f, s[1..], j) && f(s[1..][j]) == FirstHit(f, s[1..]);
      assert s[1..][j] == s[j + 1];
      forall k | 0 <= k < j + 1 ensures f(s[k]).None? {
        if k > 0 {
          assert s[k] == s[1..][k - 1];
        }
      }
      assert FirstHitAt(f, s, j + 1);
    }
  }

  lemma {:induction false} FirstHitConcat<T, U>(f: T -> Option<U>, a: seq<T>, b: seq<T>)
    ensures FirstHit(f, a + b) == if FirstHit(f, a).Some? then FirstHit(f, a) else FirstHit(f, b)
    decreases |a|
  {
    if a == [] {
      assert a + b == b;
    } else {
      assert (a + b)[0] == a[0];
      assert (a + b)[1..] == a[1..] + b;
      FirstHitConcat(f, a[1..], b);
    }
  }

  /** The search loop: positions are tried in order and the first value `f` gives is returned at once. */
  method FindFirstHit<T, U>(f: T -> Option<U>, s: seq<T>) returns (r: Option<U>)
    ensures r == FirstHit(f, s)
  {
    var i := 0;
    while i < |s|
      invariant 0 <= i <= |s|
      invariant forall k :: 0 <= k < i ==> f(s[k]).None?
    {
      var hit := f(s[i]);
      if hit.Some? {
        FirstHitAtIsResult(f, s, i);
        return hit;
      }
      i := i + 1;
    }
    return None;
  }
}
