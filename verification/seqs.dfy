/** Generic sequence operations used by the world update and the scoring passes. */
module Seqs {

  /** `a` occurs inside `b` in the same relative order, possibly with gaps. */
  predicate IsSubsequence<T(==)>(a: seq<T>, b: seq<T>)
    decreases |b|
  {
    if |a| == 0 then true
    else if |b| == 0 then false
    else (a[0] == b[0] && IsSubsequence(a[1..], b[1..])) || IsSubsequence(a, b[1..])
  }

  /** Applies `f` to every element, keeping positions. */
  function Map<T, U>(f: T -> U, s: seq<T>): (r: seq<U>)
    ensures |r| == |s|
    ensures forall i :: 0 <= i < |s| ==> r[i] == f(s[i])
  {
    seq(|s|, i requires 0 <= i < |s| => f(s[i]))
  }

  /** The number of elements of `s` that satisfy `p`. */
  function Count<T>(s: seq<T>, p: T -> bool): (n: nat)
    ensures n <= |s|
    decreases |s|
  {
    if |s| == 0 then 0 else (if p(s[0]) then 1 else 0) + Count(s[1..], p)
  }

  /** Nothing in `s` satisfies `p`, so the count is zero. */
  lemma {:induction false} CountNone<T>(s: seq<T>, p: T -> bool)
    requires forall i :: 0 <= i < |s| ==> !p(s[i])
    ensures Count(s, p) == 0
    decreases |s|
  {
    if |s| > 0 {
      assert !p(s[0]);
      CountNone(s[1..], p);
    }
  }

  /**
   * Moves every element with `step` and keeps those that `keep` accepts
   * afterwards: the shape of a JavaScript `filter` whose callback mutates
   * the element before testing it.
   */
  function StepAndKeep<T(==)>(s: seq<T>, step: T -> T, keep: T -> bool): (r: seq<T>)
    ensures |r| <= |s|
    ensures IsSubsequence(r, Map(step, s))
    ensures forall k :: 0 <= k < |r| ==> r[k] in Map(step, s) && keep(r[k])
    ensures forall i :: 0 <= i < |s| && keep(step(s[i])) ==> step(s[i]) in r
    ensures |r| == Count(Map(step, s), keep)
    decreases |s|
  {
    if |s| == 0 then []
    else
      var x := step(s[0]);
      var rest := StepAndKeep(s[1..], step, keep);
      assert Map(step, s) == [x] + Map(step, s[1..]);
      assert Map(step, s)[1..] == Map(step, s[1..]);
      if keep(x) then
        assert ([x] + rest)[1..] == rest;
        [x] + rest
      else rest
  }

  /** One unfolding of `StepAndKeep`: the first element's fate, then the rest. */
  lemma StepAndKeepCons<T>(s: seq<T>, step: T -> T, keep: T -> bool)
    requires |s| > 0
    ensures StepAndKeep(s, step, keep)
         == (if keep(step(s[0])) then [step(s[0])] else []) + StepAndKeep(s[1..], step, keep)
  {
  }

  /** Filtering a concatenation filters each part. */
  lemma StepAndKeepAppend<T>(s: seq<T>, t: seq<T>, step: T -> T, keep: T -> bool)
    ensures StepAndKeep(s + t, step, keep) == StepAndKeep(s, step, keep) + StepAndKeep(t, step, keep)
  {
    assert Map(step, s + t) == Map(step, s) + Map(step, t);
    StepAndKeepIsKept(s + t, step, keep);
    StepAndKeepIsKept(s, step, keep);
    StepAndKeepIsKept(t, step, keep);
    KeptAppend(Map(step, s), Map(step, t), keep);
  }

  /** The plain filter: the elements of `s` that `p` accepts, in order. */
  function Kept<T>(s: seq<T>, p: T -> bool): seq<T>
    decreases |s|
  {
    if |s| == 0 then [] else (if p(s[0]) then [s[0]] else []) + Kept(s[1..], p)
  }

  /** `StepAndKeep` is the plain filter of the moved sequence. */
  lemma {:induction false} StepAndKeepIsKept<T>(s: seq<T>, step: T -> T, keep: T -> bool)
    ensures StepAndKeep(s, step, keep) == Kept(Map(step, s), keep)
    decreases |s|
  {
    if |s| > 0 {
      StepAndKeepIsKept(s[1..], step, keep);
      StepAndKeepCons(s, step, keep);
      assert Map(step, s)[1..] == Map(step, s[1..]);
    }
  }

  /** The plain filter distributes over concatenation. */
  lemma {:induction false} KeptAppend<T>(u: seq<T>, v: seq<T>, p: T -> bool)
    ensures Kept(u + v, p) == Kept(u, p) + Kept(v, p)
    decreases |u|
  {
    if |u| == 0 {
      assert u + v == v;
    } else {
      assert (u + v)[0] == u[0];
      assert (u + v)[1..] == u[1..] + v;
      KeptAppend(u[1..], v, p);
    }
  }
}
