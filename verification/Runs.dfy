/** Runs of a labelled step function, shared by all the machines of this project. */
module Runs {
  import opened Basics
  import Sums

  /** The state after a list of actions, or None if one of them was not enabled. */
  function Run<S, A>(next: (S, A) -> Option<S>, s: S, acts: seq<A>): (r: Option<S>)
    decreases |acts|
  {
    if acts == [] then Some(s)
    else
      var n := next(s, acts[0]);
      if n.Some? then Run(next, n.value, acts[1..]) else None
  }

  lemma {:induction false} RunAppend<S, A>(next: (S, A) -> Option<S>, s: S, acts: seq<A>, a: A)
    ensures Run(next, s, acts + [a]) ==
            if Run(next, s, acts).Some? then next(Run(next, s, acts).value, a) else None
    decreases |acts|
  {
    if acts == [] {
      assert next(s, a).Some? ==> Run(next, next(s, a).value, []) == next(s, a);
    } else {
      assert (acts + [a])[1..] == acts[1..] + [a];
      if next(s, acts[0]).Some? {
        RunAppend(next, next(s, acts[0]).value, acts[1..], a);
      }
    }
  }

  lemma {:induction false} RunConcat<S, A>(next: (S, A) -> Option<S>, s: S, xs: seq<A>, ys: seq<A>)
    ensures Run(next, s, xs + ys) == if Run(next, s, xs).Some? then Run(next, Run(next, s, xs).value, ys) else None
    decreases |xs|
  {
    if xs == [] {
      assert xs + ys == ys;
    } else {
      assert (xs + ys)[1..] == xs[1..] + ys;
      if next(s, xs[0]).Some? {
        RunConcat(next, next(s, xs[0]).value, xs[1..], ys);
      }
    }
  }

  /** What every step keeps holds after every run. */
  lemma {:induction false} Invariant<S(!new), A(!new)>(next: (S, A) -> Option<S>, inv: S -> bool, s: S, acts: seq<A>)
    requires forall t, a :: inv(t) && next(t, a).Some? ==> inv(next(t, a).value)
    requires inv(s) && Run(next, s, acts).Some?
    ensures inv(Run(next, s, acts).value)
    decreases |acts|
  {
    if acts != [] {
      Invariant(next, inv, next(s, acts[0]).value, acts[1..]);
    }
  }

  /** A run from a state without p to a state with p acquires it at some action. */
  lemma {:induction false} Crossing<S(!new), A(!new)>(next: (S, A) -> Option<S>, p: S -> bool, s: S, acts: seq<A>)
    returns (k: nat)
    requires Run(next, s, acts).Some? && !p(s) && p(Run(next, s, acts).value)
    ensures k < |acts| && Run(next, s, acts[..k]).Some? && !p(Run(next, s, acts[..k]).value)
    ensures var t := next(Run(next, s, acts[..k]).value, acts[k]);
            t.Some? && p(t.value) && Run(next, t.value, acts[k + 1..]) == Run(next, s, acts)
    decreases |acts|
  {
    var u := next(s, acts[0]).value;
    if p(u) {
      k := 0;
    } else {
      k := Crossing(next, p, u, acts[1..]);
      assert acts[1..][..k] == acts[1..k + 1] && acts[1..][k] == acts[k + 1] && acts[1..][k + 1..] == acts[k + 2..];
      assert acts[..k + 1][0] == acts[0] && acts[..k + 1][1..] == acts[1..k + 1];
      k := k + 1;
    }
  }

  /** If every step pays its weight out of a potential, a whole run pays its total. */
  lemma {:induction false} Potential<S(!new), A(!new)>(
      next: (S, A) -> Option<S>, inv: S -> bool, potential: S -> int, weight: A -> int, s: S, acts: seq<A>)
    requires forall t, a :: inv(t) && next(t, a).Some? ==>
                              inv(next(t, a).value) && potential(next(t, a).value) + weight(a) <= potential(t)
    requires inv(s) && Run(next, s, acts).Some?
    ensures inv(Run(next, s, acts).value)
    ensures potential(Run(next, s, acts).value) + Sums.Total(weight, acts) <= potential(s)
    decreases |acts|
  {
    if acts != [] {
      Potential(next, inv, potential, weight, next(s, acts[0]).value, acts[1..]);
    }
  }

  /** If every step lowers a rank, a run is no longer than the rank it uses up. */
  lemma {:induction false} Bounded<S(!new), A(!new)>(
      next: (S, A) -> Option<S>, inv: S -> bool, rank: S -> int, s: S, acts: seq<A>)
    requires forall t, a :: inv(t) && next(t, a).Some? ==>
                              inv(next(t, a).value) && rank(next(t, a).value) < rank(t)
    requires inv(s) && Run(next, s, acts).Some?
    ensures inv(Run(next, s, acts).value) && rank(Run(next, s, acts).value) + |acts| <= rank(s)
    decreases |acts|
  {
    if acts != [] {
      Bounded(next, inv, rank, next(s, acts[0]).value, acts[1..]);
    }
  }
}
