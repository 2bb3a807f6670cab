/** Ordered selections: which elements of a list are kept, and what is made of them. */
module Selections {
  import opened Basics

  /** `at` holds, in increasing order, exactly the positions of xs whose elements are kept. */
  ghost predicate Selects<T>(xs: seq<T>, keep: T -> bool, at: seq<nat>)
  {
    && (forall k :: 0 <= k < |at| ==> at[k] < |xs|)
    && (forall j, k :: 0 <= j < k < |at| ==> at[j] < at[k])
    && (forall i :: 0 <= i < |xs| ==> (keep(xs[i]) <==> i in at))
  }

  lemma SelectsNext<T>(xs: seq<T>, keep: T -> bool, at: seq<nat>, x: T)
    requires Selects(xs, keep, at)
    ensures Selects(xs + [x], keep, if keep(x) then at + [|xs|] else at)
  {
    var all, more := xs + [x], if keep(x) then at + [|xs|] else at;
    forall i | 0 <= i < |all|
      ensures keep(all[i]) <==> i in more
    {
      if i < |xs| {
        assert all[i] == xs[i] && (i in more <==> i in at);
      } else {
        assert keep(x) ==> more[|at|] == i;
        assert i !in at;
      }
    }
  }

  /** When everything is kept, everything is selected at its own position. */
  lemma {:induction false} SelectsAll<T>(xs: seq<T>, keep: T -> bool, at: seq<nat>)
    requires Selects(xs, keep, at)
    requires forall i :: 0 <= i < |xs| ==> keep(xs[i])
    ensures |at| == |xs| && forall k :: 0 <= k < |at| ==> at[k] == k
  {
    assert at == [] || at[0] < |xs|;
    if xs != [] {
      var n := |xs| - 1;
      assert keep(xs[n]);
      var last :| 0 <= last < |at| && at[last] == n;
      assert last == |at| - 1;
      forall i | 0 <= i < n
        ensures keep(xs[..n][i]) <==> i in at[..last]
      {
        assert keep(xs[i]);
        var k :| 0 <= k < |at| && at[k] == i;
        assert at[..last][k] == i;
      }
      SelectsAll(xs[..n], keep, at[..last]);
    }
  }

  function Has<T, U>(f: T -> Option<U>): (keep: T -> bool)
  {
    (x: T) => f(x).Some?
  }

  /** `ys` is what f makes, in order, of exactly those elements of xs of which it makes anything; they stand at `at`. */
  ghost predicate Collects<T, U>(xs: seq<T>, f: T -> Option<U>, ys: seq<U>, at: seq<nat>)
  {
    && Selects(xs, Has(f), at)
    && |at| == |ys| && forall k :: 0 <= k < |at| ==> f(xs[at[k]]) == Some(ys[k])
  }

  lemma CollectsNext<T, U>(xs: seq<T>, f: T -> Option<U>, ys: seq<U>, at: seq<nat>, x: T)
    requires Collects(xs, f, ys, at)
    ensures f(x).None? ==> Collects(xs + [x], f, ys, at)
    ensures f(x).Some? ==> Collects(xs + [x], f, ys + [f(x).value], at + [|xs|])
  {
    SelectsNext(xs, Has(f), at, x);
  }

  /** When f makes something of every element, it does so in place. */
  lemma CollectsAll<T, U>(xs: seq<T>, f: T -> Option<U>, ys: seq<U>, at: seq<nat>)
    requires Collects(xs, f, ys, at)
    requires forall i :: 0 <= i < |xs| ==> f(xs[i]).Some?
    ensures |ys| == |xs| && forall k :: 0 <= k < |xs| ==> f(xs[k]) == Some(ys[k])
  {
    SelectsAll(xs, Has(f), at);
    assert forall k :: 0 <= k < |at| ==> f(xs[at[k]]) == Some(ys[k]);
  }
}
