/** Weighted sums over lists: of actions, and of concurrent calls. */
module Sums {

  function Total<T>(weight: T -> int, xs: seq<T>): (r: int)
  {
    if xs == [] then 0 else weight(xs[0]) + Total(weight, xs[1..])
  }

  lemma {:induction false} TotalUpdate<T>(weight: T -> int, xs: seq<T>, i: nat, x: T)
    requires i < |xs|
    ensures Total(weight, xs[i := x]) == Total(weight, xs) - weight(xs[i]) + weight(x)
  {
    if i > 0 {
      assert xs[i := x][1..] == xs[1..][i - 1 := x];
      TotalUpdate(weight, xs[1..], i - 1, x);
    }
  }

  lemma {:induction false} TotalAppend<T>(weight: T -> int, xs: seq<T>, x: T)
    ensures Total(weight, xs + [x]) == Total(weight, xs) + weight(x)
  {
    if xs != [] {
      assert (xs + [x])[1..] == xs[1..] + [x];
      TotalAppend(weight, xs[1..], x);
    }
  }

  lemma {:induction false} TotalNatural<T(!new)>(weight: T -> int, xs: seq<T>)
    requires forall x :: weight(x) >= 0
    ensures Total(weight, xs) >= 0
  {
    if xs != [] {
      TotalNatural(weight, xs[1..]);
    }
  }
}
