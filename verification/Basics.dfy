/** Types shared by the three streaming components. */
module Basics {

  datatype Option<+T> = None | Some(value: T)

  /** A flow event.  Only its type is inspected by the components; the payload is carried along. */
  datatype Event = Event(id: string, eventType: string, payload: seq<bv8>)

  /** Wraps every element, turning values into non-nil pointers. */
  function Somes<T>(xs: seq<T>): (r: seq<Option<T>>)
    ensures |r| == |xs|
    ensures forall i :: 0 <= i < |xs| ==> r[i] == Some(xs[i])
  {
    seq(|xs|, i requires 0 <= i < |xs| => Some(xs[i]))
  }

  lemma SomesAppend<T>(xs: seq<T>, x: T)
    ensures Somes(xs + [x]) == Somes(xs) + [Some(x)]
  {
  }
}
