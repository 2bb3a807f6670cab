/** Traces of a loop that runs against a tape: what the others do at each tick, the loop's own steps, and the
    looks at which it could not move. */
module Tape {

  datatype Entry<T, A> = Begin(t: T) | Do(a: A) | Idle

  /** The ticks of a trace, in order. */
  function Ticks<T, A>(trace: seq<Entry<T, A>>): (r: seq<T>)
  {
    if trace == [] then []
    else
      var n := |trace| - 1;
      if trace[n].Begin? then Ticks(trace[..n]) + [trace[n].t] else Ticks(trace[..n])
  }

  /** Between any two ticks the loop moved, or was found unable to. */
  ghost predicate Prompt<T, A>(trace: seq<Entry<T, A>>)
  {
    forall i :: 0 < i < |trace| && trace[i].Begin? ==> !trace[i - 1].Begin?
  }

  /** ... and after the last one too. */
  ghost predicate Moved<T, A>(trace: seq<Entry<T, A>>)
  {
    Prompt(trace) && (trace != [] ==> !trace[|trace| - 1].Begin?)
  }

  lemma Append<T, A>(trace: seq<Entry<T, A>>, e: Entry<T, A>)
    ensures Ticks(trace + [e]) == if e.Begin? then Ticks(trace) + [e.t] else Ticks(trace)
    ensures Prompt(trace) && !e.Begin? ==> Moved(trace + [e])
    ensures Moved(trace) ==> Prompt(trace + [e])
  {
    assert (trace + [e])[..|trace|] == trace;
  }
}
