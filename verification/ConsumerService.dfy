/** Any number of Consume calls and Stop calls over one ConsumerService (pkg/consumer/service.go). */
module ConsumerService {
  import opened Basics
  import opened ConsumerStream
  import Runs
  import Sums

  /** sync.Once around close(stopCh), and the callers of Stop. */
  datatype Once = Fresh | Closing(j: nat) | Closed
  datatype StopCall = Entered | InOnce | StopReturned

  /** `closes` counts the executions of close(stopCh). */
  datatype World = World(
    streams: seq<Stream>, once: Once, stops: seq<StopCall>, closes: nat,
    eventsConsumed: nat, eventsFailed: nat, errorCount: nat, successCount: nat)

  function InitialWorld(): (w: World)
  {
    World([], Fresh, [], 0, 0, 0, 0, 0)
  }

  datatype WorldAction = Open | At(i: nat, a: Action) | CallStop | StopStep(j: nat)

  predicate Stopped(w: World) { w.closes > 0 }

  /** The atomic adds made by a step of a stream: one when a result is counted, one right after. */
  function WithAdds(w: World, s: Stream, t: Stream): (r: World)
  {
    if s.pc.Settle? && t.pc == SecondAdd(true) then w.(eventsConsumed := w.eventsConsumed + 1)
    else if s.pc.Settle? && t.pc == SecondAdd(false) then w.(eventsFailed := w.eventsFailed + 1)
    else if s.pc == SecondAdd(true) && t.pc.Top? then w.(successCount := w.successCount + 1)
    else if s.pc == SecondAdd(false) && t.pc.Top? then w.(errorCount := w.errorCount + 1)
    else w
  }

  function StopNext(w: World, j: nat): (r: Option<World>)
  {
    if j >= |w.stops| then None
    else match w.stops[j]
      case Entered =>
        (match w.once
         case Fresh => Some(w.(once := Closing(j), stops := w.stops[j := InOnce]))
         case Closing(_) => None
         case Closed => Some(w.(stops := w.stops[j := StopReturned])))
      case InOnce => Some(w.(closes := w.closes + 1, once := Closed, stops := w.stops[j := StopReturned]))
      case StopReturned => None
  }

  function WorldNext(c: Config, w: World, a: WorldAction): (r: Option<World>)
  {
    match a
    case Open => Some(w.(streams := w.streams + [ConsumerStream.INITIAL]))
    case CallStop => Some(w.(stops := w.stops + [Entered]))
    case StopStep(j) => StopNext(w, j)
    case At(i, sa) =>
      if i >= |w.streams| then None
      else
        var t := Next(c, Stopped(w), w.streams[i], sa);
        if t.None? then None
        else Some(WithAdds(w, w.streams[i], t.value).(streams := w.streams[i := t.value]))
  }

  function Step(c: Config): (f: (World, WorldAction) -> Option<World>)
  {
    (w, a) => WorldNext(c, w, a)
  }

  function Run(c: Config, acts: seq<WorldAction>): (r: Option<World>)
  {
    Runs.Run(Step(c), InitialWorld(), acts)
  }

  // ----- totals over the streams

  datatype Metric = Consumed | Failed | OkBetween | FailBetween

  function Weight(m: Metric, s: Stream): (r: nat)
  {
    match m
    case Consumed => s.consumed
    case Failed => s.failed
    case OkBetween => if s.pc == SecondAdd(true) then 1 else 0
    case FailBetween => if s.pc == SecondAdd(false) then 1 else 0
  }

  function WeightOf(m: Metric): (weight: Stream -> int)
  {
    (s: Stream) => Weight(m, s)
  }

  function Total(m: Metric, ss: seq<Stream>): (r: int)
  {
    Sums.Total(WeightOf(m), ss)
  }

  ghost predicate Totals(w: World)
  {
    && w.eventsConsumed == Total(Consumed, w.streams)
    && w.eventsFailed == Total(Failed, w.streams)
    && w.eventsConsumed == w.successCount + Total(OkBetween, w.streams)
    && w.eventsFailed == w.errorCount + Total(FailBetween, w.streams)
  }

  ghost predicate StreamsValid(c: Config, w: World)
  {
    forall i :: 0 <= i < |w.streams| ==> Inv(c, w.streams[i])
  }

  /** At most one close: someone is closing exactly when the Once is taken and not yet done. */
  ghost predicate StopsOnce(w: World)
  {
    && w.closes == (if w.once.Closed? then 1 else 0)
    && (w.once.Closing? ==> w.once.j < |w.stops|)
    && (forall j :: 0 <= j < |w.stops| ==> (w.stops[j].InOnce? <==> w.once.Closing? && w.once.j == j))
    && (forall j :: 0 <= j < |w.stops| && w.stops[j].StopReturned? ==> w.once.Closed?)
  }

  ghost predicate WorldInv(c: Config, w: World)
  {
    StreamsValid(c, w) && Totals(w) && StopsOnce(w)
  }

  /** How one step of a stream moves its own counters. */
  lemma StreamAdds(c: Config, w: World, s: Stream, a: Action)
    requires Next(c, Stopped(w), s, a).Some?
    ensures var t := Next(c, Stopped(w), s, a).value;
            var v := WithAdds(w, s, t);
            && v.eventsConsumed - w.eventsConsumed == t.consumed - s.consumed
            && v.eventsFailed - w.eventsFailed == t.failed - s.failed
            && v.successCount - w.successCount
               == t.consumed - s.consumed - (Weight(OkBetween, t) - Weight(OkBetween, s))
            && v.errorCount - w.errorCount
               == t.failed - s.failed - (Weight(FailBetween, t) - Weight(FailBetween, s))
            && v.streams == w.streams && v.once == w.once && v.stops == w.stops && v.closes == w.closes
  {
    match a
    case Go =>
      match s.pc {
        case Dispatch =>
        case Settle =>
        case SecondAdd(_) =>
        case _ =>
      }
    case Reply(_) =>
    case _ =>
  }

  lemma AddsKeepTotals(w: World, i: nat, t: Stream, v: World)
    requires Totals(w) && i < |w.streams| && v.streams == w.streams[i := t]
    requires v.eventsConsumed - w.eventsConsumed == t.consumed - w.streams[i].consumed
    requires v.eventsFailed - w.eventsFailed == t.failed - w.streams[i].failed
    requires v.successCount - w.successCount
             == t.consumed - w.streams[i].consumed - (Weight(OkBetween, t) - Weight(OkBetween, w.streams[i]))
    requires v.errorCount - w.errorCount
             == t.failed - w.streams[i].failed - (Weight(FailBetween, t) - Weight(FailBetween, w.streams[i]))
    ensures Totals(v)
  {
    Sums.TotalUpdate(WeightOf(Consumed), w.streams, i, t);
    Sums.TotalUpdate(WeightOf(Failed), w.streams, i, t);
    Sums.TotalUpdate(WeightOf(OkBetween), w.streams, i, t);
    Sums.TotalUpdate(WeightOf(FailBetween), w.streams, i, t);
  }

  lemma StreamStepKeepsWorld(c: Config, w: World, i: nat, a: Action)
    requires WorldInv(c, w) && i < |w.streams| && Next(c, Stopped(w), w.streams[i], a).Some?
    ensures WorldInv(c, WorldNext(c, w, At(i, a)).value)
  {
    var s := w.streams[i];
    var t := Next(c, Stopped(w), s, a).value;
    StepKeepsInv(c, Stopped(w), s, a);
    StreamAdds(c, w, s, a);
    AddsKeepTotals(w, i, t, WorldNext(c, w, At(i, a)).value);
  }

  lemma InitialStreamValid(c: Config)
    ensures Inv(c, ConsumerStream.INITIAL)
  {
    assert Accepted(c, []) == [];
  }

  lemma StopKeepsWorld(c: Config, w: World, a: WorldAction)
    requires WorldInv(c, w) && !a.At? && !a.Open? && WorldNext(c, w, a).Some?
    ensures WorldInv(c, WorldNext(c, w, a).value)
  {
    var v := WorldNext(c, w, a).value;
    assert v.streams == w.streams && Totals(v);
    assert StopsOnce(v);
  }

  lemma OpenKeepsTotals(w: World, s: Stream)
    requires Totals(w) && forall m: Metric :: Weight(m, s) == 0
    ensures Totals(w.(streams := w.streams + [s]))
  {
    Sums.TotalAppend(WeightOf(Consumed), w.streams, s);
    Sums.TotalAppend(WeightOf(Failed), w.streams, s);
    Sums.TotalAppend(WeightOf(OkBetween), w.streams, s);
    Sums.TotalAppend(WeightOf(FailBetween), w.streams, s);
  }

  lemma OpenKeepsWorld(c: Config, w: World)
    requires WorldInv(c, w)
    ensures WorldInv(c, w.(streams := w.streams + [ConsumerStream.INITIAL]))
  {
    InitialStreamValid(c);
    OpenKeepsTotals(w, ConsumerStream.INITIAL);
  }

  lemma StepKeepsWorld(c: Config, w: World, a: WorldAction)
    requires WorldInv(c, w) && WorldNext(c, w, a).Some?
    ensures WorldInv(c, WorldNext(c, w, a).value)
  {
    match a
    case Open =>
      OpenKeepsWorld(c, w);
    case At(i, sa) => StreamStepKeepsWorld(c, w, i, sa);
    case CallStop => StopKeepsWorld(c, w, a);
    case StopStep(j) => StopKeepsWorld(c, w, a);
  }

  lemma EveryRunKeepsWorld(c: Config, acts: seq<WorldAction>)
    requires Run(c, acts).Some?
    ensures WorldInv(c, Run(c, acts).value)
  {
    var inv := w => WorldInv(c, w);
    var next := Step(c);
    forall w, a | inv(w) && next(w, a).Some?
      ensures inv(next(w, a).value)
    {
      StepKeepsWorld(c, w, a);
    }
    Runs.Invariant(next, inv, InitialWorld(), acts);
  }

  /** Drain safety for every stream of every run. */
  lemma AcknowledgedStreamsAreDrained(c: Config, acts: seq<WorldAction>, i: nat)
    requires Run(c, acts).Some? && i < |Run(c, acts).value.streams|
    requires var s := Run(c, acts).value.streams[i]; s.pc.Returned? && s.pc.o.Acked?
    ensures var s := Run(c, acts).value.streams[i];
            && s.received == AsRecv(s.dispatched) + [RecvEof]
            && s.called == Accepted(c, s.dispatched)
            && s.callback.NoCallback? && s.finished == s.settled && |s.settled| == |s.called|
            && (var t := Fold(c, s.dispatched, s.settled);
                s.pc.o.r == Response(t.consumed, t.failed, Summaries(t.failed))
                && t.consumed + t.failed == |s.called|)
            && (s.dispatched != [] ==> s.called != [])
  {
    EveryRunKeepsWorld(c, acts);
    AckMeansDrained(c, Run(c, acts).value.streams[i]);
  }

  /** Each stream has at most one receive outstanding and one callback running, and runs callbacks
      in receive order; the global counters are the sums over the streams, and the success and
      error counters lag them by the streams that are between their two adds. */
  lemma CountersAreSums(c: Config, acts: seq<WorldAction>)
    requires Run(c, acts).Some?
    ensures var w := Run(c, acts).value;
            && w.eventsConsumed == Total(Consumed, w.streams)
            && w.eventsFailed == Total(Failed, w.streams)
            && w.successCount == w.eventsConsumed - Total(OkBetween, w.streams)
            && w.errorCount == w.eventsFailed - Total(FailBetween, w.streams)
            && forall i :: 0 <= i < |w.streams| ==>
                 var s := w.streams[i];
                 && |s.received| <= s.recvsStarted <= |s.received| + 1
                 && |s.finished| <= |s.called| <= |s.finished| + 1
                 && s.called == Accepted(c, s.dispatched)
                 && AsRecv(s.dispatched) <= s.received
  {
    EveryRunKeepsWorld(c, acts);
    var w := Run(c, acts).value;
    forall i | 0 <= i < |w.streams|
      ensures AsRecv(w.streams[i].dispatched) <= w.streams[i].received
    {
      assert Receives(w.streams[i]);
    }
  }

  /** However many Stop calls run concurrently, the channel is closed at most once, and it is closed
      when any of them returns. */
  lemma StopClosesOnce(c: Config, acts: seq<WorldAction>)
    requires Run(c, acts).Some?
    ensures var w := Run(c, acts).value;
            && w.closes <= 1
            && forall j :: 0 <= j < |w.stops| && w.stops[j].StopReturned? ==> w.closes == 1
  {
    EveryRunKeepsWorld(c, acts);
  }

  ghost predicate Explained(c: Config, w: World)
  {
    && WorldInv(c, w)
    && forall i :: 0 <= i < |w.streams| ==> RefusalJustified(c, Stopped(w), w.streams[i])
  }

  lemma StreamStepKeepsExplained(c: Config, w: World, i: nat, a: Action)
    requires Explained(c, w) && i < |w.streams| && Next(c, Stopped(w), w.streams[i], a).Some?
    ensures var v := WorldNext(c, w, At(i, a)).value;
            forall k :: 0 <= k < |v.streams| ==> RefusalJustified(c, Stopped(v), v.streams[k])
  {
    StreamAdds(c, w, w.streams[i], a);
    StepKeepsJustified(c, Stopped(w), w.streams[i], a);
  }

  lemma StopKeepsExplained(c: Config, w: World, a: WorldAction)
    requires Explained(c, w) && !a.At? && WorldNext(c, w, a).Some?
    ensures var v := WorldNext(c, w, a).value;
            forall k :: 0 <= k < |v.streams| ==> RefusalJustified(c, Stopped(v), v.streams[k])
  {
    var v := WorldNext(c, w, a).value;
    forall k | 0 <= k < |v.streams|
      ensures RefusalJustified(c, Stopped(v), v.streams[k])
    {
      if k < |w.streams| && !Stopped(w) {
        StopKeepsJustified(c, w.streams[k], Stopped(v));
      }
    }
  }

  lemma StepKeepsExplained(c: Config, w: World, a: WorldAction)
    requires Explained(c, w) && WorldNext(c, w, a).Some?
    ensures Explained(c, WorldNext(c, w, a).value)
  {
    StepKeepsWorld(c, w, a);
    if a.At? {
      StreamStepKeepsExplained(c, w, a.i, a.a);
    } else {
      StopKeepsExplained(c, w, a);
    }
  }

  /** A stream that refuses has a reason, and its status says which: the receive failed, the event was
      nil, no handler was configured, nothing of a non-empty input was accepted, the callback reported
      a context error, the stream's context ended, or the service was stopped. */
  lemma RefusalsAreExplained(c: Config, acts: seq<WorldAction>, i: nat)
    requires Run(c, acts).Some? && i < |Run(c, acts).value.streams|
    requires var s := Run(c, acts).value.streams[i]; s.pc.Returned? && s.pc.o.Refused?
    ensures var w := Run(c, acts).value;
            Justified(c, Stopped(w), w.streams[i], w.streams[i].pc.o.st)
  {
    var inv := w => Explained(c, w);
    var next := Step(c);
    forall w, a | inv(w) && next(w, a).Some?
      ensures inv(next(w, a).value)
    {
      StepKeepsExplained(c, w, a);
    }
    Runs.Invariant(next, inv, InitialWorld(), acts);
  }

  // ----- stop and cancellation

  /** The stream will see a stop or its context's end at its next check. */
  predicate Ended(w: World, i: nat)
    requires i < |w.streams|
  {
    Stopped(w) || w.streams[i].ctxErr.Some?
  }

  /** The check after EOF has been passed. */
  predicate PastEofCheck(s: Stream)
  {
    (s.pc.Dispatch? && s.pending == [RecvEof]) || (s.pc.Returned? && !s.pc.o.Refused?)
  }

  /** Callbacks that may still start, and results that may still be counted, once the stream is ended. */
  function CallAllowance(s: Stream): (r: nat) { if s.pc.Dispatch? then 1 else 0 }
  function CountAllowance(s: Stream): (r: nat) { if s.pc.Settle? then 1 else 0 }

  ghost predicate NoLater(s: Stream, t: Stream)
  {
    && s.called <= t.called && |t.called| + CallAllowance(t) <= |s.called| + CallAllowance(s)
    && s.settled <= t.settled && |t.settled| + CountAllowance(t) <= |s.settled| + CountAllowance(s)
    && (!PastEofCheck(s) ==> !PastEofCheck(t))
    && (s.ctxErr.Some? ==> t.ctxErr.Some?)
  }

  lemma EndedStep(c: Config, stopped: bool, s: Stream, a: Action)
    requires (stopped || s.ctxErr.Some?) && Next(c, stopped, s, a).Some?
    ensures NoLater(s, Next(c, stopped, s, a).value)
  {
    match a
    case Go =>
      match s.pc {
        case Dispatch =>
        case Settle =>
        case _ =>
      }
    case Reply(_) =>
    case _ =>
  }

  lemma EndedWorldStep(c: Config, w: World, i: nat, a: WorldAction)
    requires i < |w.streams| && Ended(w, i) && WorldNext(c, w, a).Some?
    ensures var v := WorldNext(c, w, a).value;
            i < |v.streams| && Ended(v, i) && NoLater(w.streams[i], v.streams[i])
  {
    match a
    case At(k, sa) =>
      StreamAdds(c, w, w.streams[k], sa);
      if k == i {
        EndedStep(c, Stopped(w), w.streams[i], sa);
      }
    case _ =>
  }

  /** From the moment the service is stopped or the stream's context has ended: unless the check
      after EOF had already been passed the stream never reports success; at most one more callback
      starts on it, and none once it has returned; and no result is counted any more except one
      whose check had already been passed. */
  lemma AfterStopOrCancel(c: Config, w: World, acts: seq<WorldAction>, i: nat)
    requires i < |w.streams| && Ended(w, i) && Runs.Run(Step(c), w, acts).Some?
    ensures var v := Runs.Run(Step(c), w, acts).value;
            && i < |v.streams|
            && (!PastEofCheck(w.streams[i]) && v.streams[i].pc.Returned? ==> v.streams[i].pc.o.Refused?)
            && w.streams[i].called <= v.streams[i].called
            && |v.streams[i].called| <= |w.streams[i].called| + 1
            && (!w.streams[i].pc.Dispatch? ==> v.streams[i].called == w.streams[i].called)
            && (!w.streams[i].pc.Settle? ==> v.streams[i].settled == w.streams[i].settled)
  {
    var s := w.streams[i];
    var kept := (v: World) => i < |v.streams| && Ended(v, i) && NoLater(s, v.streams[i]);
    forall v, a | kept(v) && Step(c)(v, a).Some?
      ensures kept(Step(c)(v, a).value)
    {
      EndedWorldStep(c, v, i, a);
    }
    Runs.Invariant(Step(c), kept, w, acts);
  }

  /** t is a later state of the returned stream s, in which its call has done nothing more. */
  predicate StillOver(s: Stream, t: Stream)
  {
    && t.pc == s.pc && t.called == s.called && t.recvsStarted == s.recvsStarted && t.settled == s.settled
    && LeavesCallback(t) == LeavesCallback(s) && LeavesReceive(t) == LeavesReceive(s)
  }

  lemma ReturnedStep(c: Config, stopped: bool, s: Stream, a: Action)
    requires s.pc.Returned? && Next(c, stopped, s, a).Some?
    ensures StillOver(s, Next(c, stopped, s, a).value)
  {
  }

  lemma ReturnedWorldStep(c: Config, v: World, a: WorldAction, i: nat)
    requires i < |v.streams| && v.streams[i].pc.Returned? && WorldNext(c, v, a).Some?
    ensures i < |WorldNext(c, v, a).value.streams|
    ensures StillOver(v.streams[i], WorldNext(c, v, a).value.streams[i])
  {
    if a.At? {
      StreamAdds(c, v, v.streams[a.i], a.a);
      if a.i == i {
        ReturnedStep(c, Stopped(v), v.streams[i], a.a);
      }
    }
  }

  /** A returned stream starts no callback and no receive and counts nothing any more.  What it left behind,
      a callback or a receive, may still answer, but nobody takes the answer. */
  lemma ReturnedStreamIsOver(c: Config, w: World, acts: seq<WorldAction>, i: nat)
    requires i < |w.streams| && w.streams[i].pc.Returned? && Runs.Run(Step(c), w, acts).Some?
    ensures var v := Runs.Run(Step(c), w, acts).value;
            && i < |v.streams| && v.streams[i].pc == w.streams[i].pc
            && v.streams[i].called == w.streams[i].called
            && v.streams[i].recvsStarted == w.streams[i].recvsStarted
            && v.streams[i].settled == w.streams[i].settled
            && LeavesCallback(v.streams[i]) == LeavesCallback(w.streams[i])
            && LeavesReceive(v.streams[i]) == LeavesReceive(w.streams[i])
  {
    var s := w.streams[i];
    var kept := (v: World) => i < |v.streams| && StillOver(s, v.streams[i]);
    forall v, a | kept(v) && Step(c)(v, a).Some?
      ensures kept(Step(c)(v, a).value)
    {
      ReturnedWorldStep(c, v, a, i);
    }
    Runs.Invariant(Step(c), kept, w, acts);
  }

  // ----- what a return leaves behind

  /** Stream i returned at the k-th action of the run: before it the call stands at its last statement. */
  ghost predicate ReturnsAt(c: Config, acts: seq<WorldAction>, i: nat, k: nat)
  {
    && k < |acts| && acts[k].At? && acts[k].i == i
    && Run(c, acts[..k]).Some? && i < |Run(c, acts[..k]).value.streams|
    && !Run(c, acts[..k]).value.streams[i].pc.Returned?
    && Run(c, acts[..k + 1]).Some? && i < |Run(c, acts[..k + 1]).value.streams|
    && Run(c, acts[..k + 1]).value.streams[i].pc.Returned?
  }

  /** In every run every returned stream returned at some action. */
  lemma {:induction false} ReturnedSomewhere(c: Config, acts: seq<WorldAction>, i: nat) returns (k: nat)
    requires Run(c, acts).Some? && i < |Run(c, acts).value.streams|
    requires Run(c, acts).value.streams[i].pc.Returned?
    ensures ReturnsAt(c, acts, i, k)
  {
    if acts == [] {
      assert false;
    }
    var n := |acts| - 1;
    assert acts[..n] + [acts[n]] == acts;
    Runs.RunAppend(Step(c), InitialWorld(), acts[..n], acts[n]);
    var w := Run(c, acts[..n]).value;
    if i < |w.streams| && w.streams[i].pc.Returned? {
      k := ReturnedSomewhere(c, acts[..n], i);
      assert acts[..n][..k] == acts[..k] && acts[..n][..k + 1] == acts[..k + 1];
    } else {
      k := n;
      assert acts[..n + 1] == acts;
      if acts[n].At? {
        StreamAdds(c, w, w.streams[acts[n].i], acts[n].a);
      }
    }
  }

  /** The documentation asks that cancellation wait for the work it cancels.  In every run, a returned stream has
      left its callback behind if and only if it returned from the select that waits for the callback, and its
      receive if and only if it returned from the select that waits for the receive; only a stop or the end of
      the derived context returns from there.  Every other return leaves nothing behind. */
  lemma ReapedUnlessEndedAtASelect(c: Config, acts: seq<WorldAction>, i: nat) returns (k: nat)
    requires Run(c, acts).Some? && i < |Run(c, acts).value.streams|
    requires Run(c, acts).value.streams[i].pc.Returned?
    ensures ReturnsAt(c, acts, i, k)
    ensures var before := Run(c, acts[..k]).value;
            var end := Run(c, acts).value.streams[i];
            && (LeavesCallback(end) <==> before.streams[i].pc.AwaitCall?)
            && (LeavesReceive(end) <==> before.streams[i].pc.AwaitRecv?)
            && (LeavesCallback(end) || LeavesReceive(end) ==>
                  || (acts[k].a.PickDone? && before.streams[i].derivedErr.Some?)
                  || (acts[k].a.PickStop? && Stopped(before)))
  {
    k := ReturnedSomewhere(c, acts, i);
    var w := Run(c, acts[..k]).value;
    EveryRunKeepsWorld(c, acts[..k]);
    assert acts[..k] + [acts[k]] == acts[..k + 1] && acts[..k + 1] + acts[k + 1..] == acts;
    Runs.RunAppend(Step(c), InitialWorld(), acts[..k], acts[k]);
    Runs.RunConcat(Step(c), InitialWorld(), acts[..k + 1], acts[k + 1..]);
    StreamAdds(c, w, w.streams[i], acts[k].a);
    ReturnAbandons(c, Stopped(w), w.streams[i], acts[k].a);
    ReturnedStreamIsOver(c, Run(c, acts[..k + 1]).value, acts[k + 1..], i);
  }

  /** One event is received and its callback started; then the service is stopped. */
  function AbandoningRun(ev: Event): (acts: seq<WorldAction>)
  {
    [Open, At(0, Go), At(0, Go), At(0, RecvReturns(RecvEvent(Some(ev)))), At(0, PickResult), At(0, Go), At(0, Go),
     CallStop, StopStep(0), StopStep(0), At(0, PickStop)]
  }

  lemma Takes(c: Config, w: World, acts: seq<WorldAction>, k: nat, v: World)
    requires k < |acts| && WorldNext(c, w, acts[k]) == Some(v)
    ensures Runs.Run(Step(c), w, acts[k..]) == Runs.Run(Step(c), v, acts[k + 1..])
  {
    assert acts[k..][0] == acts[k] && acts[k..][1..] == acts[k + 1..];
  }

  /** A world with one stream and no adds so far. */
  function OneStream(s: Stream, once: Once, stops: seq<StopCall>, closes: nat): (w: World)
  {
    World([s], once, stops, closes, 0, 0, 0, 0)
  }

  function CallingBack(ev: Event): (s: Stream)
  {
    Stream(AwaitCall, None, None, NotReceiving, 1, [RecvEvent(Some(ev))], [], [ev],
           Running, [ev], [], [], [], 0, 0, 0, [])
  }

  /** The only stream takes a step that counts nothing. */
  lemma StreamTakes(c: Config, acts: seq<WorldAction>, k: nat, s: Stream, t: Stream,
                    once: Once, stops: seq<StopCall>, closes: nat)
    requires k < |acts| && acts[k].At? && acts[k].i == 0
    requires Next(c, closes > 0, s, acts[k].a) == Some(t) && !s.pc.Settle? && !s.pc.SecondAdd?
    ensures Runs.Run(Step(c), OneStream(s, once, stops, closes), acts[k..])
            == Runs.Run(Step(c), OneStream(t, once, stops, closes), acts[k + 1..])
  {
    assert [s][0 := t] == [t];
    Takes(c, OneStream(s, once, stops, closes), acts, k, OneStream(t, once, stops, closes));
  }

  lemma OpenFirst(c: Config, acts: seq<WorldAction>)
    requires acts != [] && acts[0] == Open
    ensures Run(c, acts) == Runs.Run(Step(c), OneStream(ConsumerStream.INITIAL, Fresh, [], 0), acts[1..])
  {
    assert acts[0..] == acts && InitialWorld().streams + [ConsumerStream.INITIAL] == [ConsumerStream.INITIAL];
    Takes(c, InitialWorld(), acts, 0, OneStream(ConsumerStream.INITIAL, Fresh, [], 0));
  }

  function HavingReceived(ev: Event): (s: Stream)
  {
    ConsumerStream.INITIAL.(pc := AwaitRecv, receiver := Received(RecvEvent(Some(ev))), recvsStarted := 1,
                            received := [RecvEvent(Some(ev))])
  }

  lemma ReceiveFirst(c: Config, ev: Event, acts: seq<WorldAction>)
    requires |acts| >= 4 && acts[0] == Open && acts[1] == acts[2] == At(0, Go)
    requires acts[3] == At(0, RecvReturns(RecvEvent(Some(ev))))
    ensures Run(c, acts) == Runs.Run(Step(c), OneStream(HavingReceived(ev), Fresh, [], 0), acts[4..])
  {
    var r := RecvEvent(Some(ev));
    var s1 := ConsumerStream.INITIAL.(pc := Spawn);
    var s2 := s1.(pc := AwaitRecv, receiver := Receiving, recvsStarted := 1);
    assert [] + [r] == [r];
    OpenFirst(c, acts);
    StreamTakes(c, acts, 1, ConsumerStream.INITIAL, s1, Fresh, [], 0);
    StreamTakes(c, acts, 2, s1, s2, Fresh, [], 0);
    StreamTakes(c, acts, 3, s2, HavingReceived(ev), Fresh, [], 0);
  }

  lemma CallsBack(c: Config, ev: Event, s: Stream)
    requires c.types == {} && c.hasHandler
    requires s.pc.Dispatch? && s.pending == [RecvEvent(Some(ev))] && s.dispatched == [] && s.called == []
    ensures Next(c, false, s, Go)
            == Some(s.(called := [ev], dispatched := [ev], pending := [], callback := Running, pc := AwaitCall))
  {
    assert [] + [ev] == [ev];
  }

  lemma StartFirstCallback(c: Config, ev: Event, acts: seq<WorldAction>)
    requires c.types == {} && c.hasHandler
    requires |acts| >= 7 && acts[4] == At(0, PickResult) && acts[5] == acts[6] == At(0, Go)
    ensures Runs.Run(Step(c), OneStream(HavingReceived(ev), Fresh, [], 0), acts[4..])
            == Runs.Run(Step(c), OneStream(CallingBack(ev), Fresh, [], 0), acts[7..])
  {
    var s := HavingReceived(ev);
    var t := s.(receiver := NotReceiving, pending := s.received, pc := GotRecv);
    CallsBack(c, ev, t.(pc := Dispatch));
    StreamTakes(c, acts, 4, s, t, Fresh, [], 0);
    StreamTakes(c, acts, 5, t, t.(pc := Dispatch), Fresh, [], 0);
    StreamTakes(c, acts, 6, t.(pc := Dispatch), CallingBack(ev), Fresh, [], 0);
  }

  lemma StopFirst(c: Config, acts: seq<WorldAction>, k: nat, s: Stream)
    requires k + 3 <= |acts| && acts[k] == CallStop && acts[k + 1] == acts[k + 2] == StopStep(0)
    ensures Runs.Run(Step(c), OneStream(s, Fresh, [], 0), acts[k..])
            == Runs.Run(Step(c), OneStream(s, Closed, [StopReturned], 1), acts[k + 3..])
  {
    assert [] + [Entered] == [Entered];
    assert [Entered][0 := InOnce] == [InOnce] && [InOnce][0 := StopReturned] == [StopReturned];
    Takes(c, OneStream(s, Fresh, [], 0), acts, k, OneStream(s, Fresh, [Entered], 0));
    Takes(c, OneStream(s, Fresh, [Entered], 0), acts, k + 1, OneStream(s, Closing(0), [InOnce], 0));
    Takes(c, OneStream(s, Closing(0), [InOnce], 0), acts, k + 2, OneStream(s, Closed, [StopReturned], 1));
  }

  lemma StopWhileCalling(c: Config, ev: Event, acts: seq<WorldAction>)
    requires |acts| == 11 && acts[7] == CallStop && acts[8] == acts[9] == StopStep(0) && acts[10] == At(0, PickStop)
    ensures Runs.Run(Step(c), OneStream(CallingBack(ev), Fresh, [], 0), acts[7..])
            == Some(OneStream(CallingBack(ev).(pc := Returned(Refused(STOPPED))), Closed, [StopReturned], 1))
  {
    var s := CallingBack(ev);
    StopFirst(c, acts, 7, s);
    StreamTakes(c, acts, 10, s, s.(pc := Returned(Refused(STOPPED))), Closed, [StopReturned], 1);
    assert acts[11..] == [];
  }

  lemma AbandonedRun(c: Config, ev: Event, acts: seq<WorldAction>)
    requires c.types == {} && c.hasHandler && acts == AbandoningRun(ev)
    ensures Run(c, acts)
            == Some(OneStream(CallingBack(ev).(pc := Returned(Refused(STOPPED))), Closed, [StopReturned], 1))
  {
    ReceiveFirst(c, ev, acts);
    StartFirstCallback(c, ev, acts);
    StopWhileCalling(c, ev, acts);
  }

  /** A run that returns with the callback still running, for every event. */
  lemma ReturnLeavesRunningCallback(ev: Event)
    ensures var r := Run(Config({}, true), AbandoningRun(ev));
            && r.Some? && |r.value.streams| == 1
            && r.value.streams[0].pc == Returned(Refused(STOPPED)) && r.value.streams[0].callback.Running?
  {
    AbandonedRun(Config({}, true), ev, AbandoningRun(ev));
  }

  // ----- progress once stopped or cancelled

  /** A step that stream i takes by itself. */
  function OwnWeight(i: nat): (weight: WorldAction -> int)
  {
    (a: WorldAction) => if a.At? && a.i == i && Own(a.a) then 1 else 0
  }

  /** With the service stopped or its stream's context ended, a call that has not returned can always move, without
      waiting for Recv or for its callback. */
  lemma NeverStuckOnceEnded(c: Config, acts: seq<WorldAction>, i: nat)
    requires Run(c, acts).Some? && i < |Run(c, acts).value.streams| && Ended(Run(c, acts).value, i)
    ensures var w := Run(c, acts).value;
            var a := Wake(w.streams[i], Stopped(w));
            !w.streams[i].pc.Returned? ==> Own(a) && WorldNext(c, w, At(i, a)).Some?
  {
    EveryRunKeepsWorld(c, acts);
    var w := Run(c, acts).value;
    if !w.streams[i].pc.Returned? {
      NeverStuck(c, Stopped(w), w.streams[i]);
    }
  }

  /** From then on it has returned after at most four more steps of its own, whatever everyone else does. */
  lemma EndedCallEndsSoon(c: Config, w: World, acts: seq<WorldAction>, i: nat)
    requires i < |w.streams| && Ended(w, i) && Runs.Run(Step(c), w, acts).Some?
    ensures Sums.Total(OwnWeight(i), acts) <= StepsLeft(w.streams[i]) <= 4
  {
    var ended := (v: World) => i < |v.streams| && Ended(v, i);
    var left := (v: World) => if i < |v.streams| then StepsLeft(v.streams[i]) else 0;
    forall v, a | ended(v) && Step(c)(v, a).Some?
      ensures ended(Step(c)(v, a).value)
      ensures left(Step(c)(v, a).value) + OwnWeight(i)(a) <= left(v)
    {
      if a.At? {
        StreamAdds(c, v, v.streams[a.i], a.a);
        if a.i == i {
          EndedStepsDown(c, Stopped(v), v.streams[i], a.a);
        }
      }
    }
    Runs.Potential(Step(c), ended, left, OwnWeight(i), w, acts);
  }

  /** A Stop call never waits for a stream: while one has not returned, one of the Stop calls can move. */
  lemma StopNeverWaits(c: Config, acts: seq<WorldAction>, j: nat)
    requires Run(c, acts).Some? && j < |Run(c, acts).value.stops|
    requires !Run(c, acts).value.stops[j].StopReturned?
    ensures var w := Run(c, acts).value;
            WorldNext(c, w, StopStep(if w.once.Closing? then w.once.j else j)).Some?
  {
    EveryRunKeepsWorld(c, acts);
  }
}
