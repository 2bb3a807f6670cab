/** One Consume call (pkg/consumer/service.go:57-148): the handler, its receive goroutine, its callback
    goroutine and the stream's context, as labelled steps. */
module ConsumerStream {
  import opened Basics
  import opened Errors

  /** The accepted types (empty accepts everything) and whether a handler is configured. */
  datatype Config = Config(types: set<string>, hasHandler: bool)

  /** What stream.Recv returns. */
  datatype Recv = RecvEvent(ev: Option<Event>) | RecvEof | RecvErr(e: Error)

  datatype Response = Response(consumed: nat, failed: nat, errors: seq<string>)

  datatype Outcome = Acked(r: Response) | AckFailed(e: Error) | Refused(st: Status)

  datatype Receiver = NotReceiving | Receiving | Received(r: Recv)

  datatype Callback = NoCallback | Running | Finished(err: Option<Error>)

  /** The handler's next statement. */
  datatype Pc = Top | Spawn | AwaitRecv | GotRecv | Dispatch | AwaitCall | GotCall | Settle
              | SecondAdd(ok: bool) | Returned(o: Outcome)

  /** `pending` is a received item not yet acted on and `outcome` a callback result not yet counted.
      `received`, `dispatched`, `called`, `finished` and `settled` record, in order, everything that
      was received, passed to the type filter, handed to the callback, returned by it and counted. */
  datatype Stream = Stream(
    pc: Pc, ctxErr: Option<Error>, derivedErr: Option<Error>,
    receiver: Receiver, recvsStarted: nat, received: seq<Recv>, pending: seq<Recv>, dispatched: seq<Event>,
    callback: Callback, called: seq<Event>, finished: seq<Option<Error>>,
    outcome: seq<Option<Error>>, settled: seq<Option<Error>>,
    consumed: nat, failed: nat, filtered: nat, summaries: seq<string>)

  const INITIAL := Stream(Top, None, None, NotReceiving, 0, [], [], [], NoCallback, [], [], [], [], 0, 0, 0, [])

  datatype Action =
    // the stream's context, the transport and the callback
    | CtxDone(e: Error) | Propagate | RecvReturns(r: Recv) | CallReturns(err: Option<Error>)
    // the handler
    | Go | PickDone | PickStop | PickResult | Reply(err: Option<Error>)

  const STOPPED := Status(Canceled, "consumer stopped")
  const NO_MATCH := Status(FailedPrecondition, "no events matched consumer input types")
  const RECV_FAILED := Status(Unavailable, "consumer receive failed")
  const NIL_EVENT := Status(InvalidArgument, "nil event")
  const NO_HANDLER := Status(FailedPrecondition, "consumer handler not configured")
  const SUMMARY := "consumer handler failed"

  predicate Accepts(c: Config, ev: Event)
  {
    |c.types| > 0 ==> ev.eventType in c.types
  }

  predicate IsContextError(e: Error)
  {
    Is(e, CtxCanceled) || Is(e, CtxDeadline)
  }

  /** The `cancelled` closure. */
  function Cancelled(s: Stream, stopped: bool): (r: Option<Status>)
  {
    if s.ctxErr.Some? then Some(FromContextError(s.ctxErr.value))
    else if stopped then Some(STOPPED)
    else None
  }

  function Check(s: Stream, stopped: bool, next: Pc): (r: Stream)
  {
    match Cancelled(s, stopped)
    case Some(st) => s.(pc := Returned(Refused(st)))
    case None => s.(pc := next)
  }

  function Dispatched(c: Config, s: Stream): (r: Option<Stream>)
  {
    if s.pending == [] then None
    else match s.pending[0]
      case RecvEof =>
        if s.filtered > 0 && s.consumed + s.failed == 0 then Some(s.(pc := Returned(Refused(NO_MATCH)))) else None
      case RecvErr(_) => Some(s.(pc := Returned(Refused(RECV_FAILED))))
      case RecvEvent(None) => Some(s.(pc := Returned(Refused(NIL_EVENT))))
      case RecvEvent(Some(ev)) =>
        if !Accepts(c, ev) then
          Some(s.(filtered := s.filtered + 1, dispatched := s.dispatched + [ev], pending := [], pc := Top))
        else if !c.hasHandler then Some(s.(pc := Returned(Refused(NO_HANDLER))))
        else Some(s.(called := s.called + [ev], dispatched := s.dispatched + [ev], pending := [],
                     callback := Running, pc := AwaitCall))
  }

  function Settled(s: Stream): (r: Option<Stream>)
  {
    if s.outcome == [] then None
    else
      var counted := s.(settled := s.settled + [s.outcome[0]], outcome := []);
      match s.outcome[0]
      case None => Some(counted.(consumed := s.consumed + 1, pc := SecondAdd(true)))
      case Some(e) =>
        if IsContextError(e) then Some(s.(pc := Returned(Refused(FromContextError(e)))))
        else Some(counted.(failed := s.failed + 1, pc := SecondAdd(false),
                           summaries := if |s.summaries| < 8 then s.summaries + [SUMMARY] else s.summaries))
  }

  function GoNext(c: Config, stopped: bool, s: Stream): (r: Option<Stream>)
  {
    match s.pc
    case Top => Some(Check(s, stopped, Spawn))
    case Spawn => Some(s.(receiver := Receiving, recvsStarted := s.recvsStarted + 1, pc := AwaitRecv))
    case GotRecv => Some(Check(s, stopped, Dispatch))
    case Dispatch => Dispatched(c, s)
    case GotCall => Some(Check(s, stopped, Settle))
    case Settle => Settled(s)
    case SecondAdd(_) => Some(s.(pc := Top))
    case _ => None
  }

  function Next(c: Config, stopped: bool, s: Stream, a: Action): (r: Option<Stream>)
  {
    match a
    case CtxDone(e) =>
      if s.ctxErr.None? && (e == CtxCanceled || e == CtxDeadline) then Some(s.(ctxErr := Some(e))) else None
    case Propagate => if s.ctxErr.Some? && s.derivedErr.None? then Some(s.(derivedErr := s.ctxErr)) else None
    case RecvReturns(r) =>
      if s.receiver.Receiving? then Some(s.(receiver := Received(r), received := s.received + [r])) else None
    case CallReturns(err) =>
      if s.callback.Running? then Some(s.(callback := Finished(err), finished := s.finished + [err])) else None
    case Go => GoNext(c, stopped, s)
    case PickDone =>
      if (s.pc.AwaitRecv? || s.pc.AwaitCall?) && s.derivedErr.Some?
      then Some(s.(pc := Returned(Refused(FromContextError(s.derivedErr.value))))) else None
    case PickStop =>
      if (s.pc.AwaitRecv? || s.pc.AwaitCall?) && stopped then Some(s.(pc := Returned(Refused(STOPPED)))) else None
    case PickResult =>
      if s.pc.AwaitRecv? && s.receiver.Received?
      then Some(s.(pending := [s.receiver.r], receiver := NotReceiving, pc := GotRecv))
      else if s.pc.AwaitCall? && s.callback.Finished?
      then Some(s.(outcome := [s.callback.err], callback := NoCallback, pc := GotCall))
      else None
    case Reply(err) =>
      if s.pc.Dispatch? && s.pending == [RecvEof] && !(s.filtered > 0 && s.consumed + s.failed == 0)
      then Some(s.(pc := Returned(match err
                                  case None => Acked(Response(s.consumed, s.failed, s.summaries))
                                  case Some(e) => AckFailed(e))))
      else None
  }

  // ----- the sequential specification

  function Accepted(c: Config, evs: seq<Event>): (r: seq<Event>)
  {
    if evs == [] then []
    else
      var front := Accepted(c, evs[..|evs| - 1]);
      if Accepts(c, evs[|evs| - 1]) then front + [evs[|evs| - 1]] else front
  }

  lemma AcceptedAppend(c: Config, evs: seq<Event>, ev: Event)
    ensures Accepted(c, evs + [ev]) == Accepted(c, evs) + if Accepts(c, ev) then [ev] else []
  {
    assert (evs + [ev])[..|evs|] == evs;
  }

  datatype Tally = Tally(consumed: nat, failed: nat, filtered: nat)

  /** One callback at a time over the events in order: the i-th accepted event takes the i-th result. */
  function Fold(c: Config, evs: seq<Event>, results: seq<Option<Error>>): (r: Tally)
    requires |results| == |Accepted(c, evs)|
  {
    if evs == [] then Tally(0, 0, 0)
    else
      var n := |evs| - 1;
      if !Accepts(c, evs[n]) then
        var t := Fold(c, evs[..n], results);
        t.(filtered := t.filtered + 1)
      else
        var m := |results| - 1;
        var t := Fold(c, evs[..n], results[..m]);
        if results[m].None? then t.(consumed := t.consumed + 1) else t.(failed := t.failed + 1)
  }

  function Summaries(failed: nat): (r: seq<string>)
  {
    seq(if failed < 8 then failed else 8, i => SUMMARY)
  }

  /** Wraps events the way Recv delivers them. */
  function AsRecv(evs: seq<Event>): (r: seq<Recv>)
  {
    seq(|evs|, i requires 0 <= i < |evs| => RecvEvent(Some(evs[i])))
  }

  function CountOk(results: seq<Option<Error>>): (r: nat)
  {
    if results == [] then 0
    else CountOk(results[..|results| - 1]) + if results[|results| - 1].None? then 1 else 0
  }

  lemma CountOkAppend(results: seq<Option<Error>>, r: Option<Error>)
    ensures CountOk(results + [r]) == CountOk(results) + if r.None? then 1 else 0
  {
    assert (results + [r])[..|results|] == results;
  }

  lemma {:induction false} FoldCounts(c: Config, evs: seq<Event>, results: seq<Option<Error>>)
    requires |results| == |Accepted(c, evs)|
    ensures var t := Fold(c, evs, results);
            && t.consumed == CountOk(results)
            && t.consumed + t.failed == |results|
            && t.filtered + |results| == |evs|
  {
    if evs != [] {
      var n := |evs| - 1;
      FoldCounts(c, evs[..n], if Accepts(c, evs[n]) then results[..|results| - 1] else results);
    }
  }

  // ----- what every step keeps

  function Arrived(s: Stream): (r: seq<Recv>)
  {
    if s.receiver.Received? then [s.receiver.r] else []
  }

  function Answered(s: Stream): (r: seq<Option<Error>>)
  {
    if s.callback.Finished? then [s.callback.err] else []
  }

  ghost predicate Receives(s: Stream)
  {
    && s.received == AsRecv(s.dispatched) + s.pending + Arrived(s)
    && |s.pending| <= 1
    && (s.pc.GotRecv? || s.pc.Dispatch? ==> |s.pending| == 1 && s.receiver.NotReceiving?)
    && (!(s.pc.GotRecv? || s.pc.Dispatch? || s.pc.Returned?) ==> s.pending == [])
    && (!(s.pc.AwaitRecv? || s.pc.Returned?) ==> s.receiver.NotReceiving?)
    && (s.pc.AwaitRecv? ==> !s.receiver.NotReceiving?)
    && s.recvsStarted == |s.received| + if s.receiver.Receiving? then 1 else 0
  }

  ghost predicate Calls(c: Config, s: Stream)
  {
    && s.called == Accepted(c, s.dispatched)
    && s.filtered == |s.dispatched| - |s.called|
    && s.finished == s.settled + s.outcome + Answered(s)
    && |s.called| == |s.finished| + (if s.callback.Running? then 1 else 0)
    && |s.outcome| <= 1
    && (s.pc.GotCall? || s.pc.Settle? ==> |s.outcome| == 1 && s.callback.NoCallback?)
    && (!(s.pc.GotCall? || s.pc.Settle? || s.pc.Returned?) ==> s.outcome == [])
    && (!(s.pc.AwaitCall? || s.pc.Returned?) ==> s.callback.NoCallback?)
    && (s.pc.AwaitCall? ==> !s.callback.NoCallback?)
  }

  ghost predicate Counts(s: Stream)
  {
    && s.consumed == CountOk(s.settled)
    && s.failed == |s.settled| - s.consumed
    && s.summaries == Summaries(s.failed)
    && (forall i :: 0 <= i < |s.settled| && s.settled[i].Some? ==> !IsContextError(s.settled[i].value))
  }

  /** What an acknowledged call must have done. */
  ghost predicate AckedDrained(s: Stream)
  {
    (s.pc.Returned? && !s.pc.o.Refused? ==>
       && s.pending == [RecvEof] && s.receiver.NotReceiving?
       && s.outcome == [] && s.callback.NoCallback?
       && !(s.filtered > 0 && s.called == [])
       && (s.pc.o.Acked? ==> s.pc.o.r == Response(s.consumed, s.failed, s.summaries)))
  }

  ghost predicate Inv(c: Config, s: Stream)
  {
    && Receives(s) && Calls(c, s) && Counts(s) && AckedDrained(s)
    && (s.derivedErr.Some? ==> s.ctxErr.Some?)
  }

  lemma AsRecvAppend(evs: seq<Event>, ev: Event)
    ensures AsRecv(evs + [ev]) == AsRecv(evs) + [RecvEvent(Some(ev))]
  {
  }

  lemma FilterKeepsInv(c: Config, s: Stream, ev: Event)
    requires Inv(c, s) && s.pc.Dispatch? && s.pending == [RecvEvent(Some(ev))] && !Accepts(c, ev)
    ensures Inv(c, s.(filtered := s.filtered + 1, dispatched := s.dispatched + [ev], pending := [], pc := Top))
  {
    var t := s.(filtered := s.filtered + 1, dispatched := s.dispatched + [ev], pending := [], pc := Top);
    AsRecvAppend(s.dispatched, ev);
    AcceptedAppend(c, s.dispatched, ev);
    assert Receives(t);
    assert Calls(c, t);
  }

  lemma CallKeepsInv(c: Config, s: Stream, ev: Event)
    requires Inv(c, s) && s.pc.Dispatch? && s.pending == [RecvEvent(Some(ev))] && Accepts(c, ev)
    ensures Inv(c, s.(called := s.called + [ev], dispatched := s.dispatched + [ev], pending := [],
                      callback := Running, pc := AwaitCall))
  {
    var t := s.(called := s.called + [ev], dispatched := s.dispatched + [ev], pending := [],
                callback := Running, pc := AwaitCall);
    AsRecvAppend(s.dispatched, ev);
    AcceptedAppend(c, s.dispatched, ev);
    assert Receives(t);
    assert Calls(c, t);
  }

  /** Steps that move the handler on, or return, and touch no item. */
  lemma MovesKeepInv(c: Config, s: Stream, pc: Pc)
    requires Inv(c, s)
    requires (s.pc.Top? && pc.Spawn?) || (s.pc.GotRecv? && pc.Dispatch?) || (s.pc.GotCall? && pc.Settle?)
          || (s.pc.SecondAdd? && pc.Top?) || (pc.Returned? && pc.o.Refused?)
    ensures Inv(c, s.(pc := pc))
  {
    var t := s.(pc := pc);
    assert Receives(t) && Calls(c, t);
    assert Counts(t) && AckedDrained(t);
  }

  lemma DispatchKeepsInv(c: Config, s: Stream, t: Stream)
    requires Inv(c, s) && s.pc.Dispatch? && Dispatched(c, s) == Some(t)
    ensures Inv(c, t)
  {
    match s.pending[0]
    case RecvEvent(Some(ev)) =>
      assert s.pending == [RecvEvent(Some(ev))];
      if !Accepts(c, ev) {
        FilterKeepsInv(c, s, ev);
      } else if c.hasHandler {
        CallKeepsInv(c, s, ev);
      } else {
        MovesKeepInv(c, s, t.pc);
      }
    case _ => MovesKeepInv(c, s, t.pc);
  }

  lemma SettleKeepsInv(c: Config, s: Stream)
    requires Inv(c, s) && s.pc.Settle? && Settled(s).Some?
    ensures Inv(c, Settled(s).value)
  {
    assert s.outcome == [s.outcome[0]];
    CountOkAppend(s.settled, s.outcome[0]);
    assert |s.summaries| < 8 ==> Summaries(s.failed + 1) == s.summaries + [SUMMARY];
  }

  lemma ReturnsKeepInv(c: Config, stopped: bool, s: Stream, a: Action)
    requires Inv(c, s) && (a.RecvReturns? || a.CallReturns? || a.PickResult?) && Next(c, stopped, s, a).Some?
    ensures Inv(c, Next(c, stopped, s, a).value)
  {
    var t := Next(c, stopped, s, a).value;
    assert Receives(t) by {
      assert t.received == AsRecv(t.dispatched) + t.pending + Arrived(t);
    }
    assert Calls(c, t) by {
      assert t.finished == t.settled + t.outcome + Answered(t);
    }
  }

  lemma SpawnKeepsInv(c: Config, s: Stream)
    requires Inv(c, s) && s.pc.Spawn?
    ensures Inv(c, s.(receiver := Receiving, recvsStarted := s.recvsStarted + 1, pc := AwaitRecv))
  {
    var t := s.(receiver := Receiving, recvsStarted := s.recvsStarted + 1, pc := AwaitRecv);
    assert Receives(t) && Calls(c, t);
  }

  lemma ReplyKeepsInv(c: Config, stopped: bool, s: Stream, err: Option<Error>)
    requires Inv(c, s) && Next(c, stopped, s, Reply(err)).Some?
    ensures Inv(c, Next(c, stopped, s, Reply(err)).value)
  {
    var t := Next(c, stopped, s, Reply(err)).value;
    assert Receives(t) && Calls(c, t);
    assert Counts(t);
    assert s.callback.NoCallback? && s.outcome == [];
    assert |s.called| == |s.settled|;
  }

  lemma GoKeepsInv(c: Config, stopped: bool, s: Stream, t: Stream)
    requires Inv(c, s) && GoNext(c, stopped, s) == Some(t)
    ensures Inv(c, t)
  {
    if s.pc.Dispatch? {
      DispatchKeepsInv(c, s, t);
    } else if s.pc.Settle? {
      SettleKeepsInv(c, s);
    } else if s.pc.Spawn? {
      SpawnKeepsInv(c, s);
    } else {
      MovesKeepInv(c, s, t.pc);
    }
  }

  lemma ContextKeepsInv(c: Config, stopped: bool, s: Stream, a: Action)
    requires Inv(c, s) && (a.CtxDone? || a.Propagate?) && Next(c, stopped, s, a).Some?
    ensures Inv(c, Next(c, stopped, s, a).value)
  {
    var t := Next(c, stopped, s, a).value;
    assert Receives(t) && Calls(c, t);
  }

  lemma StepKeepsInv(c: Config, stopped: bool, s: Stream, a: Action)
    requires Inv(c, s) && Next(c, stopped, s, a).Some?
    ensures Inv(c, Next(c, stopped, s, a).value)
  {
    match a
    case CtxDone(_) => ContextKeepsInv(c, stopped, s, a);
    case Propagate => ContextKeepsInv(c, stopped, s, a);
    case Reply(err) => ReplyKeepsInv(c, stopped, s, err);
    case PickDone => MovesKeepInv(c, s, Next(c, stopped, s, a).value.pc);
    case PickStop => MovesKeepInv(c, s, Next(c, stopped, s, a).value.pc);
    case Go => GoKeepsInv(c, stopped, s, Next(c, stopped, s, a).value);
    case _ => ReturnsKeepInv(c, stopped, s, a);
  }

  // ----- reasons for refusing

  /** Why a call may refuse with a status. */
  ghost predicate Justified(c: Config, stopped: bool, s: Stream, st: Status)
  {
    || (exists e :: s.pending == [RecvErr(e)] && st == Status(Unavailable, "consumer receive failed"))
    || (s.pending == [RecvEvent(None)] && st == Status(InvalidArgument, "nil event"))
    || (exists ev :: s.pending == [RecvEvent(Some(ev))] && (c.types == {} || ev.eventType in c.types) && !c.hasHandler
                     && st == Status(FailedPrecondition, "consumer handler not configured"))
    || (s.pending == [RecvEof] && s.dispatched != [] && s.called == []
        && st == Status(FailedPrecondition, "no events matched consumer input types"))
    || (exists e :: s.outcome == [Some(e)] && IsContextError(e) && st == FromContextError(e))
    || (s.ctxErr.Some? && st == FromContextError(s.ctxErr.value))
    || (stopped && st == Status(Canceled, "consumer stopped"))
  }

  ghost predicate RefusalJustified(c: Config, stopped: bool, s: Stream)
  {
    && (s.derivedErr.Some? ==> s.derivedErr == s.ctxErr)
    && (s.pc.Returned? && s.pc.o.Refused? ==> Justified(c, stopped, s, s.pc.o.st))
  }

  lemma DispatchJustified(c: Config, stopped: bool, s: Stream)
    requires Receives(s) && Calls(c, s) && Counts(s) && s.pc.Dispatch? && Dispatched(c, s).Some?
    ensures var t := Dispatched(c, s).value;
            t.ctxErr == s.ctxErr && t.derivedErr == s.derivedErr
            && (t.pc.Returned? ==> t.pc.o.Refused? && Justified(c, stopped, t, t.pc.o.st))
  {
    assert s.pending == [s.pending[0]];
    if s.pending == [RecvEof] {
      assert |s.called| == |s.settled|;
    }
  }

  lemma SettleJustified(c: Config, stopped: bool, s: Stream)
    requires Calls(c, s) && s.pc.Settle? && Settled(s).Some?
    ensures var t := Settled(s).value;
            t.ctxErr == s.ctxErr && t.derivedErr == s.derivedErr
            && (t.pc.Returned? ==> t.pc.o.Refused? && Justified(c, stopped, t, t.pc.o.st))
  {
    assert s.outcome == [s.outcome[0]];
  }

  lemma GoJustified(c: Config, stopped: bool, s: Stream)
    requires Inv(c, s) && RefusalJustified(c, stopped, s) && GoNext(c, stopped, s).Some?
    ensures RefusalJustified(c, stopped, GoNext(c, stopped, s).value)
  {
    match s.pc
    case Dispatch => DispatchJustified(c, stopped, s);
    case Settle => SettleJustified(c, stopped, s);
    case _ =>
  }

  lemma StepKeepsJustified(c: Config, stopped: bool, s: Stream, a: Action)
    requires Inv(c, s) && RefusalJustified(c, stopped, s) && Next(c, stopped, s, a).Some?
    ensures RefusalJustified(c, stopped, Next(c, stopped, s, a).value)
  {
    match a
    case Go => GoJustified(c, stopped, s);
    case PickResult =>
    case RecvReturns(_) =>
    case _ =>
  }

  lemma StopKeepsJustified(c: Config, s: Stream, stopped: bool)
    requires RefusalJustified(c, false, s)
    ensures RefusalJustified(c, stopped, s)
  {
  }

  // ----- the drain

  /** The tallies of a stream with no uncounted callback are the sequential fold. */
  lemma TalliesAreTheFold(c: Config, s: Stream)
    requires Inv(c, s) && |s.settled| == |s.called|
    ensures Fold(c, s.dispatched, s.settled) == Tally(s.consumed, s.failed, s.filtered)
  {
    FoldCounts(c, s.dispatched, s.settled);
  }

  /** The response is sent only after EOF with no callback in flight; the callbacks then ran, in
      receive order, on exactly the accepted events, every result was counted, and the response is
      the sequential fold of the events and results.  A non-empty, wholly filtered input never
      gets this response. */
  lemma AckMeansDrained(c: Config, s: Stream)
    requires Inv(c, s) && s.pc.Returned? && s.pc.o.Acked?
    ensures s.received == AsRecv(s.dispatched) + [RecvEof]
    ensures s.called == Accepted(c, s.dispatched)
    ensures s.callback.NoCallback? && s.finished == s.settled && |s.settled| == |s.called|
    ensures var t := Fold(c, s.dispatched, s.settled);
            s.pc.o.r == Response(t.consumed, t.failed, Summaries(t.failed))
            && t.consumed + t.failed == |Accepted(c, s.dispatched)|
    ensures s.dispatched != [] ==> Accepted(c, s.dispatched) != []
  {
    assert s.settled + [] + [] == s.settled;
    TalliesAreTheFold(c, s);
    FoldCounts(c, s.dispatched, s.settled);
    assert AsRecv(s.dispatched) + s.pending + [] == AsRecv(s.dispatched) + [RecvEof];
  }

  // ----- what a return leaves behind

  /** A receive or a callback of this call is still running, or has answered nobody. */
  predicate LeavesReceive(s: Stream) { !s.receiver.NotReceiving? }
  predicate LeavesCallback(s: Stream) { !s.callback.NoCallback? }

  /** A return abandons the callback exactly when the handler stood at the select that waits for it, and the
      receive exactly when it stood at the select that waits for that; and from those selects only a stop or
      the end of the derived context returns. */
  lemma ReturnAbandons(c: Config, stopped: bool, s: Stream, a: Action)
    requires Receives(s) && Calls(c, s) && !s.pc.Returned?
    requires Next(c, stopped, s, a).Some? && Next(c, stopped, s, a).value.pc.Returned?
    ensures var t := Next(c, stopped, s, a).value;
            && (LeavesCallback(t) <==> s.pc.AwaitCall?)
            && (LeavesReceive(t) <==> s.pc.AwaitRecv?)
    ensures s.pc.AwaitCall? || s.pc.AwaitRecv? ==> (a.PickDone? && s.derivedErr.Some?) || (a.PickStop? && stopped)
  {
    if a.Go? {
      if s.pc.Dispatch? {
      } else if s.pc.Settle? {
      } else {
      }
    } else if a.Reply? {
    } else {
    }
  }

  // ----- progress once stopped or cancelled

  /** A step of the call itself or of its derived context, not of its stream's peer or its callback. */
  predicate Own(a: Action)
  {
    a.Go? || a.PickDone? || a.PickStop? || a.PickResult? || a.Reply? || a.Propagate?
  }

  /** Own steps left once the service is stopped or the stream's context has ended. */
  function StepsLeft(s: Stream): (n: int)
    ensures 0 <= n <= 4
  {
    (match s.pc
     case Returned(_) => 0
     case Top => 1 case GotRecv => 1 case GotCall => 1
     case AwaitRecv => 2 case AwaitCall => 2 case SecondAdd(_) => 2
     case Spawn => 3 case Dispatch => 3 case Settle => 3)
    + if s.derivedErr.Some? then 0 else 1
  }

  lemma EndedGoDown(c: Config, stopped: bool, s: Stream)
    requires (stopped || s.ctxErr.Some?) && GoNext(c, stopped, s).Some?
    ensures var t := GoNext(c, stopped, s).value;
            StepsLeft(t) + 1 <= StepsLeft(s) && t.ctxErr == s.ctxErr
  {
    if s.pc.Dispatch? {
    } else if s.pc.Settle? {
    } else {
    }
  }

  lemma EndedStepsDown(c: Config, stopped: bool, s: Stream, a: Action)
    requires (stopped || s.ctxErr.Some?) && Next(c, stopped, s, a).Some?
    ensures var t := Next(c, stopped, s, a).value;
            StepsLeft(t) + (if Own(a) then 1 else 0) <= StepsLeft(s) && (s.ctxErr.Some? ==> t.ctxErr.Some?)
  {
    if a.Go? {
      EndedGoDown(c, stopped, s);
    } else {
    }
  }

  /** A step that moves a stopped or cancelled call on; it waits neither for Recv nor for its callback. */
  function Wake(s: Stream, stopped: bool): (a: Action)
  {
    match s.pc
    case AwaitRecv => if stopped then PickStop else if s.derivedErr.Some? then PickDone else Propagate
    case AwaitCall => if stopped then PickStop else if s.derivedErr.Some? then PickDone else Propagate
    case Dispatch =>
      if s.pending == [RecvEof] && !(s.filtered > 0 && s.consumed + s.failed == 0) then Reply(None) else Go
    case _ => Go
  }

  lemma NeverStuck(c: Config, stopped: bool, s: Stream)
    requires Inv(c, s) && (stopped || s.ctxErr.Some?) && !s.pc.Returned?
    ensures Own(Wake(s, stopped)) && Next(c, stopped, s, Wake(s, stopped)).Some?
  {
    assert Receives(s) && Calls(c, s);
  }
}
