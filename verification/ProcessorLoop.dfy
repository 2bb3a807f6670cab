/** The bodies of Process and processAndSend as loops over shared memory (pkg/processor/processor.go:221-301),
    proved to take only steps of the machine in ProcessorWorld, with the answers its environment gives it. */
module ProcessorLoop {
  import opened Basics
  import opened Errors
  import opened HandlerRegistry
  import opened Metrics
  import opened Processor
  import opened ProcessorWorld
  import Endings = ProcessorEndings
  import opened Tape
  import Runs
  import Sums

  /** One turn of the receive loop: whether the context ended or the processor was stopped before it,
      whether the context ended while the handler ran, and the answers of transport, handler and clock. */
  datatype Tick = Tick(ctxBefore: Option<Error>, stopBefore: bool, ctxDuring: Option<Error>,
                       input: Input, out: Option<Event>, err: Option<Error>, ms: real, sendErr: Option<Error>)

  const NO_TICK := Tick(None, false, None, Input.Eof, None, None, 0.0, None)

  /** The machine with one call open, and the last tick. */
  datatype Loop = Loop(w: World, tick: Tick)

  type Step = Entry<Tick, WorldAction>

  predicate Ends(e: Option<Error>) { e == Some(CtxCanceled) || e == Some(CtxDeadline) }

  /** The step is one of the call, or of its context or Stop where the tick has it, and takes the answers of
      transport, handler and clock as they are. */
  predicate TakesAnswers(s: Stream, stopped: bool, t: Tick, a: WorldAction)
  {
    match a
    case Open => false
    case Stop => s.pc.Top? && t.stopBefore
    case At(i, CtxDone(e)) => (s.pc.Top? && t.ctxBefore == Some(e)) || (s.pc.Handling? && t.ctxDuring == Some(e))
    case At(i, PickDefault) => !Ends(t.ctxBefore) && !t.stopBefore
    case At(i, RecvReturns(x)) => x == t.input
    case At(i, HandleReturns(out, err)) => out == t.out && err == t.err && (Ends(t.ctxDuring) ==> s.ctxErr.Some?)
    case At(i, Record(ms)) => ms == t.ms
    case At(i, SendReturns(err)) => err == t.sendErr
    case At(i, _) => true
  }

  function LoopNext(table: Table, l: Loop, e: Step): (n: Option<Loop>)
  {
    if |l.w.streams| != 1 then None
    else
      match e
      case Begin(t) => if l.w.streams[0].pc.Top? then Some(l.(tick := t)) else None
      case Do(a) =>
        var v := WorldNext(table, l.w, a);
        if TakesAnswers(l.w.streams[0], l.w.stopped, l.tick, a) && v.Some? then Some(l.(w := v.value)) else None
      case Idle => None
  }

  function LoopStep(table: Table): (f: (Loop, Step) -> Option<Loop>)
  {
    (l, e) => LoopNext(table, l, e)
  }

  function InitialLoop(): (l: Loop)
  {
    Loop(World([Processor.INITIAL], false, ZERO, []), NO_TICK)
  }

  function LoopRun(table: Table, trace: seq<Step>): (l: Option<Loop>)
  {
    Runs.Run(LoopStep(table), InitialLoop(), trace)
  }

  // ----- a run of the loop is a run of the machine

  function Actions(trace: seq<Step>): (acts: seq<WorldAction>)
  {
    if trace == [] then []
    else if trace[0].Do? then [trace[0].a] + Actions(trace[1..])
    else Actions(trace[1..])
  }

  lemma {:induction false} LoopIsRun(table: Table, l: Loop, trace: seq<Step>)
    requires Runs.Run(LoopStep(table), l, trace).Some?
    ensures Runs.Run(ProcessorWorld.Step(table), l.w, Actions(trace))
            == Some(Runs.Run(LoopStep(table), l, trace).value.w)
    decreases |trace|
  {
    if trace != [] {
      LoopIsRun(table, LoopNext(table, l, trace[0]).value, trace[1..]);
    }
  }

  lemma EveryLoopKeepsWorld(table: Table, trace: seq<Step>)
    requires LoopRun(table, trace).Some?
    ensures WorldInv(table, LoopRun(table, trace).value.w)
  {
    LoopIsRun(table, InitialLoop(), trace);
    assert InitialWorld().streams + [Processor.INITIAL] == [Processor.INITIAL];
    assert ([Open] + Actions(trace))[1..] == Actions(trace);
    EveryRunKeepsWorld(table, [Open] + Actions(trace));
  }

  /** What the invariants say about a single call between two events. */
  lemma OneCall(table: Table, w: World)
    requires WorldInv(table, w) && |w.streams| == 1 && Quiescent(w.streams[0])
    ensures Inv(table, w.streams[0])
    ensures var s := w.streams[0];
            && w.metrics.processed == w.metrics.successes + CountFiltered(s.calls) + CountFailures(s.calls)
            && w.metrics.errors == CountFailures(s.calls) + s.unmatched
            && w.metrics.successes == |s.sent| + s.failedSends
  {
    QuiescentStream(table, w.streams[0]);
    forall m: Metric
      ensures Total(m, w.streams) == Weight(m, w.streams[0])
    {
      assert w.streams[1..] == [];
      assert Sums.Total(WeightOf(m), w.streams)
             == WeightOf(m)(w.streams[0]) + Sums.Total(WeightOf(m), w.streams[1..]);
    }
  }

  lemma EveryLoopReturnsForACause(hs: seq<Handler>, table: Table, trace: seq<Step>)
    requires Holds(table, hs) && LoopRun(table, trace).Some?
    requires var w := LoopRun(table, trace).value.w; |w.streams| == 1 && w.streams[0].pc.Returned?
    ensures Endings.Explained(hs, table, LoopRun(table, trace).value.w)
  {
    LoopIsRun(table, InitialLoop(), trace);
    assert InitialWorld().streams + [Processor.INITIAL] == [Processor.INITIAL];
    var acts := [Open] + Actions(trace);
    assert acts[1..] == Actions(trace);
    var k := Endings.EveryReturnHasItsCause(hs, table, acts, 0);
    assert Endings.ReturnsAt(hs, table, acts, 0, k);
  }

  class ProcessCall {
    const table: Table
    const tape: seq<Tick>
    const metrics: StandardMetrics
    var next: nat
    var tick: Tick
    var stopped: bool
    var ctxErr: Option<Error>
    var received: seq<Event>
    var calls: seq<Call>
    var sent: seq<Event>
    var failedSends: nat
    var unmatched: nat
    ghost var samples: seq<real>
    ghost var trace: seq<Step>

    constructor (table: Table, tape: seq<Tick>, metrics: StandardMetrics)
      requires metrics.Current() == ZERO
      ensures this.table == table && this.tape == tape && this.metrics == metrics
      ensures next == 0 && received == [] && Valid(Top)
    {
      this.table, this.tape, this.metrics, next, tick := table, tape, metrics, 0, NO_TICK;
      stopped, ctxErr, received, calls, sent, failedSends, unmatched := false, None, [], [], [], 0, 0;
      samples, trace := [], [];
    }

    ghost function Here(pc: Pc): World
      reads this, metrics
    {
      World([Mine(pc)], stopped, metrics.Current(), samples)
    }

    /** The call stands at pc after a run of the machine, metrics included, against the consumed tape. */
    ghost predicate Valid(pc: Pc)
      reads this, metrics
    {
      next <= |tape| && Ticks(trace) == tape[..next] && LoopRun(table, trace) == Some(Loop(Here(pc), tick))
    }

    function Mine(pc: Pc): Stream
      reads this
    {
      Stream(pc, ctxErr, received, calls, sent, failedSends, unmatched)
    }

    ghost method Log(w: World, a: Action, pc: Pc)
      requires next <= |tape| && Ticks(trace) == tape[..next] && LoopRun(table, trace) == Some(Loop(w, tick))
      requires |w.streams| == 1 && stopped == w.stopped && TakesAnswers(w.streams[0], stopped, tick, At(0, a))
      requires Next(table, stopped, w.streams[0], a) == Some(Mine(pc))
      requires metrics.Current() == Metered(w.metrics, w.streams[0], a)
      requires samples == if a.Record? then w.samples + [a.ms] else w.samples
      modifies `trace
      ensures Valid(pc)
    {
      Runs.RunAppend(LoopStep(table), InitialLoop(), trace, Do(At(0, a)));
      Append(trace, Do(At(0, a)));
      assert w.streams[0 := Mine(pc)] == [Mine(pc)];
      trace := trace + [Do(At(0, a))];
    }

    method StopIfAsked()
      requires Valid(Top)
      modifies `stopped, `trace
      ensures Valid(Top) && (tick.stopBefore ==> stopped)
    {
      if tick.stopBefore {
        Runs.RunAppend(LoopStep(table), InitialLoop(), trace, Do(Stop));
        Append(trace, Do(Stop));
        stopped, trace := true, trace + [Do(Stop)];
      }
    }

    /** The context ends at this point of the turn, if it has not before. */
    method EndContext(e: Option<Error>, ghost pc: Pc)
      requires Valid(pc) && ((pc.Top? && e == tick.ctxBefore) || (pc.Handling? && e == tick.ctxDuring))
      modifies `ctxErr, `trace
      ensures Valid(pc) && (Ends(e) ==> ctxErr.Some?)
    {
      if ctxErr.None? && (e == Some(CtxCanceled) || e == Some(CtxDeadline)) {
        ghost var w := Here(pc);
        ctxErr := e;
        Log(w, CtxDone(e.value), pc);
      }
    }

    /** Lines 257-273: find the handler, run it, record the latency and count the event. */
    method Handle() returns (pc: Pc)
      requires Valid(Looking) && received != []
      modifies `ctxErr, `calls, `unmatched, `samples, `trace, metrics
      ensures Valid(pc)
      ensures pc == Returned(HandlerNotFound) || (calls != [] && pc == Route(calls[|calls| - 1]))
    {
      ghost var w := Here(Looking);
      var handlers := Lookup(table, received[|received| - 1].eventType);
      if |handlers| == 0 {
        Log(w, Go, CountUnmatched);
        Reject();
        return Returned(HandlerNotFound);
      }
      Log(w, Go, Handling);
      pc := RunHandler();
    }

    /** Lines 265-273. */
    method RunHandler() returns (pc: Pc)
      requires Valid(Handling) && received != [] && Lookup(table, received[|received| - 1].eventType) != []
      modifies `ctxErr, `calls, `samples, `trace, metrics
      ensures Valid(pc) && calls != [] && pc == Route(calls[|calls| - 1])
    {
      Invoke();
      Measure();
      pc := Route(calls[|calls| - 1]);
    }

    /** Lines 260-263. */
    method Reject()
      requires Valid(CountUnmatched)
      modifies `unmatched, `trace, metrics
      ensures Valid(Returned(HandlerNotFound))
    {
      ghost var w := Here(CountUnmatched);
      metrics.IncrementErrorCount();
      unmatched := unmatched + 1;
      Log(w, Go, Returned(HandlerNotFound));
    }

    /** Lines 265-269: the first handler is run, while the context may end. */
    method Invoke()
      requires Valid(Handling) && received != [] && Lookup(table, received[|received| - 1].eventType) != []
      modifies `ctxErr, `calls, `trace
      ensures Valid(Recording) && calls != []
    {
      EndContext(tick.ctxDuring, Handling);
      ghost var w := Here(Handling);
      var inputEvent := received[|received| - 1];
      calls := calls + [Call(Lookup(table, inputEvent.eventType)[0], inputEvent, tick.out, tick.err)];
      Log(w, HandleReturns(tick.out, tick.err), Recording);
    }

    /** Lines 272-273. */
    method Measure()
      requires Valid(Recording) && calls != []
      modifies `samples, `trace, metrics
      ensures Valid(Route(calls[|calls| - 1]))
    {
      ghost var w := Here(Recording);
      metrics.RecordProcessingLatency(tick.ms);
      samples := samples + [tick.ms];
      Log(w, Record(tick.ms), CountProcessed);
      CountEvent();
    }

    method CountEvent()
      requires Valid(CountProcessed) && calls != []
      modifies `trace, metrics
      ensures Valid(Route(calls[|calls| - 1]))
    {
      ghost var w := Here(CountProcessed);
      metrics.IncrementProcessedCount();
      Log(w, Go, Route(calls[|calls| - 1]));
    }

    /** Lines 275-284. */
    method Fail() returns (pc: Pc)
      requires Valid(CountError) && calls != [] && calls[|calls| - 1].err.Some?
      modifies `trace, metrics
      ensures Valid(pc) && pc.Returned? && pc.r != Ok
    {
      ghost var w := Here(CountError);
      metrics.IncrementErrorCount();
      Log(w, Go, Failing);
      pc := FailWith();
    }

    /** Lines 277-283. */
    method FailWith() returns (pc: Pc)
      requires Valid(Failing) && calls != [] && calls[|calls| - 1].err.Some?
      modifies `trace
      ensures Valid(pc)
      ensures var err := calls[|calls| - 1].err.value;
              pc == Returned(if ctxErr.Some? then CtxEnded(ctxErr.value)
                             else if Endings.OfContext(err) then HandlerError(err)
                             else HandlerFailed)
    {
      ghost var w := Here(Failing);
      var err := calls[|calls| - 1].err.value;
      Endings.IsOfContext(err);
      if ctxErr.Some? {
        pc := Returned(CtxEnded(ctxErr.value));
      } else if Is(err, CtxCanceled) || Is(err, CtxDeadline) {
        pc := Returned(HandlerError(err));
      } else {
        pc := Returned(HandlerFailed);
      }
      Log(w, Go, pc);
    }

    /** Lines 291-300. */
    method SendOutput() returns (pc: Pc)
      requires Valid(CountSuccess) && calls != [] && Emits(calls[|calls| - 1])
      modifies `sent, `failedSends, `trace, metrics
      ensures Valid(pc) && (pc.Top? || (pc.Returned? && pc.r != Ok))
    {
      ghost var w := Here(CountSuccess);
      metrics.IncrementSuccessCount();
      Log(w, Go, Sending);
      pc := Send();
    }

    /** Lines 296-300. */
    method Send() returns (pc: Pc)
      requires Valid(Sending) && calls != [] && Emits(calls[|calls| - 1])
      modifies `sent, `failedSends, `trace
      ensures Valid(pc)
      ensures pc == match tick.sendErr case None => Top case Some(e) => Returned(SendFailed(e))
    {
      ghost var w := Here(Sending);
      if tick.sendErr.Some? {
        failedSends := failedSends + 1;
        pc := Returned(SendFailed(tick.sendErr.value));
      } else {
        sent := sent + [calls[|calls| - 1].out.value];
        pc := Top;
      }
      Log(w, SendReturns(tick.sendErr), pc);
    }

    /** Lines 225-238: one turn of the select and of Recv. */
    method Receive() returns (pc: Pc)
      requires Valid(Top)
      modifies `stopped, `ctxErr, `received, `trace
      ensures Valid(pc)
      ensures pc.Returned? || (pc.Looking? && tick.input.Item? && received == old(received) + [tick.input.ev])
    {
      EndContext(tick.ctxBefore, Top);
      StopIfAsked();
      if ctxErr.Some? {
        pc := Returned(CtxEnded(ctxErr.value));
        Log(Here(Top), PickDone, pc);
        return;
      } else if stopped {
        pc := Returned(Stopped);
        Log(Here(Top), PickStop, pc);
        return;
      }
      Log(Here(Top), PickDefault, Receiving);
      ghost var w := Here(Receiving);
      match tick.input {
        case Item(ev) =>
          received := received + [ev];
          pc := Looking;
        case Eof => pc := Returned(Ok);
        case Broken(e) => pc := Returned(RecvFailed(e));
      }
      Log(w, RecvReturns(tick.input), pc);
    }

    method TakeTick()
      requires Valid(Top) && next < |tape|
      modifies `next, `tick, `trace
      ensures Valid(Top) && next == old(next) + 1
    {
      tick := tape[next];
      Runs.RunAppend(LoopStep(table), InitialLoop(), trace, Begin(tick));
      Append(trace, Begin(tick));
      next, trace := next + 1, trace + [Begin(tick)];
    }

    method OneTurn() returns (pc: Pc)
      requires Valid(Top) && next < |tape|
      modifies this, metrics
      ensures Valid(pc) && next == old(next) + 1 && (pc.Returned? || pc.Top?)
      ensures pc.Top? ==> |received| == old(|received|) + 1
    {
      TakeTick();
      pc := Receive();
      if pc.Looking? {
        pc := Handle();
      }
      if pc.CountError? {
        pc := Fail();
      } else if pc.CountSuccess? {
        pc := SendOutput();
      }
    }

    method ProcessLoop() returns (pc: Pc)
      requires Valid(Top) && |received| == next
      modifies this, metrics
      ensures Valid(pc) && (pc.Returned? || (pc.Top? && next == |tape| == |received|))
    {
      pc := Top;
      while next < |tape| && pc.Top?
        invariant Valid(pc) && (pc.Returned? || pc.Top?)
        invariant pc.Top? ==> |received| == next
        decreases |tape| - next
      {
        pc := OneTurn();
      }
    }

    /** Process.  It returns, or has dealt with every turn of the tape and is back at the select.  Either way it has
        only taken steps of the machine, on exactly the inputs and the answers of the tape; nil means every input
        was handled without error and every output was sent, and the counters balance. */
    method Process() returns (pc: Pc)
      requires Valid(Top) && next == 0 && received == []
      modifies this, metrics
      ensures Valid(pc) && (pc.Returned? || (pc.Top? && next == |tape| == |received|))
      ensures pc == Returned(Ok) ==>
                NoErrors(calls) && |calls| == |received| && sent == Outputs(calls)
      ensures pc.Returned? ==> forall hs :: Holds(table, hs) ==> Endings.Explained(hs, table, Here(pc))
      ensures metrics.Current().processed
              == metrics.Current().successes + CountFiltered(calls) + CountFailures(calls)
      ensures metrics.Current().errors == CountFailures(calls) + unmatched
      ensures metrics.Current().successes == |sent| + failedSends
    {
      pc := ProcessLoop();
      EveryLoopKeepsWorld(table, trace);
      OneCall(table, Here(pc));
      if pc.Returned? {
        forall hs | Holds(table, hs) {
          EveryLoopReturnsForACause(hs, table, trace);
        }
      }
    }
  }
}
