/** Many Process calls sharing one set of metrics: traces, conservation of the counters, latency. */
module ProcessorWorld {
  import opened Basics
  import opened Errors
  import opened HandlerRegistry
  import opened Metrics
  import opened Processor
  import Runs
  import Sums

  /** `samples` records every latency given to the metrics. */
  datatype World = World(streams: seq<Stream>, stopped: bool, metrics: Values, samples: seq<real>)

  datatype WorldAction = Open | Stop | At(i: nat, a: Action)

  function InitialWorld(): (w: World)
  {
    World([], false, ZERO, [])
  }

  /** The metric call made by a step of a stream, if any. */
  function Metered(v: Values, s: Stream, a: Action): (r: Values)
  {
    if a.Record? then WithLatency(v, a.ms)
    else if !a.Go? then v
    else if s.pc.CountProcessed? then v.(processed := v.processed + 1)
    else if s.pc.CountError? || s.pc.CountUnmatched? then v.(errors := v.errors + 1)
    else if s.pc.CountSuccess? then v.(successes := v.successes + 1)
    else v
  }

  function WorldNext(table: Table, w: World, a: WorldAction): (r: Option<World>)
  {
    match a
    case Open => Some(w.(streams := w.streams + [Processor.INITIAL]))
    case Stop => Some(w.(stopped := true))
    case At(i, sa) =>
      if i >= |w.streams| then None
      else
        var t := Next(table, w.stopped, w.streams[i], sa);
        if t.None? then None
        else Some(w.(streams := w.streams[i := t.value], metrics := Metered(w.metrics, w.streams[i], sa),
                     samples := if sa.Record? then w.samples + [sa.ms] else w.samples))
  }

  function Step(table: Table): (f: (World, WorldAction) -> Option<World>)
  {
    (w, a) => WorldNext(table, w, a)
  }

  function Run(table: Table, acts: seq<WorldAction>): (r: Option<World>)
  {
    Runs.Run(Step(table), InitialWorld(), acts)
  }

  // ----- totals over the streams

  datatype Metric = Recorded | Processed | Errored | Succeeded
                  | Filtered | Failures | Unmatched | Delivered | SendsFailed

  function CountFailures(calls: seq<Call>): (r: nat)
  {
    if calls == [] then 0
    else CountFailures(calls[..|calls| - 1]) + if calls[|calls| - 1].err.Some? then 1 else 0
  }

  function CountFiltered(calls: seq<Call>): (r: nat)
  {
    if calls == [] then 0
    else CountFiltered(calls[..|calls| - 1])
         + if calls[|calls| - 1].err.None? && calls[|calls| - 1].out.None? then 1 else 0
  }

  lemma CountsAppend(calls: seq<Call>, call: Call)
    ensures CountFailures(calls + [call]) == CountFailures(calls) + if call.err.Some? then 1 else 0
    ensures CountFiltered(calls + [call]) == CountFiltered(calls) + if call.err.None? && call.out.None? then 1 else 0
  {
    assert (calls + [call])[..|calls|] == calls;
  }

  lemma {:induction false} CallsSplit(calls: seq<Call>)
    ensures |calls| == |Outputs(calls)| + CountFiltered(calls) + CountFailures(calls)
  {
    if calls != [] {
      CallsSplit(calls[..|calls| - 1]);
    }
  }

  predicate LastFailed(s: Stream) { s.calls != [] && s.calls[|s.calls| - 1].err.Some? }
  predicate LastEmits(s: Stream) { s.calls != [] && Emits(s.calls[|s.calls| - 1]) }
  predicate Pending(pc: Pc) { pc.Recording? || pc.CountProcessed? }

  /** What a stream has contributed to a metric so far. */
  function Weight(m: Metric, s: Stream): (r: int)
  {
    match m
    case Recorded => |s.calls| - if s.pc.Recording? then 1 else 0
    case Processed => |s.calls| - if Pending(s.pc) then 1 else 0
    case Errored =>
      CountFailures(s.calls) + s.unmatched
      - if LastFailed(s) && (Pending(s.pc) || s.pc.CountError?) then 1 else 0
    case Succeeded =>
      |Outputs(s.calls)| - if LastEmits(s) && (Pending(s.pc) || s.pc.CountSuccess?) then 1 else 0
    case Filtered => CountFiltered(s.calls)
    case Failures => CountFailures(s.calls)
    case Unmatched => s.unmatched
    case Delivered => |s.sent|
    case SendsFailed => s.failedSends
  }

  function WeightOf(m: Metric): (weight: Stream -> int)
  {
    (s: Stream) => Weight(m, s)
  }

  function Total(m: Metric, ss: seq<Stream>): (r: int)
  {
    Sums.Total(WeightOf(m), ss)
  }

  // ----- what every step keeps

  ghost predicate Balanced(w: World)
  {
    && w.metrics.processed == Total(Processed, w.streams)
    && w.metrics.errors == Total(Errored, w.streams)
    && w.metrics.successes == Total(Succeeded, w.streams)
    && |w.samples| == Total(Recorded, w.streams)
  }

  ghost predicate LatencyOk(w: World)
  {
    w.samples != [] ==> Within(w.metrics.latency, w.samples)
  }

  ghost predicate WorldInv(table: Table, w: World)
  {
    && (forall i :: 0 <= i < |w.streams| ==> Inv(table, w.streams[i]))
    && Balanced(w) && LatencyOk(w)
  }

  lemma {:induction false} ProcessedNeedsSample(ss: seq<Stream>)
    ensures Total(Processed, ss) <= Total(Recorded, ss)
  {
    if ss != [] {
      ProcessedNeedsSample(ss[1..]);
    }
  }

  /** The weights of t exceed those of s by what the metrics moved from v to u. */
  ghost predicate Moved(v: Values, u: Values, s: Stream, t: Stream, recorded: int)
  {
    && u.processed - v.processed == Weight(Processed, t) - Weight(Processed, s)
    && u.errors - v.errors == Weight(Errored, t) - Weight(Errored, s)
    && u.successes - v.successes == Weight(Succeeded, t) - Weight(Succeeded, s)
    && recorded == Weight(Recorded, t) - Weight(Recorded, s)
  }

  /** An invocation moves no weight until it is recorded and counted. */
  lemma InvocationMeters(v: Values, s: Stream, call: Call, t: Stream)
    requires s.pc.Handling? && t == s.(calls := s.calls + [call], pc := Recording)
    ensures Moved(v, v, s, t, 0)
  {
    assert t.calls[|t.calls| - 1] == call;
    CountsAppend(s.calls, call);
    OutputsAppend(s.calls, call);
  }

  lemma HandleMeters(table: Table, v: Values, s: Stream, out: Option<Event>, err: Option<Error>)
    requires Next(table, false, s, HandleReturns(out, err)).Some?
    ensures Moved(v, v, s, Next(table, false, s, HandleReturns(out, err)).value, 0)
  {
    var t := Next(table, false, s, HandleReturns(out, err)).value;
    InvocationMeters(v, s, t.calls[|s.calls|], t);
  }

  lemma GoMeters(table: Table, v: Values, s: Stream)
    requires Inv(table, s) && GoNext(table, s).Some?
    ensures Moved(v, Metered(v, s, Go), s, GoNext(table, s).value, 0)
  {
    var t := GoNext(table, s).value;
    assert t.calls == s.calls && t.sent == s.sent;
    assert MidCall(s.pc) ==> s.calls != [];
  }

  /** A step that makes no metric call leaves every weight alone. */
  lemma QuietMeters(v: Values, s: Stream, t: Stream)
    requires t.calls == s.calls && t.unmatched == s.unmatched
    requires t.pc.Recording? == s.pc.Recording? && Pending(t.pc) == Pending(s.pc)
    requires t.pc.CountError? == s.pc.CountError? && t.pc.CountSuccess? == s.pc.CountSuccess?
    ensures Moved(v, v, s, t, 0)
  {
  }

  lemma RecordMeters(v: Values, s: Stream, ms: real)
    requires s.pc.Recording?
    ensures Moved(v, WithLatency(v, ms), s, s.(pc := CountProcessed), 1)
  {
  }

  /** How one step of a stream moves the metrics. */
  lemma StreamMeters(table: Table, stopped: bool, v: Values, s: Stream, a: Action)
    requires Inv(table, s) && Next(table, stopped, s, a).Some?
    ensures Moved(v, Metered(v, s, a), s, Next(table, stopped, s, a).value, if a.Record? then 1 else 0)
  {
    match a
    case HandleReturns(out, err) => HandleMeters(table, v, s, out, err);
    case Go => GoMeters(table, v, s);
    case Record(ms) => RecordMeters(v, s, ms);
    case _ => QuietMeters(v, s, Next(table, stopped, s, a).value);
  }

  lemma MovedKeepsBalance(w: World, i: nat, t: Stream, v: World)
    requires Balanced(w) && i < |w.streams| && v.streams == w.streams[i := t]
    requires Moved(w.metrics, v.metrics, w.streams[i], t, |v.samples| - |w.samples|)
    ensures Balanced(v)
  {
    Sums.TotalUpdate(WeightOf(Processed), w.streams, i, t);
    Sums.TotalUpdate(WeightOf(Errored), w.streams, i, t);
    Sums.TotalUpdate(WeightOf(Succeeded), w.streams, i, t);
    Sums.TotalUpdate(WeightOf(Recorded), w.streams, i, t);
  }

  lemma StreamStepKeepsWorld(table: Table, w: World, i: nat, a: Action)
    requires WorldInv(table, w) && i < |w.streams| && Next(table, w.stopped, w.streams[i], a).Some?
    ensures WorldInv(table, WorldNext(table, w, At(i, a)).value)
  {
    var s := w.streams[i];
    var t := Next(table, w.stopped, s, a).value;
    var v := WorldNext(table, w, At(i, a)).value;
    StepKeepsInv(table, w.stopped, s, a);
    StreamMeters(table, w.stopped, w.metrics, s, a);
    MovedKeepsBalance(w, i, t, v);
    ProcessedNeedsSample(w.streams);
    if a.Record? {
      RecordingStaysWithin(w.metrics, w.samples, a.ms);
    }
    assert LatencyOk(v);
  }

  lemma FreshStream(table: Table)
    ensures Inv(table, Processor.INITIAL)
    ensures forall m: Metric :: Weight(m, Processor.INITIAL) == 0
  {
  }

  lemma OpenKeepsWorld(table: Table, w: World)
    requires WorldInv(table, w)
    ensures WorldInv(table, w.(streams := w.streams + [Processor.INITIAL]))
  {
    var s := Processor.INITIAL;
    FreshStream(table);
    Sums.TotalAppend(WeightOf(Processed), w.streams, s);
    Sums.TotalAppend(WeightOf(Errored), w.streams, s);
    Sums.TotalAppend(WeightOf(Succeeded), w.streams, s);
    Sums.TotalAppend(WeightOf(Recorded), w.streams, s);
  }

  lemma StepKeepsWorld(table: Table, w: World, a: WorldAction)
    requires WorldInv(table, w) && WorldNext(table, w, a).Some?
    ensures WorldInv(table, WorldNext(table, w, a).value)
  {
    match a
    case Open =>
      OpenKeepsWorld(table, w);
    case Stop =>
    case At(i, sa) => StreamStepKeepsWorld(table, w, i, sa);
  }

  lemma EveryRunKeepsWorld(table: Table, acts: seq<WorldAction>)
    requires Run(table, acts).Some?
    ensures WorldInv(table, Run(table, acts).value)
  {
    var inv := w => WorldInv(table, w);
    var next := Step(table);
    forall w, a | inv(w) && next(w, a).Some?
      ensures inv(next(w, a).value)
    {
      StepKeepsWorld(table, w, a);
    }
    Runs.Invariant(next, inv, InitialWorld(), acts);
  }

  /** In every run and for every call: the k-th input went to the first handler registered for its
      type; what was sent is a prefix of the non-nil outputs, in input order, and all of them whenever
      the next input is about to be received; nil means every input was handled without error and
      every output sent. */
  lemma Trace(hs: seq<Handler>, table: Table, acts: seq<WorldAction>, i: nat)
    requires Holds(table, hs)
    requires Run(table, acts).Some? && i < |Run(table, acts).value.streams|
    ensures var s := Run(table, acts).value.streams[i];
            && |s.calls| <= |s.received| <= |s.calls| + 1
            && (forall k :: 0 <= k < |s.calls| ==>
                  s.calls[k].ev == s.received[k]
                  && exists j :: FirstFor(hs, s.received[k].eventType, j) && s.calls[k].h == hs[j])
            && s.sent <= Outputs(s.calls) && |Outputs(s.calls)| <= |s.sent| + 1
            && (s.pc.Top? || s.pc.Receiving? ==> s.sent == Outputs(s.calls) && |s.calls| == |s.received|)
            && (s.pc == Returned(Ok) ==>
                  NoErrors(s.calls) && |s.calls| == |s.received| && s.sent == Outputs(s.calls))
  {
    EveryRunKeepsWorld(table, acts);
    var s := Run(table, acts).value.streams[i];
    assert Inv(table, s);
    forall k | 0 <= k < |s.calls|
      ensures s.calls[k].ev == s.received[k]
      ensures exists j :: FirstFor(hs, s.received[k].eventType, j) && s.calls[k].h == hs[j]
    {
      FirstRegisteredWins(hs, s.received[k].eventType);
    }
  }

  /** No call is between its metric calls or its Send. */
  predicate Quiescent(s: Stream)
  {
    s.pc.Top? || s.pc.Receiving? || s.pc.Looking? || s.pc.Handling? || s.pc.Returned?
  }

  lemma QuiescentStream(table: Table, s: Stream)
    requires Inv(table, s) && Quiescent(s)
    ensures Weight(Processed, s) == Weight(Succeeded, s) + Weight(Filtered, s) + Weight(Failures, s)
    ensures Weight(Errored, s) == Weight(Failures, s) + Weight(Unmatched, s)
    ensures Weight(Succeeded, s) == Weight(Delivered, s) + Weight(SendsFailed, s)
  {
    CallsSplit(s.calls);
  }

  lemma {:induction false} QuiescentTotals(table: Table, ss: seq<Stream>)
    requires forall i :: 0 <= i < |ss| ==> Inv(table, ss[i]) && Quiescent(ss[i])
    ensures Total(Processed, ss) == Total(Succeeded, ss) + Total(Filtered, ss) + Total(Failures, ss)
    ensures Total(Errored, ss) == Total(Failures, ss) + Total(Unmatched, ss)
    ensures Total(Succeeded, ss) == Total(Delivered, ss) + Total(SendsFailed, ss)
  {
    if ss != [] {
      QuiescentStream(table, ss[0]);
      QuiescentTotals(table, ss[1..]);
    }
  }

  /** Whenever no call is in the middle of an event: processed = success + filtered + handler failures,
      errors = handler failures + unmatched inputs, success = delivered + failed sends. */
  lemma MetricsBalance(table: Table, acts: seq<WorldAction>)
    requires Run(table, acts).Some?
    requires forall i :: 0 <= i < |Run(table, acts).value.streams| ==> Quiescent(Run(table, acts).value.streams[i])
    ensures var w := Run(table, acts).value;
            && w.metrics.processed == w.metrics.successes + Total(Filtered, w.streams) + Total(Failures, w.streams)
            && w.metrics.errors == Total(Failures, w.streams) + Total(Unmatched, w.streams)
            && w.metrics.successes == Total(Delivered, w.streams) + Total(SendsFailed, w.streams)
  {
    EveryRunKeepsWorld(table, acts);
    QuiescentTotals(table, Run(table, acts).value.streams);
  }

  /** The latency always lies between the least and the greatest sample recorded. */
  lemma LatencyWithinSamples(table: Table, acts: seq<WorldAction>, lo: real, hi: real)
    requires Run(table, acts).Some? && Run(table, acts).value.samples != []
    requires forall k :: 0 <= k < |Run(table, acts).value.samples| ==> lo <= Run(table, acts).value.samples[k] <= hi
    ensures lo <= Run(table, acts).value.metrics.latency <= hi
  {
    EveryRunKeepsWorld(table, acts);
    WithinBounds(Run(table, acts).value.metrics.latency, Run(table, acts).value.samples, lo, hi);
  }

  lemma {:induction false} SampledOncePerCall(ss: seq<Stream>)
    ensures Total(Recorded, ss) <= Total(Processed, ss) + |ss|
  {
    if ss != [] {
      SampledOncePerCall(ss[1..]);
    }
  }

  /** The mean starts at a sample that no more calls precede than there are others. */
  ghost predicate MeanOk(w: World)
  {
    w.samples != [] ==> exists m: nat :: m < |w.streams| && MeanFrom(w.metrics, w.samples, m)
  }

  lemma RecordKeepsMean(table: Table, w: World, i: nat, a: Action)
    requires WorldInv(table, w) && MeanOk(w) && i < |w.streams| && a.Record?
    requires Next(table, w.stopped, w.streams[i], a).Some?
    ensures MeanOk(WorldNext(table, w, At(i, a)).value)
  {
    var v := WorldNext(table, w, At(i, a)).value;
    StreamStepKeepsWorld(table, w, i, a);
    SampledOncePerCall(v.streams);
    ProcessedNeedsSample(w.streams);
    if w.metrics.processed > 0 {
      var m: nat :| m < |w.streams| && MeanFrom(w.metrics, w.samples, m);
      RecordingJoinsMean(w.metrics, w.samples, m, a.ms);
    } else {
      RecordingJoinsMean(w.metrics, w.samples, 0, a.ms);
    }
  }

  lemma StepKeepsMean(table: Table, w: World, a: WorldAction)
    requires WorldInv(table, w) && MeanOk(w) && WorldNext(table, w, a).Some?
    ensures MeanOk(WorldNext(table, w, a).value)
  {
    var v := WorldNext(table, w, a).value;
    if a.At? && a.a.Record? {
      RecordKeepsMean(table, w, a.i, a.a);
    } else if w.samples != [] {
      var m: nat :| m < |w.streams| && MeanFrom(w.metrics, w.samples, m);
      assert v.samples == w.samples && v.metrics.latency == w.metrics.latency && |w.streams| <= |v.streams|;
      assert MeanFrom(v.metrics, v.samples, m);
    }
  }

  /** In every run the latency is the running mean of the samples: of all of them when there is one call, and otherwise
      of all but fewer first ones than there are calls, which were recorded before anything was counted. */
  lemma LatencyIsRunningMean(table: Table, acts: seq<WorldAction>) returns (m: nat)
    requires Run(table, acts).Some? && Run(table, acts).value.samples != []
    ensures var w := Run(table, acts).value;
            m < |w.streams| && m < |w.samples| && w.metrics.latency == RunningMean(w.samples[m..])
  {
    var inv := w => WorldInv(table, w) && MeanOk(w);
    var next := Step(table);
    forall w, a | inv(w) && next(w, a).Some?
      ensures inv(next(w, a).value)
    {
      StepKeepsWorld(table, w, a);
      StepKeepsMean(table, w, a);
    }
    Runs.Invariant(next, inv, InitialWorld(), acts);
    m :| m < |Run(table, acts).value.streams|
         && MeanFrom(Run(table, acts).value.metrics, Run(table, acts).value.samples, m);
  }
}
