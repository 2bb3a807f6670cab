/** Event counters and the moving latency average (pkg/flowctl/metrics.go), over real numbers. */
module Metrics {

  /** The values guarded by the metrics lock. */
  datatype Values = Values(processed: nat, errors: nat, successes: nat, latency: real)

  const ZERO := Values(0, 0, 0, 0.0)

  function WithLatency(v: Values, ms: real): (r: Values)
  {
    v.(latency := if v.processed > 0 then (v.latency + ms) / 2.0 else ms)
  }

  class StandardMetrics {
    var processedCount: nat
    var errorCount: nat
    var successCount: nat
    var processingLatency: real

    constructor ()
      ensures Current() == ZERO
    {
      processedCount, errorCount, successCount, processingLatency := 0, 0, 0, 0.0;
    }

    function Current(): (v: Values)
      reads this
    {
      Values(processedCount, errorCount, successCount, processingLatency)
    }

    method IncrementProcessedCount()
      modifies `processedCount
      ensures Current() == old(Current()).(processed := old(Current()).processed + 1)
    {
      processedCount := processedCount + 1;
    }

    method IncrementErrorCount()
      modifies `errorCount
      ensures Current() == old(Current()).(errors := old(Current()).errors + 1)
    {
      errorCount := errorCount + 1;
    }

    method IncrementSuccessCount()
      modifies `successCount
      ensures Current() == old(Current()).(successes := old(Current()).successes + 1)
    {
      successCount := successCount + 1;
    }

    method RecordProcessingLatency(ms: real)
      modifies `processingLatency
      ensures Current() == WithLatency(old(Current()), ms)
      ensures processedCount == 0 ==> processingLatency == ms
      ensures processedCount > 0 ==> processingLatency - old(processingLatency) == ms - processingLatency
    {
      if processedCount > 0 {
        processingLatency := (processingLatency + ms) / 2.0;
      } else {
        processingLatency := ms;
      }
    }
  }

  /** Between some recorded sample and some other: between the least and the greatest. */
  ghost predicate Within(x: real, samples: seq<real>)
  {
    (exists i :: 0 <= i < |samples| && samples[i] <= x)
    && (exists j :: 0 <= j < |samples| && x <= samples[j])
  }

  lemma WithinBounds(x: real, samples: seq<real>, lo: real, hi: real)
    requires Within(x, samples)
    requires forall i :: 0 <= i < |samples| ==> lo <= samples[i] <= hi
    ensures lo <= x <= hi
  {
    var i :| 0 <= i < |samples| && samples[i] <= x;
    var j :| 0 <= j < |samples| && x <= samples[j];
  }

  /** Recording a sample keeps the average within the samples, as long as nothing was counted as
      processed before the first sample. */
  lemma RecordingStaysWithin(v: Values, samples: seq<real>, ms: real)
    requires samples != [] ==> Within(v.latency, samples)
    requires samples == [] ==> v.processed == 0
    ensures Within(WithLatency(v, ms).latency, samples + [ms])
  {
    var all := samples + [ms];
    var x := WithLatency(v, ms).latency;
    assert all[|samples|] == ms;
    if v.processed > 0 {
      var i :| 0 <= i < |samples| && samples[i] <= v.latency;
      var j :| 0 <= j < |samples| && v.latency <= samples[j];
      assert all[i] == samples[i] && all[j] == samples[j];
      assert (all[i] <= x || ms <= x) && (x <= all[j] || x <= ms);
    }
  }

  /** The first sample, then halfway from the old value to each following one. */
  ghost function RunningMean(samples: seq<real>): (x: real)
    requires samples != []
  {
    var n := |samples| - 1;
    if n == 0 then samples[0] else (RunningMean(samples[..n]) + samples[n]) / 2.0
  }

  /** The latency is the running mean of the samples from position m on. */
  ghost predicate MeanFrom(v: Values, samples: seq<real>, m: nat)
  {
    m < |samples| && v.latency == RunningMean(samples[m..])
  }

  /** A sample starts the mean anew as long as nothing has been counted as processed, and joins it afterwards. */
  lemma RecordingJoinsMean(v: Values, samples: seq<real>, m: nat, ms: real)
    requires v.processed > 0 ==> MeanFrom(v, samples, m)
    ensures MeanFrom(WithLatency(v, ms), samples + [ms], if v.processed > 0 then m else |samples|)
  {
    var all := samples + [ms];
    assert all[|samples|..] == [ms];
    if v.processed > 0 {
      assert all[m..] == samples[m..] + [ms];
      assert all[m..][..|samples| - m] == samples[m..];
    }
  }
}
