# Verified model of the flow SDK's streams and of its Soroban extraction

This project models two parts of the SDK in Dafny and proves what they promise.

**Bounded drain.** A source streams events from a producer, a processor transforms them one at a time, a consumer
runs a callback per event, and none of the three may report success before the work it accepted is finished.

- `SourceStream`, `Processor`/`ProcessorWorld` and `ConsumerStream`/`ConsumerService` are state machines over labelled
  steps. A step is one statement of the handler that touches shared memory, or one step of another actor: the
  producer, the watcher goroutine, the client, the receive and callback goroutines, `Stop`. A run is any list of
  enabled steps, so a lemma about all runs covers every interleaving (`Runs`, `Sums`).
- `SourceEndings`, `ConsumerEndings` and `ProcessorEndings` say what the peers of the three calls see: over every run,
  each call that has returned did so at a step that finds one of the listed causes, and its answer is the one of that
  cause, spelled out as code and text; conversely the cause forces the answer. They also say, position by position
  (`Selections`), which events are called, sent and counted.
- `SourceLoop`, `ConsumerLoop` and `ProcessorLoop` are the loops of the source over mutable fields. Each is driven by a
  tape that holds, tick by tick, the interference of the other actors and the answers of transport, scheduler,
  handler and clock (`Tape`). The contract `Valid(pc)` of their methods says: the fields are the state that the machine
  reaches at statement `pc` by enabled steps only, on exactly the ticks consumed, taking each answer as it is; and
  after every tick the handler has moved unless it was blocked. A body that skips a statement, takes another
  branch, ignores an answer or idles breaks it.
- `SourceSchedule` shows that the interleaving does not matter for a well-behaved producer, `SourceControl` covers
  producer registration and the exclusive streaming flag, `Errors` the classification of errors. `Pipeline` joins the
  three machines by lossless links and proves the drain end to end, from the acknowledgement backwards;
  `PipelineSchedule` proves the converse, from a succeeding input to the acknowledgement on every schedule.

**Soroban extraction.** `AuthTree` and `AuthForest` (authorization trees flattened into contract calls), `ScVal` and
`ScalarJson` (values to JSON, and what that JSON holds field by field), `WideInt` (128- and 256-bit integers in limbs)
and `ContractEvents` (filtering and numbering of events).
Code that updates slices, maps, counters or big integers in place is a method with loops or recursion, proved
against a recursive specification that has its own lemmas.

Places where code and documentation, or code and expectation, part; the model follows the code:

- `docs/bounded-drain-remediation.md:47-51` asks to wait for outstanding work on cancellation. `Consume` does not
  always: `ConsumerService.ReturnLeavesRunningCallback` is a run, for every event, that returns with its callback still
  running. `ConsumerService.ReapedUnlessEndedAtASelect` is the exact condition over all runs: a returned stream has left
  its callback (its receive) behind if and only if a stop or the end of the context was taken at the select that waits
  for it (`pkg/consumer/service.go:121-126`, `pkg/consumer/service.go:87-93`). What is left behind is harmless:
  `ConsumerService.ReturnedStreamIsOver`.
- An error kind outside the six declared ones falls through the switch of `streamStatus`, while `failStream` still marks
  the component unhealthy. `Errors.HealthFollowsCode` gives the exact condition, `Errors.UnknownKindWitness` an input.
- `int256ToHex` formats a negative top limb with a minus sign. `WideInt.Int256HexDenotes` is the exact condition, and
  `WideInt.NegativeInt256Hex` says what the text of a negative limb denotes instead.
- `EventIndex` is an `int32`: a transaction with more than 2^31 contract events would break the order.
  `ContractEvents.IndicesStrictlyIncrease` is an equivalence.
- The call list can drop nodes. A call to the contract itself is not recorded; neither is a node that calls no contract,
  and the calls directly below such a node are lost with it, because they are walked without a parent contract
  (`pkg/stellar/processors/contract_invocation/contract_invocation_processor.go:333-339`).
  `AuthForest.LosslessIffDistinct` says exactly when no node is dropped; `AuthForest.SelfCallIsInvisible` and
  `AuthForest.CreationHidesItsCalls` show a forest of each kind that flattens to nothing.

## Model

| member | source | states |
|---|---|---|
| SourceStream.EveryRunKeepsInv | pkg/source/source.go:319-394 | every interleaving of handler, watcher, producer, client and Stop keeps the channel, result, counter and lifecycle invariants |
| SourceStream.Conservation | pkg/source/source.go:342-393 | in every reachable state, produced = delivered, then at most one held event, then the channel buffer; queued results = taken then buffered; the counters trail the deliveries by at most one |
| SourceStream.OkMeansDrained | pkg/source/source.go:350-374 | OK only for a bounded producer whose events were closed, drained and all delivered in order and counted, after exactly one queued result, nil |
| SourceStream.QuietEndings | pkg/source/source.go:344-408 | a call that counted no error left health alone and ended OK, or was cancelled by a stop or its client, or lost its client during a Send |
| SourceStream.AtMostOneSendAfterCancel | pkg/source/source.go:342-388 | from any state whose derived context is cancelled, every continuation starts at most one more Send |
| SourceStream.ReturnCleansUp | pkg/source/source.go:320-330 | on every return path the context is cancelled and the watcher has finished; nothing but a stop, the client or the return cancels the context |
| SourceStream.NeverStuckAfterStop | pkg/source/source.go:320-349 | with stop requested or the client gone, a call that has not returned always has an enabled step of its own; it waits only for the producer function or Send |
| SourceStream.CancelledCallEndsSoon | pkg/source/source.go:320-394 | once the context is cancelled, the call takes at most nine more steps of its own, whatever the others do |
| SourceEndings.EveryEndingHasItsCause | pkg/source/source.go:332-388 | over every run, a call that returns does so at a statement that finds a cause in the state: drained, an ended context, a failed Send, a producer's error, or a broken contract (incomplete stream, nil event, nothing queued at the close, a second result, an unbounded end); status text and code, error count and health are the ones of that cause, a broken contract being Internal, one error and unhealthy, and a stop being Canceled |
| SourceEndings.EveryCauseIsReported | pkg/source/source.go:332-388 | conversely, once a run takes a step that finds a cause, every continuation is past the loop and, when it returns, reports that cause |
| SourceSchedule.ScheduleIndependence | pkg/source/source.go:319-394 | for a producer that keeps its contract, without cancellation or send failure, every interleaving is finite, never stuck, and ends with the delivered events, status, counters and health of the sequential function of (events, result, Bounded) |
| SourceSchedule.ScheduledEnding | pkg/source/source.go:342-408 | in those interleavings everything before the first nil event is delivered; a nil event, or an unbounded stream without an error, ends Internal with one error and unhealthy; an error result ends as that error; only a bounded stream of events with a nil result ends OK |
| SourceLoop.LoopIsRun | pkg/source/source.go:319-394 | every run of the loop against a tape is a run of the source machine to the same state |
| SourceLoop.StreamCall.StreamWithResult | pkg/source/source.go:319-394 | the whole loop takes only machine steps with the tape's answers, moves after every tick unless blocked, and returns or is cut off where the tape ends; on return the context is cancelled, the watcher gone, and status, errors and health report the cause of the ending; OK means bounded, closed, all delivered and counted |
| SourceLoop.StreamCall.Start | pkg/source/source.go:332-341 | start-up ends at the loop exactly for a complete stream and a live context; cancellation outranks a start error, and an incomplete stream is an internal failure that counts and marks health |
| SourceLoop.StreamCall.OneTurn | pkg/source/source.go:342-393 | one turn of the loop follows the machine and uses at least one tick |
| SourceLoop.StreamCall.TryBranch | pkg/source/source.go:347-351 | one look at the select takes a branch only if it is ready, prefers as the scheduler says, and waits only when none is |
| SourceLoop.StreamCall.Deliver | pkg/source/source.go:379-391 | a taken event is sent and counted, or the call ends; with a live context a nil event is an internal failure that counts and marks health |
| SourceLoop.StreamCall.Send | pkg/source/source.go:385-389 | the event counts as delivered exactly when Send returned nil; otherwise the call ends with the downstream status |
| SourceLoop.StreamCall.CountDelivered | pkg/source/source.go:390-391 | each sent event counts once as processed and once as succeeded |
| SourceLoop.StreamCall.ReceiveResult | pkg/source/source.go:357-376 | a ready result is taken, otherwise the stream fails at once as missing its result |
| SourceLoop.StreamCall.CheckLast | pkg/source/source.go:362-364 | with a second result queued the call goes on to fail with that error, and to the verdict exactly otherwise |
| SourceLoop.StreamCall.JudgeResult | pkg/source/source.go:365-374 | a nil result is OK for a bounded stream and an internal failure for an unbounded one; an error over a cancelled context is reported as the ended context, uncounted; any other error is counted and classified |
| SourceLoop.StreamCall.FailStream | pkg/source/source.go:396-408 | one error counted, health marked unless the error is benign, and the classified status returned |
| SourceLoop.StreamCall.Finish | pkg/source/source.go:330 | the call is over only when the watcher has exited; until then it waits |
| SourceControl.StandardSource.OnProduce | pkg/source/source.go:111-123 | a nil producer and one against a stream producer are rejected and change nothing; any other is stored, over an earlier one too |
| SourceControl.StandardSource.OnProduceStream | pkg/source/source.go:126-137 | a nil producer and one against a legacy producer are rejected and change nothing; any other is stored, over an earlier one too |
| SourceControl.StandardSource.Begin | pkg/source/source.go:259-280 | a busy source rejects and changes nothing; otherwise only the flag is set, and a stream producer serves before a legacy one |
| SourceControl.StandardSource.End | pkg/source/source.go:269-273 | only the flag is cleared |
| SourceControl.StreamingIsExclusive | pkg/source/source.go:111-137 | for any number of calls in any order, the flag is set exactly when one RPC owns the stream, both producer kinds are never registered together, and an owner is served by the registered kind |
| SourceControl.OnlyOwnerReleases | pkg/source/source.go:256-280 | the flag goes from set to clear exactly on the owner's exit |
| SourceControl.ServedByRegistrations | pkg/source/source.go:111-137 | in every run an RPC that owns the stream is served by what was registered when it entered: the kind of the first registration and the last producer of that kind, or none if there was no registration |
| Errors.AsIsFirstNode | pkg/source/stream.go:38-39 | errors.As finds the first StreamError of the pre-order list of the wrap tree, over all trees |
| Errors.IsIsMembership | pkg/source/stream.go:55-60 | errors.Is finds a context error exactly when the pre-order list contains it |
| Errors.StatusReadsFirstStreamThenContext | pkg/source/stream.go:34-62 | the status is the one of a table over the six kinds, as texts, of the first StreamError of the tree or, failing a known kind, over the context errors it contains |
| Errors.HealthReadsFirstStreamThenContext | pkg/source/source.go:399-406 | health suffers exactly from a first StreamError of a kind other than "canceled" and "invalid_request" and, without any, from a tree without a cancelled context |
| Errors.ContextStatusReadsNodes | pkg/consumer/service.go:65 | the status of a context error: a deadline anywhere in the tree outranks a cancellation, anything else is unknown |
| Errors.RedactKeepsMatches | pkg/source/stream.go:25-62 | removing every wrapper and text from a tree changes neither errors.As nor errors.Is |
| Errors.StatusIsRedacted | pkg/source/stream.go:25-62 | trees that agree up to wrappers and texts have the same status and effect on health: no cause reaches a client |
| Errors.WrappingKeepsStatus | pkg/source/stream.go:34-62 | any number of wrappers leaves status and effect on health unchanged |
| Errors.HealthFollowsCode | pkg/source/source.go:396-408 | health turns unhealthy exactly for codes other than Canceled and InvalidArgument, if and only if the error is not of an unknown kind over a cancelled context |
| Errors.UnknownKindWitness | pkg/source/source.go:400-403 | an error of an unknown kind over a cancelled context reports Canceled and still marks health |
| ConsumerStream.StepKeepsInv | pkg/consumer/service.go:57-148 | every step of handler, receiver, callback and context keeps: at most one receive and one callback outstanding, callbacks in receive order on the accepted events, tallies equal to outcomes |
| ConsumerStream.FoldCounts | pkg/consumer/service.go:109-146 | the sequential fold splits the events into consumed, failed and filtered |
| ConsumerStream.TalliesAreTheFold | pkg/consumer/service.go:131-146 | whenever every callback has been counted, the tallies are the sequential fold of events and results |
| ConsumerStream.AckMeansDrained | pkg/consumer/service.go:74-147 | the response is sent only after EOF with no callback in flight, every accepted event called and counted, and equals the fold; a non-empty, wholly filtered input never gets it |
| ConsumerStream.StepKeepsJustified | pkg/consumer/service.go:63-134 | every step keeps that a refusal has a reason its status names |
| ConsumerStream.ReturnAbandons | pkg/consumer/service.go:86-126 | a returning step abandons the callback, or the receive, exactly when it is taken at the select that waits for it, and only a stop or the end of the derived context returns from there |
| ConsumerService.EveryRunKeepsWorld | pkg/consumer/service.go:57-151 | any number of streams and Stop calls keep the stream invariants, the global sums and the single close |
| ConsumerService.AcknowledgedStreamsAreDrained | pkg/consumer/service.go:74-147 | drain safety for every acknowledged stream of every run with any number of streams |
| ConsumerService.CountersAreSums | pkg/consumer/service.go:84-146 | global consumed and failed counters are sums over streams; success and error counters lag by the streams between their two adds; per stream one receive and one callback outstanding, in order |
| ConsumerService.StopClosesOnce | pkg/consumer/service.go:151 | any number of concurrent Stop calls closes the channel at most once, and it is closed when any of them returns |
| ConsumerService.RefusalsAreExplained | pkg/consumer/service.go:63-134 | in every run a refusal names its reason: receive failure, nil event, no handler, nothing matched, callback's context error, cancellation, or stop |
| ConsumerService.AfterStopOrCancel | pkg/consumer/service.go:63-130 | after a stop or cancellation that precedes the check after EOF a stream never succeeds; at most one more callback starts; no result is counted unless its check had passed |
| ConsumerService.ReapedUnlessEndedAtASelect | pkg/consumer/service.go:86-126 | in every run, a returned stream has left its callback, or its receive, behind if and only if it returned from the select that waits for it, on a stop or the end of the derived context |
| ConsumerService.ReturnLeavesRunningCallback | pkg/consumer/service.go:118-126 | for every event there is a run that returns with the callback still running |
| ConsumerService.NeverStuckOnceEnded | pkg/consumer/service.go:63-130 | with the service stopped or the stream's context ended, a call that has not returned always has an enabled step of its own and waits neither for Recv nor for its callback |
| ConsumerService.EndedCallEndsSoon | pkg/consumer/service.go:63-147 | from then on the call takes at most four more steps of its own, whatever everyone else does |
| ConsumerService.StopNeverWaits | pkg/consumer/service.go:151 | while a Stop call has not returned, one of the Stop calls can move, whatever the streams do |
| ConsumerService.ReturnedStreamIsOver | pkg/consumer/service.go:119-126 | a returned stream starts no callback and no receive and counts nothing, and what it left behind stays unanswered |
| ConsumerEndings.CallbacksAreThePassedEvents | pkg/consumer/service.go:109-119 | in every run and stream, the callbacks were started on exactly those received events whose type is among the input types (on all of them without input types), each once and in receive order |
| ConsumerEndings.AcknowledgementReportsCallbacks | pkg/consumer/service.go:97-147 | an acknowledgement follows the end of the input with nothing in flight, after all of those callbacks, and reports how many returned nil, how many did not, and one fixed text for each of the first eight that did not |
| ConsumerEndings.StepReturnsBecause | pkg/consumer/service.go:63-147 | a step returns with an answer if and only if it finds the reason of that answer, each spelled out as code and text |
| ConsumerEndings.EveryReturnHasItsCause | pkg/consumer/service.go:63-147 | over every run of any number of streams and stops, a returned call returned at some step and for the reason of its answer |
| ConsumerLoop.EveryCallKeepsInv | pkg/consumer/service.go:57-148 | every run of one stream with a racing stop keeps the stream invariants |
| ConsumerLoop.LoopIsRun | pkg/consumer/service.go:57-148 | every run of the loop against a tape is a run of the consumer machine to the same state |
| ConsumerLoop.ConsumeCall.Consume | pkg/consumer/service.go:57-148 | the whole loop takes only machine steps with the tape's answers, moves after every tick unless blocked; the atomic counters move by its own tallies beside the others' adds; the callbacks ran on exactly the events that pass the type filter; a return has the reason of its answer and an acknowledgement equals the fold |
| ConsumerLoop.ConsumeCall.ReceiveOne | pkg/consumer/service.go:84-96 | one outstanding receive, then the check, as the machine says |
| ConsumerLoop.ConsumeCall.TryBranch | pkg/consumer/service.go:87-93 | one look at a select takes a branch only if it is ready and waits only when none is |
| ConsumerLoop.ConsumeCall.CheckThen | pkg/consumer/service.go:75-77 | the check before a receive and after each select refuses exactly as the machine does |
| ConsumerLoop.ConsumeCall.CancelledStatus | pkg/consumer/service.go:63-73 | the stream's context error outranks the stop |
| ConsumerLoop.ConsumeCall.DispatchItem | pkg/consumer/service.go:97-119 | EOF, receive error, nil event and events each go where the machine says |
| ConsumerLoop.ConsumeCall.Finish | pkg/consumer/service.go:97-102 | EOF after only filtered events refuses; otherwise the tallies are sent |
| ConsumerLoop.ConsumeCall.DispatchEvent | pkg/consumer/service.go:109-119 | an event is skipped exactly when there are input types and its type is none of them; otherwise one callback starts on it, or the call refuses for want of a handler |
| ConsumerLoop.ConsumeCall.Count | pkg/consumer/service.go:131-146 | a context error from the callback refuses and counts nothing; otherwise exactly one tally and its two atomic adds move |
| ConsumerLoop.ConsumeCall.Tally | pkg/consumer/service.go:135-144 | a result moves exactly one tally and one counter, and at most eight failures are summarised |
| ConsumerLoop.ConsumeCall.CountAgain | pkg/consumer/service.go:136-145 | the second atomic add follows the first, with others' steps and adds in between |
| ConsumerLoop.ConsumeCall.AddAgain | pkg/consumer/service.go:136-145 | exactly the success counter moves after a completed callback, exactly the error counter after a failed one |
| HandlerRegistry.EntriesAre | pkg/processor/handler.go:72-76 | the entries a handler adds under a type are that handler, and there are some exactly when it lists the type |
| HandlerRegistry.FirstRegisteredWins | pkg/processor/handler.go:72-81 | the first entry of a type is the first registered handler that lists it; there is none exactly when no handler lists it |
| HandlerRegistry.RegisteredInOrder | pkg/processor/handler.go:72-76 | the entries of a type are the registered handlers in the order of registration, each as often as it lists the type |
| HandlerRegistry.Registry.Register | pkg/processor/handler.go:72-76 | the table after any registrations is exactly what they append, in order and as often as listed |
| HandlerRegistry.Registry.GetHandlersForType | pkg/processor/handler.go:79-81 | exactly the registered handlers that list the type, in the order of registration |
| HandlerRegistry.Registry.GetAllHandlers | pkg/processor/handler.go:84-98 | every registered handler that lists some type, exactly once, whatever the map order |
| Metrics.StandardMetrics.IncrementProcessedCount | pkg/flowctl/metrics.go:34-39 | exactly that counter moves by one |
| Metrics.StandardMetrics.IncrementErrorCount | pkg/flowctl/metrics.go:42-47 | exactly that counter moves by one |
| Metrics.StandardMetrics.IncrementSuccessCount | pkg/flowctl/metrics.go:50-55 | exactly that counter moves by one |
| Metrics.StandardMetrics.RecordProcessingLatency | pkg/flowctl/metrics.go:58-68 | the new latency is the sample as long as nothing was counted and lies halfway between the old one and the sample afterwards; no counter moves |
| Metrics.RecordingStaysWithin | pkg/flowctl/metrics.go:58-68 | recording keeps the latency between two recorded samples |
| Metrics.WithinBounds | pkg/flowctl/metrics.go:58-68 | a latency between samples respects every bound common to all samples |
| Metrics.RecordingJoinsMean | pkg/flowctl/metrics.go:58-68 | a sample starts the running mean anew as long as nothing was counted as processed, and joins it afterwards |
| Processor.StepKeepsInv | pkg/processor/processor.go:221-301 | every step keeps: inputs matched one to one with invocations of the first handler, sends equal to the non-nil outputs but at most the last, no error before the last invocation |
| ProcessorWorld.EveryRunKeepsWorld | pkg/processor/processor.go:221-301 | any number of concurrent calls keep their traces, and the shared counters equal the totals over the calls |
| ProcessorWorld.Trace | pkg/processor/processor.go:221-301 | in every run the k-th input went to the first handler registered for its type; sends are the non-nil outputs in input order, complete before the next receive; nil means every input handled without error and every output sent |
| ProcessorWorld.MetricsBalance | pkg/processor/processor.go:255-300 | at quiescence processed = success + filtered + handler failures, errors = handler failures + unmatched, success = delivered + failed sends |
| ProcessorWorld.QuiescentTotals | pkg/processor/processor.go:255-300 | the same three balances over any list of calls between two events |
| ProcessorWorld.LatencyWithinSamples | pkg/flowctl/metrics.go:58-68 | over any interleaving the latency lies between the least and the greatest recorded sample |
| ProcessorWorld.LatencyIsRunningMean | pkg/flowctl/metrics.go:58-68 | in every run the latency is the running mean of the samples: of all of them for one call, and otherwise of all but fewer first ones than there are calls |
| ProcessorEndings.SendsAreSelected | pkg/processor/processor.go:269-300 | in every run the k-th event sent is the output of the k-th invocation that returned an event and no error; at most the last such output is missing |
| ProcessorEndings.FailuresAreSelected | pkg/processor/processor.go:275-276 | the counted failures are the invocations that returned an error |
| ProcessorEndings.FilteredAreSelected | pkg/processor/processor.go:286-289 | the counted filtered events are the invocations that returned neither an error nor an event |
| ProcessorEndings.StepReturnsBecause | pkg/processor/processor.go:225-300 | a step returns with a result if and only if it finds the reason of that result |
| ProcessorEndings.EveryReturnHasItsCause | pkg/processor/processor.go:225-300 | over every run of any number of calls a returned call returned for the reason of its result; after a handler's error the ended context of the call comes first, then the handler's error if it is, wraps or joins a context error, and any other error is replaced by the fixed failure, so it never reaches the peer |
| ProcessorEndings.AfterStopOrCancel | pkg/processor/processor.go:225-238 | after a stop or the end of the context only a receive already waiting can bring an input, and at most one more invocation starts |
| ProcessorLoop.LoopIsRun | pkg/processor/processor.go:221-301 | every run of the loop against a tape is a run of the processor machine to the same state |
| ProcessorLoop.ProcessCall.Process | pkg/processor/processor.go:221-245 | the whole loop takes only machine steps with the tape's inputs and answers and deals with every turn; a return has the reason of its result; nil means all inputs handled and all outputs sent; the counters balance |
| ProcessorLoop.ProcessCall.Receive | pkg/processor/processor.go:225-238 | the context and the stop are looked at before the receive; the input received is the one offered |
| ProcessorLoop.ProcessCall.Handle | pkg/processor/processor.go:257-273 | no handler ends the call; otherwise the first one ran and the event goes on by its result |
| ProcessorLoop.ProcessCall.Measure | pkg/processor/processor.go:272-273 | the sample is recorded before the event is counted as processed |
| ProcessorLoop.ProcessCall.Reject | pkg/processor/processor.go:260-263 | an unmatched input counts one error |
| ProcessorLoop.ProcessCall.Fail | pkg/processor/processor.go:275-284 | a handler error counts one error and never ends the call with nil |
| ProcessorLoop.ProcessCall.FailWith | pkg/processor/processor.go:277-283 | the ended context is returned first, then the handler's error exactly when its tree contains a context error, and otherwise the fixed failure |
| ProcessorLoop.ProcessCall.SendOutput | pkg/processor/processor.go:291-300 | success is counted before the Send; a failed Send ends the call and the output is not sent |
| Pipeline.EveryRunKeepsInv | docs/bounded-drain-remediation.md:31-51 | every run of the three machines over the two links keeps all their invariants and what each link holds |
| Pipeline.AcknowledgedRunIsDrained | docs/bounded-drain-remediation.md:31-51 | an acknowledgement with zero failures proves that source and processor ended OK, that everything the producer ever produced was handled without error, and that the callbacks completed once each, in order, on exactly the accepted outputs |
| Pipeline.OutputsAreTheImage | pkg/processor/processor.go:247-301 | with handlers that are functions of the event, the outputs are the image of the inputs |
| Pipeline.AcknowledgedRunConsumesTheImage | docs/bounded-drain-remediation.md:31-51 | then the callbacks ran on exactly the accepted image of the whole produced sequence |
| Pipeline.AcknowledgedRunCallsEventByEvent | docs/bounded-drain-remediation.md:31-51 | then the k-th callback ran on what the first registered handler made of the k-th of exactly those produced events whose result is there and has an accepted type |
| PipelineSchedule.EveryScheduleDrains | docs/bounded-drain-remediation.md:31-51 | for a producer that follows a program without errors, handlers and callbacks that answer without error, and no stop, cancellation or transport failure, every interleaving of the three calls is finite, never stuck, and ends with source and processor OK and the consumer acknowledging exactly the accepted image, or refusing if something reached it and nothing was accepted |
| PipelineSchedule.ScheduledAnswer | docs/bounded-drain-remediation.md:31-51 | in those interleavings all programmed events are delivered, the callbacks ran on what was made of exactly those that reach the consumer and pass its filter, and the answer acknowledges each of them without failures, or refuses as unmatched |
| WideInt.Uint128ToString | pkg/stellar/processors/contract_invocation/helpers.go:323-329 | the decimal text of the unsigned value of the limbs |
| WideInt.Int128ToString | pkg/stellar/processors/contract_invocation/helpers.go:331-345 | the decimal text of the two's complement value of the bit pattern |
| WideInt.Uint256ToString | pkg/stellar/processors/contract_invocation/helpers.go:347-364 | the decimal text of the unsigned value of the limbs |
| WideInt.Int256ToString | pkg/stellar/processors/contract_invocation/helpers.go:370-393 | the decimal text of the two's complement value of the bit pattern |
| WideInt.SignedLimb | pkg/stellar/processors/contract_invocation/helpers.go:331-340 | testing the high bit and subtracting 2^64 gives back the signed limb |
| WideInt.SignedTopLimb128 | pkg/stellar/processors/contract_invocation/helpers.go:331-345 | two's complement of the pattern equals signed high limb times 2^64 plus low limb |
| WideInt.SignedTopLimb256 | pkg/stellar/processors/contract_invocation/helpers.go:370-393 | the same for 256 bits |
| WideInt.Ranges | pkg/stellar/processors/contract_invocation/helpers.go:323-393 | each conversion lands in the exact range of its type |
| WideInt.Bijection128 | pkg/stellar/processors/contract_invocation/helpers.go:323-345 | the limbs are recovered from the number, unsigned and signed |
| WideInt.Bijection128Onto | pkg/stellar/processors/contract_invocation/helpers.go:323-345 | every number of the range is reached |
| WideInt.Bijection256 | pkg/stellar/processors/contract_invocation/helpers.go:347-393 | the limbs are recovered from the number, unsigned and signed |
| WideInt.Bijection256Onto | pkg/stellar/processors/contract_invocation/helpers.go:347-393 | every number of the range is reached |
| WideInt.Order128 | pkg/stellar/processors/contract_invocation/helpers.go:323-345 | numeric order is lexicographic limb order, the top limb signed for the signed type |
| WideInt.Order256 | pkg/stellar/processors/contract_invocation/helpers.go:347-393 | the same for four limbs |
| WideInt.DistinctTexts | pkg/stellar/processors/contract_invocation/helpers.go:323-393 | distinct limbs print distinct decimals, for all four types |
| WideInt.DecimalRoundTrip | pkg/stellar/processors/contract_invocation/helpers.go:328 | parsing a printed decimal gives the number back |
| WideInt.DecimalIsWritten | pkg/stellar/processors/contract_invocation/helpers.go:328 | the ten digits, the last one last, no leading zeros, a minus sign before a negative number |
| WideInt.HexIsWritten | pkg/stellar/processors/contract_invocation/helpers.go:366-397 | the sixteen usual digits, the last one last |
| WideInt.Uint256HexDenotes | pkg/stellar/processors/contract_invocation/helpers.go:366-368 | 64 hexadecimal digits that denote the number |
| WideInt.Int256HexDenotes | pkg/stellar/processors/contract_invocation/helpers.go:395-397 | 64 hexadecimal digits of the bit pattern if and only if the top limb is not negative; otherwise the text starts with a minus sign and is 64 or 65 characters long |
| WideInt.NegativeInt256Hex | pkg/stellar/processors/contract_invocation/helpers.go:395-397 | after the minus sign come hexadecimal digits of the absolute top limb and then of the unsigned lower limbs; read as a signed number the text is the number exactly when the lower limbs are zero |
| ScVal.ConvertScValToJson | pkg/stellar/processors/contract_invocation/helpers.go:62-283 | the recursive conversion ends on every value tree and equals its specification, whose JSON is described field by field by the rows of ScalarJson |
| ScVal.ConvertArm | pkg/stellar/processors/contract_invocation/helpers.go:115-167 | the wide integers are printed through math/big and placed under the fields of the specification |
| ScalarJson.Json128 | pkg/stellar/processors/contract_invocation/helpers.go:115-137 | the 128-bit types hold each limb under its own key and the decimal of the limbs' sum, with an unsigned or a signed high limb |
| ScalarJson.JsonU256 | pkg/stellar/processors/contract_invocation/helpers.go:139-152 | the unsigned 256-bit type holds its four limbs, their sum in decimal, and the same number in 64 hexadecimal digits |
| ScalarJson.JsonI256 | pkg/stellar/processors/contract_invocation/helpers.go:154-167 | the signed one holds its four limbs and their sum with a signed top limb; its hexadecimal text denotes the same number if and only if the top limb is not negative, and otherwise the absolute top limb followed by the others |
| ScalarJson.JsonOfScalars | pkg/stellar/processors/contract_invocation/helpers.go:64-95 | booleans, void, small integers and texts become themselves |
| ScalarJson.JsonOfTagged | pkg/stellar/processors/contract_invocation/helpers.go:97-278 | timepoints, durations, nonces and instances hold exactly their content |
| ScalarJson.JsonOfBytes | pkg/stellar/processors/contract_invocation/helpers.go:181-190 | bytes hold their hexadecimal, their base64 and their length |
| ScalarJson.JsonOfAddress | pkg/stellar/processors/contract_invocation/helpers.go:286-319 | an address has a JSON exactly when strkey encodes it with the version of its kind, and holds that text |
| ScalarJson.TextIsTypeTag | pkg/stellar/processors/contract_invocation/helpers.go:62-283 | the text under "type" is the tag of the value's type |
| ScalarJson.TagsDiffer | pkg/stellar/processors/contract_invocation/helpers.go:62-319 | no two types, and no two kinds of address, share a tag |
| ScalarJson.FailsExactlyOn | pkg/stellar/processors/contract_invocation/helpers.go:62-319 | a value has no JSON exactly when its pointer is nil, its type unsupported, or its address cannot be encoded |
| ScalarJson.NilErrorNamesType | pkg/stellar/processors/contract_invocation/helpers.go:169-275 | the error of a nil pointer names the type |
| ScalarJson.NilNumberNamesType | pkg/stellar/processors/contract_invocation/helpers.go:64-157 | the same for the numbers and the boolean |
| ScalarJson.VecByPosition | pkg/stellar/processors/contract_invocation/helpers.go:198-216 | each element is at its position, or a note of its position, error and type |
| ScalarJson.NoteNamesType | pkg/stellar/processors/contract_invocation/helpers.go:205-209 | the type in such a note is the name of the value's type |
| ScalarJson.MapListsKeys | pkg/stellar/processors/contract_invocation/helpers.go:218-254 | the keys are listed in entry order, null for one without JSON |
| ScalarJson.PrintedKey | pkg/stellar/processors/contract_invocation/helpers.go:230-238 | a key is printed by the format verb or, without JSON, as its error |
| ScalarJson.MapHoldsLastEntry | pkg/stellar/processors/contract_invocation/helpers.go:230-254 | under a printed key stands the value of the last entry printed so, or a note of its error and type |
| ScVal.ConvertVec | pkg/stellar/processors/contract_invocation/helpers.go:198-216 | length and positions are kept; a failing child leaves a note of its index, error and type |
| ScVal.ConvertMap | pkg/stellar/processors/contract_invocation/helpers.go:218-254 | keys keep entry order, entries are the fold in which later entries overwrite earlier ones |
| ScVal.KeyPresence | pkg/stellar/processors/contract_invocation/helpers.go:230-245 | a printed key is present exactly when some entry prints it |
| ScVal.LastWriterWins | pkg/stellar/processors/contract_invocation/helpers.go:230-245 | the last entry printed under a key decides its value |
| ScVal.PlacesAreKept | pkg/stellar/processors/contract_invocation/helpers.go:198-254 | a vector or map never fails because of a child; at every depth and along every path the JSON has the child's rendering at the child's place |
| ScVal.ExtractArguments | pkg/stellar/processors/contract_invocation/helpers.go:33-59 | exactly the arguments before the first failing one, each under its own name and nothing else; an error exactly when there is a failing argument, naming its position |
| ScVal.ArgNameInjective | pkg/stellar/processors/contract_invocation/helpers.go:55 | different positions have different names |
| AuthTree.ExtractContractCallsFromAuth | pkg/stellar/processors/contract_invocation/contract_invocation_processor.go:244-271 | the calls of all entries are the recordable nodes in pre-order, numbered from 0 across entries, and each carries the contracts, function, depth and convertible arguments of its node |
| AuthTree.Collector.ProcessAuthorizationTree | pkg/stellar/processors/contract_invocation/contract_invocation_processor.go:274-343 | the walk appends exactly the calls of the recordable nodes of its tree, in pre-order, and moves the shared counter by their number |
| AuthTree.Collector.RecordNode | pkg/stellar/processors/contract_invocation/contract_invocation_processor.go:286-330 | one call, with the arguments that convert, for a node whose parent and contract are known and differ; none otherwise |
| AuthTree.Collector.DecodeArguments | pkg/stellar/processors/contract_invocation/contract_invocation_processor.go:306-314 | the conversions of exactly the arguments that convert, in the order of the arguments |
| AuthTree.RecordedIsRecordable | pkg/stellar/processors/contract_invocation/contract_invocation_processor.go:317-318 | every recorded node is recordable and calls a contract |
| AuthTree.RecordedIsSelected | pkg/stellar/processors/contract_invocation/contract_invocation_processor.go:317-318 | the recorded visits are exactly those between two known and different contracts, in the order of the walk |
| AuthTree.CallsCarryTheirNodes | pkg/stellar/processors/contract_invocation/contract_invocation_processor.go:286-329 | the i-th call has the parent's and the node's contract, the node's function, depth and order i; its arguments are the conversions of exactly the node's arguments that convert, in order, and of all of them in place when all convert |
| AuthTree.CallsAreNumberedCrossCalls | pkg/stellar/processors/contract_invocation/contract_invocation_processor.go:317-329 | the i-th call has execution order i; no call is a self-call or has an empty end |
| AuthForest.ReachedIsVisited | pkg/stellar/processors/contract_invocation/contract_invocation_processor.go:332-342 | every node reachable through encodable nodes is visited |
| AuthForest.VisitIsReached | pkg/stellar/processors/contract_invocation/contract_invocation_processor.go:332-342 | every visit is a node on a path, with its parent's id and the path's length as depth |
| AuthForest.PathWithinHeight | pkg/stellar/processors/contract_invocation/contract_invocation_processor.go:332-342 | the depth of a visit is the length of its path, at most the height of the tree |
| AuthForest.EveryCallIsANode | pkg/stellar/processors/contract_invocation/contract_invocation_processor.go:244-342 | each call is a node on a path from the root of some entry, as deep as the path is long, and authorized by "contract" or "source_account" as the entry's credentials say |
| AuthForest.EveryCrossNodeIsACall | pkg/stellar/processors/contract_invocation/contract_invocation_processor.go:274-342 | each node on a path of encodable nodes that, with its parent, names two different contracts is a call that carries its data |
| AuthForest.GetMaxCallDepth | pkg/stellar/processors/contract_invocation/contract_invocation_event.go:106-114 | the least upper bound of the call depths, 0 without calls |
| AuthForest.CallDepthsWithinHeight | pkg/stellar/processors/contract_invocation/contract_invocation_processor.go:317-342 | no call lies deeper than the forest is high |
| AuthForest.RebuildUndoesEdges | pkg/stellar/processors/contract_invocation/contract_invocation_processor.go:317-342 | rebuilding from a pre-order list of edges with depths gives the forest back |
| AuthForest.CallsDetermineForest | pkg/stellar/processors/contract_invocation/contract_invocation_processor.go:317-342 | when every node names a contract different from its parent's, from, to, function and depth of the calls determine the whole forest |
| AuthForest.OneCallPerNode | pkg/stellar/processors/contract_invocation/contract_invocation_processor.go:317-342 | a tree yields one call per node if and only if it is distinct, and never more |
| AuthForest.LosslessIffDistinct | pkg/stellar/processors/contract_invocation/contract_invocation_processor.go:244-342 | the list has one call per node of the forest if and only if every node is distinct from its parent |
| AuthForest.SelfCallIsInvisible | pkg/stellar/processors/contract_invocation/contract_invocation_processor.go:317-318 | without that condition two forests flatten alike |
| AuthForest.CreationHidesItsCalls | pkg/stellar/processors/contract_invocation/contract_invocation_processor.go:286-342 | a call below a node that calls no contract is not recorded, though the same call on its own is |
| ContractEvents.EventsFromLedger | pkg/stellar/processors/contract_events/contract_events.go:43-81 | all contributions in order, or the error of opening the reader, or the first read error, and then nothing |
| ContractEvents.ExtractEventsFromTransaction | pkg/stellar/processors/contract_events/contract_events.go:84-158 | the kept events of a transaction, numbered from 0 |
| ContractEvents.AppendEvents | pkg/stellar/processors/contract_events/contract_events.go:110-151 | one inner loop appends the contract events of its list and moves the running index by their number |
| ContractEvents.AppendEvent | pkg/stellar/processors/contract_events/contract_events.go:111-131 | a contract event is appended under the running index, any other changes nothing |
| ContractEvents.EventAt | pkg/stellar/processors/contract_events/contract_events.go:54-216 | the i-th kept event of transaction k is reported with the ledger's close time and sequence, its transaction's hash, the indices k and i, its operation's index, contract and content, each index wrapped to 32 bits, and stands right after those before it and those of earlier transactions |
| ContractEvents.NothingElse | pkg/stellar/processors/contract_events/contract_events.go:54-80 | every place of the output belongs to a kept event |
| ContractEvents.OperationEventAt | pkg/stellar/processors/contract_events/contract_events.go:110-118 | the i-th event of an operation stands right after those of the operations before it and carries that operation |
| ContractEvents.TransactionEventAt | pkg/stellar/processors/contract_events/contract_events.go:134-146 | the i-th event of the transaction itself stands after those of all operations and carries none |
| ContractEvents.KeptIsSelected | pkg/stellar/processors/contract_events/contract_events.go:94-151 | a successful transaction keeps exactly its events of contract type, each once and in that order |
| ContractEvents.KeptIsOrderedFilter | pkg/stellar/processors/contract_events/contract_events.go:94-151 | the kept events are exactly the order-preserving filter of all events by contract type, operation events before transaction-level ones; a failed transaction keeps none |
| ContractEvents.IndicesStrictlyIncrease | pkg/stellar/processors/contract_events/contract_events.go:54-151 | over a ledger of at most 2^32 transactions, (TransactionIndex, EventIndex) strictly increases if and only if no transaction has more than 2^31 contract events |

## Left out

- The legacy event loop of `StreamEvents` for producers registered with `OnProduce` (`pkg/source/source.go:281-315`); only its registration and the flag are modelled.
- Start, Stop and the health server around the three services: one health variable is kept. One lifecycle only, because closed channels are reused by a second one.
- The flowctl controller, chunk reporting, gRPC servers and dialing: network plumbing.
- The PostgreSQL sink: database I/O.
- Configuration, environment overrides, `Run` wrappers and conversion to protobuf messages: easy or library-bound.
- `GetAllInputTypes`, `GetAllOutputTypes`, custom counters and gauges, `Reset`: would only add easy members.
- Concurrent handler registration while calls run: the Go map is not guarded, so the table is fixed during `Process`.
- Wrap-around of the 64-bit counters and rounding of the latency, which is a real number here.
- Library code is abstract: strkey, hex, base64, `fmt`'s `%v` and `json.Marshal` are functions of a `Lib` record, or an optional result. Inner XDR pointers are assumed not nil.
- `scValToJSON` and `detectEventType`: an event carries its topics and data as opaque bytes.
- TTL entries, diagnostic events and state changes of contract invocations: the code produces nothing for them.
- The texts of the processor's own errors: each is a constructor of its result, and the fixed handler failure carries nothing of the error it replaces.
- Logging, timestamps of the metrics, and the wait group of the processor.
- Message texts of gRPC's `FromContextError` for wrapped errors: the code is modelled, the text is fixed per code.
- SourceLoop.StreamCall.StreamWithResult: the loop is driven by a finite tape, so a call that waits when the tape ends is cut off there; termination without the tape is `SourceSchedule.ScheduleIndependence` and `SourceStream.CancelledCallEndsSoon`.
- ConsumerLoop.ConsumeCall.Consume: cut off in the same way; the deferred cancel of its derived context after it has returned is not modelled.
- ProcessorLoop.ProcessCall.Process: one call on fresh metrics; many calls on shared metrics are `ProcessorWorld`.
- SourceStream.NeverStuckAfterStop: the producer function and Send must return once their context is cancelled, as the producer contract asks; a producer that ignores its context can keep the call waiting.
- SourceControl.StandardSource.Begin: the mutex is modelled by running each method as one step.
