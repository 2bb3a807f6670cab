/** Contract events of a ledger and their numbering
    (pkg/stellar/processors/contract_events/contract_events.go:42-158). */
module ContractEvents {
  import opened Basics
  import opened Selections

  const TWO_31 := 0x8000_0000
  const TWO_32 := 0x1_0000_0000

  datatype Kind = System | Contract | Diagnostic

  /** An event of the ledger; topics and data are carried along as bytes. */
  datatype RawEvent = RawEvent(kind: Kind, contractId: Option<string>, body: seq<bv8>)

  datatype TxEvents = TxEvents(operationEvents: seq<seq<RawEvent>>, transactionEvents: seq<RawEvent>)

  /** A transaction; `events` is None when GetTransactionEvents fails. */
  datatype Tx = Tx(hash: string, successful: bool, events: Option<TxEvents>)

  /** What the transaction reader returns until EOF. */
  datatype Read = Success(tx: Tx) | Failure(error: string)

  datatype ContractEvent = ContractEvent(
    timestamp: int, ledgerSequence: nat, transactionHash: string, transactionIndex: int, contractId: string,
    body: seq<bv8>, inSuccessfulTx: bool, eventIndex: int, operationIndex: Option<int>)

  /** `readerError` is what opening the transaction reader fails with, if it does. */
  datatype Ledger = Ledger(sequence: nat, closeTime: int, readerError: Option<string>, results: seq<Read>)

  /** "error creating transaction reader" and "error reading transaction", wrapping their cause. */
  datatype Error = CreatingReader(cause: string) | ReadingTransaction(cause: string)

  datatype Result<+T> = Ok(value: T) | Err(error: Error)

  /** Go's uint32 and int32 wrap around. */
  function Uint32(n: int): (r: int) { n % TWO_32 }
  function Int32(n: int): (r: int) { if n % TWO_32 < TWO_31 then n % TWO_32 else n % TWO_32 - TWO_32 }

  // ----- specification: filter, then number

  /** An event with the operation it came from, None at transaction level. */
  datatype Sourced = Sourced(event: RawEvent, op: Option<nat>)

  /** The contract events of a list, appended to those kept before. */
  function Keep(events: seq<RawEvent>, op: Option<nat>, kept: seq<Sourced>): (r: seq<Sourced>)
  {
    if events == [] then kept
    else
      var n := |events| - 1;
      var front := Keep(events[..n], op, kept);
      if events[n].kind.Contract? then front + [Sourced(events[n], op)] else front
  }

  /** Those of the first n operations, in order. */
  function KeepOps(ops: seq<seq<RawEvent>>, n: nat): (r: seq<Sourced>)
    requires n <= |ops|
  {
    if n == 0 then [] else Keep(ops[n - 1], Some(n - 1), KeepOps(ops, n - 1))
  }

  /** Those of a transaction: operation events first, then transaction-level ones; none if it failed. */
  function Kept(tx: Tx): (r: seq<Sourced>)
  {
    if !tx.successful || tx.events.None? then []
    else Keep(tx.events.value.transactionEvents, None,
              KeepOps(tx.events.value.operationEvents, |tx.events.value.operationEvents|))
  }

  /** processContractEvent. */
  function Processed(l: Ledger, tx: Tx, txIndex: int, x: Sourced, index: int): (e: ContractEvent)
  {
    ContractEvent(l.closeTime, l.sequence, tx.hash, txIndex,
                  if x.event.contractId.Some? then x.event.contractId.value else "",
                  x.event.body, true, index, if x.op.Some? then Some(Uint32(x.op.value)) else None)
  }

  /** The kept events of a transaction, numbered from 0. */
  function Numbered(l: Ledger, tx: Tx, txIndex: int, xs: seq<Sourced>): (r: seq<ContractEvent>)
  {
    seq(|xs|, i requires 0 <= i < |xs| => Processed(l, tx, txIndex, xs[i], Int32(i)))
  }

  /** What a transaction contributes at a given index. */
  function Contribution(l: Ledger, tx: Tx, txIndex: int): (r: seq<ContractEvent>)
  {
    Numbered(l, tx, txIndex, Kept(tx))
  }

  /** part(0), part(1), ..., part(n - 1), one after the other. */
  function Joined(part: nat -> seq<ContractEvent>, n: nat): (r: seq<ContractEvent>)
  {
    if n == 0 then [] else Joined(part, n - 1) + part(n - 1)
  }

  /** What each transaction contributes; a failed one uses up its index and contributes nothing. */
  function Parts(l: Ledger, txs: seq<Tx>): (part: nat -> seq<ContractEvent>)
  {
    (k: nat) => if k < |txs| then Contribution(l, txs[k], Uint32(k)) else []
  }

  function LedgerEvents(l: Ledger, txs: seq<Tx>): (r: seq<ContractEvent>)
  {
    Joined(Parts(l, txs), |txs|)
  }

  // ----- the loops of the source

  /** The events appended so far, and the running event index, when ks have been kept so far. */
  ghost predicate UpTo(l: Ledger, tx: Tx, txIndex: int, ks: seq<Sourced>, events: seq<ContractEvent>, eventIndex: int)
  {
    events == Numbered(l, tx, txIndex, ks) && eventIndex == Int32(|ks|)
  }

  lemma NextIndex(n: nat)
    ensures Int32(Int32(n) + 1) == Int32(n + 1)
  {
  }

  /** One turn of either loop of extractEventsFromTransaction. */
  method AppendEvent(l: Ledger, tx: Tx, txIndex: int, ghost ks: seq<Sourced>, event: RawEvent, op: Option<nat>,
                     events: seq<ContractEvent>, eventIndex: int)
    returns (events': seq<ContractEvent>, eventIndex': int)
    requires UpTo(l, tx, txIndex, ks, events, eventIndex)
    ensures UpTo(l, tx, txIndex, if event.kind.Contract? then ks + [Sourced(event, op)] else ks, events', eventIndex')
  {
    if event.kind != Contract {
      return events, eventIndex;
    }
    NextIndex(|ks|);
    var contractID := if event.contractId.Some? then event.contractId.value else "";
    var opIndex := if op.Some? then Some(Uint32(op.value)) else None;
    events' := events + [ContractEvent(l.closeTime, l.sequence, tx.hash, txIndex, contractID, event.body, true,
                                       eventIndex, opIndex)];
    eventIndex' := Int32(eventIndex + 1);
  }

  /** One inner loop: all events of an operation, or the transaction-level events. */
  method AppendEvents(l: Ledger, tx: Tx, txIndex: int, ghost ks: seq<Sourced>, list: seq<RawEvent>, op: Option<nat>,
                      events: seq<ContractEvent>, eventIndex: int)
    returns (events': seq<ContractEvent>, eventIndex': int)
    requires UpTo(l, tx, txIndex, ks, events, eventIndex)
    ensures UpTo(l, tx, txIndex, Keep(list, op, ks), events', eventIndex')
  {
    events', eventIndex' := events, eventIndex;
    var i := 0;
    while i < |list|
      invariant 0 <= i <= |list|
      invariant UpTo(l, tx, txIndex, Keep(list[..i], op, ks), events', eventIndex')
    {
      events', eventIndex' := AppendEvent(l, tx, txIndex, Keep(list[..i], op, ks), list[i], op, events', eventIndex');
      assert list[..i + 1][..i] == list[..i];
      i := i + 1;
    }
    assert list[..i] == list;
  }

  /** extractEventsFromTransaction. */
  method ExtractEventsFromTransaction(l: Ledger, tx: Tx, txIndex: int) returns (events: seq<ContractEvent>)
    ensures events == Contribution(l, tx, txIndex)
  {
    events := [];
    if !tx.successful || tx.events.None? { return; }
    var eventIndex := 0;
    var ops := tx.events.value.operationEvents;
    var op := 0;
    while op < |ops|
      invariant 0 <= op <= |ops|
      invariant UpTo(l, tx, txIndex, KeepOps(ops, op), events, eventIndex)
    {
      events, eventIndex := AppendEvents(l, tx, txIndex, KeepOps(ops, op), ops[op], Some(op), events, eventIndex);
      op := op + 1;
    }
    events, eventIndex :=
      AppendEvents(l, tx, txIndex, KeepOps(ops, op), tx.events.value.transactionEvents, None, events, eventIndex);
  }

  /** The transactions before the first failed read. */
  function GoodReads(results: seq<Read>): (txs: seq<Tx>)
    ensures |txs| <= |results|
    ensures forall i :: 0 <= i < |txs| ==> results[i] == Success(txs[i])
    ensures |txs| < |results| ==> results[|txs|].Failure?
  {
    if results == [] || results[0].Failure? then [] else [results[0].tx] + GoodReads(results[1..])
  }

  lemma NextTransaction(n: nat)
    ensures Uint32(Uint32(n) + 1) == Uint32(n + 1)
  {
  }

  ghost predicate PartsOf(l: Ledger, txs: seq<Tx>, part: nat -> seq<ContractEvent>)
  {
    forall k: nat :: k < |txs| ==> part(k) == Contribution(l, txs[k], Uint32(k))
  }

  lemma PartsAreParts(l: Ledger, txs: seq<Tx>)
    ensures PartsOf(l, txs, Parts(l, txs))
  {
  }

  /** The transactions txs are read, and the next read fails if there is one. */
  ghost predicate Reads(results: seq<Read>, txs: seq<Tx>)
  {
    && |txs| <= |results|
    && (forall i :: 0 <= i < |txs| ==> results[i] == Success(txs[i]))
    && (|txs| < |results| ==> results[|txs|].Failure?)
  }

  /** The loop over the transaction reader. */
  method ReadTransactions(l: Ledger, ghost txs: seq<Tx>, ghost part: nat -> seq<ContractEvent>)
    returns (r: Result<seq<ContractEvent>>)
    requires Reads(l.results, txs) && PartsOf(l, txs, part)
    ensures r.Ok? <==> |txs| == |l.results|
    ensures r.Ok? ==> r.value == Joined(part, |txs|)
    ensures r.Err? ==> r.error == ReadingTransaction(l.results[|txs|].error)
  {
    var all: seq<ContractEvent> := [];
    var txIndex := 0;
    var i := 0;
    while i < |l.results|
      invariant 0 <= i <= |txs| && txIndex == Uint32(i)
      invariant all == Joined(part, i)
    {
      if l.results[i].Failure? {
        return Err(ReadingTransaction(l.results[i].error));
      }
      var events := ExtractEventsFromTransaction(l, l.results[i].tx, txIndex);
      NextTransaction(i);
      all := all + events;
      txIndex := Uint32(txIndex + 1);
      i := i + 1;
    }
    return Ok(all);
  }

  /** EventsFromLedger: all or nothing, a failed read discards what was extracted before it. */
  method EventsFromLedger(l: Ledger) returns (r: Result<seq<ContractEvent>>)
    ensures l.readerError.Some? ==> r == Err(CreatingReader(l.readerError.value))
    ensures l.readerError.None? ==>
              var txs := GoodReads(l.results);
              && (r.Ok? <==> |txs| == |l.results|)
              && (r.Ok? ==> r.value == LedgerEvents(l, txs))
              && (r.Err? ==> r.error == ReadingTransaction(l.results[|txs|].error))
  {
    if l.readerError.Some? {
      return Err(CreatingReader(l.readerError.value));
    }
    ghost var txs := GoodReads(l.results);
    PartsAreParts(l, txs);
    r := ReadTransactions(l, txs, Parts(l, txs));
  }

  // ----- numbering

  lemma {:induction false} JoinedAt(part: nat -> seq<ContractEvent>, n: nat, k: nat, i: nat)
    requires k < n && i < |part(k)|
    ensures |Joined(part, k)| + i < |Joined(part, n)|
    ensures Joined(part, n)[|Joined(part, k)| + i] == part(k)[i]
  {
    if k < n - 1 {
      JoinedAt(part, n - 1, k, i);
    }
  }

  /** Every position of the output belongs to some part. */
  lemma {:induction false} Locate(part: nat -> seq<ContractEvent>, n: nat, p: nat) returns (k: nat, i: nat)
    requires p < |Joined(part, n)|
    ensures k < n && i < |part(k)| && p == |Joined(part, k)| + i
  {
    if p >= |Joined(part, n - 1)| {
      k, i := n - 1, p - |Joined(part, n - 1)|;
    } else {
      k, i := Locate(part, n - 1, p);
    }
  }

  lemma {:induction false} JoinedGrows(part: nat -> seq<ContractEvent>, j: nat, k: nat)
    requires j < k
    ensures |Joined(part, j)| + |part(j)| <= |Joined(part, k)|
  {
    if j + 1 < k {
      JoinedGrows(part, j, k - 1);
    }
  }

  predicate Before(a: ContractEvent, b: ContractEvent)
  {
    a.transactionIndex < b.transactionIndex
    || (a.transactionIndex == b.transactionIndex && a.eventIndex < b.eventIndex)
  }

  ghost predicate StrictlyIncreasing(es: seq<ContractEvent>)
  {
    forall p, q :: 0 <= p < q < |es| ==> Before(es[p], es[q])
  }

  /** The i-th event of part k carries the indices k and i, wrapped to 32 bits. */
  ghost predicate Indexed(part: nat -> seq<ContractEvent>, n: nat)
  {
    forall k: nat, i: nat :: k < n && i < |part(k)| ==>
      part(k)[i].transactionIndex == Uint32(k) && part(k)[i].eventIndex == Int32(i)
  }

  ghost predicate Small(part: nat -> seq<ContractEvent>, n: nat)
  {
    forall k: nat :: k < n ==> |part(k)| <= TWO_31
  }

  lemma SmallIndices(n: nat)
    ensures n < TWO_32 ==> Uint32(n) == n
    ensures n < TWO_31 ==> Int32(n) == n
  {
  }

  lemma InOrder(part: nat -> seq<ContractEvent>, n: nat, p: nat, q: nat)
    requires Indexed(part, n) && Small(part, n) && n <= TWO_32 && p < q < |Joined(part, n)|
    ensures Before(Joined(part, n)[p], Joined(part, n)[q])
  {
    var k, i := Locate(part, n, p);
    var m, j := Locate(part, n, q);
    JoinedAt(part, n, k, i);
    JoinedAt(part, n, m, j);
    SmallIndices(k);
    SmallIndices(m);
    SmallIndices(i);
    SmallIndices(j);
    if m < k {
      JoinedGrows(part, m, k);
    }
  }

  lemma WrapPoint()
    ensures Int32(TWO_31) < Int32(TWO_31 - 1)
  {
  }

  /** Past 2^31 events the index turns negative. */
  lemma LargeBreaksOrder(part: nat -> seq<ContractEvent>, n: nat, k: nat)
    requires Indexed(part, n) && k < n && |part(k)| > TWO_31
    ensures !StrictlyIncreasing(Joined(part, n))
  {
    var i: nat := TWO_31 - 1;
    JoinedAt(part, n, k, i);
    JoinedAt(part, n, k, i + 1);
    WrapPoint();
    var es, p := Joined(part, n), |Joined(part, k)| + i;
    assert es[p] == part(k)[i] && es[p + 1] == part(k)[i + 1];
    assert !Before(es[p], es[p + 1]);
  }

  lemma IncreasingIffSmall(part: nat -> seq<ContractEvent>, n: nat)
    requires Indexed(part, n) && n <= TWO_32
    ensures StrictlyIncreasing(Joined(part, n)) <==> Small(part, n)
  {
    if Small(part, n) {
      forall p, q | 0 <= p < q < |Joined(part, n)|
        ensures Before(Joined(part, n)[p], Joined(part, n)[q])
      {
        InOrder(part, n, p, q);
      }
    } else {
      var k: nat :| k < n && |part(k)| > TWO_31;
      LargeBreaksOrder(part, n, k);
    }
  }

  // ----- the parts of a ledger

  lemma ContributionIsIndexed(l: Ledger, tx: Tx, txIndex: int)
    ensures var part := Contribution(l, tx, txIndex);
            && |part| == |Kept(tx)|
            && forall i :: 0 <= i < |part| ==>
                 part[i] == Processed(l, tx, txIndex, Kept(tx)[i], Int32(i))
  {
  }

  lemma PartsAreIndexed(l: Ledger, txs: seq<Tx>, part: nat -> seq<ContractEvent>)
    requires PartsOf(l, txs, part)
    ensures Indexed(part, |txs|)
    ensures Small(part, |txs|) <==> SmallTransactions(txs)
  {
    forall k: nat | k < |txs|
      ensures |part(k)| == |Kept(txs[k])|
      ensures forall i: nat :: i < |part(k)| ==>
                part(k)[i].transactionIndex == Uint32(k) && part(k)[i].eventIndex == Int32(i)
    {
      ContributionIsIndexed(l, txs[k], Uint32(k));
    }
  }

  lemma EventOfPart(l: Ledger, txs: seq<Tx>, part: nat -> seq<ContractEvent>, k: nat, i: nat)
    requires PartsOf(l, txs, part) && k < |txs| && i < |Kept(txs[k])|
    ensures var p := |Joined(part, k)| + i;
            && p < |Joined(part, |txs|)|
            && Joined(part, |txs|)[p] == Processed(l, txs[k], Uint32(k), Kept(txs[k])[i], Int32(i))
  {
    ContributionIsIndexed(l, txs[k], Uint32(k));
    JoinedAt(part, |txs|, k, i);
  }

  /** An integer that fits a uint32, or an int32, and agrees with n up to a multiple of 2^32. */
  predicate WrapsUint32(x: int, n: int) { 0 <= x < 0x1_0000_0000 && (x - n) % 0x1_0000_0000 == 0 }
  predicate WrapsInt32(x: int, n: int) { -0x8000_0000 <= x < 0x8000_0000 && (x - n) % 0x1_0000_0000 == 0 }

  /** The output event is the kept event x as the i-th of transaction k. */
  predicate Reports(l: Ledger, tx: Tx, k: nat, i: nat, x: Sourced, e: ContractEvent)
  {
    && e.timestamp == l.closeTime && e.ledgerSequence == l.sequence && e.transactionHash == tx.hash
    && WrapsUint32(e.transactionIndex, k) && WrapsInt32(e.eventIndex, i)
    && e.inSuccessfulTx == tx.successful && e.body == x.event.body
    && (match x.event.contractId case Some(id) => e.contractId == id case None => e.contractId == "")
    && (match x.op case Some(op) => e.operationIndex.Some? && WrapsUint32(e.operationIndex.value, op)
                   case None => e.operationIndex.None?)
  }

  lemma ProcessedReports(l: Ledger, tx: Tx, k: nat, i: nat, x: Sourced)
    requires tx.successful
    ensures Reports(l, tx, k, i, x, Processed(l, tx, Uint32(k), x, Int32(i)))
  {
  }

  /** The i-th kept event of transaction k is reported with the ledger's close time and sequence, the hash of its
      transaction, the indices k and i, and its operation's index if it has one, each wrapped to 32 bits; it stands in
      the output right after those before it in its transaction and all of earlier transactions. */
  lemma EventAt(l: Ledger, txs: seq<Tx>, k: nat, i: nat)
    requires k < |txs| && i < |Kept(txs[k])|
    ensures var p := |Joined(Parts(l, txs), k)| + i;
            && p < |LedgerEvents(l, txs)|
            && Reports(l, txs[k], k, i, Kept(txs[k])[i], LedgerEvents(l, txs)[p])
  {
    PartsAreParts(l, txs);
    EventOfPart(l, txs, Parts(l, txs), k, i);
    ProcessedReports(l, txs[k], k, i, Kept(txs[k])[i]);
  }

  /** Nothing else is in the output: its length is the number of kept events, and each place belongs to one of them. */
  lemma NothingElse(l: Ledger, txs: seq<Tx>, p: nat) returns (k: nat, i: nat)
    requires p < |LedgerEvents(l, txs)|
    ensures k < |txs| && i < |Kept(txs[k])| && p == |Joined(Parts(l, txs), k)| + i
  {
    k, i := Locate(Parts(l, txs), |txs|, p);
    PartsAreParts(l, txs);
    ContributionIsIndexed(l, txs[k], Uint32(k));
  }

  /** No transaction keeps more events than a 32-bit index can number upwards. */
  ghost predicate SmallTransactions(txs: seq<Tx>)
  {
    forall k :: 0 <= k < |txs| ==> |Kept(txs[k])| <= TWO_31
  }

  /** Over a ledger of at most 2^32 transactions, (TransactionIndex, EventIndex) strictly increases exactly
      when no transaction has more than 2^31 contract events, where the 32-bit event index would wrap. */
  lemma IndicesStrictlyIncrease(l: Ledger, txs: seq<Tx>)
    requires |txs| <= TWO_32
    ensures StrictlyIncreasing(LedgerEvents(l, txs)) <==> SmallTransactions(txs)
  {
    PartsAreParts(l, txs);
    PartsAreIndexed(l, txs, Parts(l, txs));
    IncreasingIffSmall(Parts(l, txs), |txs|);
  }

  // ----- the kept events are the ordered filter of all events

  function FromOp(events: seq<RawEvent>, op: Option<nat>): (r: seq<Sourced>)
  {
    seq(|events|, i requires 0 <= i < |events| => Sourced(events[i], op))
  }

  /** All events of the first n operations, in order. */
  function FromOps(ops: seq<seq<RawEvent>>, n: nat): (r: seq<Sourced>)
    requires n <= |ops|
  {
    if n == 0 then [] else FromOps(ops, n - 1) + FromOp(ops[n - 1], Some(n - 1))
  }

  /** All events of a successful transaction, whatever their type. */
  function Sources(e: TxEvents): (r: seq<Sourced>)
  {
    FromOps(e.operationEvents, |e.operationEvents|) + FromOp(e.transactionEvents, None)
  }

  function Filter(xs: seq<Sourced>): (r: seq<Sourced>)
  {
    if xs == [] then []
    else if xs[|xs| - 1].event.kind.Contract? then Filter(xs[..|xs| - 1]) + [xs[|xs| - 1]]
    else Filter(xs[..|xs| - 1])
  }

  lemma {:induction false} KeepIsFilter(events: seq<RawEvent>, op: Option<nat>, before: seq<Sourced>)
    ensures Keep(events, op, Filter(before)) == Filter(before + FromOp(events, op))
  {
    if events == [] {
      assert before + FromOp(events, op) == before;
    } else {
      var n := |events| - 1;
      KeepIsFilter(events[..n], op, before);
      var all := before + FromOp(events, op);
      assert all[..|all| - 1] == before + FromOp(events[..n], op);
      assert all[|all| - 1] == Sourced(events[n], op);
    }
  }

  lemma {:induction false} KeepOpsIsFilter(ops: seq<seq<RawEvent>>, n: nat)
    requires n <= |ops|
    ensures KeepOps(ops, n) == Filter(FromOps(ops, n))
  {
    if n > 0 {
      KeepOpsIsFilter(ops, n - 1);
      KeepIsFilter(ops[n - 1], Some(n - 1), FromOps(ops, n - 1));
    }
  }

  lemma KeptIsFilter(tx: Tx)
    requires tx.successful && tx.events.Some?
    ensures Kept(tx) == Filter(Sources(tx.events.value))
  {
    var e := tx.events.value;
    KeepOpsIsFilter(e.operationEvents, |e.operationEvents|);
    KeepIsFilter(e.transactionEvents, None, FromOps(e.operationEvents, |e.operationEvents|));
  }

  /** Where an event of the ledger stands among all events of its transaction, and with which operation. */
  lemma {:induction false} FromOpsAt(ops: seq<seq<RawEvent>>, n: nat, op: nat, i: nat)
    requires op < n <= |ops| && i < |ops[op]|
    ensures |FromOps(ops, op)| + i < |FromOps(ops, n)|
    ensures FromOps(ops, n)[|FromOps(ops, op)| + i] == Sourced(ops[op][i], Some(op))
    ensures |FromOps(ops, op + 1)| == |FromOps(ops, op)| + |ops[op]|
  {
    assert FromOps(ops, n) == FromOps(ops, n - 1) + FromOp(ops[n - 1], Some(n - 1));
    if op < n - 1 {
      FromOpsAt(ops, n - 1, op, i);
    }
  }

  /** The i-th event of operation op stands right after those of the operations before it and carries that operation. */
  lemma OperationEventAt(e: TxEvents, op: nat, i: nat)
    requires op < |e.operationEvents| && i < |e.operationEvents[op]|
    ensures var p := |FromOps(e.operationEvents, op)| + i;
            p < |Sources(e)| && Sources(e)[p] == Sourced(e.operationEvents[op][i], Some(op))
  {
    FromOpsAt(e.operationEvents, |e.operationEvents|, op, i);
  }

  /** The i-th event of the transaction itself stands right after those of all operations and carries none. */
  lemma TransactionEventAt(e: TxEvents, i: nat)
    requires i < |e.transactionEvents|
    ensures var p := |FromOps(e.operationEvents, |e.operationEvents|)| + i;
            p < |Sources(e)| && Sources(e)[p] == Sourced(e.transactionEvents[i], None)
  {
  }

  /** The event itself, if it is of contract type. */
  function OfContract(): (f: Sourced -> Option<Sourced>)
  {
    (x: Sourced) => if x.event.kind == Contract then Some(x) else None
  }

  lemma {:induction false} FilterIsSelected(xs: seq<Sourced>) returns (at: seq<nat>)
    ensures Collects(xs, OfContract(), Filter(xs), at)
  {
    if xs == [] {
      at := [];
    } else {
      var n := |xs| - 1;
      at := FilterIsSelected(xs[..n]);
      assert xs[..n] + [xs[n]] == xs;
      CollectsNext(xs[..n], OfContract(), Filter(xs[..n]), at, xs[n]);
      at := if OfContract()(xs[n]).Some? then at + [n] else at;
    }
  }

  /** A successful transaction keeps exactly its events of contract type, each once and in the ledger's order. */
  lemma KeptIsSelected(tx: Tx) returns (at: seq<nat>)
    requires tx.successful && tx.events.Some?
    ensures Collects(Sources(tx.events.value), OfContract(), Kept(tx), at)
  {
    KeptIsFilter(tx);
    at := FilterIsSelected(Sources(tx.events.value));
  }

  ghost predicate OpsInOrder(xs: seq<Sourced>)
  {
    forall i, j :: 0 <= i < j < |xs| && xs[j].op.Some? ==> xs[i].op.Some? && xs[i].op.value <= xs[j].op.value
  }

  ghost predicate OpsBelow(xs: seq<Sourced>, n: nat)
  {
    forall i :: 0 <= i < |xs| ==> xs[i].op.Some? && xs[i].op.value < n
  }

  lemma {:induction false} FromOpsInOrder(ops: seq<seq<RawEvent>>, n: nat)
    requires n <= |ops|
    ensures OpsInOrder(FromOps(ops, n)) && OpsBelow(FromOps(ops, n), n)
  {
    if n > 0 {
      FromOpsInOrder(ops, n - 1);
    }
  }

  lemma {:induction false} FilterMembers(xs: seq<Sourced>)
    ensures forall x :: x in Filter(xs) <==> x in xs && x.event.kind.Contract?
  {
    if xs != [] {
      FilterMembers(xs[..|xs| - 1]);
      assert xs == xs[..|xs| - 1] + [xs[|xs| - 1]];
    }
  }

  lemma {:induction false} FilterKeepsOrder(xs: seq<Sourced>)
    requires OpsInOrder(xs)
    ensures OpsInOrder(Filter(xs))
  {
    if xs != [] {
      var n := |xs| - 1;
      var front := Filter(xs[..n]);
      FilterKeepsOrder(xs[..n]);
      forall i | 0 <= i < |front| && xs[n].op.Some?
        ensures front[i].op.Some? && front[i].op.value <= xs[n].op.value
      {
        FilterMembers(xs[..n]);
        assert front[i] in xs[..n];
        var m :| 0 <= m < n && xs[..n][m] == front[i];
        assert xs[m] == front[i];
      }
    }
  }

  /** A successful transaction keeps exactly its contract-type events, in the order of the ledger: operation
      events by operation, and before transaction-level ones.  Any other keeps none. */
  lemma KeptIsOrderedFilter(tx: Tx)
    ensures OpsInOrder(Kept(tx))
    ensures !tx.successful || tx.events.None? ==> Kept(tx) == []
    ensures tx.successful && tx.events.Some? ==>
              && Kept(tx) == Filter(Sources(tx.events.value))
              && forall x :: x in Kept(tx) <==> x in Sources(tx.events.value) && x.event.kind.Contract?
  {
    if tx.successful && tx.events.Some? {
      var e := tx.events.value;
      KeptIsFilter(tx);
      FromOpsInOrder(e.operationEvents, |e.operationEvents|);
      FilterKeepsOrder(Sources(e));
      FilterMembers(Sources(e));
    }
  }
}
