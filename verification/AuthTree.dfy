/** Contract calls flattened out of authorization trees
    (pkg/stellar/processors/contract_invocation/contract_invocation_processor.go:243-343). */
module AuthTree {
  import opened Basics
  import opened ScVal
  import opened Selections

  /** The authorized function; `contract` is what strkey answers for the contract's address, None
      being its error. */
  datatype AuthFunction =
    | ContractFn(contract: Option<string>, name: string, args: seq<ScVal>)
    | CreateContract

  datatype Invocation = Invocation(fn: AuthFunction, subs: seq<Invocation>)

  /** An authorization entry: whether its credentials are address credentials, and its root. */
  datatype AuthEntry = AuthEntry(byAddress: bool, root: Invocation)

  datatype ContractCall = ContractCall(
    fromContract: string, toContract: string, functionName: string, arguments: seq<Json>,
    callDepth: nat, authType: string, successful: bool, executionOrder: nat)

  // ----- specification: the recordable nodes in pre-order

  /** A node met on the walk, with the contract id of its parent. */
  datatype Visit = Visit(from: string, node: Invocation, depth: nat, authType: string)

  predicate Unencodable(node: Invocation)
  {
    node.fn.ContractFn? && node.fn.contract.None?
  }

  /** The contract id of a node; empty when it does not call a contract. */
  function Id(node: Invocation): (s: string)
  {
    if node.fn.ContractFn? && node.fn.contract.Some? then node.fn.contract.value else ""
  }

  /** Pre-order; a node whose address cannot be encoded is skipped with everything below it. */
  function Visits(node: Invocation, from: string, depth: nat, authType: string): (r: seq<Visit>)
    decreases node, 1
  {
    if Unencodable(node) then []
    else [Visit(from, node, depth, authType)] + ForestVisits(node.subs, Id(node), depth + 1, authType)
  }

  function ForestVisits(nodes: seq<Invocation>, from: string, depth: nat, authType: string): (r: seq<Visit>)
    decreases nodes, 0
  {
    if nodes == [] then []
    else ForestVisits(nodes[..|nodes| - 1], from, depth, authType)
         + Visits(nodes[|nodes| - 1], from, depth, authType)
  }

  /** Both ends are known contracts and they differ. */
  predicate Recordable(v: Visit)
  {
    v.from != "" && Id(v.node) != "" && v.from != Id(v.node)
  }

  function Recorded(vs: seq<Visit>): (r: seq<Visit>)
  {
    if vs == [] then []
    else Recorded(vs[..|vs| - 1]) + if Recordable(vs[|vs| - 1]) then [vs[|vs| - 1]] else []
  }

  /** The arguments that convert, in order. */
  function Decoded(lib: Lib, args: seq<ScVal>): (r: seq<Json>)
  {
    if args == [] then []
    else
      var last := Convert(lib, args[|args| - 1]);
      Decoded(lib, args[..|args| - 1]) + if last.Ok? then [last.value] else []
  }

  /** The conversion of an argument, if it converts. */
  function Converted(lib: Lib): (f: ScVal -> Option<Json>)
  {
    (arg: ScVal) => match Convert(lib, arg) case Ok(j) => Some(j) case Err(_) => None
  }

  lemma {:induction false} DecodedIsSelected(lib: Lib, args: seq<ScVal>) returns (at: seq<nat>)
    ensures Collects(args, Converted(lib), Decoded(lib, args), at)
  {
    if args == [] {
      at := [];
    } else {
      var n := |args| - 1;
      at := DecodedIsSelected(lib, args[..n]);
      assert args[..n] + [args[n]] == args;
      CollectsNext(args[..n], Converted(lib), Decoded(lib, args[..n]), at, args[n]);
      at := if Converted(lib)(args[n]).Some? then at + [n] else at;
    }
  }

  function CallOf(lib: Lib, v: Visit, order: nat): (c: ContractCall)
    requires v.node.fn.ContractFn?
  {
    ContractCall(v.from, Id(v.node), v.node.fn.name, Decoded(lib, v.node.fn.args), v.depth, v.authType, true, order)
  }

  lemma {:induction false} RecordedIsRecordable(vs: seq<Visit>)
    ensures forall i :: 0 <= i < |Recorded(vs)| ==> Recordable(Recorded(vs)[i]) && Recorded(vs)[i].node.fn.ContractFn?
  {
    if vs != [] {
      RecordedIsRecordable(vs[..|vs| - 1]);
    }
  }

  /** The visit itself, if it is between two known and different contracts. */
  function Crossing(): (f: Visit -> Option<Visit>)
  {
    (v: Visit) => if v.from != "" && Id(v.node) != "" && v.from != Id(v.node) then Some(v) else None
  }

  /** The recorded visits are exactly those, in order. */
  lemma {:induction false} RecordedIsSelected(vs: seq<Visit>) returns (at: seq<nat>)
    ensures Collects(vs, Crossing(), Recorded(vs), at)
  {
    if vs == [] {
      at := [];
    } else {
      var n := |vs| - 1;
      at := RecordedIsSelected(vs[..n]);
      assert vs[..n] + [vs[n]] == vs;
      CollectsNext(vs[..n], Crossing(), Recorded(vs[..n]), at, vs[n]);
      at := if Crossing()(vs[n]).Some? then at + [n] else at;
    }
  }

  /** The calls are the recordable visits, in order and numbered from start. */
  ghost predicate AreCalls(lib: Lib, calls: seq<ContractCall>, vs: seq<Visit>, start: nat)
  {
    && |calls| == |vs|
    && forall i :: 0 <= i < |vs| ==> vs[i].node.fn.ContractFn? && calls[i] == CallOf(lib, vs[i], start + i)
  }

  lemma {:induction false} RecordedConcat(xs: seq<Visit>, ys: seq<Visit>)
    ensures Recorded(xs + ys) == Recorded(xs) + Recorded(ys)
  {
    if ys == [] {
      assert xs + ys == xs;
    } else {
      var n := |ys| - 1;
      RecordedConcat(xs, ys[..n]);
      var all := xs + ys;
      assert all[..|all| - 1] == xs + ys[..n] && all[|all| - 1] == ys[n];
    }
  }

  lemma RecordedOne(v: Visit)
    ensures Recorded([v]) == if Recordable(v) then [v] else []
  {
    assert [v][..0] == [];
  }

  lemma ForestVisitsAppend(nodes: seq<Invocation>, node: Invocation, from: string, depth: nat, authType: string)
    ensures ForestVisits(nodes + [node], from, depth, authType)
            == ForestVisits(nodes, from, depth, authType) + Visits(node, from, depth, authType)
  {
    assert (nodes + [node])[..|nodes|] == nodes;
  }

  // ----- the mutating walk

  /** The list and the counter that the recursion shares. */
  class Collector {
    var calls: seq<ContractCall>
    var executionOrder: nat

    constructor ()
      ensures calls == [] && executionOrder == 0
    {
      calls, executionOrder := [], 0;
    }

    /** The calls added since some earlier state are those of the given visits. */
    ghost predicate Added(lib: Lib, before: seq<ContractCall>, start: nat, vs: seq<Visit>)
      reads this
    {
      && |before| <= |calls| && calls[..|before|] == before
      && AreCalls(lib, calls[|before|..], Recorded(vs), start)
      && executionOrder == start + |Recorded(vs)|
    }

    lemma AddedThen(lib: Lib, before: seq<ContractCall>, start: nat, vs: seq<Visit>,
                    middle: seq<ContractCall>, order: nat, ws: seq<Visit>)
      requires |before| <= |middle| && middle[..|before|] == before
      requires AreCalls(lib, middle[|before|..], Recorded(vs), start) && order == start + |Recorded(vs)|
      requires Added(lib, middle, order, ws)
      ensures Added(lib, before, start, vs + ws)
    {
      RecordedConcat(vs, ws);
      var rs := Recorded(vs + ws);
      assert calls[..|before|] == calls[..|middle|][..|before|];
      forall i | 0 <= i < |rs|
        ensures rs[i].node.fn.ContractFn? && calls[|before|..][i] == CallOf(lib, rs[i], start + i)
      {
        if i < |Recorded(vs)| {
          assert calls[|before|..][i] == calls[..|middle|][|before| + i] == middle[|before|..][i];
        } else {
          assert calls[|before|..][i] == calls[|middle|..][i - |Recorded(vs)|];
        }
      }
    }

    method DecodeArguments(lib: Lib, args: seq<ScVal>) returns (r: seq<Json>)
      ensures r == Decoded(lib, args)
      ensures exists at :: Collects(args, Converted(lib), r, at)
    {
      r := [];
      var i := 0;
      while i < |args|
        invariant 0 <= i <= |args| && r == Decoded(lib, args[..i])
      {
        var decoded := ConvertScValToJson(lib, args[i]);
        assert args[..i + 1][..i] == args[..i];
        if decoded.Ok? {
          r := r + [decoded.value];
        }
        i := i + 1;
      }
      assert args[..i] == args;
      var at := DecodedIsSelected(lib, args);
    }

    /** The contract, function and arguments of a node, empty when it calls no contract. */
    method CallData(lib: Lib, node: Invocation) returns (contractID: string, functionName: string, args: seq<Json>)
      requires !Unencodable(node)
      ensures contractID == Id(node)
      ensures node.fn.ContractFn? ==> functionName == node.fn.name && args == Decoded(lib, node.fn.args)
    {
      contractID, functionName, args := "", "", [];
      if node.fn.ContractFn? {
        contractID, functionName := node.fn.contract.value, node.fn.name;
        args := DecodeArguments(lib, node.fn.args);
      }
    }

    /** Appends the call of a recordable visit. */
    method AppendCall(lib: Lib, ghost visit: Visit, call: ContractCall)
      requires visit.node.fn.ContractFn? && Recordable(visit) && call == CallOf(lib, visit, executionOrder)
      modifies this
      ensures Added(lib, old(calls), old(executionOrder), [visit])
    {
      calls := calls + [call];
      executionOrder := executionOrder + 1;
      RecordedOne(visit);
      assert calls[|old(calls)|..] == [call];
    }

    /** Appends one call for a recordable node and none otherwise. */
    method RecordNode(lib: Lib, node: Invocation, from: string, depth: nat, authType: string)
      requires !Unencodable(node)
      modifies this
      ensures Added(lib, old(calls), old(executionOrder), [Visit(from, node, depth, authType)])
    {
      var contractID, functionName, args := CallData(lib, node);
      ghost var visit := Visit(from, node, depth, authType);
      if from != "" && contractID != "" && from != contractID {
        AppendCall(lib, visit,
                   ContractCall(from, contractID, functionName, args, depth, authType, true, executionOrder));
      } else {
        RecordedOne(visit);
      }
    }

    /** processAuthorizationTree: appends exactly the calls of the recordable nodes of the tree, in
        pre-order, numbered on from the shared counter. */
    method ProcessAuthorizationTree(lib: Lib, node: Invocation, from: string, depth: nat, authType: string)
      modifies this
      ensures Added(lib, old(calls), old(executionOrder), Visits(node, from, depth, authType))
      decreases node
    {
      if Unencodable(node) { return; }
      RecordNode(lib, node, from, depth, authType);
      ghost var first := [Visit(from, node, depth, authType)];
      ghost var before, start := calls, executionOrder;
      assert AreCalls(lib, calls[|before|..], Recorded([]), start);
      var i := 0;
      while i < |node.subs|
        invariant 0 <= i <= |node.subs|
        invariant Added(lib, before, start, ForestVisits(node.subs[..i], Id(node), depth + 1, authType))
      {
        ghost var middle, order := calls, executionOrder;
        ProcessAuthorizationTree(lib, node.subs[i], Id(node), depth + 1, authType);
        assert node.subs[..i + 1] == node.subs[..i] + [node.subs[i]];
        ForestVisitsAppend(node.subs[..i], node.subs[i], Id(node), depth + 1, authType);
        AddedThen(lib, before, start, ForestVisits(node.subs[..i], Id(node), depth + 1, authType),
                  middle, order, Visits(node.subs[i], Id(node), depth + 1, authType));
        i := i + 1;
      }
      assert node.subs[..i] == node.subs;
      AddedThen(lib, old(calls), old(executionOrder), first, before, start,
                ForestVisits(node.subs, Id(node), depth + 1, authType));
    }
  }

  function AuthType(e: AuthEntry): (s: string)
  {
    if e.byAddress then "contract" else "source_account"
  }

  function EntryVisits(entries: seq<AuthEntry>, main: string): (r: seq<Visit>)
  {
    if entries == [] then []
    else
      var last := entries[|entries| - 1];
      EntryVisits(entries[..|entries| - 1], main) + Visits(last.root, main, 0, AuthType(last))
  }

  /** The i-th call is the one met on this visit: between the contracts of the node's parent and of the node, with its
      function, its depth and the arguments that convert. */
  ghost predicate Carries(lib: Lib, c: ContractCall, i: nat, v: Visit, at: seq<nat>)
  {
    && v.node.fn.ContractFn? && v.node.fn.contract == Some(c.toContract) && v.from == c.fromContract
    && v.node.fn.name == c.functionName && v.depth == c.callDepth && v.authType == c.authType
    && c.successful && c.executionOrder == i
    && Collects(v.node.fn.args, Converted(lib), c.arguments, at)
  }

  lemma CallCarries(lib: Lib, v: Visit, i: nat) returns (at: seq<nat>)
    requires Recordable(v) && v.node.fn.ContractFn?
    ensures Carries(lib, CallOf(lib, v, i), i, v, at)
  {
    at := DecodedIsSelected(lib, v.node.fn.args);
  }

  /** When all arguments convert, the k-th JSON value is the conversion of the k-th argument. */
  lemma AllConverted(lib: Lib, args: seq<ScVal>, js: seq<Json>, at: seq<nat>)
    requires Collects(args, Converted(lib), js, at)
    requires forall k :: 0 <= k < |args| ==> Convert(lib, args[k]).Ok?
    ensures |js| == |args| && forall k :: 0 <= k < |args| ==> Convert(lib, args[k]) == Ok(js[k])
  {
    assert forall k :: 0 <= k < |args| ==> Converted(lib)(args[k]).Some?;
    CollectsAll(args, Converted(lib), js, at);
    forall k | 0 <= k < |args|
      ensures Convert(lib, args[k]) == Ok(js[k])
    {
      assert Converted(lib)(args[k]) == Some(js[k]);
    }
  }

  /** Each call carries the data of a node met on the walk.  Its arguments are the conversions of exactly the node's
      arguments that convert, in order; when all convert, the k-th of the one is that of the k-th of the other. */
  lemma CallsCarryTheirNodes(lib: Lib, calls: seq<ContractCall>, entries: seq<AuthEntry>, main: string, i: nat)
    returns (v: Visit, at: seq<nat>)
    requires AreCalls(lib, calls, Recorded(EntryVisits(entries, main)), 0) && i < |calls|
    ensures v in EntryVisits(entries, main) && v == Recorded(EntryVisits(entries, main))[i]
    ensures Carries(lib, calls[i], i, v, at)
    ensures (forall k :: 0 <= k < |v.node.fn.args| ==> Convert(lib, v.node.fn.args[k]).Ok?) ==>
              && |calls[i].arguments| == |v.node.fn.args|
              && forall k :: 0 <= k < |v.node.fn.args| ==> Convert(lib, v.node.fn.args[k]) == Ok(calls[i].arguments[k])
  {
    var vs := EntryVisits(entries, main);
    RecordedIsRecordable(vs);
    v := Recorded(vs)[i];
    var recorded := RecordedIsSelected(vs);
    assert Crossing()(vs[recorded[i]]) == Some(v);
    at := CallCarries(lib, v, i);
    if forall k :: 0 <= k < |v.node.fn.args| ==> Convert(lib, v.node.fn.args[k]).Ok? {
      AllConverted(lib, v.node.fn.args, calls[i].arguments, at);
    }
  }

  ghost predicate Carried(lib: Lib, c: ContractCall, i: nat, vs: seq<Visit>)
  {
    exists v, at :: v in vs && Carries(lib, c, i, v, at)
  }

  /** Every call carries the data of some visit. */
  ghost predicate AllCarried(lib: Lib, calls: seq<ContractCall>, vs: seq<Visit>)
  {
    forall i :: 0 <= i < |calls| ==> Carried(lib, calls[i], i, vs)
  }

  lemma AllCallsCarry(lib: Lib, calls: seq<ContractCall>, entries: seq<AuthEntry>, main: string)
    requires AreCalls(lib, calls, Recorded(EntryVisits(entries, main)), 0)
    ensures AllCarried(lib, calls, EntryVisits(entries, main))
  {
    forall i | 0 <= i < |calls|
      ensures Carried(lib, calls[i], i, EntryVisits(entries, main))
    {
      var v, at := CallsCarryTheirNodes(lib, calls, entries, main, i);
    }
  }

  /** extractContractCallsFromAuth: the calls of all entries, numbered from 0 across them. */
  method ExtractContractCallsFromAuth(lib: Lib, entries: seq<AuthEntry>, main: string)
    returns (calls: seq<ContractCall>)
    ensures AreCalls(lib, calls, Recorded(EntryVisits(entries, main)), 0)
    ensures AllCarried(lib, calls, EntryVisits(entries, main))
  {
    var collector := new Collector();
    var i := 0;
    assert collector.calls[0..] == [];
    while i < |entries|
      invariant 0 <= i <= |entries| && fresh(collector)
      invariant collector.Added(lib, [], 0, EntryVisits(entries[..i], main))
    {
      ghost var middle, order := collector.calls, collector.executionOrder;
      var authType := "source_account";
      if entries[i].byAddress { authType := "contract"; }
      collector.ProcessAuthorizationTree(lib, entries[i].root, main, 0, authType);
      assert entries[..i + 1][..i] == entries[..i];
      collector.AddedThen(lib, [], 0, EntryVisits(entries[..i], main), middle, order,
                          Visits(entries[i].root, main, 0, authType));
      i := i + 1;
    }
    assert entries[..i] == entries;
    assert collector.calls[0..] == collector.calls;
    calls := collector.calls;
    AllCallsCarry(lib, calls, entries, main);
  }

  /** What every list of calls made this way satisfies. */
  lemma CallsAreNumberedCrossCalls(lib: Lib, calls: seq<ContractCall>, entries: seq<AuthEntry>, main: string)
    requires AreCalls(lib, calls, Recorded(EntryVisits(entries, main)), 0)
    ensures forall i :: 0 <= i < |calls| ==>
              && calls[i].executionOrder == i
              && calls[i].fromContract != calls[i].toContract
              && calls[i].fromContract != "" && calls[i].toContract != ""
  {
    RecordedIsRecordable(EntryVisits(entries, main));
  }
}
