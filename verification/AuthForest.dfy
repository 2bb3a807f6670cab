/** What the flattened calls say about the authorization forest they came from: depths, and when the
    list determines the forest (contract_invocation_processor.go:262-342, contract_invocation_event.go:104-114). */
module AuthForest {
  import opened Basics
  import opened ScVal
  import opened AuthTree

  // ----- depths

  /** The node at a path, with its parent's id and its depth; every node on the way is encodable. */
  ghost predicate Reached(node: Invocation, path: seq<nat>, from: string, depth: nat, v: Visit)
    decreases |path|
  {
    !Unencodable(node) &&
    if path == [] then v.node == node && v.from == from && v.depth == depth
    else path[0] < |node.subs| && Reached(node.subs[path[0]], path[1..], Id(node), depth + 1, v)
  }

  /** Every reachable node is visited, with the authorization type of the walk. */
  lemma {:induction false} ReachedIsVisited(
      node: Invocation, path: seq<nat>, from: string, depth: nat, a: string, v: Visit)
    requires Reached(node, path, from, depth, v) && v.authType == a
    ensures v in Visits(node, from, depth, a)
    decreases |path|
  {
    if path == [] {
      assert Visits(node, from, depth, a)[0] == v;
    } else {
      var i := path[0];
      ReachedIsVisited(node.subs[i], path[1..], Id(node), depth + 1, a, v);
      SubVisited(node.subs, i, Id(node), depth + 1, a, v);
    }
  }

  lemma {:induction false} SubVisited(nodes: seq<Invocation>, i: nat, from: string, depth: nat, a: string, v: Visit)
    requires i < |nodes| && v in Visits(nodes[i], from, depth, a)
    ensures v in ForestVisits(nodes, from, depth, a)
  {
    var n := |nodes| - 1;
    if i < n {
      SubVisited(nodes[..n], i, from, depth, a, v);
    }
  }

  /** A visit is a node of the tree, met at the depth of its path and with its parent's id. */
  lemma {:induction false} VisitIsReached(node: Invocation, from: string, depth: nat, a: string, v: Visit)
    returns (path: seq<nat>)
    requires v in Visits(node, from, depth, a)
    ensures Reached(node, path, from, depth, v) && v.authType == a
    decreases node, 1
  {
    if v == Visit(from, node, depth, a) {
      path := [];
    } else {
      var i, below := ForestVisitIsReached(node.subs, Id(node), depth + 1, a, v);
      path := [i] + below;
      assert path[1..] == below;
    }
  }

  lemma {:induction false} ForestVisitIsReached(nodes: seq<Invocation>, from: string, depth: nat, a: string, v: Visit)
    returns (i: nat, path: seq<nat>)
    requires v in ForestVisits(nodes, from, depth, a)
    ensures i < |nodes| && Reached(nodes[i], path, from, depth, v) && v.authType == a
    decreases nodes, 0
  {
    var n := |nodes| - 1;
    if v in Visits(nodes[n], from, depth, a) {
      i := n;
      path := VisitIsReached(nodes[n], from, depth, a, v);
    } else {
      i, path := ForestVisitIsReached(nodes[..n], from, depth, a, v);
    }
  }

  function Max(x: nat, y: nat): (m: nat) { if x < y then y else x }

  /** Length of the longest path below a node. */
  function Height(node: Invocation): (h: nat)
    decreases node, 1
  {
    if node.subs == [] then 0 else 1 + ForestHeight(node.subs)
  }

  function ForestHeight(nodes: seq<Invocation>): (h: nat)
    decreases nodes, 0
  {
    if nodes == [] then 0
    else Max(ForestHeight(nodes[..|nodes| - 1]), Height(nodes[|nodes| - 1]))
  }

  lemma {:induction false} HeightBoundsSubs(nodes: seq<Invocation>, i: nat)
    requires i < |nodes|
    ensures Height(nodes[i]) <= ForestHeight(nodes)
  {
    var n := |nodes| - 1;
    if i < n {
      HeightBoundsSubs(nodes[..n], i);
    }
  }

  lemma {:induction false} PathWithinHeight(node: Invocation, path: seq<nat>, from: string, depth: nat, v: Visit)
    requires Reached(node, path, from, depth, v)
    ensures v.depth == depth + |path| && |path| <= Height(node)
    decreases |path|
  {
    if path != [] {
      PathWithinHeight(node.subs[path[0]], path[1..], Id(node), depth + 1, v);
      HeightBoundsSubs(node.subs, path[0]);
    }
  }

  /** GetMaxCallDepth: the least upper bound of the depths, 0 when there are no calls. */
  method GetMaxCallDepth(calls: seq<ContractCall>) returns (maxDepth: nat)
    ensures forall i :: 0 <= i < |calls| ==> calls[i].callDepth <= maxDepth
    ensures maxDepth == 0 || exists i :: 0 <= i < |calls| && calls[i].callDepth == maxDepth
  {
    maxDepth := 0;
    var i := 0;
    while i < |calls|
      invariant 0 <= i <= |calls|
      invariant forall k :: 0 <= k < i ==> calls[k].callDepth <= maxDepth
      invariant maxDepth == 0 || exists k :: 0 <= k < i && calls[k].callDepth == maxDepth
    {
      if calls[i].callDepth > maxDepth {
        maxDepth := calls[i].callDepth;
      }
      i := i + 1;
    }
  }

  function Roots(entries: seq<AuthEntry>): (r: seq<Invocation>)
    ensures |r| == |entries|
  {
    if entries == [] then [] else Roots(entries[..|entries| - 1]) + [entries[|entries| - 1].root]
  }

  lemma {:induction false} RecordedSubset(vs: seq<Visit>, v: Visit)
    ensures v in Recorded(vs) <==> v in vs && Recordable(v)
  {
    if vs != [] {
      RecordedSubset(vs[..|vs| - 1], v);
      assert vs == vs[..|vs| - 1] + [vs[|vs| - 1]];
    }
  }

  lemma {:induction false} EntryOfVisit(entries: seq<AuthEntry>, main: string, v: Visit) returns (j: nat)
    requires v in EntryVisits(entries, main)
    ensures j < |entries| && v in Visits(entries[j].root, main, 0, AuthType(entries[j]))
  {
    var n := |entries| - 1;
    if v in EntryVisits(entries[..n], main) {
      j := EntryOfVisit(entries[..n], main, v);
    } else {
      j := n;
    }
  }

  lemma {:induction false} RootAt(entries: seq<AuthEntry>, j: nat)
    requires j < |entries|
    ensures Roots(entries)[j] == entries[j].root
  {
    var n := |entries| - 1;
    if j < n {
      RootAt(entries[..n], j);
    }
  }

  lemma EntryDepths(entries: seq<AuthEntry>, main: string, v: Visit)
    requires v in EntryVisits(entries, main)
    ensures v.depth <= ForestHeight(Roots(entries))
  {
    var j := EntryOfVisit(entries, main, v);
    var path := VisitIsReached(entries[j].root, main, 0, AuthType(entries[j]), v);
    PathWithinHeight(entries[j].root, path, main, 0, v);
    RootAt(entries, j);
    HeightBoundsSubs(Roots(entries), j);
  }

  /** No call lies deeper than the forest is high. */
  lemma CallDepthsWithinHeight(lib: Lib, calls: seq<ContractCall>, entries: seq<AuthEntry>, main: string)
    requires AreCalls(lib, calls, Recorded(EntryVisits(entries, main)), 0)
    ensures forall i :: 0 <= i < |calls| ==> calls[i].callDepth <= ForestHeight(Roots(entries))
  {
    var vs := EntryVisits(entries, main);
    forall i | 0 <= i < |calls|
      ensures calls[i].callDepth <= ForestHeight(Roots(entries))
    {
      RecordedSubset(vs, Recorded(vs)[i]);
      EntryDepths(entries, main, Recorded(vs)[i]);
    }
  }

  // ----- when nothing is lost

  /** Every node names a contract, and one different from its parent's. */
  predicate Distinct(node: Invocation, from: string)
    decreases node, 1
  {
    Id(node) != "" && Id(node) != from && AllDistinct(node.subs, Id(node))
  }

  predicate AllDistinct(nodes: seq<Invocation>, from: string)
    decreases nodes, 0
  {
    nodes == [] || (AllDistinct(nodes[..|nodes| - 1], from) && Distinct(nodes[|nodes| - 1], from))
  }

  function Size(node: Invocation): (n: nat)
    decreases node, 1
  {
    1 + ForestSize(node.subs)
  }

  function ForestSize(nodes: seq<Invocation>): (n: nat)
    decreases nodes, 0
  {
    if nodes == [] then 0 else ForestSize(nodes[..|nodes| - 1]) + Size(nodes[|nodes| - 1])
  }

  /** A tree with a named parent yields one call per node exactly when it is distinct, and never more. */
  lemma {:induction false} OneCallPerNode(node: Invocation, from: string, depth: nat, a: string)
    ensures |Recorded(Visits(node, from, depth, a))| <= Size(node)
    ensures |Recorded(Visits(node, from, depth, a))| == Size(node) <==> from != "" && Distinct(node, from)
    decreases node, 1
  {
    if !Unencodable(node) {
      var first := Visit(from, node, depth, a);
      var below := ForestVisits(node.subs, Id(node), depth + 1, a);
      OneCallPerForestNode(node.subs, Id(node), depth + 1, a);
      RecordedConcat([first], below);
      assert [first][..0] == [];
      assert Recorded([first]) == if Recordable(first) then [first] else [];
    }
  }

  lemma {:induction false} OneCallPerForestNode(nodes: seq<Invocation>, from: string, depth: nat, a: string)
    ensures |Recorded(ForestVisits(nodes, from, depth, a))| <= ForestSize(nodes)
    ensures |Recorded(ForestVisits(nodes, from, depth, a))| == ForestSize(nodes)
       <==> nodes == [] || (from != "" && AllDistinct(nodes, from))
    decreases nodes, 0
  {
    if nodes != [] {
      var n := |nodes| - 1;
      OneCallPerForestNode(nodes[..n], from, depth, a);
      OneCallPerNode(nodes[n], from, depth, a);
      RecordedConcat(ForestVisits(nodes[..n], from, depth, a), Visits(nodes[n], from, depth, a));
    }
  }

  /** An edge as it appears in the list of calls. */
  datatype Edge = Edge(from: string, to: string, functionName: string, depth: nat)

  /** What the calls tell about a tree. */
  datatype Tree = Tree(contract: string, functionName: string, subs: seq<Tree>)

  function FunctionName(node: Invocation): (s: string)
  {
    if node.fn.ContractFn? then node.fn.name else ""
  }

  function Skeleton(node: Invocation): (t: Tree)
    decreases node, 1
  {
    Tree(Id(node), FunctionName(node), Skeletons(node.subs))
  }

  function Skeletons(nodes: seq<Invocation>): (ts: seq<Tree>)
    decreases nodes, 0
  {
    if nodes == [] then [] else [Skeleton(nodes[0])] + Skeletons(nodes[1..])
  }

  /** Rebuilds the trees of depth d at the front of a list of edges; what follows them is left over. */
  function Rebuild(es: seq<Edge>, d: nat): (r: (seq<Tree>, seq<Edge>))
    ensures |r.1| <= |es|
    decreases |es|
  {
    if es == [] || es[0].depth != d then ([], es)
    else
      var below := Rebuild(es[1..], d + 1);
      var after := Rebuild(below.1, d);
      ([Tree(es[0].to, es[0].functionName, below.0)] + after.0, after.1)
  }

  function EdgeOf(c: ContractCall): (e: Edge)
  {
    Edge(c.fromContract, c.toContract, c.functionName, c.callDepth)
  }

  function EdgesOf(calls: seq<ContractCall>): (es: seq<Edge>)
  {
    seq(|calls|, i requires 0 <= i < |calls| => EdgeOf(calls[i]))
  }

  /** The edges of a forest, front to back. */
  function Edges(nodes: seq<Invocation>, from: string, d: nat): (es: seq<Edge>)
    decreases nodes
  {
    if nodes == [] then []
    else
      [Edge(from, Id(nodes[0]), FunctionName(nodes[0]), d)]
      + Edges(nodes[0].subs, Id(nodes[0]), d + 1)
      + Edges(nodes[1..], from, d)
  }

  /** One tree of depth d at the front, given what rebuilding below and after it gives. */
  lemma RebuildOne(e: Edge, es: seq<Edge>, below: seq<Tree>, mid: seq<Edge>, after: seq<Tree>, rest: seq<Edge>)
    requires Rebuild(es, e.depth + 1) == (below, mid) && Rebuild(mid, e.depth) == (after, rest)
    ensures Rebuild([e] + es, e.depth) == ([Tree(e.to, e.functionName, below)] + after, rest)
  {
    assert ([e] + es)[1..] == es;
  }

  lemma EdgesUnfold(nodes: seq<Invocation>, from: string, d: nat, tail: seq<Edge>)
    requires nodes != []
    ensures Edges(nodes, from, d) + tail
            == [Edge(from, Id(nodes[0]), FunctionName(nodes[0]), d)]
               + (Edges(nodes[0].subs, Id(nodes[0]), d + 1) + (Edges(nodes[1..], from, d) + tail))
  {
  }

  lemma NextIsNotDeeper(nodes: seq<Invocation>, from: string, d: nat, tail: seq<Edge>)
    requires tail == [] || tail[0].depth < d
    ensures var es := Edges(nodes, from, d) + tail; es == [] || es[0].depth < d + 1
  {
  }

  lemma {:induction false} RebuildUndoesEdges(nodes: seq<Invocation>, from: string, d: nat, tail: seq<Edge>)
    requires tail == [] || tail[0].depth < d
    ensures Rebuild(Edges(nodes, from, d) + tail, d) == (Skeletons(nodes), tail)
    decreases nodes
  {
    if nodes == [] {
      assert Edges(nodes, from, d) + tail == tail;
    } else {
      var e := Edge(from, Id(nodes[0]), FunctionName(nodes[0]), d);
      var below, after := Edges(nodes[0].subs, e.to, d + 1), Edges(nodes[1..], from, d) + tail;
      NextIsNotDeeper(nodes[1..], from, d, tail);
      RebuildUndoesEdges(nodes[0].subs, e.to, d + 1, after);
      RebuildUndoesEdges(nodes[1..], from, d, tail);
      EdgesUnfold(nodes, from, d, tail);
      RebuildOne(e, below + after, Skeletons(nodes[0].subs), after, Skeletons(nodes[1..]), tail);
    }
  }

  // ----- the edges of a distinct forest are those of its calls

  function VisitEdges(vs: seq<Visit>): (es: seq<Edge>)
  {
    seq(|vs|, i requires 0 <= i < |vs| => Edge(vs[i].from, Id(vs[i].node), FunctionName(vs[i].node), vs[i].depth))
  }

  lemma VisitEdgesConcat(xs: seq<Visit>, ys: seq<Visit>)
    ensures VisitEdges(xs + ys) == VisitEdges(xs) + VisitEdges(ys)
  {
  }

  lemma {:induction false} EdgesConcat(xs: seq<Invocation>, ys: seq<Invocation>, from: string, d: nat)
    ensures Edges(xs + ys, from, d) == Edges(xs, from, d) + Edges(ys, from, d)
  {
    if xs == [] {
      assert xs + ys == ys;
    } else {
      assert (xs + ys)[1..] == xs[1..] + ys;
      EdgesConcat(xs[1..], ys, from, d);
    }
  }

  lemma TreeEdges(node: Invocation, from: string, d: nat)
    ensures Edges([node], from, d)
            == [Edge(from, Id(node), FunctionName(node), d)] + Edges(node.subs, Id(node), d + 1)
  {
    assert [node][1..] == [];
  }

  /** What a tree records: its node, if recordable, and then what lies below it. */
  lemma RecordedTree(node: Invocation, from: string, d: nat, a: string)
    requires !Unencodable(node) && Recordable(Visit(from, node, d, a))
    ensures Recorded(Visits(node, from, d, a))
            == [Visit(from, node, d, a)] + Recorded(ForestVisits(node.subs, Id(node), d + 1, a))
  {
    RecordedOne(Visit(from, node, d, a));
    RecordedConcat([Visit(from, node, d, a)], ForestVisits(node.subs, Id(node), d + 1, a));
  }

  lemma {:induction false} DistinctTreeEdges(node: Invocation, from: string, d: nat, a: string)
    requires from != "" && Distinct(node, from)
    ensures VisitEdges(Recorded(Visits(node, from, d, a))) == Edges([node], from, d)
    decreases node, 1
  {
    var below := Recorded(ForestVisits(node.subs, Id(node), d + 1, a));
    DistinctForestEdges(node.subs, Id(node), d + 1, a);
    RecordedTree(node, from, d, a);
    VisitEdgesConcat([Visit(from, node, d, a)], below);
    TreeEdges(node, from, d);
  }

  lemma {:induction false} DistinctForestEdges(nodes: seq<Invocation>, from: string, d: nat, a: string)
    requires nodes == [] || (from != "" && AllDistinct(nodes, from))
    ensures VisitEdges(Recorded(ForestVisits(nodes, from, d, a))) == Edges(nodes, from, d)
    decreases nodes, 0
  {
    if nodes != [] {
      var n := |nodes| - 1;
      DistinctForestEdges(nodes[..n], from, d, a);
      DistinctTreeEdges(nodes[n], from, d, a);
      RecordedConcat(ForestVisits(nodes[..n], from, d, a), Visits(nodes[n], from, d, a));
      VisitEdgesConcat(Recorded(ForestVisits(nodes[..n], from, d, a)), Recorded(Visits(nodes[n], from, d, a)));
      EdgesConcat(nodes[..n], [nodes[n]], from, d);
      assert nodes[..n] + [nodes[n]] == nodes;
    }
  }

  lemma {:induction false} EntryEdges(entries: seq<AuthEntry>, main: string)
    requires main != "" && AllDistinct(Roots(entries), main)
    ensures VisitEdges(Recorded(EntryVisits(entries, main))) == Edges(Roots(entries), main, 0)
  {
    if entries != [] {
      var n := |entries| - 1;
      var rs := Roots(entries);
      assert rs[..n] == Roots(entries[..n]) && rs[n] == entries[n].root;
      EntryEdges(entries[..n], main);
      var e := entries[n];
      DistinctTreeEdges(e.root, main, 0, AuthType(e));
      RecordedConcat(EntryVisits(entries[..n], main), Visits(e.root, main, 0, AuthType(e)));
      VisitEdgesConcat(Recorded(EntryVisits(entries[..n], main)), Recorded(Visits(e.root, main, 0, AuthType(e))));
      EdgesConcat(rs[..n], [rs[n]], main, 0);
      assert rs[..n] + [rs[n]] == rs;
    }
  }

  /** When every node names a contract different from its parent's, and every root one different from
      the main contract, rebuilding from the from, to, function and depth of the calls gives back the
      whole forest. */
  lemma CallsDetermineForest(lib: Lib, calls: seq<ContractCall>, entries: seq<AuthEntry>, main: string)
    requires AreCalls(lib, calls, Recorded(EntryVisits(entries, main)), 0)
    requires main != "" && AllDistinct(Roots(entries), main)
    ensures Rebuild(EdgesOf(calls), 0) == (Skeletons(Roots(entries)), [])
  {
    EntryEdges(entries, main);
    var vs := Recorded(EntryVisits(entries, main));
    assert EdgesOf(calls) == VisitEdges(vs);
    RebuildUndoesEdges(Roots(entries), main, 0, []);
    assert Edges(Roots(entries), main, 0) + [] == Edges(Roots(entries), main, 0);
  }

  /** Nothing is dropped exactly for such forests: one call per node iff every node is distinct. */
  lemma {:induction false} LosslessIffDistinct(entries: seq<AuthEntry>, main: string)
    ensures |Recorded(EntryVisits(entries, main))| <= ForestSize(Roots(entries))
    ensures |Recorded(EntryVisits(entries, main))| == ForestSize(Roots(entries))
       <==> entries == [] || (main != "" && AllDistinct(Roots(entries), main))
  {
    if entries != [] {
      var n := |entries| - 1;
      var rs := Roots(entries);
      assert rs[..n] == Roots(entries[..n]) && rs[n] == entries[n].root;
      LosslessIffDistinct(entries[..n], main);
      var e := entries[n];
      OneCallPerNode(e.root, main, 0, AuthType(e));
      RecordedConcat(EntryVisits(entries[..n], main), Visits(e.root, main, 0, AuthType(e)));
    }
  }

  /** A node that calls no contract hides the calls directly below it too: its sub-invocations are walked
      without a parent contract. */
  lemma CreationHidesItsCalls(main: string, to: string, name: string)
    requires to != "" && to != main
    ensures var below := Invocation(ContractFn(Some(to), name, []), []);
            var e := AuthEntry(true, Invocation(CreateContract, [below]));
            Recorded(EntryVisits([e], main)) == Recorded(EntryVisits([], main))
            && |Recorded(EntryVisits([AuthEntry(true, below)], main))| == (if main != "" then 1 else 0)
  {
    var below := Invocation(ContractFn(Some(to), name, []), []);
    var root := Invocation(CreateContract, [below]);
    var e, f := AuthEntry(true, root), AuthEntry(true, below);
    assert [e][..0] == [] && [f][..0] == [] && root.subs[..0] == [];
    assert ForestVisits(below.subs, to, 2, "contract") == [] && ForestVisits(below.subs, to, 1, "contract") == [];
    assert ForestVisits(root.subs, "", 1, "contract") == [Visit("", below, 1, "contract")];
    assert Visits(root, main, 0, "contract") == [Visit(main, root, 0, "contract"), Visit("", below, 1, "contract")];
    assert Visits(below, main, 0, "contract") == [Visit(main, below, 0, "contract")];
    RecordedOne(Visit(main, root, 0, "contract"));
    RecordedOne(Visit("", below, 1, "contract"));
    RecordedConcat([Visit(main, root, 0, "contract")], [Visit("", below, 1, "contract")]);
    RecordedOne(Visit(main, below, 0, "contract"));
  }

  // ----- calls against nodes

  lemma {:induction false} VisitOfEntry(entries: seq<AuthEntry>, main: string, j: nat, v: Visit)
    requires j < |entries| && v in Visits(entries[j].root, main, 0, AuthType(entries[j]))
    ensures v in EntryVisits(entries, main)
  {
    var n := |entries| - 1;
    if j < n {
      VisitOfEntry(entries[..n], main, j, v);
    }
  }

  /** Each call is a node of some entry, reached on a path from its root: it goes from the parent's contract to the
      node's, carries the node's function and convertible arguments, lies as deep as the path is long, and is
      authorized by the contract or by the source account as the entry's credentials say. */
  lemma EveryCallIsANode(lib: Lib, calls: seq<ContractCall>, entries: seq<AuthEntry>, main: string, i: nat)
    returns (j: nat, path: seq<nat>, v: Visit, at: seq<nat>)
    requires AreCalls(lib, calls, Recorded(EntryVisits(entries, main)), 0) && i < |calls|
    ensures j < |entries| && Reached(entries[j].root, path, main, 0, v) && |path| == calls[i].callDepth
    ensures Carries(lib, calls[i], i, v, at)
    ensures calls[i].authType == if entries[j].byAddress then "contract" else "source_account"
  {
    v, at := CallsCarryTheirNodes(lib, calls, entries, main, i);
    j := EntryOfVisit(entries, main, v);
    path := VisitIsReached(entries[j].root, main, 0, AuthType(entries[j]), v);
    PathWithinHeight(entries[j].root, path, main, 0, v);
  }

  /** Conversely, each node on a path of encodable nodes is a call if it and its parent name different contracts. */
  lemma EveryCrossNodeIsACall(
      lib: Lib, calls: seq<ContractCall>, entries: seq<AuthEntry>, main: string, j: nat, path: seq<nat>, v: Visit)
    returns (i: nat, at: seq<nat>)
    requires AreCalls(lib, calls, Recorded(EntryVisits(entries, main)), 0) && j < |entries|
    requires Reached(entries[j].root, path, main, 0, v) && v.authType == AuthType(entries[j])
    requires v.node.fn.ContractFn? && v.node.fn.contract.Some?
    requires v.from != "" && v.node.fn.contract.value != "" && v.from != v.node.fn.contract.value
    ensures i < |calls| && Carries(lib, calls[i], i, v, at)
  {
    ReachedIsVisited(entries[j].root, path, main, 0, AuthType(entries[j]), v);
    VisitOfEntry(entries, main, j, v);
    var vs := EntryVisits(entries, main);
    RecordedSubset(vs, v);
    i :| 0 <= i < |Recorded(vs)| && Recorded(vs)[i] == v;
    var u;
    u, at := CallsCarryTheirNodes(lib, calls, entries, main, i);
  }

  /** Without the condition two forests can flatten alike: a root that is the main contract itself
      leaves the same list of calls as no entry at all. */
  lemma SelfCallIsInvisible(main: string, name: string)
    ensures var e := AuthEntry(true, Invocation(ContractFn(Some(main), name, []), []));
            Recorded(EntryVisits([e], main)) == Recorded(EntryVisits([], main))
            && Skeletons(Roots([e])) != Skeletons(Roots([]))
  {
    var root := Invocation(ContractFn(Some(main), name, []), []);
    var e := AuthEntry(true, root);
    assert [e][..0] == [];
    var vs := Visits(root, main, 0, AuthType(e));
    assert ForestVisits(root.subs, main, 1, AuthType(e)) == [];
    assert vs == [Visit(main, root, 0, AuthType(e))];
    assert vs[..0] == [];
    assert EntryVisits([e], main) == vs;
    assert Roots([e]) == [root];
  }
}
