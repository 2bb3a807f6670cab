/** Handlers by input type (pkg/processor/handler.go). */
module HandlerRegistry {

  /** A registered handler; `id` is its identity. */
  datatype Handler = Handler(id: nat, inputTypes: seq<string>, outputTypes: seq<string>)

  type Table = map<string, seq<Handler>>

  /** Go's map lookup: a missing type has no handlers. */
  function Lookup(table: Table, t: string): (r: seq<Handler>)
  {
    if t in table then table[t] else []
  }

  /** h once per occurrence of t in types. */
  function Entries(h: Handler, types: seq<string>, t: string): (r: seq<Handler>)
  {
    if types == [] then []
    else if types[|types| - 1] == t then Entries(h, types[..|types| - 1], t) + [h]
    else Entries(h, types[..|types| - 1], t)
  }

  lemma {:induction false} EntriesAre(h: Handler, types: seq<string>, t: string)
    ensures forall e :: e in Entries(h, types, t) ==> e == h
    ensures Entries(h, types, t) == [] <==> t !in types
  {
    if types != [] {
      EntriesAre(h, types[..|types| - 1], t);
      assert types == types[..|types| - 1] + [types[|types| - 1]];
    }
  }

  /** The handlers of a type after registering hs in order, one entry per occurrence of the type. */
  function Registered(hs: seq<Handler>, t: string): (r: seq<Handler>)
  {
    if hs == [] then []
    else
      var h := hs[|hs| - 1];
      Registered(hs[..|hs| - 1], t) + Entries(h, h.inputTypes, t)
  }

  /** hs[i] is the first handler that lists t. */
  ghost predicate FirstFor(hs: seq<Handler>, t: string, i: int)
  {
    0 <= i < |hs| && t in hs[i].inputTypes && forall j :: 0 <= j < i ==> t !in hs[j].inputTypes
  }

  lemma {:induction false} NoneRegistered(hs: seq<Handler>, t: string)
    ensures Registered(hs, t) == [] <==> (forall i :: 0 <= i < |hs| ==> t !in hs[i].inputTypes)
  {
    if hs != [] {
      var n := |hs| - 1;
      NoneRegistered(hs[..n], t);
      EntriesAre(hs[n], hs[n].inputTypes, t);
      assert forall i :: 0 <= i < n ==> hs[..n][i] == hs[i];
    }
  }

  /** The handler used for a type is the first registered one that lists it, if any does. */
  lemma {:induction false} FirstRegisteredWins(hs: seq<Handler>, t: string)
    ensures Registered(hs, t) == [] <==> (forall i :: 0 <= i < |hs| ==> t !in hs[i].inputTypes)
    ensures Registered(hs, t) != [] ==> exists i :: FirstFor(hs, t, i) && Registered(hs, t)[0] == hs[i]
  {
    NoneRegistered(hs, t);
    if Registered(hs, t) != [] {
      var n := |hs| - 1;
      NoneRegistered(hs[..n], t);
      if Registered(hs[..n], t) == [] {
        EntriesAre(hs[n], hs[n].inputTypes, t);
        assert forall j :: 0 <= j < n ==> hs[..n][j] == hs[j];
        assert FirstFor(hs, t, n) && Registered(hs, t)[0] in Entries(hs[n], hs[n].inputTypes, t);
      } else {
        FirstRegisteredWins(hs[..n], t);
        var i :| FirstFor(hs[..n], t, i) && Registered(hs[..n], t)[0] == hs[..n][i];
        assert forall j :: 0 <= j <= i ==> hs[..n][j] == hs[j];
        assert FirstFor(hs, t, i) && Registered(hs, t)[0] == Registered(hs[..n], t)[0];
      }
    }
  }

  lemma {:induction false} EntriesCount(h: Handler, types: seq<string>, t: string)
    ensures |Entries(h, types, t)| == multiset(types)[t]
    ensures forall k :: 0 <= k < |Entries(h, types, t)| ==> Entries(h, types, t)[k] == h
  {
    if types != [] {
      var n := |types| - 1;
      EntriesCount(h, types[..n], t);
      assert types == types[..n] + [types[n]];
    }
  }

  /** The entries of a type come from the handlers at these positions. */
  ghost predicate ListedAt(hs: seq<Handler>, t: string, entries: seq<Handler>, at: seq<int>)
  {
    && |at| == |entries|
    && (forall k :: 0 <= k < |at| ==> 0 <= at[k] < |hs| && entries[k] == hs[at[k]])
    && (forall j, k :: 0 <= j < k < |at| ==> at[j] <= at[k])
    && (forall i :: 0 <= i < |hs| ==> multiset(at)[i] == multiset(hs[i].inputTypes)[t])
  }

  function Repeat(n: nat, count: nat): (r: seq<int>)
    ensures |r| == count && multiset(r)[n] == count
    ensures forall k :: 0 <= k < count ==> r[k] == n
  {
    if count == 0 then []
    else
      var rest := Repeat(n, count - 1);
      assert multiset(rest + [n]) == multiset(rest) + multiset{n};
      rest + [n]
  }

  lemma RepeatCounts(n: nat, count: nat, i: nat)
    ensures multiset(Repeat(n, count))[i] == if i == n then count else 0
  {
    if i != n {
      assert i !in Repeat(n, count);
    }
  }

  lemma ListedNext(hs: seq<Handler>, t: string, entries: seq<Handler>, at: seq<int>, h: Handler)
    requires ListedAt(hs, t, entries, at)
    ensures var mine := Entries(h, h.inputTypes, t);
            ListedAt(hs + [h], t, entries + mine, at + Repeat(|hs|, |mine|))
  {
    var mine := Entries(h, h.inputTypes, t);
    var all, more := hs + [h], at + Repeat(|hs|, |mine|);
    EntriesCount(h, h.inputTypes, t);
    assert multiset(more) == multiset(at) + multiset(Repeat(|hs|, |mine|));
    forall i | 0 <= i < |all|
      ensures multiset(more)[i] == multiset(all[i].inputTypes)[t]
    {
      RepeatCounts(|hs|, |mine|, i);
      assert i == |hs| ==> i !in at;
    }
  }

  /** The handlers of a type are listed in the order of registration, each as often as it lists the type. */
  lemma {:induction false} RegisteredInOrder(hs: seq<Handler>, t: string) returns (at: seq<int>)
    ensures ListedAt(hs, t, Registered(hs, t), at)
  {
    if hs == [] {
      at := [];
    } else {
      var n := |hs| - 1;
      at := RegisteredInOrder(hs[..n], t);
      assert hs[..n] + [hs[n]] == hs;
      ListedNext(hs[..n], t, Registered(hs[..n], t), at, hs[n]);
      at := at + Repeat(n, |Entries(hs[n], hs[n].inputTypes, t)|);
    }
  }

  /** Every handler of every listed type. */
  ghost predicate Listed(table: Table, types: set<string>, h: Handler)
  {
    exists t :: t in types && t in table && h in table[t]
  }

  /** `table` is `start` after h was appended under the types listed so far. */
  ghost predicate Appended(start: Table, table: Table, h: Handler, types: seq<string>)
  {
    forall t :: Lookup(table, t) == Lookup(start, t) + Entries(h, types, t)
  }

  lemma AppendOne(start: Table, table: Table, h: Handler, types: seq<string>, t: string)
    requires Appended(start, table, h, types)
    ensures Appended(start, table[t := Lookup(table, t) + [h]], h, types + [t])
  {
    assert (types + [t])[..|types|] == types;
  }

  /** The table holds exactly what registering hs in order puts there. */
  ghost predicate Holds(table: Table, hs: seq<Handler>)
  {
    forall t :: Lookup(table, t) == Registered(hs, t)
  }

  lemma AppendedIsRegistered(start: Table, table: Table, h: Handler, hs: seq<Handler>)
    requires Holds(start, hs) && Appended(start, table, h, h.inputTypes)
    ensures Holds(table, hs + [h])
  {
    assert (hs + [h])[..|hs|] == hs;
  }

  lemma {:induction false} RegisteredMembers(hs: seq<Handler>, t: string, h: Handler)
    ensures h in Registered(hs, t) <==> h in hs && t in h.inputTypes
  {
    if hs != [] {
      var n := |hs| - 1;
      RegisteredMembers(hs[..n], t, h);
      EntriesAre(hs[n], hs[n].inputTypes, t);
      var front, mine := Registered(hs[..n], t), Entries(hs[n], hs[n].inputTypes, t);
      assert mine != [] ==> mine[0] in mine;
      assert h in Registered(hs, t) <==> h in front || h in mine;
      assert h in hs <==> h in hs[..n] || h == hs[n];
    }
  }

  /** The table lists exactly the registered handlers that accept some type. */
  lemma ListedIsRegistered(table: Table, hs: seq<Handler>, h: Handler)
    requires Holds(table, hs)
    ensures Listed(table, table.Keys, h) <==> h in hs && h.inputTypes != []
  {
    if Listed(table, table.Keys, h) {
      var t :| t in table.Keys && h in table[t];
      assert Lookup(table, t) == Registered(hs, t);
      RegisteredMembers(hs, t, h);
    }
    if h in hs && h.inputTypes != [] {
      var t := h.inputTypes[0];
      RegisteredMembers(hs, t, h);
      assert h in Lookup(table, t);
    }
  }

  class Registry {
    var handlers: Table

    /** The handlers registered so far, in order. */
    ghost var registered: seq<Handler>

    constructor ()
      ensures Valid() && registered == []
    {
      handlers, registered := map[], [];
    }

    ghost predicate Valid()
      reads this
    {
      Holds(handlers, registered)
    }

    /** Appends h under each of its input types, in the order and as often as it lists them. */
    method Register(h: Handler)
      requires Valid()
      modifies this
      ensures Valid() && registered == old(registered) + [h]
      ensures Appended(old(handlers), handlers, h, h.inputTypes)
    {
      ghost var start := handlers;
      assert Appended(start, handlers, h, []);
      var i := 0;
      while i < |h.inputTypes|
        invariant 0 <= i <= |h.inputTypes|
        invariant registered == old(registered)
        invariant Appended(start, handlers, h, h.inputTypes[..i])
      {
        AppendOne(start, handlers, h, h.inputTypes[..i], h.inputTypes[i]);
        assert h.inputTypes[..i + 1] == h.inputTypes[..i] + [h.inputTypes[i]];
        handlers := handlers[h.inputTypes[i] := Lookup(handlers, h.inputTypes[i]) + [h]];
        i := i + 1;
      }
      assert h.inputTypes[..i] == h.inputTypes;
      AppendedIsRegistered(start, handlers, h, registered);
      registered := registered + [h];
    }

    /** The registered handlers that list t, in the order of registration, one entry per listing. */
    function GetHandlersForType(t: string): (r: seq<Handler>)
      requires Valid()
      reads this
      ensures r == Registered(registered, t)
      ensures forall h :: h in r <==> h in registered && t in h.inputTypes
    {
      assert forall h :: h in Registered(registered, t) <==> h in registered && t in h.inputTypes by {
        forall h {
          RegisteredMembers(registered, t, h);
        }
      }
      Lookup(handlers, t)
    }

    /** Every registered handler that accepts some type, exactly once; map order decides only the order
        of the result. */
    method GetAllHandlers() returns (all: seq<Handler>)
      requires Valid()
      ensures forall i, j :: 0 <= i < j < |all| ==> all[i] != all[j]
      ensures forall h :: h in all <==> h in registered && h.inputTypes != []
    {
      all := ListAll();
      forall h {
        ListedIsRegistered(handlers, registered, h);
      }
    }

    /** The two loops over the table. */
    method ListAll() returns (all: seq<Handler>)
      ensures forall i, j :: 0 <= i < j < |all| ==> all[i] != all[j]
      ensures forall h :: h in all <==> Listed(handlers, handlers.Keys, h)
    {
      all := [];
      var seen: set<Handler> := {};
      var left := handlers.Keys;
      while left != {}
        invariant left <= handlers.Keys
        invariant forall i, j :: 0 <= i < j < |all| ==> all[i] != all[j]
        invariant forall h :: h in seen <==> h in all
        invariant forall h :: h in all <==> Listed(handlers, handlers.Keys - left, h)
        decreases left
      {
        var t :| t in left;
        var i := 0;
        ghost var before := all;
        while i < |handlers[t]|
          invariant 0 <= i <= |handlers[t]|
          invariant forall a, b :: 0 <= a < b < |all| ==> all[a] != all[b]
          invariant forall h :: h in seen <==> h in all
          invariant forall h :: h in all <==> h in before || h in handlers[t][..i]
        {
          var h := handlers[t][i];
          if h !in seen {
            seen := seen + {h};
            all := all + [h];
          }
          i := i + 1;
        }
        forall h
          ensures h in all <==> Listed(handlers, handlers.Keys - (left - {t}), h)
        {
          assert h in handlers[t][..i] <==> h in handlers[t];
          if Listed(handlers, handlers.Keys - (left - {t}), h) {
            var u :| u in handlers.Keys - (left - {t}) && u in handlers && h in handlers[u];
            assert u == t || u in handlers.Keys - left;
          }
          if Listed(handlers, handlers.Keys - left, h) {
            var u :| u in handlers.Keys - left && u in handlers && h in handlers[u];
            assert u in handlers.Keys - (left - {t});
          }
          if h in handlers[t] {
            assert t in handlers.Keys - (left - {t});
          }
        }
        left := left - {t};
      }
      assert handlers.Keys - left == handlers.Keys;
    }
  }
}
