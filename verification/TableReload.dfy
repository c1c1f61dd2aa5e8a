/** reload_tables: which tables stay, and what every name resolves to afterwards. */
module TableReload {
  import opened Options
  import opened ProxyModel
  import opened ProxyRefs
  import opened ProxyOps

  // ---------------------------------------------------------------- the two removal loops on lists

  function Lead(used: TId -> bool, s: seq<TId>): seq<TId> {
    if s == [] || used(s[0]) then s else Lead(used, s[1..])
  }

  function Sweep(used: TId -> bool, s: seq<TId>): seq<TId> {
    if |s| < 2 then s
    else if used(s[1]) then [s[0]] + Sweep(used, s[1..])
    else [s[0]] + Sweep(used, s[2..])
  }

  /** A table that is still used is never dropped. */
  lemma {:induction false} UsedStays(used: TId -> bool, s: seq<TId>, t: TId)
    requires t in s && used(t)
    ensures t in Lead(used, s) && t in Sweep(used, s)
  {
    if |s| >= 1 && !used(s[0]) {
      assert t in s[1..];
      UsedStays(used, s[1..], t);
    }
    if |s| >= 2 && t != s[0] {
      if used(s[1]) {
        assert t in s[1..];
        UsedStays(used, s[1..], t);
      } else {
        assert t in s[2..];
        UsedStays(used, s[2..], t);
      }
    }
  }

  predicate AdjacentUnused(used: TId -> bool, s: seq<TId>) {
    exists i :: 0 <= i < |s| - 1 && !used(s[i]) && !used(s[i + 1])
  }

  predicate AllUsed(used: TId -> bool, s: seq<TId>) {
    forall i :: 0 <= i < |s| ==> used(s[i])
  }

  /** The second loop removes every unused table exactly when no two are neighbours. */
  lemma {:induction false} SweepCleans(used: TId -> bool, s: seq<TId>)
    requires s != [] ==> used(s[0])
    ensures AllUsed(used, Sweep(used, s)) <==> !AdjacentUnused(used, s)
  {
    if |s| >= 2 {
      if used(s[1]) {
        SweepCleans(used, s[1..]);
        ShiftAdjacent(used, s, 1);
        AllUsedCons(used, s[0], Sweep(used, s[1..]));
      } else if |s| == 2 {
        assert s[2..] == [];
        assert Sweep(used, s) == [s[0]] + [];
      } else if used(s[2]) {
        SweepCleans(used, s[2..]);
        ShiftAdjacent(used, s, 2);
        AllUsedCons(used, s[0], Sweep(used, s[2..]));
      } else {
        assert AdjacentUnused(used, s) by { assert !used(s[1]) && !used(s[1 + 1]); }
        assert Sweep(used, s[2..])[0] == s[2];
        assert Sweep(used, s)[1] == s[2];
      }
    }
  }

  lemma AllUsedCons(used: TId -> bool, x: TId, s: seq<TId>)
    ensures AllUsed(used, [x] + s) <==> used(x) && AllUsed(used, s)
  {
    if AllUsed(used, [x] + s) {
      assert ([x] + s)[0] == x;
      forall i | 0 <= i < |s|
        ensures used(s[i])
      {
        assert ([x] + s)[i + 1] == s[i];
      }
    }
  }

  /** Leading elements that are used, or followed by a used one, start no unused pair. */
  lemma ShiftAdjacent(used: TId -> bool, s: seq<TId>, k: nat)
    requires 1 <= k <= 2 && k < |s| && used(s[0]) && used(s[k])
    ensures AdjacentUnused(used, s) <==> AdjacentUnused(used, s[k..])
  {
    var r := s[k..];
    if AdjacentUnused(used, s) {
      var i :| 0 <= i < |s| - 1 && !used(s[i]) && !used(s[i + 1]);
      assert i >= k;
      assert !used(r[i - k]) && !used(r[i - k + 1]);
    }
    if AdjacentUnused(used, r) {
      var i :| 0 <= i < |r| - 1 && !used(r[i]) && !used(r[i + 1]);
      assert !used(s[i + k]) && !used(s[i + k + 1]);
    }
  }

  lemma {:induction false} LeadStartsUsed(used: TId -> bool, s: seq<TId>)
    ensures Lead(used, s) != [] ==> used(Lead(used, s)[0])
  {
    if s != [] && !used(s[0]) { LeadStartsUsed(used, s[1..]); }
  }

  /** All unused tables go exactly when no two unused ones follow each other after the first used one. */
  lemma UnusedGoneExactly(used: TId -> bool, s: seq<TId>)
    ensures AllUsed(used, Sweep(used, Lead(used, s))) <==> !AdjacentUnused(used, Lead(used, s))
  {
    LeadStartsUsed(used, s);
    SweepCleans(used, Lead(used, s));
  }

  /** Three tables of which only the first is used: the last survives. */
  lemma UnusedMaySurvive()
    ensures var used := (t: TId) => t == 0; Sweep(used, Lead(used, [0, 1, 2])) == [0, 2]
  {
    var used := (t: TId) => t == 0;
    assert [0, 1, 2][2..] == [2];
    assert Sweep(used, [2]) == [2];
  }

  // ---------------------------------------------------------------- the loops follow the lists

  predicate NamesAgree(w: World, name: TId -> TableName) {
    forall t :: t in w.tables ==> w.tables[t].name == name(t)
  }

  ghost predicate TablesListed(w: World) {
    && (forall k :: 0 <= k < |w.runningTables| ==> w.runningTables[k] in w.tables)
    && (forall k :: 0 <= k < |w.incomingTables| ==> w.incomingTables[k] in w.tables)
  }

  lemma AllTablesListed(w: World)
    requires Counted(w, multiset{}, multiset{})
    ensures TablesListed(w)
  {
    forall k | 0 <= k < |w.runningTables|
      ensures w.runningTables[k] in w.tables
    {
      MemberCount(w.runningTables, w.runningTables[k]);
      assert TableOwners(w, w.runningTables[k], multiset{}) > 0;
    }
    forall k | 0 <= k < |w.incomingTables|
      ensures w.incomingTables[k] in w.tables
    {
      MemberCount(w.incomingTables, w.incomingTables[k]);
      assert TableOwners(w, w.incomingTables[k], multiset{}) > 0;
    }
  }

  lemma ListedAlive(w: World, i: nat)
    requires Counted(w, multiset{}, multiset{}) && i < |w.runningTables|
    ensures w.runningTables[i] in w.tables && w.tables[w.runningTables[i]].refs > 0
  {
    AllTablesListed(w);
    assert TableOwners(w, w.runningTables[i], multiset{}) > 0;
  }

  /** A name is wanted when the new configuration has a table of that name. */
  predicate Wanted(name: TId -> TableName, incoming: seq<TId>, n: TableName) {
    exists k :: 0 <= k < |incoming| && name(incoming[k]) == n
  }

  lemma UsedIsWanted(w: World, t: TId, name: TId -> TableName)
    requires NamesAgree(w, name) && TablesListed(w) && t in w.tables
    ensures Used(w, t) <==> Wanted(name, w.incomingTables, name(t))
  {
    LookupSound(w, w.incomingTables, name(t));
    if Used(w, t) {
      var u := TableLookup(w, w.incomingTables, name(t)).value;
      var k :| 0 <= k < |w.incomingTables| && w.incomingTables[k] == u;
      assert name(w.incomingTables[k]) == name(t);
    }
  }

  lemma PutKeepsNames(w: World, t: TId, name: TId -> TableName)
    requires NamesAgree(w, name)
    ensures NamesAgree(TableRefPut(w, Some(t)), name)
  {
  }

  /** used: whether the new configuration still has a table of this one's name. */
  lemma {:induction false} DropLeadingList(w: World, name: TId -> TableName, used: TId -> bool)
    requires Counted(w, multiset{}, multiset{}) && NamesAgree(w, name)
    requires forall t :: used(t) <==> Wanted(name, w.incomingTables, name(t))
    ensures var r := DropLeading(w);
            && r.runningTables == Lead(used, w.runningTables) && r.incomingTables == w.incomingTables
            && Counted(r, multiset{}, multiset{}) && NamesAgree(r, name)
    decreases |w.runningTables|
  {
    AllTablesListed(w);
    if w.runningTables != [] {
      var t := w.runningTables[0];
      UsedIsWanted(w, t, name);
      if !Used(w, t) {
        assert Without(w.runningTables, 0) == w.runningTables[1..];
        UnlistTable(w, 0, multiset{}, multiset{});
        var w1 := w.(runningTables := w.runningTables[1..]);
        PutKeepsNames(w1, t, name);
        CountsKeepLists(w1, 0, Some(t));
        DropLeadingList(TableRefPut(w1, Some(t)), name, used);
      }
    }
  }

  lemma FollowStepCounted(w: World, i: nat, name: TId -> TableName)
    requires i < |w.runningTables| && Counted(w, multiset{}, multiset{}) && NamesAgree(w, name)
    ensures Counted(FollowStep(w, i), multiset{}, multiset{}) && NamesAgree(FollowStep(w, i), name)
  {
    if i + 1 < |w.runningTables| && !Used(w, w.runningTables[i + 1]) {
      UnlistTable(w, i + 1, multiset{}, multiset{});
      PutKeepsNames(w.(runningTables := Without(w.runningTables, i + 1)), w.runningTables[i + 1], name);
    }
  }

  lemma SweepRemoves(used: TId -> bool, rt: seq<TId>, i: nat)
    requires i + 1 < |rt| && !used(rt[i + 1])
    ensures var rest := Without(rt, i + 1);
            rt[..i] + Sweep(used, rt[i..]) == rest[..i + 1] + Sweep(used, rest[i + 1..])
  {
    var rest := Without(rt, i + 1);
    assert rest[..i + 1] == rt[..i] + [rt[i]] && rest[i + 1..] == rt[i..][2..];
  }

  lemma SweepPasses(used: TId -> bool, rt: seq<TId>, i: nat)
    requires i < |rt| && (i + 1 < |rt| ==> used(rt[i + 1]))
    ensures rt[..i] + Sweep(used, rt[i..]) == rt[..i + 1] + Sweep(used, rt[i + 1..])
  {
    assert rt[..i + 1] == rt[..i] + [rt[i]] && rt[i + 1..] == rt[i..][1..];
    if i + 1 == |rt| { assert rt[i..] == [rt[i]]; }
  }

  lemma FollowStepList(w: World, i: nat, name: TId -> TableName, used: TId -> bool)
    requires i < |w.runningTables| && TablesListed(w) && NamesAgree(w, name)
    requires forall t :: used(t) <==> Wanted(name, w.incomingTables, name(t))
    ensures var rt, d := w.runningTables, FollowStep(w, i);
            && d.incomingTables == w.incomingTables && i + 1 <= |d.runningTables| <= |rt|
            && rt[..i] + Sweep(used, rt[i..]) == d.runningTables[..i + 1] + Sweep(used, d.runningTables[i + 1..])
  {
    var rt := w.runningTables;
    if i + 1 < |rt| { UsedIsWanted(w, rt[i + 1], name); }
    if i + 1 < |rt| && !Used(w, rt[i + 1]) {
      CountsKeepLists(w.(runningTables := Without(rt, i + 1)), 0, Some(rt[i + 1]));
      SweepRemoves(used, rt, i);
    } else {
      SweepPasses(used, rt, i);
    }
  }

  lemma {:induction false} DropFollowingList(w: World, i: nat, name: TId -> TableName, used: TId -> bool)
    requires i <= |w.runningTables| && Counted(w, multiset{}, multiset{}) && NamesAgree(w, name)
    requires forall t :: used(t) <==> Wanted(name, w.incomingTables, name(t))
    ensures var r := DropFollowing(w, i);
            && r.runningTables == w.runningTables[..i] + Sweep(used, w.runningTables[i..])
            && r.incomingTables == w.incomingTables
            && Counted(r, multiset{}, multiset{}) && NamesAgree(r, name)
    decreases |w.runningTables| - i
  {
    if i < |w.runningTables| {
      AllTablesListed(w);
      FollowStepCounted(w, i, name);
      FollowStepList(w, i, name, used);
      DropFollowingList(FollowStep(w, i), i + 1, name, used);
    } else {
      assert w.runningTables[..i] + [] == w.runningTables;
    }
  }

  // ---------------------------------------------------------------- installing the new tables

  /** What listeners find under a name. */
  function Serves(w: World, n: TableName): Option<seq<nat>> {
    var t := TableLookup(w, w.runningTables, n);
    if t.Some? && t.value in w.tables then Some(w.tables[t.value].backends) else None
  }

  /** Lookup depends only on the names of the listed tables. */
  lemma {:induction false} LookupByNames(w: World, w': World, list: seq<TId>, n: TableName)
    requires forall t :: t in list ==> (t in w.tables <==> t in w'.tables)
    requires forall t :: t in list && t in w.tables && t in w'.tables ==> w.tables[t].name == w'.tables[t].name
    ensures TableLookup(w, list, n) == TableLookup(w', list, n)
  {
    if list != [] {
      assert list[0] in list;
      LookupByNames(w, w', list[1..], n);
    }
  }

  /** Dropping a reference on a table that is not listed does not change what names resolve to. */
  lemma PutServes(w: World, t: TId, n: TableName)
    requires t !in w.runningTables
    ensures var r := TableRefPut(w, Some(t));
            TableLookup(r, r.runningTables, n) == TableLookup(w, w.runningTables, n) && Serves(r, n) == Serves(w, n)
  {
    var r := TableRefPut(w, Some(t));
    LookupByNames(w, r, w.runningTables, n);
    LookupSound(w, w.runningTables, n);
  }

  /** A listed table keeps its other reference, so dropping one keeps it. */
  lemma PutListedServes(w: World, t: TId, n: TableName)
    requires t in w.tables && w.tables[t].refs > 1
    ensures var r := TableRefPut(w, Some(t));
            TableLookup(r, r.runningTables, n) == TableLookup(w, w.runningTables, n) && Serves(r, n) == Serves(w, n)
  {
    var r := TableRefPut(w, Some(t));
    LookupByNames(w, r, w.runningTables, n);
    LookupSound(w, w.runningTables, n);
  }

  lemma SwapServes(w: World, e: TId, t: TId, n: TableName)
    requires e in w.tables && t in w.tables && t !in w.runningTables && e != t
    requires TableLookup(w, w.runningTables, w.tables[t].name) == Some(e)
    ensures var r := SwapBackends(w, e, t);
            && TableLookup(r, r.runningTables, n) == TableLookup(w, w.runningTables, n)
            && Serves(r, n) == if n == w.tables[t].name then Some(w.tables[t].backends) else Serves(w, n)
  {
    var r := SwapBackends(w, e, t);
    LookupByNames(w, r, w.runningTables, n);
    LookupSound(w, w.runningTables, n);
    LookupSound(w, w.runningTables, w.tables[t].name);
  }

  lemma AddServes(w: World, t: TId, n: TableName)
    requires t in w.tables && t !in w.runningTables
    requires TableLookup(w, w.runningTables, w.tables[t].name) == None
    ensures var r := AddTable(w, t);
            && TableLookup(r, r.runningTables, n) ==
               (if n == w.tables[t].name then Some(t) else TableLookup(w, w.runningTables, n))
            && Serves(r, n) == (if n == w.tables[t].name then Some(w.tables[t].backends) else Serves(w, n))
            && t in r.tables && r.tables[t].refs == w.tables[t].refs + 1
  {
    var r := AddTable(w, t);
    assert r.runningTables[1..] == w.runningTables;
    LookupByNames(w, r, w.runningTables, n);
    LookupSound(w, w.runningTables, n);
  }

  /** One new table: its name now serves its backends, other names are as before. */
  lemma InstallServes(w: World, n: TableName)
    requires Counted(w, multiset{}, multiset{}) && w.incomingTables != []
    ensures var r := InstallTable(w);
            var t := w.incomingTables[0];
            && t in w.tables
            && Serves(r, n) == (if n == w.tables[t].name then Some(w.tables[t].backends) else Serves(w, n))
            && (TableLookup(w, w.runningTables, n).Some? ==>
                  TableLookup(r, r.runningTables, n) == TableLookup(w, w.runningTables, n))
  {
    var t := w.incomingTables[0];
    var w1 := w.(incomingTables := w.incomingTables[1..]);
    FirstIncomingTable(w, multiset{}, multiset{});
    assert w.tables[t].refs > 0;
    LookupByNames(w, w1, w.runningTables, n);
    if TableLookup(w1, w1.runningTables, w.tables[t].name).Some? {
      InstallOverExisting(w1, t, n);
    } else {
      InstallAsNew(w1, t, n);
    }
  }

  lemma InstallOverExisting(w: World, t: TId, n: TableName)
    requires t in w.tables && t !in w.runningTables
    requires TableLookup(w, w.runningTables, w.tables[t].name).Some?
    ensures var e := TableLookup(w, w.runningTables, w.tables[t].name).value;
            var r := TableRefPut(SwapBackends(w, e, t), Some(t));
            && TableLookup(r, r.runningTables, n) == TableLookup(w, w.runningTables, n)
            && Serves(r, n) == if n == w.tables[t].name then Some(w.tables[t].backends) else Serves(w, n)
  {
    var e := TableLookup(w, w.runningTables, w.tables[t].name).value;
    LookupSound(w, w.runningTables, w.tables[t].name);
    SwapServes(w, e, t, n);
    PutServes(SwapBackends(w, e, t), t, n);
  }

  lemma InstallAsNew(w: World, t: TId, n: TableName)
    requires t in w.tables && t !in w.runningTables && w.tables[t].refs > 0
    requires TableLookup(w, w.runningTables, w.tables[t].name) == None
    ensures var r := TableRefPut(AddTable(w, t), Some(t));
            && TableLookup(r, r.runningTables, n) ==
               (if n == w.tables[t].name then Some(t) else TableLookup(w, w.runningTables, n))
            && Serves(r, n) == if n == w.tables[t].name then Some(w.tables[t].backends) else Serves(w, n)
  {
    AddServes(w, t, n);
    PutListedServes(AddTable(w, t), t, n);
  }

  /** A table present in both worlds with the same name and backends. */
  predicate SameTable(w: World, w': World, u: TId) {
    && u in w.tables && u in w'.tables
    && w'.tables[u].name == w.tables[u].name && w'.tables[u].backends == w.tables[u].backends
  }

  lemma SameTableChain(a: World, b: World, c: World, u: TId)
    requires SameTable(a, b, u) && SameTable(b, c, u)
    ensures SameTable(a, c, u)
  {
  }

  lemma OthersKept(w: World, e: TId, t: TId, u: TId)
    requires u in w.tables && u != e && u != t
    ensures SameTable(w, SwapBackends(w, e, t), u) && SameTable(w, AddTable(w, t), u)
    ensures SameTable(w, TableRefPut(w, Some(t)), u)
  {
  }

  /** The tables still to be installed are not touched by installing one. */
  lemma InstallKeepsRest(w: World, u: TId)
    requires Counted(w, multiset{}, multiset{}) && w.incomingTables != [] && u in w.incomingTables[1..]
    ensures SameTable(w, InstallTable(w), u)
  {
    var t := w.incomingTables[0];
    IncomingTableListed(w, u);
    var w1 := w.(incomingTables := w.incomingTables[1..]);
    var existing := TableLookup(w1, w1.runningTables, NameOf(w1, t));
    LookupSound(w1, w1.runningTables, NameOf(w1, t));
    var e := if existing.Some? then existing.value else t;
    OthersKept(w1, e, t, u);
    OthersKept(if existing.Some? then SwapBackends(w1, e, t) else AddTable(w1, t), e, t, u);
  }

  lemma IncomingTableListed(w: World, u: TId)
    requires Counted(w, multiset{}, multiset{}) && w.incomingTables != [] && u in w.incomingTables[1..]
    ensures u in w.tables && u !in w.runningTables && u != w.incomingTables[0]
  {
    var rest := w.incomingTables[1..];
    assert w.incomingTables == [w.incomingTables[0]] + rest;
    assert multiset(w.incomingTables) == multiset{w.incomingTables[0]} + multiset(rest);
    MemberCount(rest, u);
    MemberCount(w.runningTables, u);
    assert TableOwners(w, u, multiset{}) > 0;
  }

  /** The backends the new configuration gives a name: those of its last table of that name. */
  function NewBackends(w: World, incoming: seq<TId>, n: TableName): Option<seq<nat>> {
    if incoming == [] then None
    else
      var later := NewBackends(w, incoming[1..], n);
      if later.Some? then later
      else if incoming[0] in w.tables && w.tables[incoming[0]].name == n then Some(w.tables[incoming[0]].backends)
      else None
  }

  lemma {:induction false} NewBackendsSame(w: World, w': World, incoming: seq<TId>, n: TableName)
    requires forall u :: u in incoming ==> SameTable(w, w', u)
    ensures NewBackends(w, incoming, n) == NewBackends(w', incoming, n)
  {
    if incoming != [] {
      assert incoming[0] in incoming;
      NewBackendsSame(w, w', incoming[1..], n);
    }
  }

  /**
   * After the third loop no new table is left over; every name of the new configuration
   * serves exactly its backends, through the table that already ran under that name if
   * there was one; every other name resolves as before.
   */
  lemma {:induction false} InstallResult(w: World, n: TableName)
    requires Counted(w, multiset{}, multiset{})
    ensures var r := InstallTables(w);
            && r.incomingTables == [] && Counted(r, multiset{}, multiset{})
            && Serves(r, n) == (if NewBackends(w, w.incomingTables, n).Some?
                                then NewBackends(w, w.incomingTables, n) else Serves(w, n))
            && (TableLookup(w, w.runningTables, n).Some? ==>
                  TableLookup(r, r.runningTables, n) == TableLookup(w, w.runningTables, n))
    decreases |w.incomingTables|
  {
    if w.incomingTables != [] {
      var d, rest := InstallTable(w), w.incomingTables[1..];
      InstallTableCounted(w, multiset{}, multiset{});
      InstallServes(w, n);
      InstallIncoming(w);
      forall u | u in rest
        ensures SameTable(w, d, u)
      {
        InstallKeepsRest(w, u);
      }
      NewBackendsSame(w, d, rest, n);
      InstallResult(d, n);
    }
  }

  lemma InstallIncoming(w: World)
    requires w.incomingTables != []
    ensures InstallTable(w).incomingTables == w.incomingTables[1..]
    ensures InstallTable(w).running == w.running && InstallTable(w).incoming == w.incoming
    ensures InstallTable(w).listeners == w.listeners && InstallTable(w).conns == w.conns
  {
  }

  // ---------------------------------------------------------------- the whole of reload_tables

  function Find(name: TId -> TableName, s: seq<TId>, n: TableName): Option<TId> {
    if s == [] then None else if name(s[0]) == n then Some(s[0]) else Find(name, s[1..], n)
  }

  lemma {:induction false} LookupIsFind(w: World, list: seq<TId>, n: TableName, name: TId -> TableName)
    requires NamesAgree(w, name) && forall k :: 0 <= k < |list| ==> list[k] in w.tables
    ensures TableLookup(w, list, n) == Find(name, list, n)
  {
    if list != [] {
      assert list[0] in w.tables;
      LookupIsFind(w, list[1..], n, name);
    }
  }

  /** A name all of whose tables are used is found in the same place after both removal loops. */
  lemma {:induction false} FindKept(name: TId -> TableName, used: TId -> bool, s: seq<TId>, n: TableName)
    requires forall t :: name(t) == n ==> used(t)
    ensures Find(name, Lead(used, s), n) == Find(name, s, n) == Find(name, Sweep(used, s), n)
  {
    if s != [] && !used(s[0]) { FindKept(name, used, s[1..], n); }
    if |s| >= 2 {
      var k := if used(s[1]) then 1 else 2;
      FindKept(name, used, s[k..], n);
      var tail := Sweep(used, s[k..]);
      assert ([s[0]] + tail)[1..] == tail;
      if k == 2 { assert s[1..][1..] == s[2..]; }
    }
  }

  /** Dropping running tables does not touch a table that is not running. */
  lemma {:induction false} LeadingKeeps(w: World, u: TId)
    requires u in w.tables && u !in w.runningTables
    ensures var r := DropLeading(w);
            SameTable(w, r, u) && u !in r.runningTables
    decreases |w.runningTables|
  {
    if w.runningTables != [] && !Used(w, w.runningTables[0]) {
      var t := w.runningTables[0];
      var w1 := w.(runningTables := w.runningTables[1..]);
      var d := TableRefPut(w1, Some(t));
      CountsKeepLists(w1, 0, Some(t));
      OthersKept(w1, t, t, u);
      LeadingKeeps(d, u);
      SameTableChain(w, d, DropLeading(d), u);
    }
  }

  lemma FollowStepKeeps(w: World, i: nat, u: TId)
    requires u in w.tables && u !in w.runningTables && i < |w.runningTables|
    ensures var d := FollowStep(w, i);
            SameTable(w, d, u) && u !in d.runningTables
  {
    if i + 1 < |w.runningTables| && !Used(w, w.runningTables[i + 1]) {
      var t := w.runningTables[i + 1];
      var w1 := w.(runningTables := Without(w.runningTables, i + 1));
      CountsKeepLists(w1, 0, Some(t));
      OthersKept(w1, t, t, u);
    }
  }

  lemma {:induction false} FollowingKeeps(w: World, i: nat, u: TId)
    requires u in w.tables && u !in w.runningTables
    ensures SameTable(w, DropFollowing(w, i), u)
    decreases |w.runningTables| - i
  {
    if i < |w.runningTables| {
      var d := FollowStep(w, i);
      FollowStepKeeps(w, i, u);
      FollowingKeeps(d, i + 1, u);
      SameTableChain(w, d, DropFollowing(d, i + 1), u);
    }
  }

  lemma IncomingApart(w: World, u: TId)
    requires Counted(w, multiset{}, multiset{}) && u in w.incomingTables
    ensures u in w.tables && u !in w.runningTables
  {
    MemberCount(w.incomingTables, u);
    MemberCount(w.runningTables, u);
    assert TableOwners(w, u, multiset{}) > 0;
  }

  function NamesIn(w: World): TId -> TableName { (t: TId) => NameOf(w, t) }

  function UsedBy(name: TId -> TableName, incoming: seq<TId>): TId -> bool {
    (t: TId) => Wanted(name, incoming, name(t))
  }

  function UsedIn(w: World): TId -> bool { UsedBy(NamesIn(w), w.incomingTables) }

  /** The list that is left for the third loop. */
  lemma Dropped(w: World)
    requires Counted(w, multiset{}, multiset{})
    ensures var d := DropFollowing(DropLeading(w), 0);
            && Counted(d, multiset{}, multiset{}) && NamesAgree(d, NamesIn(w))
            && d.incomingTables == w.incomingTables
            && d.runningTables == Sweep(UsedIn(w), Lead(UsedIn(w), w.runningTables))
  {
    DropLeadingList(w, NamesIn(w), UsedIn(w));
    var l := DropLeading(w);
    DropFollowingList(l, 0, NamesIn(w), UsedIn(w));
    assert l.runningTables[0..] == l.runningTables;
    assert [] + Sweep(UsedIn(w), l.runningTables) == Sweep(UsedIn(w), l.runningTables);
  }

  lemma DroppedKeepsIncoming(w: World, n: TableName)
    requires Counted(w, multiset{}, multiset{})
    ensures var d := DropFollowing(DropLeading(w), 0);
            NewBackends(d, w.incomingTables, n) == NewBackends(w, w.incomingTables, n)
  {
    var l := DropLeading(w);
    var d := DropFollowing(l, 0);
    forall u | u in w.incomingTables
      ensures SameTable(w, d, u)
    {
      IncomingApart(w, u);
      LeadingKeeps(w, u);
      FollowingKeeps(l, 0, u);
    }
    NewBackendsSame(w, d, w.incomingTables, n);
  }

  lemma {:induction false} NewBackendsWanted(w: World, incoming: seq<TId>, n: TableName)
    requires forall k :: 0 <= k < |incoming| ==> incoming[k] in w.tables
    ensures NewBackends(w, incoming, n).Some? <==> Wanted(NamesIn(w), incoming, n)
  {
    if incoming != [] {
      NewBackendsWanted(w, incoming[1..], n);
      assert incoming == [incoming[0]] + incoming[1..];
      if Wanted(NamesIn(w), incoming[1..], n) {
        var k :| 0 <= k < |incoming[1..]| && NamesIn(w)(incoming[1..][k]) == n;
        assert NamesIn(w)(incoming[k + 1]) == n;
      }
      if Wanted(NamesIn(w), incoming, n) {
        var k :| 0 <= k < |incoming| && NamesIn(w)(incoming[k]) == n;
        if k > 0 { assert NamesIn(w)(incoming[1..][k - 1]) == n; }
      }
    }
  }

  function AfterDrops(w: World): World { DropFollowing(DropLeading(w), 0) }

  lemma WantedIsUsed(w: World, n: TableName)
    requires Wanted(NamesIn(w), w.incomingTables, n)
    ensures forall t :: NamesIn(w)(t) == n ==> UsedIn(w)(t)
  {
  }

  lemma FindAfterDrops(w: World, n: TableName)
    requires Wanted(NamesIn(w), w.incomingTables, n)
    ensures Find(NamesIn(w), Sweep(UsedIn(w), Lead(UsedIn(w), w.runningTables)), n) ==
            Find(NamesIn(w), w.runningTables, n)
  {
    WantedIsUsed(w, n);
    FindKept(NamesIn(w), UsedIn(w), w.runningTables, n);
    FindKept(NamesIn(w), UsedIn(w), Lead(UsedIn(w), w.runningTables), n);
  }

  lemma FindRunning(w: World, n: TableName)
    requires Counted(w, multiset{}, multiset{})
    ensures TableLookup(w, w.runningTables, n) == Find(NamesIn(w), w.runningTables, n)
  {
    AllTablesListed(w);
    LookupIsFind(w, w.runningTables, n, NamesIn(w));
  }

  lemma FindDropped(w: World, n: TableName)
    requires Counted(w, multiset{}, multiset{})
    ensures TableLookup(AfterDrops(w), AfterDrops(w).runningTables, n) ==
            Find(NamesIn(w), Sweep(UsedIn(w), Lead(UsedIn(w), w.runningTables)), n)
  {
    Dropped(w);
    AllTablesListed(AfterDrops(w));
    LookupIsFind(AfterDrops(w), AfterDrops(w).runningTables, n, NamesIn(w));
  }

  /** A name of the new configuration finds the same table before and after the removals. */
  lemma DropsKeepLookup(w: World, n: TableName)
    requires Counted(w, multiset{}, multiset{}) && Wanted(NamesIn(w), w.incomingTables, n)
    ensures TableLookup(AfterDrops(w), AfterDrops(w).runningTables, n) == TableLookup(w, w.runningTables, n)
  {
    FindRunning(w, n);
    FindDropped(w, n);
    FindAfterDrops(w, n);
  }

  /**
   * reload_tables: the new list is used up; a name of the new configuration serves exactly
   * the new backends, through the same table as before if one ran under that name.
   */
  lemma ReloadTablesResult(w: World, n: TableName)
    requires Counted(w, multiset{}, multiset{})
    requires Wanted(NamesIn(w), w.incomingTables, n)
    ensures var r := ReloadTables(w);
            && r.incomingTables == []
            && NewBackends(w, w.incomingTables, n).Some?
            && Serves(r, n) == NewBackends(w, w.incomingTables, n)
            && (TableLookup(w, w.runningTables, n).Some? ==>
                  TableLookup(r, r.runningTables, n) == TableLookup(w, w.runningTables, n))
  {
    AllTablesListed(w);
    Dropped(w);
    DroppedKeepsIncoming(w, n);
    NewBackendsWanted(w, w.incomingTables, n);
    InstallResult(AfterDrops(w), n);
    DropsKeepLookup(w, n);
  }

  lemma InstallTableLists(w: World)
    requires w.incomingTables != []
    ensures var t, r := w.incomingTables[0], InstallTable(w).runningTables;
            r == w.runningTables || r == [t] + w.runningTables
  {
  }

  /** The third loop only adds tables of the new configuration. */
  lemma {:induction false} InstallAdds(w: World, t: TId)
    ensures var r := InstallTables(w).runningTables;
            && (t in w.runningTables ==> t in r)
            && (t in r ==> t in w.runningTables || t in w.incomingTables)
    decreases |w.incomingTables|
  {
    if w.incomingTables != [] {
      InstallTableLists(w);
      InstallIncoming(w);
      InstallAdds(InstallTable(w), t);
      assert w.incomingTables == [w.incomingTables[0]] + w.incomingTables[1..];
    }
  }

  lemma IncomingUsed(w: World, t: TId)
    requires t in w.incomingTables
    ensures UsedIn(w)(t)
  {
    var k :| 0 <= k < |w.incomingTables| && w.incomingTables[k] == t;
    assert NamesIn(w)(w.incomingTables[k]) == NameOf(w, t);
  }

  /** A running table whose name is in the new configuration is never dropped. */
  lemma UsedTableStays(w: World, t: TId)
    requires Counted(w, multiset{}, multiset{}) && t in w.runningTables && UsedIn(w)(t)
    ensures t in ReloadTables(w).runningTables
  {
    Dropped(w);
    UsedStays(UsedIn(w), w.runningTables, t);
    UsedStays(UsedIn(w), Lead(UsedIn(w), w.runningTables), t);
    InstallAdds(DropFollowing(DropLeading(w), 0), t);
  }

  lemma InstallKeepsUsed(w: World, d: World)
    requires d.incomingTables == w.incomingTables
    ensures AllUsed(UsedIn(w), InstallTables(d).runningTables) <==> AllUsed(UsedIn(w), d.runningTables)
  {
    var r := InstallTables(d).runningTables;
    forall t
      ensures t in d.runningTables ==> t in r
      ensures t in r && !UsedIn(w)(t) ==> t in d.runningTables
    {
      InstallAdds(d, t);
      if t in w.incomingTables { IncomingUsed(w, t); }
    }
    if AllUsed(UsedIn(w), r) {
      forall i | 0 <= i < |d.runningTables|
        ensures UsedIn(w)(d.runningTables[i])
      {
        assert d.runningTables[i] in r;
      }
    }
    if AllUsed(UsedIn(w), d.runningTables) {
      forall i | 0 <= i < |r|
        ensures UsedIn(w)(r[i])
      {
        assert r[i] in r;
      }
    }
  }

  /** The running list after the third loop: new names in front, each once. */
  function InstalledIds(name: TId -> TableName, running: seq<TId>, incoming: seq<TId>): seq<TId>
    decreases |incoming|
  {
    if incoming == [] then running
    else
      var found := Find(name, running, name(incoming[0])).Some?;
      InstalledIds(name, if found then running else [incoming[0]] + running, incoming[1..])
  }

  lemma InstallKeepsNames(w: World, name: TId -> TableName)
    requires w.incomingTables != [] && NamesAgree(w, name)
    ensures NamesAgree(InstallTable(w), name)
  {
    var t, w1 := w.incomingTables[0], w.(incomingTables := w.incomingTables[1..]);
    var existing := TableLookup(w1, w1.runningTables, NameOf(w1, t));
    var w2 := if existing.Some? then SwapBackends(w1, existing.value, t) else AddTable(w1, t);
    assert NamesAgree(w2, name);
    PutKeepsNames(w2, t, name);
  }

  lemma InstallTableList(w: World, name: TId -> TableName)
    requires Counted(w, multiset{}, multiset{}) && NamesAgree(w, name) && w.incomingTables != []
    ensures var t := w.incomingTables[0];
            InstallTable(w).runningTables ==
            if Find(name, w.runningTables, name(t)).Some? then w.runningTables else [t] + w.runningTables
  {
    var t := w.incomingTables[0];
    AllTablesListed(w);
    assert NameOf(w, t) == name(t);
    LookupIsFind(w, w.runningTables, name(t), name);
    InstallByLookup(w);
  }

  lemma InstallByLookup(w: World)
    requires w.incomingTables != []
    ensures var t := w.incomingTables[0];
            InstallTable(w).runningTables ==
            if TableLookup(w, w.runningTables, NameOf(w, t)).Some? then w.runningTables else [t] + w.runningTables
  {
    LookupByNames(w, w.(incomingTables := w.incomingTables[1..]), w.runningTables, NameOf(w, w.incomingTables[0]));
  }

  lemma {:induction false} InstalledList(w: World, name: TId -> TableName)
    requires Counted(w, multiset{}, multiset{}) && NamesAgree(w, name)
    ensures InstallTables(w).runningTables == InstalledIds(name, w.runningTables, w.incomingTables)
    decreases |w.incomingTables|
  {
    if w.incomingTables != [] {
      InstallTableCounted(w, multiset{}, multiset{});
      InstallKeepsNames(w, name);
      InstallTableList(w, name);
      InstallIncoming(w);
      InstalledList(InstallTable(w), name);
    }
  }

  /** The whole of reload_tables on the list of running tables. */
  lemma ReloadedList(w: World)
    requires Counted(w, multiset{}, multiset{})
    ensures ReloadTables(w).runningTables ==
            InstalledIds(NamesIn(w), Sweep(UsedIn(w), Lead(UsedIn(w), w.runningTables)), w.incomingTables)
  {
    Dropped(w);
    InstalledList(DropFollowing(DropLeading(w), 0), NamesIn(w));
  }

  /**
   * After reload_tables the running list holds only tables named in the new configuration
   * exactly when, from the first such table on, no two neighbours are both absent from it.
   */
  lemma ReloadDropsUnused(w: World)
    requires Counted(w, multiset{}, multiset{})
    ensures AllUsed(UsedIn(w), ReloadTables(w).runningTables) <==>
            !AdjacentUnused(UsedIn(w), Lead(UsedIn(w), w.runningTables))
  {
    Dropped(w);
    InstallKeepsUsed(w, DropFollowing(DropLeading(w), 0));
    UnusedGoneExactly(UsedIn(w), w.runningTables);
  }

  lemma ReloadTablesCounted(w: World)
    requires Counted(w, multiset{}, multiset{})
    ensures Counted(ReloadTables(w), multiset{}, multiset{}) && ReloadTables(w).incomingTables == []
  {
    Dropped(w);
    InstallResult(DropFollowing(DropLeading(w), 0), None);
  }

  /** With distinct names in the new configuration, a name serves the table that has it. */
  lemma {:induction false} NewBackendsUnique(w: World, incoming: seq<TId>, k: nat)
    requires k < |incoming| && incoming[k] in w.tables
    requires forall a :: 0 <= a < |incoming| && a != k ==>
               incoming[a] in w.tables ==> w.tables[incoming[a]].name != w.tables[incoming[k]].name
    ensures NewBackends(w, incoming, w.tables[incoming[k]].name) == Some(w.tables[incoming[k]].backends)
  {
    var n := w.tables[incoming[k]].name;
    if k == 0 {
      NoneLater(w, incoming[1..], n);
    } else {
      NewBackendsUnique(w, incoming[1..], k - 1);
    }
  }

  lemma {:induction false} NoneLater(w: World, incoming: seq<TId>, n: TableName)
    requires forall a :: 0 <= a < |incoming| ==> incoming[a] in w.tables ==> w.tables[incoming[a]].name != n
    ensures NewBackends(w, incoming, n) == None
  {
    if incoming != [] { NoneLater(w, incoming[1..], n); }
  }
}
