/**
 * Which backends a reload frees. The number of a backend is the identity of the object;
 * a configuration that is read brings new ones.
 */
module BackendLifetime {
  import opened Options
  import opened ProxyModel
  import opened ProxyRefs
  import opened ProxyOps
  import opened TableReload
  import opened ProxyRuns
  import opened ReloadServes

  /** Table t lists the backend b, and no other table does. */
  ghost predicate Owns(w: World, t: TId, b: nat) {
    && t in w.tables && b in w.tables[t].backends
    && forall u :: u in w.tables && b in w.tables[u].backends ==> u == t
  }

  /** No table lists the backend: it was freed with the table that did. */
  ghost predicate Freed(w: World, b: nat) {
    forall u :: u in w.tables ==> b !in w.tables[u].backends
  }

  predicate Brings(c: Config, b: nat) {
    exists k :: 0 <= k < |c.tables| && b in c.tables[k].backends
  }

  predicate Names(c: Config, n: TableName) {
    exists k :: 0 <= k < |c.tables| && c.tables[k].name == n
  }

  /** The configuration has a table of t's name, and t is the running table of that name. */
  predicate Replaced(w: World, c: Config, t: TId)
    requires t in w.tables
  {
    TableLookup(w, w.runningTables, w.tables[t].name) == Some(t) && Names(c, w.tables[t].name)
  }

  // ---------------------------------------------------------------- the third loop of reload_tables

  /** Tables that were just read are held by their list alone. */
  ghost predicate NewOnes(w: World) {
    forall v :: v in w.incomingTables ==> v in w.tables && w.tables[v].refs == 1
  }

  /** The table whose contents are exchanged for those of the first new one. */
  function Existing(w: World): Option<TId>
    requires w.incomingTables != []
  {
    TableLookup(w, w.runningTables, NameOf(w, w.incomingTables[0]))
  }

  lemma ExistingApart(w: World)
    requires Counted(w, multiset{}, multiset{}) && w.incomingTables != []
    ensures w.incomingTables[0] in w.tables
    ensures Existing(w).Some? ==>
              Existing(w).value in w.tables && Existing(w).value in w.runningTables
              && Existing(w).value != w.incomingTables[0]
  {
    IncomingApart(w, w.incomingTables[0]);
    LookupSound(w, w.runningTables, NameOf(w, w.incomingTables[0]));
  }

  lemma InstallForm(w: World)
    requires w.incomingTables != []
    ensures var t, w1 := w.incomingTables[0], w.(incomingTables := w.incomingTables[1..]);
            InstallTable(w) ==
            TableRefPut(if Existing(w).Some? then SwapBackends(w1, Existing(w).value, t) else AddTable(w1, t), Some(t))
  {
    var w1 := w.(incomingTables := w.incomingTables[1..]);
    LookupByNames(w, w1, w.runningTables, NameOf(w, w.incomingTables[0]));
  }

  lemma SwapStep(w: World, e: TId, t: TId, u: TId)
    requires e in w.tables && t in w.tables && e != t && w.tables[t].refs == 1
    ensures var d := TableRefPut(SwapBackends(w, e, t), Some(t));
            && (u in d.tables <==> u in w.tables && u != t)
            && (u in d.tables ==>
                  d.tables[u] == w.tables[u].(backends := (if u == e then w.tables[t] else w.tables[u]).backends))
  {
  }

  lemma AddStep(w: World, t: TId, u: TId)
    requires t in w.tables && w.tables[t].refs > 0
    ensures var d := TableRefPut(AddTable(w, t), Some(t));
            (u in d.tables <==> u in w.tables) && (u in d.tables ==> d.tables[u] == w.tables[u])
  {
  }

  /** One turn: the contents of the new table replace those of the existing one, which are freed. */
  lemma InstallStep(w: World, u: TId)
    requires Counted(w, multiset{}, multiset{}) && NewOnes(w) && w.incomingTables != []
    ensures var t, d := w.incomingTables[0], InstallTable(w);
            && (u in d.tables <==> u in w.tables && !(u == t && Existing(w).Some?))
            && (u in d.tables ==>
                  d.tables[u] ==
                  w.tables[u].(backends := (if Existing(w) == Some(u) then w.tables[t] else w.tables[u]).backends))
  {
    ExistingApart(w);
    InstallForm(w);
    var t, w1 := w.incomingTables[0], w.(incomingTables := w.incomingTables[1..]);
    if Existing(w).Some? {
      SwapStep(w1, Existing(w).value, t, u);
    } else {
      AddStep(w1, t, u);
    }
  }

  lemma InstallNewOnes(w: World)
    requires Counted(w, multiset{}, multiset{}) && NewOnes(w) && w.incomingTables != []
    ensures NewOnes(InstallTable(w))
  {
    InstallIncoming(w);
    forall v | v in w.incomingTables[1..]
      ensures v in InstallTable(w).tables && InstallTable(w).tables[v].refs == 1
    {
      IncomingTableListed(w, v);
      InstallStep(w, v);
    }
  }

  /** t is the running table of a name that a new table has. */
  predicate Target(w: World, t: TId)
    requires t in w.tables
  {
    && TableLookup(w, w.runningTables, w.tables[t].name) == Some(t)
    && Wanted(NamesIn(w), w.incomingTables, w.tables[t].name)
  }

  /** Some new table has these contents. */
  ghost predicate NewContents(w: World, bs: seq<nat>) {
    exists v :: v in w.incomingTables && v in w.tables && w.tables[v].backends == bs
  }

  lemma NewContentsStep(w: World, bs: seq<nat>)
    requires Counted(w, multiset{}, multiset{}) && w.incomingTables != [] && NewContents(InstallTable(w), bs)
    ensures NewContents(w, bs)
  {
    var d := InstallTable(w);
    InstallIncoming(w);
    var v :| v in d.incomingTables && v in d.tables && d.tables[v].backends == bs;
    InstallKeepsRest(w, v);
    assert v in w.incomingTables;
  }

  /** Afterwards a table has its own contents or those of a new table, never another's. */
  lemma {:induction false} InstalledContents(w: World, u: TId)
    requires Counted(w, multiset{}, multiset{}) && NewOnes(w) && u in InstallTables(w).tables
    ensures u in w.tables
    ensures var bs := InstallTables(w).tables[u].backends; bs == w.tables[u].backends || NewContents(w, bs)
    decreases |w.incomingTables|
  {
    if w.incomingTables != [] {
      var d := InstallTable(w);
      InstallTableCounted(w, multiset{}, multiset{});
      InstallNewOnes(w);
      InstallIncoming(w);
      InstalledContents(d, u);
      InstallStep(w, u);
      var bs := InstallTables(w).tables[u].backends;
      if NewContents(d, bs) {
        NewContentsStep(w, bs);
      } else if Existing(w) == Some(u) {
        ExistingApart(w);
        assert w.incomingTables[0] in w.incomingTables;
      }
    }
  }

  lemma TargetStep(w: World, u: TId)
    requires Counted(w, multiset{}, multiset{}) && NewOnes(w) && w.incomingTables != []
    requires u in w.tables && u !in w.incomingTables && !Target(w, u)
    ensures Existing(w) != Some(u)
    ensures u in InstallTable(w).tables && !Target(InstallTable(w), u)
  {
    var d, n := InstallTable(w), w.tables[u].name;
    ExistingApart(w);
    LookupSound(w, w.runningTables, NameOf(w, w.incomingTables[0]));
    assert NamesIn(w)(w.incomingTables[0]) == NameOf(w, w.incomingTables[0]);
    assert Existing(w) != Some(u);
    InstallStep(w, u);
    if Target(d, u) { TargetBefore(w, u); }
  }

  lemma WantedBefore(w: World, n: TableName)
    requires Counted(w, multiset{}, multiset{}) && NewOnes(w) && w.incomingTables != []
    requires Wanted(NamesIn(InstallTable(w)), InstallTable(w).incomingTables, n)
    ensures Wanted(NamesIn(w), w.incomingTables, n)
  {
    var d := InstallTable(w);
    InstallIncoming(w);
    var k :| 0 <= k < |d.incomingTables| && NamesIn(d)(d.incomingTables[k]) == n;
    InstallKeepsRest(w, d.incomingTables[k]);
    assert NamesIn(w)(w.incomingTables[k + 1]) == n;
  }

  lemma TargetBefore(w: World, u: TId)
    requires Counted(w, multiset{}, multiset{}) && NewOnes(w) && w.incomingTables != []
    requires u in w.tables && u !in w.incomingTables && u in InstallTable(w).tables && Target(InstallTable(w), u)
    ensures Target(w, u)
  {
    var d, n := InstallTable(w), w.tables[u].name;
    InstallStep(w, u);
    InstallServes(w, n);
    WantedBefore(w, n);
    InstallTableLists(w);
    LookupSound(d, d.runningTables, n);
    LookupSound(w, w.runningTables, n);
  }

  /** A table that is no target keeps its contents. */
  lemma {:induction false} UntouchedStays(w: World, u: TId)
    requires Counted(w, multiset{}, multiset{}) && NewOnes(w)
    requires u in w.tables && u !in w.incomingTables && !Target(w, u)
    ensures u in InstallTables(w).tables && InstallTables(w).tables[u].backends == w.tables[u].backends
    decreases |w.incomingTables|
  {
    if w.incomingTables != [] {
      InstallTableCounted(w, multiset{}, multiset{});
      InstallNewOnes(w);
      InstallIncoming(w);
      TargetStep(w, u);
      InstallStep(w, u);
      UntouchedStays(InstallTable(w), u);
    }
  }

  lemma {:induction false} NewBackendsFrom(w: World, incoming: seq<TId>, n: TableName) returns (v: TId)
    requires NewBackends(w, incoming, n).Some?
    ensures v in incoming && v in w.tables && NewBackends(w, incoming, n) == Some(w.tables[v].backends)
  {
    if NewBackends(w, incoming[1..], n).Some? {
      v := NewBackendsFrom(w, incoming[1..], n);
    } else {
      v := incoming[0];
    }
  }

  /** A target gets the contents of a new table. */
  lemma TargetGetsNew(w: World, t: TId)
    requires Counted(w, multiset{}, multiset{}) && t in w.tables && Target(w, t)
    ensures t in InstallTables(w).tables && NewContents(w, InstallTables(w).tables[t].backends)
  {
    var n, r := w.tables[t].name, InstallTables(w);
    AllTablesListed(w);
    NewBackendsWanted(w, w.incomingTables, n);
    InstallResult(w, n);
    LookupSound(r, r.runningTables, n);
    var v := NewBackendsFrom(w, w.incomingTables, n);
  }

  // ---------------------------------------------------------------- the two removal loops

  lemma {:induction false} LeadingKeepsContent(w: World, content: Content)
    requires ContentAgrees(w, content)
    ensures ContentAgrees(DropLeading(w), content)
    decreases |w.runningTables|
  {
    if w.runningTables != [] && !Used(w, w.runningTables[0]) {
      var t, w1 := w.runningTables[0], w.(runningTables := w.runningTables[1..]);
      CountsKeepLists(w1, 0, Some(t));
      CountsKeepContent(w1, 0, Some(t), 0, content);
      LeadingKeepsContent(TableRefPut(w1, Some(t)), content);
    }
  }

  lemma {:induction false} FollowingKeepsContent(w: World, i: nat, content: Content)
    requires ContentAgrees(w, content)
    ensures ContentAgrees(DropFollowing(w, i), content)
    decreases |w.runningTables| - i
  {
    if i < |w.runningTables| {
      if i + 1 < |w.runningTables| && !Used(w, w.runningTables[i + 1]) {
        CountsKeepContent(w.(runningTables := Without(w.runningTables, i + 1)), 0,
                          Some(w.runningTables[i + 1]), 0, content);
      }
      FollowingKeepsContent(FollowStep(w, i), i + 1, content);
    }
  }

  lemma DropsKeepContent(w: World)
    ensures ContentAgrees(AfterDrops(w), ContentIn(w))
  {
    LeadingKeepsContent(w, ContentIn(w));
    FollowingKeepsContent(DropLeading(w), 0, ContentIn(w));
  }

  /** A new table is held by its list alone before the third loop as well. */
  lemma DropsKeepNewOnes(w: World)
    requires Counted(w, multiset{}, multiset{}) && NewOnes(w)
    ensures NewOnes(AfterDrops(w))
  {
    var d := AfterDrops(w);
    Dropped(w);
    DropLeadingKeeps(w);
    DropFollowingKeeps(DropLeading(w), 0);
    forall v | v in d.incomingTables
      ensures v in d.tables && d.tables[v].refs == 1
    {
      IncomingApart(w, v);
      IncomingApart(d, v);
      MemberCount(w.runningTables, v);
      MemberCount(d.runningTables, v);
      assert TableOwners(d, v, multiset{}) == TableOwners(w, v, multiset{});
    }
  }

  lemma DropsKeepWanted(w: World, n: TableName)
    requires Counted(w, multiset{}, multiset{})
    ensures Wanted(NamesIn(AfterDrops(w)), AfterDrops(w).incomingTables, n) <==>
            Wanted(NamesIn(w), w.incomingTables, n)
  {
    var d := AfterDrops(w);
    Dropped(w);
    AllTablesListed(d);
    forall k | 0 <= k < |w.incomingTables|
      ensures NamesIn(d)(w.incomingTables[k]) == NamesIn(w)(w.incomingTables[k])
    {
      assert d.incomingTables[k] in d.tables;
    }
    WantedByNames(NamesIn(d), NamesIn(w), w.incomingTables, n);
  }

  lemma WantedByNames(a: TId -> TableName, b: TId -> TableName, incoming: seq<TId>, n: TableName)
    requires forall k :: 0 <= k < |incoming| ==> a(incoming[k]) == b(incoming[k])
    ensures Wanted(a, incoming, n) <==> Wanted(b, incoming, n)
  {
    if Wanted(a, incoming, n) {
      var k :| 0 <= k < |incoming| && a(incoming[k]) == n;
      assert b(incoming[k]) == n;
    }
  }

  lemma DropsKeepTarget(w: World, t: TId)
    requires Counted(w, multiset{}, multiset{}) && t in w.tables && t in AfterDrops(w).tables
    ensures Target(AfterDrops(w), t) <==> Target(w, t)
  {
    DropsKeepContent(w);
    DropsKeepWanted(w, w.tables[t].name);
    if Wanted(NamesIn(w), w.incomingTables, w.tables[t].name) {
      DropsKeepLookup(w, w.tables[t].name);
    }
  }

  lemma DropsKeepNewContents(w: World, bs: seq<nat>)
    requires Counted(w, multiset{}, multiset{}) && NewContents(AfterDrops(w), bs)
    ensures NewContents(w, bs)
  {
    var d := AfterDrops(w);
    Dropped(w);
    DropsKeepContent(w);
    var v :| v in d.incomingTables && v in d.tables && d.tables[v].backends == bs;
    assert v in w.incomingTables && v in w.tables;
  }

  // ---------------------------------------------------------------- reload_tables

  /** After reload_tables a table has its own contents, if it is no target, or a new table's. */
  lemma ReloadedContents(w: World, u: TId)
    requires Counted(w, multiset{}, multiset{}) && NewOnes(w) && u in ReloadTables(w).tables
    ensures u in w.tables
    ensures var bs := ReloadTables(w).tables[u].backends;
            && (bs == w.tables[u].backends || NewContents(w, bs))
            && (u !in w.incomingTables ==> if Target(w, u) then NewContents(w, bs) else bs == w.tables[u].backends)
  {
    var d := AfterDrops(w);
    Dropped(w);
    DropsKeepNewOnes(w);
    DropsKeepContent(w);
    InstalledContents(d, u);
    DropsKeepTarget(w, u);
    var bs := ReloadTables(w).tables[u].backends;
    if u !in w.incomingTables {
      if Target(d, u) { TargetGetsNew(d, u); } else { UntouchedStays(d, u); }
    }
    if NewContents(d, bs) { DropsKeepNewContents(w, bs); }
  }

  // ---------------------------------------------------------------- reading the configuration

  /** Tables have numbers below the next free one, and the new ones are in the store. */
  ghost predicate Numbered(w: World) {
    && (forall t :: t in w.tables ==> t < w.nextId)
    && (forall v :: v in w.incomingTables ==> v in w.tables)
  }

  lemma LoadTableNumbered(w: World, c: TableConfig)
    requires Numbered(w)
    ensures Numbered(LoadTable(w, c))
  {
  }

  lemma {:induction false} LoadedOld(w: World, cs: seq<TableConfig>, t: TId)
    requires Numbered(w) && t in w.tables
    ensures var r := LoadTables(w, cs);
            && t in r.tables && r.tables[t] == w.tables[t]
            && (t in r.incomingTables <==> t in w.incomingTables)
    decreases |cs|
  {
    if cs != [] {
      LoadTableNumbered(w, cs[0]);
      LoadedOld(LoadTable(w, cs[0]), cs[1..], t);
    }
  }

  /** A table that was not there before was read from the file. */
  lemma {:induction false} LoadedNew(w: World, cs: seq<TableConfig>, v: TId) returns (k: nat)
    requires Numbered(w) && v !in w.tables
    requires var r := LoadTables(w, cs); v in r.tables || v in r.incomingTables
    ensures var r := LoadTables(w, cs);
            k < |cs| && v in r.incomingTables && v in r.tables && r.tables[v] == Table(cs[k].name, cs[k].backends, 1)
    decreases |cs|
  {
    if cs == [] {
      assert false;
    } else {
      LoadTableNumbered(w, cs[0]);
      if v == w.nextId {
        k := 0;
        LoadedOld(LoadTable(w, cs[0]), cs[1..], v);
      } else {
        k := LoadedNew(LoadTable(w, cs[0]), cs[1..], v);
        k := k + 1;
      }
    }
  }

  lemma LoadedFirst(w: World, cs: seq<TableConfig>) returns (v: TId)
    requires Numbered(w) && cs != []
    ensures var r := LoadTables(w, cs);
            v in r.incomingTables && v in r.tables && r.tables[v] == Table(cs[0].name, cs[0].backends, 1)
  {
    v := w.nextId;
    LoadTableNumbered(w, cs[0]);
    LoadedOld(LoadTable(w, cs[0]), cs[1..], v);
  }

  /** Every table of the file is among the new ones. */
  lemma {:induction false} LoadedAll(w: World, cs: seq<TableConfig>, k: nat) returns (v: TId)
    requires Numbered(w) && k < |cs|
    ensures var r := LoadTables(w, cs);
            v in r.incomingTables && v in r.tables && r.tables[v] == Table(cs[k].name, cs[k].backends, 1)
    decreases |cs|
  {
    LoadTableNumbered(w, cs[0]);
    if k == 0 {
      v := LoadedFirst(w, cs);
    } else {
      v := LoadedAll(LoadTable(w, cs[0]), cs[1..], k - 1);
    }
  }

  /** The store in which the tables of a file are read. */
  lemma ReadyToLoad(w: World, c: Config) returns (a: World)
    requires Good(w)
    ensures LoadConfig(w, c) == LoadTables(a, c.tables) && Numbered(a)
    ensures a.tables == w.tables && a.runningTables == w.runningTables && a.incomingTables == []
  {
    a := LoadListeners(w, c.listeners);
    LoadListenersStore(w, c.listeners);
  }

  lemma LoadedRecord(w: World, c: Config, v: TId) returns (k: nat)
    requires Good(w) && v in LoadConfig(w, c).incomingTables
    ensures var l := LoadConfig(w, c);
            k < |c.tables| && v !in w.tables && v in l.tables
            && l.tables[v] == Table(c.tables[k].name, c.tables[k].backends, 1)
  {
    var a := ReadyToLoad(w, c);
    if v in a.tables { LoadedOld(a, c.tables, v); }
    k := LoadedNew(a, c.tables, v);
  }

  lemma LoadedNewOnes(w: World, c: Config)
    requires Good(w)
    ensures NewOnes(LoadConfig(w, c))
  {
    forall v | v in LoadConfig(w, c).incomingTables
      ensures v in LoadConfig(w, c).tables && LoadConfig(w, c).tables[v].refs == 1
    {
      var k := LoadedRecord(w, c, v);
    }
  }

  /** Contents of new tables are those of the file. */
  lemma NewIsBrought(w: World, c: Config, bs: seq<nat>, b: nat)
    requires Good(w) && NewContents(LoadConfig(w, c), bs) && b in bs
    ensures Brings(c, b)
  {
    var l := LoadConfig(w, c);
    var v :| v in l.incomingTables && v in l.tables && l.tables[v].backends == bs;
    var k := LoadedRecord(w, c, v);
    assert b in c.tables[k].backends;
  }

  lemma WantedIsInFile(w: World, c: Config, n: TableName)
    requires Good(w) && Wanted(NamesIn(LoadConfig(w, c)), LoadConfig(w, c).incomingTables, n)
    ensures Names(c, n)
  {
    var l := LoadConfig(w, c);
    var i :| 0 <= i < |l.incomingTables| && NamesIn(l)(l.incomingTables[i]) == n;
    var k := LoadedRecord(w, c, l.incomingTables[i]);
    assert c.tables[k].name == n;
  }

  lemma NamedIsWanted(w: World, c: Config, n: TableName)
    requires Good(w) && Names(c, n)
    ensures Wanted(NamesIn(LoadConfig(w, c)), LoadConfig(w, c).incomingTables, n)
  {
    var l := LoadConfig(w, c);
    var k :| 0 <= k < |c.tables| && c.tables[k].name == n;
    var a := ReadyToLoad(w, c);
    var v := LoadedAll(a, c.tables, k);
    var i :| 0 <= i < |l.incomingTables| && l.incomingTables[i] == v;
    assert NamesIn(l)(l.incomingTables[i]) == n;
  }

  lemma WantedIsNamed(w: World, c: Config, n: TableName)
    requires Good(w)
    ensures Wanted(NamesIn(LoadConfig(w, c)), LoadConfig(w, c).incomingTables, n) <==> Names(c, n)
  {
    if Wanted(NamesIn(LoadConfig(w, c)), LoadConfig(w, c).incomingTables, n) { WantedIsInFile(w, c, n); }
    if Names(c, n) { NamedIsWanted(w, c, n); }
  }

  lemma LoadedStays(w: World, c: Config, t: TId)
    requires Good(w) && t in w.tables
    ensures var l := LoadConfig(w, c); t in l.tables && l.tables[t] == w.tables[t] && t !in l.incomingTables
  {
    var a := ReadyToLoad(w, c);
    LoadedOld(a, c.tables, t);
  }

  lemma LoadedLookup(w: World, c: Config, n: TableName)
    requires Good(w)
    ensures TableLookup(LoadConfig(w, c), LoadConfig(w, c).runningTables, n) == TableLookup(w, w.runningTables, n)
  {
    var l := LoadConfig(w, c);
    LoadTablesRunning(LoadListeners(w, c.listeners), c.tables);
    LoadListenersStore(w, c.listeners);
    AllTablesListed(w);
    forall t | t in w.runningTables
      ensures t in w.tables && t in l.tables && l.tables[t] == w.tables[t]
    {
      LoadedStays(w, c, t);
    }
    LookupByNames(w, l, w.runningTables, n);
  }

  lemma TargetIsReplaced(w: World, c: Config, t: TId)
    requires Good(w) && t in w.tables
    ensures t in LoadConfig(w, c).tables && (Target(LoadConfig(w, c), t) <==> Replaced(w, c, t))
  {
    LoadedStays(w, c, t);
    LoadedLookup(w, c, w.tables[t].name);
    WantedIsNamed(w, c, w.tables[t].name);
  }

  // ---------------------------------------------------------------- the whole reload

  /** What a table holds after a reload: its old contents unless replaced, or new ones. */
  lemma ContentsAfterReload(w: World, c: Config, socketOk: LId -> bool, u: TId, b: nat)
    requires Good(w) && u in ReloadConfig(w, Some(c), socketOk).tables && !Brings(c, b)
    ensures b in ReloadConfig(w, Some(c), socketOk).tables[u].backends <==>
            u in w.tables && b in w.tables[u].backends && !Replaced(w, c, u)
  {
    var l := LoadConfig(w, c);
    LoadedCounted(w, c);
    LoadedSorted(w, c);
    LoadedNewOnes(w, c);
    InstallKeepsTables(l, socketOk);
    ReloadedContents(l, u);
    var bs := ReloadTables(l).tables[u].backends;
    if b in bs && NewContents(l, bs) { NewIsBrought(w, c, bs, b); }
    if u in w.tables {
      LoadedStays(w, c, u);
      TargetIsReplaced(w, c, u);
    } else {
      NewTableContents(w, c, u, b);
    }
  }

  lemma NewTableContents(w: World, c: Config, u: TId, b: nat)
    requires Good(w) && u in LoadConfig(w, c).tables && u !in w.tables && !Brings(c, b)
    ensures b !in LoadConfig(w, c).tables[u].backends
  {
    var a := ReadyToLoad(w, c);
    var k := LoadedNew(a, c.tables, u);
  }

  /**
   * A backend survives a reload exactly when its table does and is not the running table of
   * a name in the new configuration; in every other case no table has it any more.
   */
  lemma ReloadFreesBackend(w: World, c: Config, socketOk: LId -> bool, t: TId, b: nat)
    requires Good(w) && Owns(w, t, b) && !Brings(c, b)
    ensures var r := ReloadConfig(w, Some(c), socketOk);
            if t in r.tables && !Replaced(w, c, t) then Owns(r, t, b) else Freed(r, b)
  {
    var r := ReloadConfig(w, Some(c), socketOk);
    forall u | u in r.tables
      ensures b in r.tables[u].backends <==> u == t && !Replaced(w, c, t)
    {
      ContentsAfterReload(w, c, socketOk, u, b);
    }
  }

  /** What was freed does not come back. */
  lemma FreedStays(w: World, c: Config, socketOk: LId -> bool, b: nat)
    requires Good(w) && Freed(w, b) && !Brings(c, b)
    ensures Freed(ReloadConfig(w, Some(c), socketOk), b)
  {
    var r := ReloadConfig(w, Some(c), socketOk);
    forall u | u in r.tables
      ensures b !in r.tables[u].backends
    {
      ContentsAfterReload(w, c, socketOk, u, b);
    }
  }
}
