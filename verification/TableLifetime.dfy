/** Which tables a reload frees, told before the reload. */
module TableLifetime {
  import opened Options
  import opened ProxyModel
  import opened ProxyRefs
  import opened ProxyOps
  import opened ListenerMerge
  import opened TableReload
  import opened ProxyRuns
  import opened ReloadServes
  import opened BackendLifetime
  import L = ListenerLifetime

  // ---------------------------------------------------------------- the condition

  /** Whether the new configuration has a table of this one's name. */
  function NamedAgain(w: World, c: Config): TId -> bool { (t: TId) => Names(c, NameOf(w, t)) }

  /** The running tables that the two removal loops leave. */
  function Remaining(w: World, c: Config): seq<TId> {
    Sweep(NamedAgain(w, c), Lead(NamedAgain(w, c), w.runningTables))
  }

  /** Whether a name finds a table after the reload: a new one, or one that remains. */
  predicate Defined(w: World, c: Config, n: TableName) {
    Names(c, n) || exists t :: t in Remaining(w, c) && NameOf(w, t) == n
  }

  /** The running listeners after the reload. */
  function MergedIds(w: World, c: Config): seq<LId> {
    var l := LoadConfig(w, c);
    MergeIds(AddressIn(l), l.running, l.incoming)
  }

  /** Listener m will be at place q, under a table name that finds nothing. */
  predicate Orphaned(w: World, c: Config, m: LId, q: nat) {
    && q < |MergedIds(w, c)| && q < |L.Arranged(c.listeners)| && MergedIds(w, c)[q] == m
    && !Defined(w, c, L.Arranged(c.listeners)[q].tableName)
  }

  /** Listener m will hold the table it holds: unlisted but in use, or listed without a new table. */
  ghost predicate HoldsOn(w: World, c: Config, m: LId) {
    || (m in w.conns && m !in MergedIds(w, c))
    || exists q :: Orphaned(w, c, m, q)
  }

  /** A table survives a reload if it stays listed or some listener holds on to it. */
  ghost predicate Survives(w: World, c: Config, t: TId) {
    || t in Remaining(w, c)
    || exists m :: m in w.listeners && w.listeners[m].table == Some(t) && HoldsOn(w, c, m)
  }

  // ---------------------------------------------------------------- the list of tables

  lemma {:induction false} SweepSame(a: TId -> bool, b: TId -> bool, s: seq<TId>)
    requires forall t :: t in s ==> a(t) == b(t)
    ensures Sweep(a, s) == Sweep(b, s) && Lead(a, s) == Lead(b, s)
  {
    if s != [] { SweepSame(a, b, s[1..]); }
    if |s| >= 2 { SweepSame(a, b, s[2..]); }
  }

  lemma {:induction false} LeadMembers(used: TId -> bool, s: seq<TId>, t: TId)
    requires t in Lead(used, s)
    ensures t in s
  {
    if s != [] && !used(s[0]) { LeadMembers(used, s[1..], t); }
  }

  lemma {:induction false} InstalledMember(name: TId -> TableName, running: seq<TId>, incoming: seq<TId>, t: TId)
    requires t !in incoming
    ensures t in InstalledIds(name, running, incoming) <==> t in running
    decreases |incoming|
  {
    if incoming != [] {
      var found := Find(name, running, name(incoming[0])).Some?;
      InstalledMember(name, if found then running else [incoming[0]] + running, incoming[1..], t);
    }
  }

  lemma RemainingLoaded(w: World, c: Config)
    requires Good(w)
    ensures var l := LoadConfig(w, c);
            Sweep(UsedIn(l), Lead(UsedIn(l), l.runningTables)) == Remaining(w, c)
  {
    var l, a, b := LoadConfig(w, c), UsedIn(LoadConfig(w, c)), NamedAgain(w, c);
    LoadTablesRunning(LoadListeners(w, c.listeners), c.tables);
    LoadListenersStore(w, c.listeners);
    AllTablesListed(w);
    forall t | t in w.runningTables
      ensures a(t) == b(t)
    {
      LoadedStays(w, c, t);
      WantedIsNamed(w, c, NameOf(w, t));
    }
    SweepSame(a, b, w.runningTables);
    forall t | t in Lead(b, w.runningTables)
      ensures a(t) == b(t)
    {
      LeadMembers(b, w.runningTables, t);
    }
    SweepSame(a, b, Lead(b, w.runningTables));
  }

  /** The running tables after a reload. */
  lemma RunningTables(w: World, c: Config, socketOk: LId -> bool)
    requires Good(w)
    ensures var l, r := LoadConfig(w, c), ReloadConfig(w, Some(c), socketOk);
            r.runningTables == InstalledIds(NamesIn(l), Remaining(w, c), l.incomingTables)
  {
    var l := LoadConfig(w, c);
    LoadedCounted(w, c);
    LoadedSorted(w, c);
    RemainingLoaded(w, c);
    ReloadedList(l);
    InstallRunningTables(l, socketOk);
  }

  lemma InstallRunningTables(l: World, socketOk: LId -> bool)
    requires Counted(l, multiset{}, multiset{}) && ListsSorted(l)
    ensures Install(l, socketOk).runningTables == ReloadTables(l).runningTables
  {
    MergedLists(l, socketOk);
    MergeKeepsTables(Cursor(ReloadTables(l), 0, 0), socketOk);
    FreeIncomingCounted(ListenersReload(ReloadTables(l), socketOk));
  }

  lemma StaysListed(w: World, c: Config, socketOk: LId -> bool, t: TId)
    requires Good(w) && t in w.tables
    ensures t in ReloadConfig(w, Some(c), socketOk).runningTables <==> t in Remaining(w, c)
  {
    RunningTables(w, c, socketOk);
    LoadedStays(w, c, t);
    InstalledMember(NamesIn(LoadConfig(w, c)), Remaining(w, c), LoadConfig(w, c).incomingTables, t);
  }

  // ---------------------------------------------------------------- names

  lemma {:induction false} InstallTablesNames(w: World, name: TId -> TableName)
    requires NamesAgree(w, name)
    ensures NamesAgree(InstallTables(w), name)
    decreases |w.incomingTables|
  {
    if w.incomingTables != [] {
      InstallKeepsNames(w, name);
      InstallIncoming(w);
      InstallTablesNames(InstallTable(w), name);
    }
  }

  /** Tables keep their names through a reload. */
  lemma ReloadNames(w: World, c: Config, socketOk: LId -> bool)
    requires Good(w)
    ensures NamesAgree(ReloadConfig(w, Some(c), socketOk), NamesIn(LoadConfig(w, c)))
  {
    LoadedCounted(w, c);
    LoadedSorted(w, c);
    ReloadTablesNames(LoadConfig(w, c));
    InstallKeepsTables(LoadConfig(w, c), socketOk);
    NamesByContent(ReloadConfig(w, Some(c), socketOk), ReloadTables(LoadConfig(w, c)), NamesIn(LoadConfig(w, c)));
  }

  lemma ReloadTablesNames(l: World)
    requires Counted(l, multiset{}, multiset{})
    ensures NamesAgree(ReloadTables(l), NamesIn(l))
  {
    Dropped(l);
    InstallTablesNames(AfterDrops(l), NamesIn(l));
  }

  lemma NamesByContent(r: World, t: World, name: TId -> TableName)
    requires ContentAgrees(r, ContentIn(t)) && NamesAgree(t, name)
    ensures NamesAgree(r, name)
  {
  }

  lemma {:induction false} InstalledFrom(name: TId -> TableName, running: seq<TId>, incoming: seq<TId>, t: TId)
    requires t in InstalledIds(name, running, incoming)
    ensures t in running || t in incoming
    decreases |incoming|
  {
    if incoming != [] {
      var found := Find(name, running, name(incoming[0])).Some?;
      InstalledFrom(name, if found then running else [incoming[0]] + running, incoming[1..], t);
    }
  }

  lemma RemainingListed(w: World, c: Config, t: TId)
    requires Good(w) && t in Remaining(w, c)
    ensures t in w.runningTables && t in w.tables
  {
    SweepMembers(NamedAgain(w, c), Lead(NamedAgain(w, c), w.runningTables), t);
    LeadMembers(NamedAgain(w, c), w.runningTables, t);
    AllTablesListed(w);
  }

  lemma {:induction false} SweepMembers(used: TId -> bool, s: seq<TId>, t: TId)
    requires t in Sweep(used, s)
    ensures t in s
  {
    if |s| >= 2 && t != s[0] {
      if used(s[1]) { SweepMembers(used, s[1..], t); } else { SweepMembers(used, s[2..], t); }
    }
  }

  lemma DefinedExactly(w: World, c: Config, socketOk: LId -> bool, n: TableName)
    requires Good(w)
    ensures var r := ReloadConfig(w, Some(c), socketOk);
            TableLookup(r, r.runningTables, n).Some? <==> Defined(w, c, n)
  {
    var r := ReloadConfig(w, Some(c), socketOk);
    LookupSound(r, r.runningTables, n);
    if TableLookup(r, r.runningTables, n).Some? {
      FoundIsDefined(w, c, socketOk, n);
    }
    if Names(c, n) {
      NamedIsFound(w, c, socketOk, n);
    } else if Defined(w, c, n) {
      RemainingIsFound(w, c, socketOk, n);
    }
  }

  lemma FoundIsDefined(w: World, c: Config, socketOk: LId -> bool, n: TableName)
    requires Good(w)
    requires TableLookup(ReloadConfig(w, Some(c), socketOk), ReloadConfig(w, Some(c), socketOk).runningTables, n).Some?
    ensures Defined(w, c, n)
  {
    var l, r := LoadConfig(w, c), ReloadConfig(w, Some(c), socketOk);
    LookupSound(r, r.runningTables, n);
    var t := TableLookup(r, r.runningTables, n).value;
    ReloadNames(w, c, socketOk);
    RunningTables(w, c, socketOk);
    InstalledFrom(NamesIn(l), Remaining(w, c), l.incomingTables, t);
    if t in Remaining(w, c) {
      RemainingListed(w, c, t);
      LoadedStays(w, c, t);
    } else {
      var k := LoadedRecord(w, c, t);
      assert c.tables[k].name == n;
    }
  }

  lemma {:induction false} FirstNamedIs(cs: seq<TableConfig>, k: nat)
    requires k < |cs|
    ensures FirstNamed(cs, cs[k].name).Some?
  {
    if cs[0].name != cs[k].name { FirstNamedIs(cs[1..], k - 1); }
  }

  lemma NamedIsFound(w: World, c: Config, socketOk: LId -> bool, n: TableName)
    requires Good(w) && Names(c, n)
    ensures var r := ReloadConfig(w, Some(c), socketOk); TableLookup(r, r.runningTables, n).Some?
  {
    var k :| 0 <= k < |c.tables| && c.tables[k].name == n;
    FirstNamedIs(c.tables, k);
    NameServesFile(w, c, socketOk, n, FirstNamed(c.tables, n).value);
  }

  lemma RemainingIsFound(w: World, c: Config, socketOk: LId -> bool, n: TableName)
    requires Good(w) && exists t :: t in Remaining(w, c) && NameOf(w, t) == n
    ensures var r := ReloadConfig(w, Some(c), socketOk); TableLookup(r, r.runningTables, n).Some?
  {
    var t :| t in Remaining(w, c) && NameOf(w, t) == n;
    RemainingListed(w, c, t);
    StaysListed(w, c, socketOk, t);
    ReloadInstalls(w, c, socketOk);
    NameAfter(w, c, socketOk, t);
    ListedIsFound(ReloadConfig(w, Some(c), socketOk), t);
  }

  lemma NameAfter(w: World, c: Config, socketOk: LId -> bool, t: TId)
    requires Good(w) && t in w.tables
    ensures var r := ReloadConfig(w, Some(c), socketOk); t in r.tables ==> r.tables[t].name == w.tables[t].name
  {
    LoadedStays(w, c, t);
    ReloadNames(w, c, socketOk);
  }

  lemma ListedIsFound(w: World, t: TId)
    requires Good(w) && t in w.runningTables
    ensures t in w.tables && TableLookup(w, w.runningTables, w.tables[t].name).Some?
  {
    AllTablesListed(w);
    LookupSound(w, w.runningTables, w.tables[t].name);
  }

  // ---------------------------------------------------------------- holders

  lemma RunningIsMerged(w: World, c: Config, socketOk: LId -> bool)
    requires Good(w)
    ensures ReloadConfig(w, Some(c), socketOk).running == MergedIds(w, c)
  {
    LoadedCounted(w, c);
    LoadedSorted(w, c);
    InstallLists(LoadConfig(w, c), socketOk);
  }

  /** A table exists exactly while it is listed or held. */
  lemma ListedOrHeld(w: World, t: TId)
    requires Good(w)
    ensures t in w.tables <==>
            t in w.runningTables || exists m :: m in w.listeners && w.listeners[m].table == Some(t)
  {
    MemberCount(w.runningTables, t);
    assert t in w.tables <==> TableOwners(w, t, multiset{}) > 0;
    if |Holders(w.listeners, t)| > 0 {
      var m :| m in Holders(w.listeners, t);
    }
    if m: LId :| m in w.listeners && w.listeners[m].table == Some(t) {
      assert m in Holders(w.listeners, t);
    }
  }

  /** Whoever holds an old table after the reload held it before, and held on; or the table is listed. */
  lemma HolderBefore(w: World, c: Config, socketOk: LId -> bool, m: LId, t: TId)
    requires Good(w) && t in w.tables && m in ReloadConfig(w, Some(c), socketOk).listeners
    requires ReloadConfig(w, Some(c), socketOk).listeners[m].table == Some(t)
    ensures t in Remaining(w, c) || (m in w.listeners && w.listeners[m].table == Some(t) && HoldsOn(w, c, m))
  {
    var r := ReloadConfig(w, Some(c), socketOk);
    RunningIsMerged(w, c, socketOk);
    if m in r.running {
      var q :| 0 <= q < |r.running| && r.running[q] == m;
      L.ListedAfterReload(w, c, socketOk, q);
      var n := L.Arranged(c.listeners)[q].tableName;
      LookupSound(r, r.runningTables, n);
      if TableLookup(r, r.runningTables, n).Some? {
        StaysListed(w, c, socketOk, t);
      } else {
        DefinedExactly(w, c, socketOk, n);
        assert Orphaned(w, c, m, q);
      }
    } else {
      L.UnlistedAfterReload(w, c, socketOk, m);
    }
  }

  lemma UnlistedHolds(w: World, c: Config, socketOk: LId -> bool, m: LId)
    requires Good(w) && m in w.conns && m !in MergedIds(w, c)
    ensures var r := ReloadConfig(w, Some(c), socketOk);
            m in w.listeners && m in r.listeners && r.listeners[m].table == w.listeners[m].table
  {
    RunningIsMerged(w, c, socketOk);
    ReloadInstalls(w, c, socketOk);
    L.ConnectionListener(ReloadConfig(w, Some(c), socketOk), m);
    L.UnlistedAfterReload(w, c, socketOk, m);
  }

  lemma OrphanHolds(w: World, c: Config, socketOk: LId -> bool, m: LId, q: nat)
    requires Good(w) && m in w.listeners && Orphaned(w, c, m, q)
    ensures var r := ReloadConfig(w, Some(c), socketOk);
            m in r.listeners && r.listeners[m].table == w.listeners[m].table
  {
    RunningIsMerged(w, c, socketOk);
    L.ListedAfterReload(w, c, socketOk, q);
    DefinedExactly(w, c, socketOk, L.Arranged(c.listeners)[q].tableName);
  }

  /** A listener that holds on holds its table after the reload. */
  lemma HolderAfter(w: World, c: Config, socketOk: LId -> bool, m: LId)
    requires Good(w) && m in w.listeners && HoldsOn(w, c, m)
    ensures var r := ReloadConfig(w, Some(c), socketOk);
            m in r.listeners && r.listeners[m].table == w.listeners[m].table
  {
    if m in w.conns && m !in MergedIds(w, c) {
      UnlistedHolds(w, c, socketOk, m);
    } else {
      var q :| Orphaned(w, c, m, q);
      OrphanHolds(w, c, socketOk, m, q);
    }
  }

  /**
   * A table survives a reload exactly if it remains listed, or a listener that holds it will
   * be unlisted but in use by a connection, or listed under a name that finds no table.
   */
  lemma TableSurvives(w: World, c: Config, socketOk: LId -> bool, t: TId)
    requires Good(w) && t in w.tables
    ensures t in ReloadConfig(w, Some(c), socketOk).tables <==> Survives(w, c, t)
  {
    var r := ReloadConfig(w, Some(c), socketOk);
    ReloadInstalls(w, c, socketOk);
    ListedOrHeld(r, t);
    StaysListed(w, c, socketOk, t);
    if m: LId :| m in r.listeners && r.listeners[m].table == Some(t) {
      HolderBefore(w, c, socketOk, m, t);
    }
    if m: LId :| m in w.listeners && w.listeners[m].table == Some(t) && HoldsOn(w, c, m) {
      HolderAfter(w, c, socketOk, m);
    }
  }

  /**
   * A backend survives a reload exactly when its table does and is not the running table of
   * a name in the new configuration; in every other case no table has it any more.
   */
  lemma BackendSurvives(w: World, c: Config, socketOk: LId -> bool, t: TId, b: nat)
    requires Good(w) && Owns(w, t, b) && !Brings(c, b)
    ensures var r := ReloadConfig(w, Some(c), socketOk);
            if Survives(w, c, t) && !Replaced(w, c, t) then Owns(r, t, b) else Freed(r, b)
  {
    TableSurvives(w, c, socketOk, t);
    ReloadFreesBackend(w, c, socketOk, t, b);
  }

  // ---------------------------------------------------------------- the other events

  /** The last connection of a listener that is its table's last holder. */
  predicate LastHold(w: World, i: nat, t: TId)
    requires i < |w.conns|
  {
    && w.conns[i] in w.listeners && t in w.tables
    && w.listeners[w.conns[i]].refs == 1 && w.listeners[w.conns[i]].table == Some(t) && w.tables[t].refs == 1
  }

  lemma CloseFreesTable(w: World, i: nat, t: TId)
    requires Good(w) && i < |w.conns| && t in w.tables
    ensures t in CloseConn(w, i).tables <==> !LastHold(w, i, t)
  {
    L.ConnectionListener(w, w.conns[i]);
    var l := w.conns[i];
    var w1 := w.(conns := Without(w.conns, i));
    if w.listeners[l].refs == 1 && w.listeners[l].table.Some? {
      HeldAndListed(w, l, w.listeners[l].table.value, multiset{}, multiset{});
    }
    assert CloseConn(w, i) == ListenerRefPut(w1, l);
  }

  lemma AcceptsFreeNothing(w: World, l: LId, t: TId)
    requires Good(w) && l in w.listeners && t in w.tables
    ensures t in AcceptOn(w, l).tables && t in ListenerRefPut(ListenerRefGet(w, l), l).tables
  {
    assert w.listeners[l].refs > 0;
  }
}
