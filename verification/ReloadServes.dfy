/** What every table name resolves to after a reload, and that the merge does not change it. */
module ReloadServes {
  import opened Options
  import opened Addresses
  import opened ProxyModel
  import opened ProxyRefs
  import opened ProxyOps
  import opened ListenerMerge
  import opened TableReload
  import opened ProxyRuns

  // ---------------------------------------------------------------- tables keep their content

  /** The name and backends of a table; None where there is none. */
  type Content = TId -> Option<(TableName, seq<nat>)>

  /** Every table in the store has this content; tables may be missing, but none is new. */
  predicate ContentAgrees(w: World, content: Content) {
    forall t :: t in w.tables ==> content(t) == Some((w.tables[t].name, w.tables[t].backends))
  }

  lemma CountsKeepContent(w: World, l: LId, table: Option<TId>, t: TId, content: Content)
    requires ContentAgrees(w, content)
    ensures ContentAgrees(TableRefPut(w, table), content) && ContentAgrees(TableRefGet(w, t), content)
    ensures ContentAgrees(ListenerRefGet(w, l), content)
  {
  }

  lemma PutKeepsContent(w: World, l: LId, content: Content)
    requires ContentAgrees(w, content)
    ensures ContentAgrees(ListenerRefPut(w, l), content)
  {
    if l in w.listeners && w.listeners[l].refs == 1 {
      CountsKeepContent(w.(listeners := w.listeners - {l}), l, w.listeners[l].table, 0, content);
    }
  }

  lemma InitKeepsContent(w: World, l: LId, socketOk: bool, content: Content)
    requires ContentAgrees(w, content)
    ensures ContentAgrees(InitListener(w, l, socketOk), content)
  {
  }

  lemma AddKeepsContent(w: World, j: nat, k: nat, socketOk: bool, content: Content)
    requires ContentAgrees(w, content) && j < |w.incoming| && k <= |w.running|
    ensures ContentAgrees(MergeAdd(w, j, k, socketOk), content)
  {
    var n := w.incoming[j];
    var w1 := w.(incoming := Without(w.incoming, j));
    var w2 := ListenerRefGet(w1, n).(running := InsertAt(w.running, k, n));
    InitKeepsContent(w2, n, socketOk, content);
    PutKeepsContent(InitListener(w2, n, socketOk), n, content);
  }

  lemma RemoveKeepsContent(w: World, i: nat, content: Content)
    requires ContentAgrees(w, content) && i < |w.running|
    ensures ContentAgrees(RemoveRunning(w, i), content)
  {
    var l := w.running[i];
    PutKeepsContent(CloseListener(w, l).(running := Without(w.running, i)), l, content);
  }

  lemma UpdateKeepsContent(w: World, e: LId, n: LId, content: Content)
    requires ContentAgrees(w, content)
    ensures ContentAgrees(UpdateListener(w, e, n), content)
  {
    if e in w.listeners && n in w.listeners {
      var x := w.listeners[e].(tableName := w.listeners[n].tableName, settings := w.listeners[n].settings);
      var w1 := w.(listeners := w.listeners[e := x]);
      var table := TableLookup(w1, w1.runningTables, x.tableName);
      if table.Some? {
        CountsKeepContent(w1, 0, x.table, 0, content);
        CountsKeepContent(TableRefPut(w1, x.table), 0, None, table.value, content);
        var w2 := TableRefGet(TableRefPut(w1, x.table), table.value);
        var w3 := w2.(listeners := w2.listeners[e := x.(table := table)]);
        CountsKeepContent(w3, 0, w.listeners[n].table, 0, content);
      }
    }
  }

  lemma StepKeepsContent(c: Cursor, socketOk: LId -> bool, content: Content)
    requires c.Ok() && !c.Done() && ContentAgrees(c.w, content)
    ensures ContentAgrees(MergeStep(c, socketOk).w, content)
  {
    var w, i, j := c.w, c.i, c.j;
    var order := MergeCompare(w, i, j);
    if order > 0 {
      var n := w.incoming[j];
      AddKeepsContent(w, j, Position(w, w.running, AddressOf(w, n)), socketOk(n), content);
    } else if order == 0 {
      UpdateKeepsContent(w, w.running[i], w.incoming[j], content);
    } else {
      RemoveKeepsContent(w, i, content);
    }
  }

  // ---------------------------------------------------------------- names keep resolving

  /** What every table name resolves to in the running list. */
  ghost predicate Looks(w: World, look: TableName -> Option<TId>) {
    forall n :: TableLookup(w, w.runningTables, n) == look(n)
  }

  lemma LooksKept(w: World, w': World, look: TableName -> Option<TId>, content: Content)
    requires TablesListed(w) && TablesListed(w') && w'.runningTables == w.runningTables
    requires ContentAgrees(w, content) && ContentAgrees(w', content) && Looks(w, look)
    ensures Looks(w', look)
  {
    forall n
      ensures TableLookup(w', w'.runningTables, n) == look(n)
    {
      LookupByNames(w, w', w.runningTables, n);
    }
  }

  lemma LooksStep(c: Cursor, socketOk: LId -> bool, look: TableName -> Option<TId>,
                  content: Content, addr: LId -> Addr)
    requires Walking(c, addr) && !c.Done() && Looks(c.w, look) && ContentAgrees(c.w, content)
    ensures Looks(MergeStep(c, socketOk).w, look) && ContentAgrees(MergeStep(c, socketOk).w, content)
  {
    var r := MergeStep(c, socketOk);
    WalkStep(c, socketOk, addr);
    StepKeepsTables(c, socketOk);
    StepKeepsContent(c, socketOk, content);
    AllTablesListed(c.w);
    AllTablesListed(r.w);
    LooksKept(c.w, r.w, look, content);
  }

  /** Through the merge every name keeps resolving to the same table, with the same content. */
  lemma {:induction false} MergeKeepsContent(c: Cursor, socketOk: LId -> bool, look: TableName -> Option<TId>,
                                            content: Content, addr: LId -> Addr)
    requires Walking(c, addr) && Looks(c.w, look) && ContentAgrees(c.w, content)
    ensures var r := Merge(c, socketOk); Looks(r, look) && ContentAgrees(r, content)
    decreases c.Left()
  {
    if !c.Done() {
      WalkStep(c, socketOk, addr);
      LooksStep(c, socketOk, look, content, addr);
      MergeKeepsContent(MergeStep(c, socketOk), socketOk, look, content, addr);
    }
  }

  // ---------------------------------------------------------------- freeing the rest

  lemma RemoveIncomingKeeps(w: World, look: TableName -> Option<TId>, content: Content)
    requires Counted(w, multiset{}, multiset{}) && w.incoming != []
    requires Looks(w, look) && ContentAgrees(w, content)
    ensures Looks(RemoveIncoming(w), look) && ContentAgrees(RemoveIncoming(w), content)
  {
    var l, r := w.incoming[0], RemoveIncoming(w);
    PutKeepsContent(CloseListener(w, l).(incoming := w.incoming[1..]), l, content);
    RemoveIncomingLists(w);
    RemoveIncomingCounted(w, multiset{}, multiset{});
    AllTablesListed(w);
    AllTablesListed(r);
    LooksKept(w, r, look, content);
  }

  lemma {:induction false} FreeIncomingKeepsTables(w: World, look: TableName -> Option<TId>, content: Content)
    requires Counted(w, multiset{}, multiset{}) && Looks(w, look) && ContentAgrees(w, content)
    ensures Looks(FreeIncoming(w), look) && ContentAgrees(FreeIncoming(w), content)
    decreases |w.incoming|
  {
    if w.incoming != [] {
      RemoveIncomingCounted(w, multiset{}, multiset{});
      RemoveIncomingLists(w);
      RemoveIncomingKeeps(w, look, content);
      FreeIncomingKeepsTables(RemoveIncoming(w), look, content);
    }
  }

  // ---------------------------------------------------------------- other listeners

  lemma AddOthers(w: World, j: nat, k: nat, socketOk: bool, m: LId)
    requires j < |w.incoming| && k <= |w.running| && m in w.listeners && m != w.incoming[j]
    ensures var r := MergeAdd(w, j, k, socketOk); m in r.listeners && r.listeners[m] == w.listeners[m]
  {
    var n := w.incoming[j];
    var w1 := w.(incoming := Without(w.incoming, j));
    var w2 := ListenerRefGet(w1, n).(running := InsertAt(w.running, k, n));
    InitKeepsOthers(w2, n, socketOk, m);
    PutKeepsOthers(InitListener(w2, n, socketOk), n, m);
  }

  lemma PutKeepsOthers(w: World, l: LId, m: LId)
    requires m in w.listeners && m != l
    ensures var r := ListenerRefPut(w, l); m in r.listeners && r.listeners[m] == w.listeners[m]
  {
    if l in w.listeners && w.listeners[l].refs == 1 {
      assert FreeListener(w, l).listeners == w.listeners - {l};
    }
  }

  // ---------------------------------------------------------------- the new file's tables

  /** The backends a configuration file gives a name: those of its first table of that name. */
  function FirstNamed(cs: seq<TableConfig>, n: TableName): Option<seq<nat>> {
    if cs == [] then None else if cs[0].name == n then Some(cs[0].backends) else FirstNamed(cs[1..], n)
  }

  lemma {:induction false} LoadedBackends(w: World, cs: seq<TableConfig>, n: TableName)
    requires Counted(w, multiset{}, multiset{})
    ensures var r := LoadTables(w, cs);
            NewBackends(r, r.incomingTables, n) ==
            if NewBackends(w, w.incomingTables, n).Some? then NewBackends(w, w.incomingTables, n)
            else FirstNamed(cs, n)
    decreases |cs|
  {
    if cs != [] {
      var d := LoadTable(w, cs[0]);
      LoadTableCounted(w, cs[0]);
      LoadedBackends(d, cs[1..], n);
      LoadTableBackends(w, cs[0], n);
    }
  }

  lemma LoadTableBackends(w: World, c: TableConfig, n: TableName)
    requires Counted(w, multiset{}, multiset{})
    ensures var d := LoadTable(w, c);
            NewBackends(d, d.incomingTables, n) ==
            if NewBackends(w, w.incomingTables, n).Some? then NewBackends(w, w.incomingTables, n)
            else if c.name == n then Some(c.backends) else None
  {
    var d := LoadTable(w, c);
    AllTablesListed(w);
    forall u | u in w.incomingTables
      ensures SameTable(w, d, u)
    {
      assert u in w.tables && u < w.nextId;
    }
    NewBackendsSame(w, d, w.incomingTables, n);
    assert d.incomingTables[1..] == w.incomingTables;
  }

  // ---------------------------------------------------------------- the whole reload

  function LookIn(w: World): TableName -> Option<TId> { (n: TableName) => TableLookup(w, w.runningTables, n) }

  function ContentIn(w: World): Content {
    (t: TId) => if t in w.tables then Some((w.tables[t].name, w.tables[t].backends)) else None
  }

  /** After reload_tables the rest of a reload changes no lookup and no content. */
  lemma InstallKeepsTables(l: World, socketOk: LId -> bool)
    requires Counted(l, multiset{}, multiset{}) && ListsSorted(l)
    ensures var t, r := ReloadTables(l), Install(l, socketOk); Looks(r, LookIn(t)) && ContentAgrees(r, ContentIn(t))
  {
    var t := ReloadTables(l);
    ReadyToMerge(l);
    MergeKeepsContent(Cursor(t, 0, 0), socketOk, LookIn(t), ContentIn(t), AddressIn(l));
    MergeResult(Cursor(t, 0, 0), socketOk, AddressIn(l));
    FreeIncomingKeepsTables(ListenersReload(t, socketOk), LookIn(t), ContentIn(t));
  }

  lemma ReloadedTable(l: World, n: TableName, backends: seq<nat>)
    requires Counted(l, multiset{}, multiset{}) && NewBackends(l, l.incomingTables, n) == Some(backends)
    ensures var t := ReloadTables(l);
            && LookIn(t)(n).Some? && LookIn(t)(n).value in t.tables
            && t.tables[LookIn(t)(n).value].backends == backends
  {
    AllTablesListed(l);
    NewBackendsWanted(l, l.incomingTables, n);
    ReloadTablesResult(l, n);
  }

  /** The table a new name looks up to after a reload has exactly the new backends. */
  lemma InstalledTable(l: World, socketOk: LId -> bool, n: TableName, backends: seq<nat>)
    requires Counted(l, multiset{}, multiset{}) && ListsSorted(l)
    requires NewBackends(l, l.incomingTables, n) == Some(backends)
    ensures var r := Install(l, socketOk);
            var t := TableLookup(r, r.runningTables, n);
            t.Some? && t.value in r.tables && r.tables[t.value].backends == backends
  {
    var r := Install(l, socketOk);
    ReloadedTable(l, n, backends);
    InstallKeepsTables(l, socketOk);
    LookupSound(r, r.runningTables, n);
  }

  /** After reloading a file, a name it defines looks up to exactly the backends of its first definition. */
  lemma NameServesFile(w: World, c: Config, socketOk: LId -> bool, n: TableName, backends: seq<nat>)
    requires Good(w) && FirstNamed(c.tables, n) == Some(backends)
    ensures var r := ReloadConfig(w, Some(c), socketOk);
            var t := TableLookup(r, r.runningTables, n);
            t.Some? && t.value in r.tables && r.tables[t.value].backends == backends
  {
    LoadedCounted(w, c);
    LoadedSorted(w, c);
    LoadListenersCounted(w, c.listeners);
    LoadListenersStore(w, c.listeners);
    LoadedBackends(LoadListeners(w, c.listeners), c.tables, n);
    InstalledTable(LoadConfig(w, c), socketOk, n, backends);
  }
}
