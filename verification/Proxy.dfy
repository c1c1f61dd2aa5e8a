/**
 * The running configuration, with the operations of listener.c, table.c and config.c as
 * loops over its sequences. LinkedLists runs the list loops on nodes.
 */
module Proxies {
  import opened Options
  import opened Addresses
  import opened ProxyModel
  import opened ProxyRefs
  import opened ProxyOps
  import opened ListenerMerge
  import opened TableReload
  import opened ProxyRuns

  class Proxy {
    var listeners: map<LId, Listener>
    var tables: map<TId, Table>
    var running: seq<LId>
    var runningTables: seq<TId>
    var incoming: seq<LId>
    var incomingTables: seq<TId>
    var conns: seq<LId>
    var nextId: nat

    function View(): World
      reads this
    {
      World(listeners, tables, running, runningTables, incoming, incomingTables, conns, nextId, false)
    }

    constructor ()
      ensures View() == EMPTY_WORLD
    {
      listeners, tables := map[], map[];
      running, runningTables, incoming, incomingTables, conns := [], [], [], [], [];
      nextId := 0;
    }

    // -------------------------------------------------------------- reference counts

    method TableRefGet(t: TId)
      requires t in tables
      modifies this`tables
      ensures View() == ProxyModel.TableRefGet(old(View()), t)
    {
      tables := tables[t := tables[t].(refs := tables[t].refs + 1)];
    }

    method TableRefPut(table: Option<TId>)
      requires table.Some? ==> table.value in tables && tables[table.value].refs > 0
      modifies this`tables
      ensures View() == ProxyModel.TableRefPut(old(View()), table)
    {
      if table.None? {
        return;
      }
      var t := table.value;
      assert tables[t].refs > 0;
      tables := tables[t := tables[t].(refs := tables[t].refs - 1)];
      if tables[t].refs == 0 {
        tables := tables - {t};
        assert tables == old(tables) - {t};
      }
    }

    method ListenerRefGet(l: LId)
      requires l in listeners
      modifies this`listeners
      ensures View() == ProxyModel.ListenerRefGet(old(View()), l)
    {
      listeners := listeners[l := listeners[l].(refs := listeners[l].refs + 1)];
    }

    /** A listener whose count reaches zero is freed, which drops its table. */
    method ListenerRefPut(l: LId)
      requires l in listeners && listeners[l].refs > 0
      requires listeners[l].table.Some? ==>
                 listeners[l].table.value in tables && tables[listeners[l].table.value].refs > 0
      modifies this`listeners, this`tables
      ensures View() == ProxyModel.ListenerRefPut(old(View()), l)
    {
      assert listeners[l].refs > 0;
      var table := listeners[l].table;
      listeners := listeners[l := listeners[l].(refs := listeners[l].refs - 1)];
      if listeners[l].refs == 0 {
        listeners := listeners - {l};
        assert listeners == old(listeners) - {l};
        TableRefPut(table);
      }
    }

    // -------------------------------------------------------------- tables

    method TableLookup(list: seq<TId>, name: TableName) returns (r: Option<TId>)
      ensures r == ProxyModel.TableLookup(View(), list, name)
    {
      for i := 0 to |list|
        invariant ProxyModel.TableLookup(View(), list, name) == ProxyModel.TableLookup(View(), list[i..], name)
      {
        assert list[i..][1..] == list[i + 1..];
        if list[i] in tables && tables[list[i]].name == name {
          return Some(list[i]);
        }
      }
      r := None;
    }

    /** reload_tables. */
    method ReloadTables()
      requires Counted(View(), multiset{}, multiset{})
      modifies this
      ensures View() == ProxyModel.ReloadTables(old(View()))
      ensures Counted(View(), multiset{}, multiset{}) && incomingTables == []
    {
      ReloadTablesCounted(View());
      DropUnusedHead();
      DropUnusedFollowing();
      InstallNewTables();
    }

    /** Unused tables at the beginning of the list. */
    method DropUnusedHead()
      requires Counted(View(), multiset{}, multiset{})
      modifies this`runningTables, this`tables
      ensures View() == DropLeading(old(View())) && Counted(View(), multiset{}, multiset{})
    {
      while runningTables != []
        invariant Counted(View(), multiset{}, multiset{})
        invariant DropLeading(View()) == DropLeading(old(View()))
        decreases |runningTables|
      {
        ghost var v := View();
        AllTablesListed(v);
        var found := TableLookup(incomingTables, tables[runningTables[0]].name);
        if found.Some? {
          break;
        }
        assert Without(v.runningTables, 0) == v.runningTables[1..];
        UnlistTable(v, 0, multiset{}, multiset{});
        ListedAlive(v, 0);
        DropListed(0);
        assert DropLeading(v) == DropLeading(View());
      }
    }

    /** SLIST remove of one running table, and the reference of the list. */
    method DropListed(i: nat)
      requires i < |runningTables| && runningTables[i] in tables && tables[runningTables[i]].refs > 0
      modifies this`runningTables, this`tables
      ensures View() == ProxyModel.TableRefPut(old(View()).(runningTables := Without(old(runningTables), i)),
                                               Some(old(runningTables)[i]))
      ensures runningTables == Without(old(runningTables), i)
    {
      var t := runningTables[i];
      runningTables := runningTables[..i] + runningTables[i + 1..];
      TableRefPut(Some(t));
    }

    /** Elements following the first used element; the walk skips the node behind a removal. */
    method DropUnusedFollowing()
      requires Counted(View(), multiset{}, multiset{})
      modifies this`runningTables, this`tables
      ensures View() == DropFollowing(old(View()), 0) && Counted(View(), multiset{}, multiset{})
    {
      var i := 0;
      while i < |runningTables|
        invariant Counted(View(), multiset{}, multiset{})
        invariant DropFollowing(View(), i) == DropFollowing(old(View()), 0)
        decreases |runningTables| - i
      {
        ghost var v := View();
        AllTablesListed(v);
        if i + 1 < |runningTables| {
          var found := TableLookup(incomingTables, tables[runningTables[i + 1]].name);
          if found.None? {
            UnlistTable(v, i + 1, multiset{}, multiset{});
            ListedAlive(v, i + 1);
            DropListed(i + 1);
          }
        }
        assert View() == FollowStep(v, i);
        assert DropFollowing(v, i) == DropFollowing(View(), i + 1);
        i := i + 1;
      }
    }

    /** Swap contents with a running table of the same name, or add the table. */
    method InstallNewTables()
      requires Counted(View(), multiset{}, multiset{})
      modifies this`runningTables, this`incomingTables, this`tables
      ensures View() == InstallTables(old(View())) && Counted(View(), multiset{}, multiset{})
    {
      while incomingTables != []
        invariant Counted(View(), multiset{}, multiset{})
        invariant InstallTables(View()) == InstallTables(old(View()))
        decreases |incomingTables|
      {
        InstallTableCounted(View(), multiset{}, multiset{});
        InstallOne();
      }
    }

    method InstallOne()
      requires Counted(View(), multiset{}, multiset{}) && incomingTables != []
      modifies this`runningTables, this`incomingTables, this`tables
      ensures View() == InstallTable(old(View())) && incomingTables == old(incomingTables)[1..]
    {
      FirstIncomingTable(View(), multiset{}, multiset{});
      var t := incomingTables[0];
      assert tables[t].refs > 0;
      incomingTables := incomingTables[1..];
      var existing := TableLookup(runningTables, tables[t].name);
      LookupSound(View(), runningTables, tables[t].name);
      if existing.Some? {
        SwapContents(existing.value, t);
      } else {
        runningTables := [t] + runningTables;
        TableRefGet(t);
      }
      TableRefPut(Some(t));
    }

    /** Swap table contents. */
    method SwapContents(existing: TId, t: TId)
      requires existing in tables && t in tables && existing != t
      modifies this`tables
      ensures View() == SwapBackends(old(View()), existing, t)
    {
      var temp := tables[existing].backends;
      tables := tables[existing := tables[existing].(backends := tables[t].backends)];
      tables := tables[t := tables[t].(backends := temp)];
    }

    // -------------------------------------------------------------- listeners

    /** The search of add_listener for the node to insert behind. */
    method InsertPosition(list: seq<LId>, a: Addr) returns (k: nat)
      requires forall i :: 0 <= i < |list| ==> list[i] in listeners
      ensures k == Position(View(), list, a)
    {
      k := 0;
      assert list[0..] == list;
      while k < |list| && Compare(a, listeners[list[k]].address) >= 0
        invariant k <= |list|
        invariant Position(View(), list, a) == k + Position(View(), list[k..], a)
      {
        assert list[k..][1..] == list[k + 1..];
        k := k + 1;
      }
    }

    /** The table part of init_listener. */
    method InitListener(l: LId, socketOk: bool)
      requires l in listeners
      modifies this`listeners, this`tables
      ensures View() == ProxyModel.InitListener(old(View()), l, socketOk)
    {
      var table := TableLookup(runningTables, listeners[l].tableName);
      if table.None? {
        return;
      }
      LookupSound(View(), runningTables, listeners[l].tableName);
      TableRefGet(table.value);
      listeners := listeners[l := listeners[l].(table := table, open := socketOk)];
    }

    /** listener_update; the existing table is put before the new one is taken. */
    method ListenerUpdate(e: LId, n: LId)
      requires Counted(View(), multiset{}, multiset{}) && e in running && n in incoming
      modifies this`listeners, this`tables
      ensures View() == UpdateListener(old(View()), e, n)
    {
      ghost var v := View();
      ListedDistinct(v, e, n, multiset{}, multiset{});
      var before := listeners[e].table;
      if before.Some? { HeldAndListed(v, e, before.value, multiset{}, multiset{}); }
      var x := listeners[e].(tableName := listeners[n].tableName, settings := listeners[n].settings);
      listeners := listeners[e := x];
      var table := TableLookup(runningTables, x.tableName);
      LookupSound(View(), runningTables, x.tableName);
      if table.Some? {
        ExchangeTable(e, n, table.value);
      }
    }

    /** The existing table is put, the new one taken, and the new listener holds none. */
    method ExchangeTable(e: LId, n: LId, t: TId)
      requires e in listeners && n in listeners && e != n && t in tables && listeners[n].table.None?
      requires var before := listeners[e].table;
               && (before.Some? ==> before.value in tables && tables[before.value].refs > 0)
               && (before == Some(t) ==> tables[t].refs > 1)
      modifies this`listeners, this`tables
      ensures var w := ProxyModel.TableRefGet(ProxyModel.TableRefPut(old(View()), old(listeners)[e].table), t);
              View() == w.(listeners := w.listeners[e := old(listeners)[e].(table := Some(t))]
                                                   [n := old(listeners)[n].(table := None)])
    {
      TableRefPut(listeners[e].table);
      TableRefGet(t);
      listeners := listeners[e := listeners[e].(table := Some(t))];
      TableRefPut(listeners[n].table);
      listeners := listeners[n := listeners[n].(table := None)];
    }

    /** The reference of a listener that is about to be dropped leads to a live table. */
    lemma TableAlive(l: LId)
      requires Counted(View(), multiset{}, multiset{}) && l in listeners
      ensures listeners[l].table.Some? ==>
                listeners[l].table.value in tables && tables[listeners[l].table.value].refs > 0
      ensures listeners[l].refs > 0
    {
      if listeners[l].table.Some? {
        HeldAndListed(View(), l, listeners[l].table.value, multiset{}, multiset{});
      }
    }

    /** remove_listener on the running list. */
    method RemoveListener(i: nat)
      requires Counted(View(), multiset{}, multiset{}) && i < |running|
      modifies this`listeners, this`tables, this`running
      ensures View() == RemoveRunning(old(View()), i)
    {
      AllListed(View());
      var l := running[i];
      TableAlive(l);
      listeners := listeners[l := listeners[l].(open := false)];
      running := running[..i] + running[i + 1..];
      ListenerRefPut(l);
    }

    /** The added case of listeners_reload: out of one list, into the other, initialised. */
    method AddNewListener(j: nat, k: nat, socketOk: bool)
      requires Counted(View(), multiset{}, multiset{}) && j < |incoming| && k <= |running|
      modifies this`listeners, this`tables, this`running, this`incoming
      ensures View() == MergeAdd(old(View()), j, k, socketOk)
    {
      AllListed(View());
      var n := incoming[j];
      TableAlive(n);
      assert n in incoming && listeners[n].table.None?;
      incoming := incoming[..j] + incoming[j + 1..];
      ListenerRefGet(n);
      running := running[..k] + [n] + running[k..];
      ghost var listed := View();
      InitListener(n, socketOk);
      assert listeners[n].refs > 1;
      if listeners[n].table.Some? {
        LookupSound(listed, listed.runningTables, listed.listeners[n].tableName);
      }
      ListenerRefPut(n);
    }

    /** listeners_reload: one walk over both lists. */
    method ListenersReload(socketOk: LId -> bool, ghost addr: LId -> Addr)
      requires Walking(Cursor(View(), 0, 0), addr)
      modifies this
      ensures View() == ProxyModel.ListenersReload(old(View()), socketOk)
    {
      var i: nat, j: nat := 0, 0;
      while i < |running| || j < |incoming|
        invariant Walking(Cursor(View(), i, j), addr)
        invariant Merge(Cursor(View(), i, j), socketOk) == Merge(Cursor(old(View()), 0, 0), socketOk)
        decreases Cursor(View(), i, j).Left()
      {
        WalkStep(Cursor(View(), i, j), socketOk, addr);
        i, j := ReloadStep(i, j, socketOk, addr);
      }
    }

    method ReloadStep(i: nat, j: nat, socketOk: LId -> bool, ghost addr: LId -> Addr) returns (i': nat, j': nat)
      requires Walking(Cursor(View(), i, j), addr) && (i < |running| || j < |incoming|)
      modifies this
      ensures Cursor(View(), i', j') == MergeStep(Cursor(old(View()), i, j), socketOk)
    {
      AllListed(View());
      var order;
      if i == |running| {
        order := 1;
      } else if j == |incoming| {
        order := -1;
      } else {
        order := Compare(listeners[running[i]].address, listeners[incoming[j]].address);
      }
      i', j' := i, j;
      if order > 0 {
        var n := incoming[j];
        var k := InsertPosition(running, listeners[n].address);
        AddNewListener(j, k, socketOk(n));
        i' := if k <= i then i + 1 else i;
      } else if order == 0 {
        ListenerUpdate(running[i], incoming[j]);
        i', j' := i + 1, j + 1;
      } else {
        RemoveListener(i);
      }
    }

    // -------------------------------------------------------------- whole events

    /** init_config: every listener and table stanza of the file in turn. */
    method LoadConfig(c: Config)
      requires Counted(View(), multiset{}, multiset{})
      modifies this
      ensures View() == ProxyRuns.LoadConfig(old(View()), c)
      ensures Counted(View(), multiset{}, multiset{})
    {
      LoadedCounted(View(), c);
      LoadListeners(c.listeners);
      LoadTables(c.tables);
    }

    method LoadListeners(cs: seq<ListenerConfig>)
      requires Counted(View(), multiset{}, multiset{})
      modifies this
      ensures View() == ProxyRuns.LoadListeners(old(View()), cs)
    {
      assert cs[0..] == cs;
      for i := 0 to |cs|
        invariant Counted(View(), multiset{}, multiset{})
        invariant ProxyRuns.LoadListeners(View(), cs[i..]) == ProxyRuns.LoadListeners(old(View()), cs)
      {
        assert cs[i..][0] == cs[i] && cs[i..][1..] == cs[i + 1..];
        LoadListenerCounted(View(), cs[i]);
        AllListed(View());
        AddListener(cs[i]);
      }
    }

    /** end_listener_stanza and add_listener. */
    method AddListener(c: ListenerConfig)
      requires forall k :: 0 <= k < |incoming| ==> incoming[k] in listeners
      modifies this
      ensures View() == LoadListener(old(View()), c)
    {
      var id := nextId;
      var k := InsertPosition(incoming, c.address);
      listeners := listeners[id := Listener(c.address, c.tableName, c.settings, None, 1, false)];
      incoming := incoming[..k] + [id] + incoming[k..];
      nextId := id + 1;
    }

    method LoadTables(cs: seq<TableConfig>)
      modifies this
      ensures View() == ProxyRuns.LoadTables(old(View()), cs)
    {
      assert cs[0..] == cs;
      for i := 0 to |cs|
        invariant ProxyRuns.LoadTables(View(), cs[i..]) == ProxyRuns.LoadTables(old(View()), cs)
      {
        ghost var v := View();
        assert cs[i..][0] == cs[i] && cs[i..][1..] == cs[i + 1..];
        var id := nextId;
        tables := tables[id := Table(cs[i].name, cs[i].backends, 1)];
        incomingTables := [id] + incomingTables;
        nextId := id + 1;
        assert View() == LoadTable(v, cs[i]);
      }
    }

    /** free_listeners on the configuration that was read. */
    method FreeIncoming()
      requires Counted(View(), multiset{}, multiset{})
      modifies this
      ensures View() == ProxyRuns.FreeIncoming(old(View()))
    {
      while incoming != []
        invariant Counted(View(), multiset{}, multiset{})
        invariant ProxyRuns.FreeIncoming(View()) == ProxyRuns.FreeIncoming(old(View()))
        decreases |incoming|
      {
        RemoveIncomingCounted(View(), multiset{}, multiset{});
        RemoveFirstIncoming();
      }
    }

    method RemoveFirstIncoming()
      requires Counted(View(), multiset{}, multiset{}) && incoming != []
      modifies this
      ensures View() == RemoveIncoming(old(View())) && incoming == old(incoming)[1..]
    {
      AllListed(View());
      var l := incoming[0];
      TableAlive(l);
      listeners := listeners[l := listeners[l].(open := false)];
      incoming := incoming[1..];
      ListenerRefPut(l);
    }

    /** reload_config: tables first, then listeners, then the rest of what was read is freed. */
    method ReloadConfig(c: Config, socketOk: LId -> bool)
      requires Good(View())
      modifies this
      ensures View() == ProxyRuns.ReloadConfig(old(View()), Some(c), socketOk) && Good(View())
    {
      ReloadInstalls(View(), c, socketOk);
      LoadedSorted(View(), c);
      LoadConfig(c);
      InstallConfig(socketOk);
    }

    method InstallConfig(socketOk: LId -> bool)
      requires Counted(View(), multiset{}, multiset{}) && ListsSorted(View())
      modifies this
      ensures View() == Install(old(View()), socketOk)
    {
      ghost var l := View();
      ReadyToMerge(l);
      MergedLists(l, socketOk);
      ReloadTables();
      ListenersReload(socketOk, AddressIn(l));
      FreeIncoming();
    }

    /** accept_connection: the new connection holds a reference to its listener. */
    method AcceptConnection(l: LId)
      requires Good(View()) && Enabled(View(), Accept(l))
      modifies this
      ensures View() == AcceptOn(old(View()), l) && Good(View())
    {
      AcceptGood(View(), l);
      ListenerRefGet(l);
      conns := conns + [l];
    }

    /** free_connection drops that reference. */
    method CloseConnection(i: nat)
      requires Good(View()) && i < |conns|
      modifies this
      ensures View() == CloseConn(old(View()), i) && Good(View())
    {
      CloseGood(View(), i);
      assert conns[i] in Owners(View(), multiset{});
      TableAlive(conns[i]);
      DropConnection(i);
    }

    method DropConnection(i: nat)
      requires i < |conns| && conns[i] in listeners && listeners[conns[i]].refs > 0
      requires var table := listeners[conns[i]].table;
               table.Some? ==> table.value in tables && tables[table.value].refs > 0
      modifies this`listeners, this`tables, this`conns
      ensures View() == CloseConn(old(View()), i)
    {
      var l := conns[i];
      conns := conns[..i] + conns[i + 1..];
      ListenerRefPut(l);
    }
  }
}
