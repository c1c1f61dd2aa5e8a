/** Whole runs of the proxy: start, accept, close, reload and shutdown in any order. */
module ProxyRuns {
  import opened Options
  import opened Addresses
  import opened ProxyModel
  import opened ProxyRefs
  import opened ProxyOps
  import opened ListenerMerge
  import opened TableReload

  datatype ListenerConfig = ListenerConfig(address: Addr, tableName: TableName, settings: nat)
  datatype TableConfig = TableConfig(name: TableName, backends: seq<nat>)
  datatype Config = Config(listeners: seq<ListenerConfig>, tables: seq<TableConfig>)

  /** A file with one listener and the default table with one backend. */
  function OneListener(a: Addr, settings: nat, backend: nat): Config {
    Config([ListenerConfig(a, None, settings)], [TableConfig(None, [backend])])
  }

  // ---------------------------------------------------------------- reading a configuration

  /** end_listener_stanza: a new listener goes into the new configuration's sorted list. */
  function LoadListener(w: World, c: ListenerConfig): World {
    var id := w.nextId;
    var k := Position(w, w.incoming, c.address);
    w.(listeners := w.listeners[id := Listener(c.address, c.tableName, c.settings, None, 1, false)],
       incoming := InsertAt(w.incoming, k, id), nextId := id + 1)
  }

  /** end_table_stanza: a new table goes to the head of the new configuration's list. */
  function LoadTable(w: World, c: TableConfig): World {
    var id := w.nextId;
    w.(tables := w.tables[id := Table(c.name, c.backends, 1)],
       incomingTables := [id] + w.incomingTables, nextId := id + 1)
  }

  function LoadListeners(w: World, cs: seq<ListenerConfig>): World
    decreases |cs|
  {
    if cs == [] then w else LoadListeners(LoadListener(w, cs[0]), cs[1..])
  }

  function LoadTables(w: World, cs: seq<TableConfig>): World
    decreases |cs|
  {
    if cs == [] then w else LoadTables(LoadTable(w, cs[0]), cs[1..])
  }

  function LoadConfig(w: World, c: Config): World {
    LoadTables(LoadListeners(w, c.listeners), c.tables)
  }

  // ---------------------------------------------------------------- events

  /** free_listeners and free_tables on the configuration that was read. */
  function FreeIncoming(w: World): World
    decreases |w.incoming|
  {
    if w.incoming == [] then w
    else RemoveIncomingLists(w); FreeIncoming(RemoveIncoming(w))
  }

  lemma RemoveIncomingLists(w: World)
    requires w.incoming != []
    ensures SameLists(RemoveIncoming(w), w.(incoming := w.incoming[1..]))
  {
    CountsKeepLists(CloseListener(w, w.incoming[0]).(incoming := w.incoming[1..]), w.incoming[0], None);
  }

  /** reload_config once the new configuration has been read. */
  function Install(w: World, socketOk: LId -> bool): World {
    FreeIncoming(ListenersReload(ReloadTables(w), socketOk))
  }

  /** reload_config; a configuration that cannot be read changes nothing. */
  function ReloadConfig(w: World, c: Option<Config>, socketOk: LId -> bool): World {
    if c.None? then w else Install(LoadConfig(w, c.value), socketOk)
  }

  function AcceptOn(w: World, l: LId): World {
    ListenerRefGet(w, l).(conns := w.conns + [l])
  }

  function CloseConn(w: World, i: nat): World
    requires i < |w.conns|
  {
    ListenerRefPut(w.(conns := Without(w.conns, i)), w.conns[i])
  }

  function FreeConnections(w: World): (r: World)
    ensures r.conns == []
    decreases |w.conns|
  {
    if w.conns == [] then w
    else
      CountsKeepLists(w.(conns := Without(w.conns, 0)), w.conns[0], None);
      FreeConnections(CloseConn(w, 0))
  }

  function FreeRunning(w: World): (r: World)
    ensures r.running == []
    decreases |w.running|
  {
    if w.running == [] then w else ListsAfterRemove(w, 0); FreeRunning(RemoveRunning(w, 0))
  }

  function FreeTables(w: World): (r: World)
    ensures r.runningTables == []
    decreases |w.runningTables|
  {
    if w.runningTables == [] then w
    else FreeTables(TableRefPut(w.(runningTables := Without(w.runningTables, 0)), Some(w.runningTables[0])))
  }

  /** The end of main: connections, then listeners, then tables. */
  function ShutDown(w: World): World {
    FreeTables(FreeRunning(FreeConnections(w)))
  }

  datatype Event =
    | Accept(l: LId)
    | AcceptFails(l: LId)
    | Close(i: nat)
    | Reload(config: Option<Config>, socketOk: LId -> bool)
    | Shutdown

  /** Only a running listener whose socket is open accepts. */
  predicate Enabled(w: World, e: Event) {
    match e
    case Accept(l) => l in w.running && l in w.listeners && w.listeners[l].open
    case AcceptFails(l) => l in w.running && l in w.listeners && w.listeners[l].open
    case Close(i) => i < |w.conns|
    case Reload(_, _) => true
    case Shutdown => true
  }

  function Next(w: World, e: Event): World
    requires Enabled(w, e)
  {
    match e
    case Accept(l) => AcceptOn(w, l)
    case AcceptFails(l) => ListenerRefPut(ListenerRefGet(w, l), l)
    case Close(i) => CloseConn(w, i)
    case Reload(c, socketOk) => ReloadConfig(w, c, socketOk)
    case Shutdown => ShutDown(w)
  }

  // ---------------------------------------------------------------- counts across events

  lemma LoadListenerCounted(w: World, c: ListenerConfig)
    requires Counted(w, multiset{}, multiset{})
    ensures Counted(LoadListener(w, c), multiset{}, multiset{})
  {
    FreshListener(w);
    LoadListenerOwners(w, c);
    LoadListenerTables(w, c);
    LoadListenerShape(w, c);
  }

  lemma LoadListenerOwners(w: World, c: ListenerConfig)
    requires ListenersCounted(w, multiset{}) && w.nextId !in w.listeners
    ensures ListenersCounted(LoadListener(w, c), multiset{})
  {
    var id, r := w.nextId, LoadListener(w, c);
    InsertMultiset(w.incoming, Position(w, w.incoming, c.address), id);
    assert Owners(r, multiset{}) == Owners(w, multiset{}) + multiset{id};
  }

  lemma FreshListener(w: World)
    requires Counted(w, multiset{}, multiset{})
    ensures w.nextId !in w.listeners && w.nextId !in Owners(w, multiset{})
    ensures w.nextId !in w.running && w.nextId !in w.incoming && w.nextId !in w.conns
  {
    MemberCount(w.running, w.nextId);
    MemberCount(w.incoming, w.nextId);
    MemberCount(w.conns, w.nextId);
  }

  lemma LoadListenerTables(w: World, c: ListenerConfig)
    requires TablesCounted(w, multiset{}) && w.nextId !in w.listeners
    ensures TablesCounted(LoadListener(w, c), multiset{})
  {
    var r := LoadListener(w, c);
    forall t
      ensures TableOwners(r, t, multiset{}) == TableOwners(w, t, multiset{})
    {
      HoldersAdd(w.listeners, w.nextId, r.listeners[w.nextId], t);
    }
  }

  lemma LoadListenerShape(w: World, c: ListenerConfig)
    requires Shape(w) && w.nextId !in w.listeners
    requires w.nextId !in w.running && w.nextId !in w.incoming && w.nextId !in w.conns
    ensures Shape(LoadListener(w, c))
  {
    var id, r := w.nextId, LoadListener(w, c);
    InsertMultiset(w.incoming, Position(w, w.incoming, c.address), id);
    MemberCount(w.running, id);
    MemberCount(w.incoming, id);
    forall l | l in r.incoming
      ensures l == id || l in w.incoming
    {
      MemberCount(r.incoming, l);
      MemberCount(w.incoming, l);
    }
  }

  lemma LoadTableCounted(w: World, c: TableConfig)
    requires Counted(w, multiset{}, multiset{})
    ensures Counted(LoadTable(w, c), multiset{}, multiset{})
  {
    assert Owners(LoadTable(w, c), multiset{}) == Owners(w, multiset{});
    assert TableOwners(w, w.nextId, multiset{}) == 0;
    LoadTableOwners(w, c);
    LoadTableShape(w, c);
  }

  lemma LoadTableOwners(w: World, c: TableConfig)
    ensures forall t :: TableOwners(LoadTable(w, c), t, multiset{}) ==
                        TableOwners(w, t, multiset{}) + if t == w.nextId then 1 else 0
  {
    assert multiset([w.nextId] + w.incomingTables) == multiset{w.nextId} + multiset(w.incomingTables);
  }

  lemma LoadTableShape(w: World, c: TableConfig)
    requires Shape(w) && TableOwners(w, w.nextId, multiset{}) == 0
    ensures Shape(LoadTable(w, c))
  {
    assert multiset([w.nextId] + w.incomingTables) == multiset{w.nextId} + multiset(w.incomingTables);
  }

  lemma {:induction false} LoadListenersCounted(w: World, cs: seq<ListenerConfig>)
    requires Counted(w, multiset{}, multiset{})
    ensures Counted(LoadListeners(w, cs), multiset{}, multiset{})
    decreases |cs|
  {
    if cs != [] {
      LoadListenerCounted(w, cs[0]);
      LoadListenersCounted(LoadListener(w, cs[0]), cs[1..]);
    }
  }

  lemma {:induction false} LoadTablesCounted(w: World, cs: seq<TableConfig>)
    requires Counted(w, multiset{}, multiset{})
    ensures Counted(LoadTables(w, cs), multiset{}, multiset{})
    decreases |cs|
  {
    if cs != [] {
      LoadTableCounted(w, cs[0]);
      LoadTablesCounted(LoadTable(w, cs[0]), cs[1..]);
    }
  }

  lemma {:induction false} FreeIncomingCounted(w: World)
    requires Counted(w, multiset{}, multiset{})
    ensures Counted(FreeIncoming(w), multiset{}, multiset{})
    ensures SameLists(FreeIncoming(w), w.(incoming := []))
    decreases |w.incoming|
  {
    if w.incoming != [] {
      RemoveIncomingCounted(w, multiset{}, multiset{});
      RemoveIncomingLists(w);
      FreeIncomingCounted(RemoveIncoming(w));
    }
  }

  lemma AcceptCounted(w: World, l: LId)
    requires Counted(w, multiset{}, multiset{}) && Enabled(w, Accept(l))
    ensures Counted(AcceptOn(w, l), multiset{}, multiset{})
  {
    ListenerGetCounted(w, l, multiset{}, multiset{});
    var g := ListenerRefGet(w, l);
    var conns := w.conns + [l];
    assert multiset(conns) == multiset(w.conns) + multiset{l};
    assert multiset(g.running) + multiset(g.incoming) + multiset(conns) + multiset{} ==
           Owners(g, multiset{} + multiset{l});
    assert AcceptOn(w, l) == g.(running := g.running, incoming := g.incoming, conns := conns);
    AcceptShape(g, l);
    Relisted(g, g.running, g.incoming, conns, multiset{} + multiset{l}, multiset{}, multiset{});
  }

  lemma AcceptShape(g: World, l: LId)
    requires Shape(g) && l in g.listeners && g.listeners[l].table.Some?
    ensures Shape(g.(running := g.running, incoming := g.incoming, conns := g.conns + [l]))
  {
  }

  lemma CloseConnCounted(w: World, i: nat)
    requires Counted(w, multiset{}, multiset{}) && i < |w.conns|
    ensures Counted(CloseConn(w, i), multiset{}, multiset{})
  {
    var l, rest := w.conns[i], Without(w.conns, i);
    WithoutMultiset(w.conns, i);
    assert multiset(w.running) + multiset(w.incoming) + multiset(rest) + (multiset{} + multiset{l}) ==
           Owners(w, multiset{});
    assert w.(conns := rest) == w.(running := w.running, incoming := w.incoming, conns := rest);
    Relisted(w, w.running, w.incoming, rest, multiset{}, multiset{} + multiset{l}, multiset{});
    ListenerPutCounted(w.(conns := rest), l, multiset{}, multiset{});
  }

  lemma {:induction false} FreeConnectionsCounted(w: World)
    requires Counted(w, multiset{}, multiset{})
    ensures Counted(FreeConnections(w), multiset{}, multiset{})
    ensures SameLists(FreeConnections(w), w.(conns := []))
    decreases |w.conns|
  {
    if w.conns != [] {
      CloseConnCounted(w, 0);
      CountsKeepLists(w.(conns := Without(w.conns, 0)), w.conns[0], None);
      FreeConnectionsCounted(CloseConn(w, 0));
    }
  }

  lemma {:induction false} FreeRunningCounted(w: World)
    requires Counted(w, multiset{}, multiset{})
    ensures Counted(FreeRunning(w), multiset{}, multiset{})
    ensures SameLists(FreeRunning(w), w.(running := []))
    decreases |w.running|
  {
    if w.running != [] {
      RemoveRunningCounted(w, 0, multiset{}, multiset{});
      ListsAfterRemove(w, 0);
      FreeRunningCounted(RemoveRunning(w, 0));
    }
  }

  lemma {:induction false} FreeTablesCounted(w: World)
    requires Counted(w, multiset{}, multiset{})
    ensures Counted(FreeTables(w), multiset{}, multiset{})
    ensures SameLists(FreeTables(w), w.(runningTables := []))
    decreases |w.runningTables|
  {
    if w.runningTables != [] {
      UnlistTable(w, 0, multiset{}, multiset{});
      var w1 := w.(runningTables := Without(w.runningTables, 0));
      CountsKeepLists(w1, 0, Some(w.runningTables[0]));
      FreeTablesCounted(TableRefPut(w1, Some(w.runningTables[0])));
    }
  }

  /** Shutdown frees every listener and every table. */
  lemma ShutdownFreesAll(w: World)
    requires Inv(w)
    ensures Inv(ShutDown(w)) && ShutDown(w).listeners == map[] && ShutDown(w).tables == map[]
  {
    var a := FreeConnections(w);
    FreeConnectionsCounted(w);
    var b := FreeRunning(a);
    FreeRunningCounted(a);
    FreeTablesCounted(b);
    NothingLeft(FreeTables(b));
  }

  lemma NothingLeft(w: World)
    requires Counted(w, multiset{}, multiset{})
    requires w.running == [] && w.incoming == [] && w.conns == [] && w.runningTables == [] && w.incomingTables == []
    ensures w.listeners == map[] && w.tables == map[]
  {
    assert Owners(w, multiset{}) == multiset{};
    assert w.listeners == map[];
    forall t
      ensures t !in w.tables
    {
      assert Holders(w.listeners, t) == {};
      assert TableOwners(w, t, multiset{}) == 0;
    }
  }

  // ---------------------------------------------------------------- sorted lists

  function AddressIn(w: World): LId -> Addr { (l: LId) => AddressOf(w, l) }

  lemma SortedSame(a: LId -> Addr, b: LId -> Addr, list: seq<LId>)
    requires forall k :: 0 <= k < |list| ==> a(list[k]) == b(list[k])
    ensures Sorted(a, list) ==> Sorted(b, list)
    ensures AddressesOf(a, list) == AddressesOf(b, list)
  {
  }

  /** add_listener finds the place that keeps a sorted list sorted. */
  lemma {:induction false} PositionSplits(w: World, list: seq<LId>, a: Addr)
    requires Sorted(AddressIn(w), list)
    ensures var k := Position(w, list, a);
            && (forall i :: 0 <= i < k ==> Compare(AddressOf(w, list[i]), a) <= 0)
            && (k < |list| ==> Compare(a, AddressOf(w, list[k])) <= 0)
  {
    if list != [] && Compare(a, AddressOf(w, list[0])) >= 0 {
      CompareFlip(AddressOf(w, list[0]), a);
      CompareFlip(a, AddressOf(w, list[0]));
      PositionSplits(w, list[1..], a);
    }
  }

  lemma AddressesInsert(addr: LId -> Addr, list: seq<LId>, k: nat, n: LId)
    requires k <= |list|
    ensures multiset(AddressesOf(addr, InsertAt(list, k, n))) == multiset(AddressesOf(addr, list)) + multiset{addr(n)}
  {
    var s := AddressesOf(addr, list);
    assert AddressesOf(addr, InsertAt(list, k, n)) == s[..k] + [addr(n)] + s[k..];
    assert s == s[..k] + s[k..];
  }

  /** Both lists of the world are sorted by address. */
  predicate ListsSorted(w: World) {
    Sorted(AddressIn(w), w.running) && Sorted(AddressIn(w), w.incoming)
  }

  lemma LoadListenerSorted(w: World, c: ListenerConfig)
    requires Counted(w, multiset{}, multiset{}) && ListsSorted(w)
    ensures var r := LoadListener(w, c);
            && ListsSorted(r)
            && multiset(AddressesOf(AddressIn(r), r.incoming)) ==
               multiset(AddressesOf(AddressIn(w), w.incoming)) + multiset{c.address}
  {
    var id, r, k := w.nextId, LoadListener(w, c), Position(w, w.incoming, c.address);
    PositionSplits(w, w.incoming, c.address);
    LoadListenerAddresses(w, c);
    SortedSame(AddressIn(w), AddressIn(r), w.incoming);
    SortedSame(AddressIn(w), AddressIn(r), w.running);
    SortedInsert(AddressIn(r), w.incoming, k, id);
    AddressesInsert(AddressIn(r), w.incoming, k, id);
  }

  /** A new listener changes no address of the listed ones. */
  lemma LoadListenerAddresses(w: World, c: ListenerConfig)
    requires Counted(w, multiset{}, multiset{})
    ensures var r := LoadListener(w, c);
            && AddressIn(r)(w.nextId) == c.address
            && (forall i :: 0 <= i < |w.incoming| ==> AddressIn(w)(w.incoming[i]) == AddressIn(r)(w.incoming[i]))
            && (forall i :: 0 <= i < |w.running| ==> AddressIn(w)(w.running[i]) == AddressIn(r)(w.running[i]))
  {
    FreshListener(w);
  }

  function ConfigAddresses(cs: seq<ListenerConfig>): seq<Addr> {
    seq(|cs|, i requires 0 <= i < |cs| => cs[i].address)
  }

  ghost function IncomingAddresses(w: World): multiset<Addr> {
    multiset(AddressesOf(AddressIn(w), w.incoming))
  }

  lemma {:induction false} LoadListenersSorted(w: World, cs: seq<ListenerConfig>)
    requires Counted(w, multiset{}, multiset{}) && ListsSorted(w)
    ensures var r := LoadListeners(w, cs);
            ListsSorted(r) && IncomingAddresses(r) == IncomingAddresses(w) + multiset(ConfigAddresses(cs))
    decreases |cs|
  {
    if cs != [] {
      var d := LoadListener(w, cs[0]);
      LoadListenerCounted(w, cs[0]);
      LoadListenerSorted(w, cs[0]);
      LoadListenersSorted(d, cs[1..]);
      ConfigAddressesSplit(cs);
    }
  }

  lemma ConfigAddressesSplit(cs: seq<ListenerConfig>)
    requires cs != []
    ensures multiset(ConfigAddresses(cs)) == multiset{cs[0].address} + multiset(ConfigAddresses(cs[1..]))
  {
    assert ConfigAddresses(cs) == [cs[0].address] + ConfigAddresses(cs[1..]);
  }

  /** Reading tables and reloading them leaves the listeners as they are. */
  lemma {:induction false} LoadTablesKeep(w: World, cs: seq<TableConfig>)
    ensures var r := LoadTables(w, cs);
            r.listeners == w.listeners && r.running == w.running && r.incoming == w.incoming && r.conns == w.conns
    decreases |cs|
  {
    if cs != [] { LoadTablesKeep(LoadTable(w, cs[0]), cs[1..]); }
  }

  predicate SameListeners(a: World, b: World) {
    a.listeners == b.listeners && a.running == b.running && a.incoming == b.incoming && a.conns == b.conns
  }

  lemma {:induction false} DropLeadingKeeps(w: World)
    ensures SameListeners(w, DropLeading(w))
    decreases |w.runningTables|
  {
    if w.runningTables != [] && !Used(w, w.runningTables[0]) {
      DropLeadingKeeps(TableRefPut(w.(runningTables := w.runningTables[1..]), Some(w.runningTables[0])));
    }
  }

  lemma {:induction false} DropFollowingKeeps(w: World, i: nat)
    ensures SameListeners(w, DropFollowing(w, i))
    decreases |w.runningTables| - i
  {
    if i < |w.runningTables| { DropFollowingKeeps(FollowStep(w, i), i + 1); }
  }

  lemma {:induction false} InstallTablesKeep(w: World)
    ensures SameListeners(w, InstallTables(w))
    decreases |w.incomingTables|
  {
    if w.incomingTables != [] {
      InstallIncoming(w);
      InstallTablesKeep(InstallTable(w));
    }
  }

  lemma ReloadTablesKeep(w: World)
    ensures SameListeners(w, ReloadTables(w))
  {
    DropLeadingKeeps(w);
    DropFollowingKeeps(DropLeading(w), 0);
    InstallTablesKeep(DropFollowing(DropLeading(w), 0));
  }

  lemma {:induction false} FreeIncomingAgrees(w: World, addr: LId -> Addr)
    requires Agrees(w, addr)
    ensures Agrees(FreeIncoming(w), addr)
    decreases |w.incoming|
  {
    if w.incoming != [] {
      var l := w.incoming[0];
      CountsAgree(CloseListener(w, l).(incoming := w.incoming[1..]), l, None, addr);
      RemoveIncomingLists(w);
      FreeIncomingAgrees(RemoveIncoming(w), addr);
    }
  }

  // ---------------------------------------------------------------- the invariant of all runs

  /** Exact counts, and a running list sorted by address. */
  ghost predicate Good(w: World) {
    ProxyRefs.Inv(w) && Sorted(AddressIn(w), w.running)
  }

  /** A configuration that has been read: its counts are exact. */
  lemma LoadedCounted(w: World, c: Config)
    requires Counted(w, multiset{}, multiset{})
    ensures Counted(LoadConfig(w, c), multiset{}, multiset{})
  {
    LoadListenersCounted(w, c.listeners);
    LoadTablesCounted(LoadListeners(w, c.listeners), c.tables);
  }

  /** A configuration that has been read: both lists are sorted and its addresses are listed. */
  lemma LoadedSorted(w: World, c: Config)
    requires Counted(w, multiset{}, multiset{}) && w.incoming == [] && Sorted(AddressIn(w), w.running)
    ensures var r := LoadConfig(w, c);
            && ListsSorted(r) && IncomingAddresses(r) == multiset(ConfigAddresses(c.listeners))
            && r.running == w.running && r.conns == w.conns
  {
    var a := LoadListeners(w, c.listeners);
    LoadListenersSorted(w, c.listeners);
    assert IncomingAddresses(w) == multiset{};
    LoadListenersKeep(w, c.listeners);
    LoadTablesSorted(a, c.tables);
  }

  lemma LoadTablesSorted(a: World, cs: seq<TableConfig>)
    requires ListsSorted(a)
    ensures var r := LoadTables(a, cs);
            && ListsSorted(r) && IncomingAddresses(r) == IncomingAddresses(a)
            && r.running == a.running && r.conns == a.conns
  {
    var r := LoadTables(a, cs);
    LoadTablesKeep(a, cs);
    SortedSame(AddressIn(a), AddressIn(r), a.running);
    SortedSame(AddressIn(a), AddressIn(r), a.incoming);
  }

  lemma {:induction false} LoadListenersKeep(w: World, cs: seq<ListenerConfig>)
    ensures var r := LoadListeners(w, cs); r.running == w.running && r.conns == w.conns
    decreases |cs|
  {
    if cs != [] { LoadListenersKeep(LoadListener(w, cs[0]), cs[1..]); }
  }

  /** The walk of listeners_reload can start once the tables are reloaded. */
  lemma ReadyToMerge(w: World)
    requires Counted(w, multiset{}, multiset{}) && ListsSorted(w)
    ensures var t := ReloadTables(w);
            && Walking(Cursor(t, 0, 0), AddressIn(w))
            && t.incomingTables == [] && t.running == w.running && t.incoming == w.incoming
  {
    ReloadTablesCounted(w);
    ReloadTablesKeep(w);
  }

  lemma MergedLists(w: World, socketOk: LId -> bool)
    requires Counted(w, multiset{}, multiset{}) && ListsSorted(w)
    ensures var m := ListenersReload(ReloadTables(w), socketOk);
            && Counted(m, multiset{}, multiset{}) && Agrees(m, AddressIn(w)) && m.incomingTables == []
            && m.running == MergeIds(AddressIn(w), w.running, w.incoming)
  {
    var t := ReloadTables(w);
    ReadyToMerge(w);
    MergeResult(Cursor(t, 0, 0), socketOk, AddressIn(w));
    MergeKeepsTables(Cursor(t, 0, 0), socketOk);
    BuiltFromStart(w.running, w.incoming, AddressIn(w));
  }

  lemma BuiltFromStart(running: seq<LId>, incoming: seq<LId>, addr: LId -> Addr)
    ensures BuiltFrom(running, incoming, 0, 0, addr) == MergeIds(addr, running, incoming)
  {
    assert running[0..] == running && incoming[0..] == incoming;
  }

  lemma {:induction false} MergeKeepsTables(c: Cursor, socketOk: LId -> bool)
    requires c.Ok()
    ensures Merge(c, socketOk).incomingTables == c.w.incomingTables && Merge(c, socketOk).conns == c.w.conns
    ensures Merge(c, socketOk).runningTables == c.w.runningTables
    decreases c.Left()
  {
    if !c.Done() {
      StepKeepsTables(c, socketOk);
      MergeKeepsTables(MergeStep(c, socketOk), socketOk);
    }
  }

  lemma StepKeepsTables(c: Cursor, socketOk: LId -> bool)
    requires c.Ok() && !c.Done()
    ensures var r := MergeStep(c, socketOk).w;
            r.incomingTables == c.w.incomingTables && r.conns == c.w.conns && r.runningTables == c.w.runningTables
  {
    var w, i, j := c.w, c.i, c.j;
    var order := MergeCompare(w, i, j);
    if order > 0 {
      var n := w.incoming[j];
      ListsAfterAdd(w, j, Position(w, w.running, AddressOf(w, n)), socketOk(n));
    } else if order == 0 {
      UpdateKeepsLists(w, w.running[i], w.incoming[j]);
    } else {
      ListsAfterRemove(w, i);
    }
  }

  /** Installing a configuration that was read ends with exact counts and nothing left over. */
  lemma InstallCounted(l: World, socketOk: LId -> bool)
    requires Counted(l, multiset{}, multiset{}) && ListsSorted(l)
    ensures ProxyRefs.Inv(Install(l, socketOk))
  {
    MergedLists(l, socketOk);
    FreeIncomingCounted(ListenersReload(ReloadTables(l), socketOk));
  }

  lemma InstallLists(l: World, socketOk: LId -> bool)
    requires Counted(l, multiset{}, multiset{}) && ListsSorted(l)
    ensures var r := Install(l, socketOk);
            && r.running == MergeIds(AddressIn(l), l.running, l.incoming) && r.conns == l.conns
            && Agrees(r, AddressIn(l))
  {
    var m := ListenersReload(ReloadTables(l), socketOk);
    MergedLists(l, socketOk);
    FreeIncomingCounted(m);
    FreeIncomingAgrees(m, AddressIn(l));
    ReloadTablesKeep(l);
    MergeKeepsTables(Cursor(ReloadTables(l), 0, 0), socketOk);
  }

  /** The running list after a reload has, in order, the addresses of the sorted new list. */
  lemma InstallAddresses(l: World, socketOk: LId -> bool)
    requires Counted(l, multiset{}, multiset{}) && ListsSorted(l)
    ensures var r := Install(l, socketOk);
            && Sorted(AddressIn(r), r.running)
            && AddressesOf(AddressIn(r), r.running) == AddressesOf(AddressIn(l), l.incoming)
  {
    var r := Install(l, socketOk);
    InstallCounted(l, socketOk);
    InstallLists(l, socketOk);
    MergeAddresses(AddressIn(l), l.running, l.incoming);
    AddressesCarried(r, l.incoming, AddressIn(l));
  }

  lemma AddressesCarried(r: World, list: seq<LId>, addr: LId -> Addr)
    requires ProxyRefs.Inv(r) && Agrees(r, addr) && Sorted(addr, list)
    requires AddressesOf(addr, r.running) == AddressesOf(addr, list)
    ensures Sorted(AddressIn(r), r.running) && AddressesOf(AddressIn(r), r.running) == AddressesOf(addr, list)
  {
    SortedByAddresses(addr, r.running, list);
    AllListed(r);
    SortedSame(addr, AddressIn(r), r.running);
  }

  /**
   * After a reload the running list is sorted and has exactly the addresses of the new
   * configuration, and every reference count is exact again.
   */
  lemma ReloadInstalls(w: World, c: Config, socketOk: LId -> bool)
    requires Good(w)
    ensures var r := ReloadConfig(w, Some(c), socketOk);
            && Good(r) && r.conns == w.conns
            && multiset(AddressesOf(AddressIn(r), r.running)) == multiset(ConfigAddresses(c.listeners))
  {
    var l := LoadConfig(w, c);
    LoadedCounted(w, c);
    LoadedSorted(w, c);
    InstallCounted(l, socketOk);
    InstallLists(l, socketOk);
    InstallAddresses(l, socketOk);
  }

  /** Sortedness depends only on the addresses. */
  lemma SortedByAddresses(addr: LId -> Addr, a: seq<LId>, b: seq<LId>)
    requires AddressesOf(addr, a) == AddressesOf(addr, b) && Sorted(addr, b)
    ensures Sorted(addr, a)
  {
    forall i, j | 0 <= i < j < |a|
      ensures Compare(addr(a[i]), addr(a[j])) <= 0
    {
      assert AddressesOf(addr, a)[i] == addr(b[i]) && AddressesOf(addr, a)[j] == addr(b[j]);
    }
  }

  lemma {:induction false} OccurrencesSame(a: LId -> Addr, b: LId -> Addr, list: seq<LId>, x: Addr)
    requires forall k :: 0 <= k < |list| ==> a(list[k]) == b(list[k])
    ensures Occurrences(a, list, x) == Occurrences(b, list, x)
  {
    if list != [] { OccurrencesSame(a, b, list[1..], x); }
  }

  lemma ListsApart(w: World)
    requires Counted(w, multiset{}, multiset{})
    ensures Distinct(w.running, w.incoming)
  {
    forall i, k | 0 <= i < k < |w.running|
      ensures w.running[i] != w.running[k]
    {
      ListedOnce(w, i, k);
    }
    forall i | 0 <= i < |w.running|
      ensures w.running[i] !in w.incoming
    {
      if w.running[i] in w.incoming {
        ListedDistinct(w, w.running[i], w.running[i], multiset{}, multiset{});
      }
    }
  }

  /** How many of the first p + 1 running listeners have the address of the last of them. */
  function RankAmongEqual(w: World, p: nat): nat
    requires p < |w.running|
  {
    Occurrences(AddressIn(w), w.running[..p + 1], AddressOf(w, w.running[p]))
  }

  /**
   * Which running listeners keep their identity in a reload: of those with one address, as
   * many as the new configuration has of it, from the front; every other one leaves the list.
   */
  lemma ReloadKeepsMatched(w: World, c: Config, socketOk: LId -> bool, p: nat)
    requires Good(w) && p < |w.running|
    ensures w.running[p] in ReloadConfig(w, Some(c), socketOk).running <==>
            RankAmongEqual(w, p) <= multiset(ConfigAddresses(c.listeners))[AddressOf(w, w.running[p])]
  {
    LoadedCounted(w, c);
    LoadedSorted(w, c);
    InstallLists(LoadConfig(w, c), socketOk);
    LoadKeepsAddresses(w, c);
    ListsApart(LoadConfig(w, c));
    MatchedMerged(w, LoadConfig(w, c), c, p);
  }

  lemma MatchedMerged(w: World, l: World, c: Config, p: nat)
    requires p < |w.running| && ListsSorted(l) && l.running == w.running && Distinct(l.running, l.incoming)
    requires IncomingAddresses(l) == multiset(ConfigAddresses(c.listeners))
    requires forall m :: m in w.running ==> AddressOf(l, m) == AddressOf(w, m)
    ensures w.running[p] in MergeIds(AddressIn(l), l.running, l.incoming) <==>
            RankAmongEqual(w, p) <= multiset(ConfigAddresses(c.listeners))[AddressOf(w, w.running[p])]
  {
    var a := AddressOf(w, w.running[p]);
    MatchedKept(AddressIn(l), l.running, l.incoming, p);
    OccurrencesSame(AddressIn(l), AddressIn(w), w.running[..p + 1], a);
    Occurs(AddressIn(l), l.incoming, a);
  }

  /** Reading a configuration does not change the address of a running listener. */
  lemma LoadKeepsAddresses(w: World, c: Config)
    requires Good(w)
    ensures forall l :: l in w.running ==> AddressOf(LoadConfig(w, c), l) == AddressOf(w, l)
  {
    forall l | l in w.running
      ensures AddressOf(LoadConfig(w, c), l) == AddressOf(w, l)
    {
      assert l in Owners(w, multiset{});
      LoadListenersAddress(w, c.listeners, l);
      LoadTablesKeep(LoadListeners(w, c.listeners), c.tables);
    }
  }

  lemma {:induction false} LoadListenersAddress(w: World, cs: seq<ListenerConfig>, l: LId)
    requires l in w.listeners && l < w.nextId
    ensures var r := LoadListeners(w, cs);
            l in r.listeners && r.listeners[l] == w.listeners[l]
    decreases |cs|
  {
    if cs != [] { LoadListenersAddress(LoadListener(w, cs[0]), cs[1..], l); }
  }

  // ---------------------------------------------------------------- start

  const EMPTY_WORLD: World := World(map[], map[], [], [], [], [], [], 0, false)

  /** init_listeners. */
  function InitAll(w: World, i: nat, socketOk: LId -> bool): World
    decreases |w.running| - i
  {
    if i >= |w.running| then w
    else
      var l := w.running[i];
      InitKeepsLists(w, l, socketOk(l));
      InitAll(InitListener(w, l, socketOk(l)), i + 1, socketOk)
  }

  /** The configuration just read becomes the running one. */
  function Adopt(w: World): World {
    w.(running := w.incoming, incoming := [], runningTables := w.incomingTables, incomingTables := [])
  }

  function Boot(c: Config, socketOk: LId -> bool): World {
    InitAll(Adopt(LoadConfig(EMPTY_WORLD, c)), 0, socketOk)
  }

  lemma EmptyGood()
    ensures Good(EMPTY_WORLD)
  {
    assert Owners(EMPTY_WORLD, multiset{}) == multiset{};
    forall t: TId
      ensures TableOwners(EMPTY_WORLD, t, multiset{}) == 0
    {
      assert Holders(EMPTY_WORLD.listeners, t) == {};
    }
  }

  lemma AdoptCounted(w: World)
    requires Counted(w, multiset{}, multiset{}) && w.running == [] && w.runningTables == []
    ensures Counted(Adopt(w), multiset{}, multiset{})
  {
    assert Owners(Adopt(w), multiset{}) == Owners(w, multiset{});
    AdoptTables(w);
    AdoptShape(w);
  }

  lemma AdoptTables(w: World)
    requires TablesCounted(w, multiset{}) && w.runningTables == []
    ensures TablesCounted(Adopt(w), multiset{})
  {
    forall t
      ensures TableOwners(Adopt(w), t, multiset{}) == TableOwners(w, t, multiset{})
    {
    }
  }

  lemma AdoptShape(w: World)
    requires Shape(w) && w.running == [] && w.runningTables == []
    ensures Shape(Adopt(w))
  {
  }

  lemma ListedOnce(w: World, i: nat, k: nat)
    requires ListsDistinct(w) && i < |w.running| && k < |w.running| && i != k
    ensures w.running[i] != w.running[k]
  {
    var x, rest := w.running[i], Without(w.running, i);
    WithoutMultiset(w.running, i);
    assert multiset(w.running)[x] + multiset(w.incoming)[x] <= 1;
    MemberCount(rest, x);
    assert w.running[k] == if k < i then rest[k] else rest[k - 1];
  }

  predicate Uninitialised(w: World, i: nat) {
    forall k :: i <= k < |w.running| ==> w.running[k] in w.listeners && w.listeners[w.running[k]].table.None?
  }

  lemma InitKeepsOthers(w: World, l: LId, socketOk: bool, m: LId)
    requires m in w.listeners && m != l
    ensures var r := InitListener(w, l, socketOk); m in r.listeners && r.listeners[m] == w.listeners[m]
  {
  }

  lemma {:induction false} InitAllCounted(w: World, i: nat, socketOk: LId -> bool, addr: LId -> Addr)
    requires Counted(w, multiset{}, multiset{}) && w.incoming == [] && Agrees(w, addr) && Uninitialised(w, i)
    ensures var r := InitAll(w, i, socketOk);
            Counted(r, multiset{}, multiset{}) && SameLists(r, w) && Agrees(r, addr)
    decreases |w.running| - i
  {
    if i < |w.running| {
      var l := w.running[i];
      var r := InitListener(w, l, socketOk(l));
      InitCounted(w, l, socketOk(l), multiset{}, multiset{});
      InitKeepsLists(w, l, socketOk(l));
      InitAgrees(w, l, socketOk(l), addr);
      forall k | i + 1 <= k < |w.running|
        ensures w.running[k] in r.listeners && r.listeners[w.running[k]].table.None?
      {
        ListedOnce(w, i, k);
        InitKeepsOthers(w, l, socketOk(l), w.running[k]);
      }
      InitAllCounted(r, i + 1, socketOk, addr);
    }
  }

  lemma BootGood(c: Config, socketOk: LId -> bool)
    ensures Good(Boot(c, socketOk))
    ensures var r := Boot(c, socketOk);
            multiset(AddressesOf(AddressIn(r), r.running)) == multiset(ConfigAddresses(c.listeners))
  {
    EmptyGood();
    var l := LoadConfig(EMPTY_WORLD, c);
    LoadedCounted(EMPTY_WORLD, c);
    LoadedSorted(EMPTY_WORLD, c);
    LoadTablesIntoEmpty(EMPTY_WORLD, c);
    BootFrom(l, socketOk);
  }

  lemma LoadTablesIntoEmpty(w: World, c: Config)
    ensures LoadConfig(w, c).runningTables == w.runningTables
  {
    LoadListenersStore(w, c.listeners);
    LoadTablesRunning(LoadListeners(w, c.listeners), c.tables);
  }

  lemma {:induction false} LoadListenersStore(w: World, cs: seq<ListenerConfig>)
    ensures var r := LoadListeners(w, cs);
            && r.tables == w.tables && r.runningTables == w.runningTables && r.incomingTables == w.incomingTables
            && r.nextId >= w.nextId
    decreases |cs|
  {
    if cs != [] { LoadListenersStore(LoadListener(w, cs[0]), cs[1..]); }
  }

  lemma {:induction false} LoadTablesRunning(w: World, cs: seq<TableConfig>)
    ensures LoadTables(w, cs).runningTables == w.runningTables
    decreases |cs|
  {
    if cs != [] { LoadTablesRunning(LoadTable(w, cs[0]), cs[1..]); }
  }

  lemma BootFrom(l: World, socketOk: LId -> bool)
    requires Counted(l, multiset{}, multiset{}) && ListsSorted(l) && l.running == [] && l.runningTables == []
    ensures var r := InitAll(Adopt(l), 0, socketOk);
            && Good(r)
            && AddressesOf(AddressIn(r), r.running) == AddressesOf(AddressIn(l), l.incoming)
  {
    var a := Adopt(l);
    AdoptCounted(l);
    AllListed(l);
    assert Uninitialised(a, 0);
    assert Agrees(a, AddressIn(l));
    InitAllCounted(a, 0, socketOk, AddressIn(l));
    AddressesCarried(InitAll(a, 0, socketOk), l.incoming, AddressIn(l));
  }

  // ---------------------------------------------------------------- runs

  /** Taking or dropping references keeps the running list sorted. */
  lemma StaysSorted(w: World, r: World)
    requires Good(w) && ProxyRefs.Inv(r) && r.running == w.running && Agrees(r, AddressIn(w))
    ensures Good(r)
  {
    AllListed(r);
    SortedSame(AddressIn(w), AddressIn(r), r.running);
  }

  lemma AcceptGood(w: World, l: LId)
    requires Good(w) && Enabled(w, Accept(l))
    ensures Good(AcceptOn(w, l))
  {
    AcceptCounted(w, l);
    CountsKeepLists(w, l, None);
    CountsAgree(w, l, None, AddressIn(w));
    StaysSorted(w, AcceptOn(w, l));
  }

  lemma AcceptFailsGood(w: World, l: LId)
    requires Good(w) && Enabled(w, AcceptFails(l))
    ensures Good(Next(w, AcceptFails(l)))
  {
    AcceptFailsCounted(w, l);
    AcceptFailsAddresses(w, l);
    StaysSorted(w, Next(w, AcceptFails(l)));
  }

  lemma AcceptFailsCounted(w: World, l: LId)
    requires Counted(w, multiset{}, multiset{}) && l in w.listeners
    ensures Counted(ListenerRefPut(ListenerRefGet(w, l), l), multiset{}, multiset{})
  {
    ListenerGetCounted(w, l, multiset{}, multiset{});
    ListenerPutCounted(ListenerRefGet(w, l), l, multiset{}, multiset{});
  }

  lemma AcceptFailsAddresses(w: World, l: LId)
    requires l in w.listeners
    ensures var r := ListenerRefPut(ListenerRefGet(w, l), l); SameLists(w, r) && Agrees(r, AddressIn(w))
  {
    var g := ListenerRefGet(w, l);
    CountsKeepLists(w, l, None);
    CountsKeepLists(g, l, None);
    CountsAgree(w, l, None, AddressIn(w));
    CountsAgree(g, l, None, AddressIn(w));
  }

  lemma CloseGood(w: World, i: nat)
    requires Good(w) && i < |w.conns|
    ensures Good(CloseConn(w, i))
  {
    var w1 := w.(conns := Without(w.conns, i));
    CloseConnCounted(w, i);
    CountsKeepLists(w1, w.conns[i], None);
    CountsAgree(w1, w.conns[i], None, AddressIn(w));
    StaysSorted(w, CloseConn(w, i));
  }

  /** Every event keeps the counts exact and the running list sorted. */
  lemma StepGood(w: World, e: Event)
    requires Good(w) && Enabled(w, e)
    ensures Good(Next(w, e))
  {
    match e
    case Accept(l) => AcceptGood(w, l);
    case AcceptFails(l) => AcceptFailsGood(w, l);
    case Close(i) => CloseGood(w, i);
    case Reload(c, socketOk) => if c.Some? { ReloadInstalls(w, c.value, socketOk); }
    case Shutdown =>
      ShutdownFreesAll(w);
      FreeConnectionsCounted(w);
      FreeRunningCounted(FreeConnections(w));
      FreeTablesCounted(FreeRunning(FreeConnections(w)));
  }

  predicate Feasible(w: World, es: seq<Event>)
    decreases |es|
  {
    es == [] || (Enabled(w, es[0]) && Feasible(Next(w, es[0]), es[1..]))
  }

  function Run(w: World, es: seq<Event>): World
    requires Feasible(w, es)
    decreases |es|
  {
    if es == [] then w else Run(Next(w, es[0]), es[1..])
  }

  lemma {:induction false} RunGood(w: World, es: seq<Event>)
    requires Good(w) && Feasible(w, es)
    ensures Good(Run(w, es))
    decreases |es|
  {
    if es != [] {
      StepGood(w, es[0]);
      RunGood(Next(w, es[0]), es[1..]);
    }
  }

  /**
   * Over every interleaving of accepts, closes, reloads and shutdown: no count underflows
   * and nothing freed is reached; a listener's count is its list membership plus its
   * connections, a table's its list membership plus the listeners holding it; an object is
   * in the store exactly while its count is positive; and every connection can follow its
   * listener to a live table.
   */
  lemma CountsExact(c: Config, socketOk: LId -> bool, es: seq<Event>)
    requires Feasible(Boot(c, socketOk), es)
    ensures var w := Run(Boot(c, socketOk), es);
            && !w.fault
            && (forall l :: l in w.listeners <==> l in w.running || l in w.conns)
            && (forall l :: l in w.listeners ==>
                  w.listeners[l].refs == multiset(w.running)[l] + multiset(w.conns)[l] > 0)
            && (forall t :: t in w.tables <==> multiset(w.runningTables)[t] + |Holders(w.listeners, t)| > 0)
            && (forall t :: t in w.tables ==>
                  w.tables[t].refs == multiset(w.runningTables)[t] + |Holders(w.listeners, t)|)
            && (forall l :: l in w.conns ==>
                  l in w.listeners && w.listeners[l].table.Some? && w.listeners[l].table.value in w.tables)
  {
    BootGood(c, socketOk);
    RunGood(Boot(c, socketOk), es);
    var w := Run(Boot(c, socketOk), es);
    ListenerCounts(w);
    TableCounts(w);
    forall l | l in w.conns
      ensures l in w.listeners && w.listeners[l].table.Some? && w.listeners[l].table.value in w.tables
    {
      assert l in Owners(w, multiset{});
      HeldAndListed(w, l, w.listeners[l].table.value, multiset{}, multiset{});
    }
  }

  lemma ListenerCounts(w: World)
    requires ProxyRefs.Inv(w)
    ensures forall l :: l in w.listeners <==> l in w.running || l in w.conns
    ensures forall l :: l in w.listeners ==>
              w.listeners[l].refs == multiset(w.running)[l] + multiset(w.conns)[l] > 0
  {
    forall l
      ensures l in w.listeners <==> l in w.running || l in w.conns
      ensures Owners(w, multiset{})[l] == multiset(w.running)[l] + multiset(w.conns)[l]
    {
      MemberCount(w.running, l);
      MemberCount(w.conns, l);
      assert l in w.listeners <==> l in Owners(w, multiset{});
    }
  }

  lemma TableCounts(w: World)
    requires ProxyRefs.Inv(w)
    ensures forall t :: t in w.tables <==> multiset(w.runningTables)[t] + |Holders(w.listeners, t)| > 0
    ensures forall t :: t in w.tables ==>
              w.tables[t].refs == multiset(w.runningTables)[t] + |Holders(w.listeners, t)|
  {
    forall t
      ensures TableOwners(w, t, multiset{}) == multiset(w.runningTables)[t] + |Holders(w.listeners, t)|
      ensures t in w.tables <==> TableOwners(w, t, multiset{}) > 0
    {
    }
  }

  /** After any run that ends in a reload, the running list is exactly the new configuration. */
  lemma ReloadInAnyRun(c0: Config, socketOk: LId -> bool, es: seq<Event>, c: Config, ok: LId -> bool)
    requires Feasible(Boot(c0, socketOk), es)
    ensures var r := ReloadConfig(Run(Boot(c0, socketOk), es), Some(c), ok);
            && Sorted(AddressIn(r), r.running)
            && multiset(AddressesOf(AddressIn(r), r.running)) == multiset(ConfigAddresses(c.listeners))
  {
    BootGood(c0, socketOk);
    RunGood(Boot(c0, socketOk), es);
    ReloadInstalls(Run(Boot(c0, socketOk), es), c, ok);
  }

  /** Whatever happened before, shutdown leaves nothing allocated. */
  lemma NoLeakAtShutdown(c: Config, socketOk: LId -> bool, es: seq<Event>)
    requires Feasible(Boot(c, socketOk), es)
    ensures Enabled(Run(Boot(c, socketOk), es), Shutdown)
    ensures var w := Next(Run(Boot(c, socketOk), es), Shutdown);
            !w.fault && w.listeners == map[] && w.tables == map[]
  {
    BootGood(c, socketOk);
    RunGood(Boot(c, socketOk), es);
    ShutdownFreesAll(Run(Boot(c, socketOk), es));
  }
}
