/** What the proxy is after start-up: every listener of the file, and the table it serves. */
module StartUp {
  import opened Options
  import opened ProxyModel
  import opened ProxyRefs
  import opened TableReload
  import opened ProxyRuns
  import opened ReloadServes
  import opened ListenerLifetime

  // ---------------------------------------------------------------- one listener after the other

  /** Same list of tables, with the same names and backends. */
  ghost predicate SameTables(w: World, r: World) {
    && r.runningTables == w.runningTables
    && (forall t :: t in r.tables <==> t in w.tables)
    && (forall t :: t in w.tables ==>
          r.tables[t].name == w.tables[t].name && r.tables[t].backends == w.tables[t].backends)
  }

  function Look(w: World, n: TableName): Option<TId> { TableLookup(w, w.runningTables, n) }

  lemma SameLook(w: World, r: World, n: TableName)
    requires SameTables(w, r)
    ensures Look(r, n) == Look(w, n)
  {
    LookupByNames(w, r, w.runningTables, n);
  }

  /** A listener as init_listener leaves it. */
  function SetUp(x: Listener, found: Option<TId>, socketOk: bool): Listener {
    if found.None? then x else x.(table := found, open := socketOk)
  }

  lemma InitOne(w: World, l: LId, socketOk: bool)
    requires l in w.listeners
    ensures var r := InitListener(w, l, socketOk);
            && SameTables(w, r)
            && r.listeners == w.listeners[l := SetUp(w.listeners[l], Look(w, w.listeners[l].tableName), socketOk)]
  {
    assert w.listeners[l := w.listeners[l]] == w.listeners;
  }

  predicate AllStored(w: World) { forall k :: 0 <= k < |w.running| ==> w.running[k] in w.listeners }

  lemma {:induction false} InitAllOthers(w: World, i: nat, socketOk: LId -> bool, m: LId)
    requires AllStored(w) && m in w.listeners && forall k :: i <= k < |w.running| ==> w.running[k] != m
    ensures var r := InitAll(w, i, socketOk); SameTables(w, r) && m in r.listeners && r.listeners[m] == w.listeners[m]
    decreases |w.running| - i
  {
    if i < |w.running| {
      var l := w.running[i];
      InitOne(w, l, socketOk(l));
      InitKeepsLists(w, l, socketOk(l));
      InitAllOthers(InitListener(w, l, socketOk(l)), i + 1, socketOk, m);
    }
  }

  /** Each listener is set up with the table its name had before. */
  lemma {:induction false} InitAllAt(w: World, i: nat, socketOk: LId -> bool, k: nat)
    requires AllStored(w) && ListsDistinct(w) && i <= k < |w.running|
    ensures var r, m := InitAll(w, i, socketOk), w.running[k];
            && SameTables(w, r) && m in r.listeners
            && r.listeners[m] == SetUp(w.listeners[m], Look(w, w.listeners[m].tableName), socketOk(m))
    decreases |w.running| - i
  {
    var l := w.running[i];
    var d := InitListener(w, l, socketOk(l));
    InitOne(w, l, socketOk(l));
    InitKeepsLists(w, l, socketOk(l));
    if k == i {
      forall j | i + 1 <= j < |d.running|
        ensures d.running[j] != l
      {
        ListedOnce(w, i, j);
      }
      InitAllOthers(d, i + 1, socketOk, l);
    } else {
      ListedOnce(w, i, k);
      SameLook(w, d, w.listeners[w.running[k]].tableName);
      InitAllAt(d, i + 1, socketOk, k);
    }
  }

  // ---------------------------------------------------------------- the whole of start-up

  /** What was read, before the listeners are set up. */
  lemma Adopted(c: Config)
    ensures var a := Adopt(LoadConfig(EMPTY_WORLD, c));
            && AllStored(a) && ListsDistinct(a) && |a.running| == |c.listeners| == |Arranged(c.listeners)|
            && ConfigsOf(a, a.running) == Arranged(c.listeners)
            && forall k :: 0 <= k < |a.running| ==>
                 a.listeners[a.running[k]].table.None? && !a.listeners[a.running[k]].open
  {
    var l := LoadConfig(EMPTY_WORLD, c);
    EmptyGood();
    LoadedCounted(EMPTY_WORLD, c);
    LoadedConfig(EMPTY_WORLD, c);
    LoadTablesIntoEmpty(EMPTY_WORLD, c);
    LoadedNoneRunning(c);
    AdoptCounted(l);
    ArrangeLength([], c.listeners);
    AdoptedConfigs(l);
  }

  lemma AdoptedConfigs(l: World)
    requires Reading(l)
    ensures ConfigsOf(Adopt(l), Adopt(l).running) == ConfigsOf(l, l.incoming)
    ensures AllStored(Adopt(l))
  {
    assert forall k :: 0 <= k < |l.incoming| ==> l.incoming[k] in l.incoming;
  }

  lemma LoadedNoneRunning(c: Config)
    ensures LoadConfig(EMPTY_WORLD, c).running == []
  {
    LoadListenersKeep(EMPTY_WORLD, c.listeners);
    LoadTablesKeep(LoadListeners(EMPTY_WORLD, c.listeners), c.tables);
  }

  lemma {:induction false} LoadListenersKeep(w: World, cs: seq<ListenerConfig>)
    ensures LoadListeners(w, cs).running == w.running
    decreases |cs|
  {
    if cs != [] { LoadListenersKeep(LoadListener(w, cs[0]), cs[1..]); }
  }

  /** After start-up the listeners are those of the file in order of address, each with the table of its name. */
  lemma BootListed(c: Config, socketOk: LId -> bool, q: nat)
    requires q < |c.listeners|
    ensures var r := Boot(c, socketOk);
            && |r.running| == |c.listeners| == |Arranged(c.listeners)|
            && AsConfigured(EMPTY_WORLD, r, r.running[q], Arranged(c.listeners)[q], socketOk)
  {
    var a := Adopt(LoadConfig(EMPTY_WORLD, c));
    Adopted(c);
    BootLists(a, 0, socketOk);
    InitAllAt(a, 0, socketOk, q);
    var m := a.running[q];
    assert ConfigsOf(a, a.running)[q] == ConfigOf(a, m);
    SameLook(a, Boot(c, socketOk), a.listeners[m].tableName);
  }

  lemma {:induction false} BootLists(w: World, i: nat, socketOk: LId -> bool)
    ensures SameLists(w, InitAll(w, i, socketOk))
    decreases |w.running| - i
  {
    if i < |w.running| {
      InitKeepsLists(w, w.running[i], socketOk(w.running[i]));
      BootLists(InitListener(w, w.running[i], socketOk(w.running[i])), i + 1, socketOk);
    }
  }

  // ---------------------------------------------------------------- which table has a name

  function LastNamed(cs: seq<TableConfig>, n: TableName): Option<seq<nat>> {
    if cs == [] then None
    else if cs[|cs| - 1].name == n then Some(cs[|cs| - 1].backends)
    else LastNamed(cs[..|cs| - 1], n)
  }

  /** What a lookup in the list just read finds. */
  function Backends(w: World, n: TableName): Option<seq<nat>> {
    var t := TableLookup(w, w.incomingTables, n);
    if t.Some? && t.value in w.tables then Some(w.tables[t.value].backends) else None
  }

  ghost predicate NumbersBelow(w: World) {
    && (forall t :: t in w.tables ==> t < w.nextId)
    && (forall k :: 0 <= k < |w.incomingTables| ==> w.incomingTables[k] in w.tables)
  }

  lemma LoadTableFinds(w: World, c: TableConfig, n: TableName)
    requires NumbersBelow(w)
    ensures NumbersBelow(LoadTable(w, c))
    ensures Backends(LoadTable(w, c), n) == if c.name == n then Some(c.backends) else Backends(w, n)
  {
    var r := LoadTable(w, c);
    assert r.incomingTables[1..] == w.incomingTables;
    LookupByNames(w, r, w.incomingTables, n);
    LookupListed(w, w.incomingTables, n);
  }

  lemma {:induction false} LookupListed(w: World, list: seq<TId>, n: TableName)
    ensures TableLookup(w, list, n).Some? ==> TableLookup(w, list, n).value in w.tables
  {
    if list != [] { LookupListed(w, list[1..], n); }
  }

  /** Each table goes to the front, so the last one of a name is found. */
  lemma {:induction false} LoadedLast(w: World, cs: seq<TableConfig>, n: TableName)
    requires NumbersBelow(w)
    ensures var r := LoadTables(w, cs);
            Backends(r, n) == if LastNamed(cs, n).Some? then LastNamed(cs, n) else Backends(w, n)
    decreases |cs|
  {
    if cs != [] {
      LoadTableFinds(w, cs[0], n);
      LoadedLast(LoadTable(w, cs[0]), cs[1..], n);
      LastOfRest(cs, n);
    }
  }

  lemma {:induction false} LastOfRest(cs: seq<TableConfig>, n: TableName)
    requires cs != []
    ensures LastNamed(cs, n) ==
            if LastNamed(cs[1..], n).Some? then LastNamed(cs[1..], n)
            else if cs[0].name == n then Some(cs[0].backends) else None
    decreases |cs|
  {
    var front := cs[..|cs| - 1];
    if |cs| > 1 && cs[|cs| - 1].name != n {
      LastOfRest(front, n);
      assert front[1..] == cs[1..][..|cs| - 2] && front[0] == cs[0];
    }
  }

  /** After start-up a name of the file serves its last definition; after a reload it is the first. */
  lemma BootServes(c: Config, socketOk: LId -> bool, n: TableName)
    ensures var r := Boot(c, socketOk);
            var t := TableLookup(r, r.runningTables, n);
            match LastNamed(c.tables, n)
            case None => t.None?
            case Some(backends) => t.Some? && t.value in r.tables && r.tables[t.value].backends == backends
  {
    var l := LoadConfig(EMPTY_WORLD, c);
    LoadListenersStore(EMPTY_WORLD, c.listeners);
    LoadedLast(LoadListeners(EMPTY_WORLD, c.listeners), c.tables, n);
    LookupListed(l, l.incomingTables, n);
    LookupByNames(l, Adopt(l), l.incomingTables, n);
    Adopted(c);
    BootTables(Adopt(l), 0, socketOk);
    SameLook(Adopt(l), Boot(c, socketOk), n);
  }

  lemma {:induction false} BootTables(w: World, i: nat, socketOk: LId -> bool)
    requires AllStored(w)
    ensures SameTables(w, InitAll(w, i, socketOk))
    decreases |w.running| - i
  {
    if i < |w.running| {
      var l := w.running[i];
      InitOne(w, l, socketOk(l));
      InitKeepsLists(w, l, socketOk(l));
      BootTables(InitListener(w, l, socketOk(l)), i + 1, socketOk);
    }
  }

  /** Reading the same file again changes what a name serves exactly if its first and last definitions differ. */
  lemma SameFileServes(c: Config, socketOk: LId -> bool, socketOk': LId -> bool, n: TableName)
    requires FirstNamed(c.tables, n).Some?
    ensures var w := Boot(c, socketOk);
            var r := ReloadConfig(w, Some(c), socketOk');
            var before, after := Look(w, n), Look(r, n);
            && before.Some? && before.value in w.tables && after.Some? && after.value in r.tables
            && (r.tables[after.value].backends == w.tables[before.value].backends <==>
                FirstNamed(c.tables, n) == LastNamed(c.tables, n))
  {
    BootGood(c, socketOk);
    BootServes(c, socketOk, n);
    NameServesFile(Boot(c, socketOk), c, socketOk', n, FirstNamed(c.tables, n).value);
    NamedBothWays(c.tables, n);
  }

  lemma {:induction false} NamedBothWays(cs: seq<TableConfig>, n: TableName)
    ensures FirstNamed(cs, n).Some? <==> LastNamed(cs, n).Some?
  {
    if cs != [] {
      NamedBothWays(cs[1..], n);
      LastOfRest(cs, n);
    }
  }
}
