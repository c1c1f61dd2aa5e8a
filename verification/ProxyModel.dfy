/**
 * Listeners, tables and the connections that refer to them, with their reference counts:
 * listener.c, table.c and config.c over an explicit store. An object that is freed leaves
 * the store; reaching for one that is not there, or counting below zero, is a fault.
 */
module ProxyModel {
  import opened Bits
  import opened Options
  import opened Addresses

  type LId = nat
  type TId = nat

  /** A table name; the default table has none. */
  type TableName = Option<seq<byte>>

  /** settings identifies the objects listener_update moves besides the table, such as the fallback. */
  datatype Listener = Listener(
    address: Addr, tableName: TableName, settings: nat,
    table: Option<TId>, refs: nat, open: bool)

  /** backends lists the identities of the backend objects. */
  datatype Table = Table(name: TableName, backends: seq<nat>, refs: nat)

  /** running lists belong to the active configuration, incoming ones to a new configuration. */
  datatype World = World(
    listeners: map<LId, Listener>, tables: map<TId, Table>,
    running: seq<LId>, runningTables: seq<TId>,
    incoming: seq<LId>, incomingTables: seq<TId>,
    conns: seq<LId>,
    nextId: nat, fault: bool)

  const NO_ADDRESS: Addr := Addr(Wildcard, [], 0)

  function AddressOf(w: World, l: LId): Addr {
    if l in w.listeners then w.listeners[l].address else NO_ADDRESS
  }

  function NameOf(w: World, t: TId): TableName {
    if t in w.tables then w.tables[t].name else None
  }

  function Without<T>(s: seq<T>, i: nat): (r: seq<T>)
    requires i < |s|
    ensures |r| == |s| - 1
  {
    s[..i] + s[i + 1..]
  }

  function InsertAt<T>(s: seq<T>, k: nat, x: T): (r: seq<T>)
    requires k <= |s|
    ensures |r| == |s| + 1
  {
    s[..k] + [x] + s[k..]
  }

  // ---------------------------------------------------------------- reference counts

  function TableRefGet(w: World, t: TId): World {
    if t !in w.tables then w.(fault := true)
    else w.(tables := w.tables[t := w.tables[t].(refs := w.tables[t].refs + 1)])
  }

  function TableRefPut(w: World, table: Option<TId>): World {
    if table.None? then w
    else
      var t := table.value;
      if t !in w.tables || w.tables[t].refs == 0 then w.(fault := true)
      else if w.tables[t].refs == 1 then w.(tables := w.tables - {t})
      else w.(tables := w.tables[t := w.tables[t].(refs := w.tables[t].refs - 1)])
  }

  function ListenerRefGet(w: World, l: LId): World {
    if l !in w.listeners then w.(fault := true)
    else w.(listeners := w.listeners[l := w.listeners[l].(refs := w.listeners[l].refs + 1)])
  }

  function FreeListener(w: World, l: LId): World
    requires l in w.listeners
  {
    TableRefPut(w.(listeners := w.listeners - {l}), w.listeners[l].table)
  }

  function ListenerRefPut(w: World, l: LId): World {
    if l !in w.listeners || w.listeners[l].refs == 0 then w.(fault := true)
    else if w.listeners[l].refs == 1 then FreeListener(w, l)
    else w.(listeners := w.listeners[l := w.listeners[l].(refs := w.listeners[l].refs - 1)])
  }

  // ---------------------------------------------------------------- tables

  /** table_lookup: the first table of that name in a list. */
  function TableLookup(w: World, list: seq<TId>, name: TableName): Option<TId> {
    if list == [] then None
    else if list[0] in w.tables && w.tables[list[0]].name == name then Some(list[0])
    else TableLookup(w, list[1..], name)
  }

  predicate Used(w: World, t: TId) {
    TableLookup(w, w.incomingTables, NameOf(w, t)).Some?
  }

  /** First loop of reload_tables: unused tables at the beginning of the list. */
  function DropLeading(w: World): World
    decreases |w.runningTables|
  {
    if w.runningTables == [] || Used(w, w.runningTables[0]) then w
    else DropLeading(TableRefPut(w.(runningTables := w.runningTables[1..]), Some(w.runningTables[0])))
  }

  /** One turn of the second loop: the node after the i-th is removed if unused. */
  function FollowStep(w: World, i: nat): (r: World)
    requires i < |w.runningTables|
    ensures |r.runningTables| <= |w.runningTables|
  {
    if i + 1 < |w.runningTables| && !Used(w, w.runningTables[i + 1])
    then TableRefPut(w.(runningTables := Without(w.runningTables, i + 1)), Some(w.runningTables[i + 1]))
    else w
  }

  /** Second loop: after a removal the walk steps onto the node that moved up, unchecked. */
  function DropFollowing(w: World, i: nat): World
    decreases |w.runningTables| - i
  {
    if i >= |w.runningTables| then w else DropFollowing(FollowStep(w, i), i + 1)
  }

  function SwapBackends(w: World, a: TId, b: TId): World {
    if a !in w.tables || b !in w.tables then w.(fault := true)
    else
      var ta, tb := w.tables[a], w.tables[b];
      w.(tables := w.tables[a := ta.(backends := tb.backends)][b := tb.(backends := ta.backends)])
  }

  function AddTable(w: World, t: TId): World {
    TableRefGet(w.(runningTables := [t] + w.runningTables), t)
  }

  /** One turn of the third loop: the first incoming table is merged into the running list. */
  function InstallTable(w: World): World
    requires w.incomingTables != []
  {
    var t := w.incomingTables[0];
    var w1 := w.(incomingTables := w.incomingTables[1..]);
    var existing := TableLookup(w1, w1.runningTables, NameOf(w1, t));
    var w2 := if existing.Some? then SwapBackends(w1, existing.value, t) else AddTable(w1, t);
    TableRefPut(w2, Some(t))
  }

  function InstallTables(w: World): World
    decreases |w.incomingTables|
  {
    if w.incomingTables == [] then w else InstallTables(InstallTable(w))
  }

  function ReloadTables(w: World): World {
    InstallTables(DropFollowing(DropLeading(w), 0))
  }

  // ---------------------------------------------------------------- listeners

  /** Where add_listener puts a listener: before the first larger address. */
  function Position(w: World, list: seq<LId>, a: Addr): (k: nat)
    ensures k <= |list|
  {
    if list == [] || Compare(a, AddressOf(w, list[0])) < 0 then 0 else 1 + Position(w, list[1..], a)
  }

  /** The table part of init_listener, then the socket: one success or failure. */
  function InitListener(w: World, l: LId, socketOk: bool): World {
    if l !in w.listeners then w.(fault := true)
    else
      var table := TableLookup(w, w.runningTables, w.listeners[l].tableName);
      if table.None? then w
      else
        var w1 := TableRefGet(w, table.value);
        w1.(listeners := w1.listeners[l := w1.listeners[l].(table := table, open := socketOk)])
  }

  function CloseListener(w: World, l: LId): World {
    if l !in w.listeners then w.(fault := true)
    else w.(listeners := w.listeners[l := w.listeners[l].(open := false)])
  }

  /** listener_update: the new settings and table move into the existing listener. */
  function UpdateListener(w: World, e: LId, n: LId): World {
    if e !in w.listeners || n !in w.listeners then w.(fault := true)
    else
      var w1 := w.(listeners := w.listeners[e := w.listeners[e].(
        tableName := w.listeners[n].tableName, settings := w.listeners[n].settings)]);
      var table := TableLookup(w1, w1.runningTables, w1.listeners[e].tableName);
      if table.None? then w1
      else
        var w2 := TableRefGet(TableRefPut(w1, w1.listeners[e].table), table.value);
        var w3 := w2.(listeners := w2.listeners[e := w1.listeners[e].(table := table)]);
        var w4 := TableRefPut(w3, w.listeners[n].table);
        w4.(listeners := w4.listeners[n := w.listeners[n].(table := None)])
  }

  /** The added case of listeners_reload; k is where add_listener inserts. */
  function MergeAdd(w: World, j: nat, k: nat, socketOk: bool): World
    requires j < |w.incoming| && k <= |w.running|
  {
    var n := w.incoming[j];
    var w1 := w.(incoming := Without(w.incoming, j));
    var w2 := ListenerRefGet(w1, n).(running := InsertAt(w.running, k, n));
    ListenerRefPut(InitListener(w2, n, socketOk), n)
  }

  /** remove_listener, for the i-th running listener. */
  function RemoveRunning(w: World, i: nat): World
    requires i < |w.running|
  {
    var l := w.running[i];
    ListenerRefPut(CloseListener(w, l).(running := Without(w.running, i)), l)
  }

  /** remove_listener, for the first incoming listener. */
  function RemoveIncoming(w: World): World
    requires w.incoming != []
  {
    var l := w.incoming[0];
    ListenerRefPut(CloseListener(w, l).(incoming := w.incoming[1..]), l)
  }

  // ---------------------------------------------------------------- the merge

  /** The comparison listeners_reload acts on; a list that is used up compares as larger. */
  function MergeCompare(w: World, i: nat, j: nat): int
    requires i <= |w.running| && j <= |w.incoming|
  {
    if i == |w.running| then 1
    else if j == |w.incoming| then -1
    else Compare(AddressOf(w, w.running[i]), AddressOf(w, w.incoming[j]))
  }

  /** Reference counting and rewriting never touch a list. */
  predicate SameLists(a: World, b: World) {
    && a.running == b.running && a.incoming == b.incoming && a.conns == b.conns
    && a.runningTables == b.runningTables && a.incomingTables == b.incomingTables
    && a.nextId == b.nextId
  }

  lemma CountsKeepLists(w: World, l: LId, table: Option<TId>)
    ensures SameLists(w, TableRefPut(w, table))
    ensures SameLists(w, ListenerRefGet(w, l)) && SameLists(w, ListenerRefPut(w, l))
  {
  }

  lemma InitKeepsLists(w: World, l: LId, socketOk: bool)
    ensures SameLists(w, InitListener(w, l, socketOk))
  {
  }

  lemma TablesKeepLists(w: World, table: Option<TId>, t: TId)
    ensures SameLists(w, TableRefGet(TableRefPut(w, table), t))
    ensures TableRefGet(TableRefPut(w, table), t).listeners == w.listeners
  {
  }

  lemma UpdateKeepsLists(w: World, e: LId, n: LId)
    ensures SameLists(w, UpdateListener(w, e, n))
  {
    if e in w.listeners && n in w.listeners {
      var x := w.listeners[e].(tableName := w.listeners[n].tableName, settings := w.listeners[n].settings);
      var w1 := w.(listeners := w.listeners[e := x]);
      var table := TableLookup(w1, w1.runningTables, x.tableName);
      if table.Some? {
        TablesKeepLists(w1, x.table, table.value);
        var w2 := TableRefGet(TableRefPut(w1, x.table), table.value);
        var w3 := w2.(listeners := w2.listeners[e := x.(table := table)]);
        CountsKeepLists(w3, n, w.listeners[n].table);
      }
    }
  }

  lemma ListsAfterAdd(w: World, j: nat, k: nat, socketOk: bool)
    requires j < |w.incoming| && k <= |w.running|
    ensures var a := MergeAdd(w, j, k, socketOk);
            SameLists(a, w.(running := InsertAt(w.running, k, w.incoming[j]), incoming := Without(w.incoming, j)))
  {
    var n := w.incoming[j];
    var w1 := w.(incoming := Without(w.incoming, j));
    CountsKeepLists(w1, n, None);
    var w2 := ListenerRefGet(w1, n).(running := InsertAt(w.running, k, n));
    InitKeepsLists(w2, n, socketOk);
    CountsKeepLists(InitListener(w2, n, socketOk), n, None);
  }

  lemma ListsAfterRemove(w: World, i: nat)
    requires i < |w.running|
    ensures SameLists(RemoveRunning(w, i), w.(running := Without(w.running, i)))
  {
    var l := w.running[i];
    CountsKeepLists(CloseListener(w, l).(running := Without(w.running, i)), l, None);
  }

  /** Where listeners_reload stands: position i of the running list, j of the incoming one. */
  datatype Cursor = Cursor(w: World, i: nat, j: nat) {
    predicate Ok() { i <= |w.running| && j <= |w.incoming| }
    predicate Done() { i == |w.running| && j == |w.incoming| }
    function Left(): int { |w.running| - i + 2 * (|w.incoming| - j) }
  }

  /**
   * One turn of the loop of listeners_reload. The list being walked grows: the current
   * node keeps its place in the walk when a listener is inserted before it.
   */
  function MergeStep(c: Cursor, socketOk: LId -> bool): (r: Cursor)
    requires c.Ok() && !c.Done()
    ensures r.Ok() && r.Left() < c.Left()
  {
    var w, i, j := c.w, c.i, c.j;
    var order := MergeCompare(w, i, j);
    if order > 0 then
      var n := w.incoming[j];
      var k := Position(w, w.running, AddressOf(w, n));
      ListsAfterAdd(w, j, k, socketOk(n));
      Cursor(MergeAdd(w, j, k, socketOk(n)), if k <= i then i + 1 else i, j)
    else if order == 0 then
      UpdateKeepsLists(w, w.running[i], w.incoming[j]);
      Cursor(UpdateListener(w, w.running[i], w.incoming[j]), i + 1, j + 1)
    else
      ListsAfterRemove(w, i);
      Cursor(RemoveRunning(w, i), i, j)
  }

  function Merge(c: Cursor, socketOk: LId -> bool): World
    requires c.Ok()
    decreases c.Left()
  {
    if c.Done() then c.w else Merge(MergeStep(c, socketOk), socketOk)
  }

  function ListenersReload(w: World, socketOk: LId -> bool): World {
    Merge(Cursor(w, 0, 0), socketOk)
  }

  // ---------------------------------------------------------------- what counts as a fault

  /** Using a listener or a table that is not in the store is a fault, and so is a count below zero. */
  lemma MissingIsFault(w: World, l: LId, n: LId, t: TId, u: TId, socketOk: bool)
    ensures l !in w.listeners ==>
              && ListenerRefGet(w, l).fault && ListenerRefPut(w, l).fault && InitListener(w, l, socketOk).fault
              && CloseListener(w, l).fault && UpdateListener(w, l, n).fault && UpdateListener(w, n, l).fault
    ensures t !in w.tables ==>
              && TableRefGet(w, t).fault && TableRefPut(w, Some(t)).fault
              && SwapBackends(w, t, u).fault && SwapBackends(w, u, t).fault
    ensures l in w.listeners && w.listeners[l].refs == 0 ==> ListenerRefPut(w, l).fault
    ensures t in w.tables && w.tables[t].refs == 0 ==> TableRefPut(w, Some(t)).fault
  {
  }
}
