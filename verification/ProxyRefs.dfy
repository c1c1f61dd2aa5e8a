/**
 * Exact reference counts. The invariant carries two multisets of extra references, those
 * held by the operation in progress; between operations both are empty.
 */
module ProxyRefs {
  import opened Options
  import opened ProxyModel

  /** Everything that counts as a reference to a listener. */
  ghost function Owners(w: World, xl: multiset<LId>): multiset<LId> {
    multiset(w.running) + multiset(w.incoming) + multiset(w.conns) + xl
  }

  /** The listeners that hold a table. */
  ghost function Holders(ls: map<LId, Listener>, t: TId): set<LId> {
    set l | l in ls && ls[l].table == Some(t)
  }

  /** How many references a table should have. */
  ghost function TableOwners(w: World, t: TId, xt: multiset<TId>): nat {
    multiset(w.runningTables)[t] + multiset(w.incomingTables)[t] + |Holders(w.listeners, t)| + xt[t]
  }

  ghost predicate ListenersCounted(w: World, xl: multiset<LId>) {
    && (forall l :: l in w.listeners <==> l in Owners(w, xl))
    && (forall l :: l in w.listeners ==> w.listeners[l].refs == Owners(w, xl)[l])
  }

  ghost predicate TablesCounted(w: World, xt: multiset<TId>) {
    && (forall t :: t in w.tables <==> TableOwners(w, t, xt) > 0)
    && (forall t :: t in w.tables ==> w.tables[t].refs == TableOwners(w, t, xt))
  }

  /** Each object is in at most one list, once; ids are below the next free one. */
  ghost predicate ListsDistinct(w: World) {
    && (forall l :: multiset(w.running)[l] + multiset(w.incoming)[l] <= 1)
    && (forall t :: multiset(w.runningTables)[t] + multiset(w.incomingTables)[t] <= 1)
    && (forall l :: l in w.listeners ==> l < w.nextId)
    && (forall t :: t in w.tables ==> t < w.nextId)
  }

  /** Accepting listeners and the listeners of connections have a table; new ones none yet. */
  ghost predicate TablesAttached(w: World) {
    && (forall l :: l in w.listeners && w.listeners[l].open ==> w.listeners[l].table.Some?)
    && (forall l :: l in w.listeners && l in w.conns ==> w.listeners[l].table.Some?)
    && (forall l :: l in w.listeners && l in w.incoming ==> w.listeners[l].table.None?)
  }

  ghost predicate Shape(w: World) {
    !w.fault && ListsDistinct(w) && TablesAttached(w)
  }

  ghost predicate Counted(w: World, xl: multiset<LId>, xt: multiset<TId>) {
    Shape(w) && ListenersCounted(w, xl) && TablesCounted(w, xt)
  }

  /** The invariant between operations. */
  ghost predicate Inv(w: World) {
    Counted(w, multiset{}, multiset{}) && w.incoming == [] && w.incomingTables == []
  }

  // ---------------------------------------------------------------- holders

  lemma HoldersUpdate(ls: map<LId, Listener>, l: LId, x: Listener, t: TId)
    requires l in ls
    ensures var before := if ls[l].table == Some(t) then 1 else 0;
            var after := if x.table == Some(t) then 1 else 0;
            |Holders(ls[l := x], t)| == |Holders(ls, t)| - before + after
  {
    var h, h' := Holders(ls, t), Holders(ls[l := x], t);
    assert h - {l} == h' - {l};
    CardOf(h, l);
    CardOf(h', l);
  }

  lemma HoldersRemove(ls: map<LId, Listener>, l: LId, t: TId)
    requires l in ls
    ensures |Holders(ls - {l}, t)| == |Holders(ls, t)| - if ls[l].table == Some(t) then 1 else 0
  {
    var h, h' := Holders(ls, t), Holders(ls - {l}, t);
    assert h - {l} == h';
    CardOf(h, l);
  }

  lemma HoldersAdd(ls: map<LId, Listener>, l: LId, x: Listener, t: TId)
    requires l !in ls
    ensures |Holders(ls[l := x], t)| == |Holders(ls, t)| + if x.table == Some(t) then 1 else 0
  {
    var h, h' := Holders(ls, t), Holders(ls[l := x], t);
    assert h == h' - {l};
    CardOf(h', l);
  }

  lemma CardOf(s: set<LId>, l: LId)
    ensures |s| == |s - {l}| + if l in s then 1 else 0
  {
    if l in s { assert s == (s - {l}) + {l}; } else { assert s == s - {l}; }
  }

  // ---------------------------------------------------------------- taking and dropping references

  /** Changing counts of tables, or dropping some, leaves the listeners alone. */
  lemma TablesChanged(w: World, tables: map<TId, Table>, xl: multiset<LId>)
    requires Shape(w) && ListenersCounted(w, xl) && tables.Keys <= w.tables.Keys
    ensures var w' := w.(tables := tables); Shape(w') && ListenersCounted(w', xl)
  {
    assert Owners(w.(tables := tables), xl) == Owners(w, xl);
  }

  lemma TableGetTables(w: World, t: TId, xt: multiset<TId>)
    requires TablesCounted(w, xt) && t in w.tables
    ensures TablesCounted(TableRefGet(w, t), xt + multiset{t})
  {
    var w' := TableRefGet(w, t);
    forall u
      ensures TableOwners(w', u, xt + multiset{t}) == TableOwners(w, u, xt) + if u == t then 1 else 0
    {
    }
  }

  lemma TableGetCounted(w: World, t: TId, xl: multiset<LId>, xt: multiset<TId>)
    requires Counted(w, xl, xt) && t in w.tables
    ensures Counted(TableRefGet(w, t), xl, xt + multiset{t})
  {
    TableGetTables(w, t, xt);
    TablesChanged(w, TableRefGet(w, t).tables, xl);
  }

  lemma TablePutTables(w: World, t: TId, xt: multiset<TId>)
    requires TablesCounted(w, xt + multiset{t}) && !w.fault
    ensures var w' := TableRefPut(w, Some(t));
            && TablesCounted(w', xt)
            && w'.tables.Keys <= w.tables.Keys && w' == w.(tables := w'.tables)
  {
    var w' := TableRefPut(w, Some(t));
    assert TableOwners(w, t, xt + multiset{t}) > 0;
    forall u
      ensures TableOwners(w', u, xt) == TableOwners(w, u, xt + multiset{t}) - if u == t then 1 else 0
    {
    }
  }

  lemma TablePutCounted(w: World, t: TId, xl: multiset<LId>, xt: multiset<TId>)
    requires Counted(w, xl, xt + multiset{t})
    ensures Counted(TableRefPut(w, Some(t)), xl, xt)
  {
    TablePutTables(w, t, xt);
    TablesChanged(w, TableRefPut(w, Some(t)).tables, xl);
  }

  /** Changing the count of a listener that keeps its table. */
  lemma RefsChanged(w: World, l: LId, refs: nat, xt: multiset<TId>)
    requires Shape(w) && TablesCounted(w, xt) && l in w.listeners
    ensures var w' := w.(listeners := w.listeners[l := w.listeners[l].(refs := refs)]);
            Shape(w') && TablesCounted(w', xt)
  {
    var w' := w.(listeners := w.listeners[l := w.listeners[l].(refs := refs)]);
    forall t
      ensures TableOwners(w', t, xt) == TableOwners(w, t, xt)
    {
      HoldersUpdate(w.listeners, l, w'.listeners[l], t);
    }
  }

  lemma ListenerGetCounted(w: World, l: LId, xl: multiset<LId>, xt: multiset<TId>)
    requires Counted(w, xl, xt) && l in w.listeners
    ensures Counted(ListenerRefGet(w, l), xl + multiset{l}, xt)
  {
    var w' := ListenerRefGet(w, l);
    RefsChanged(w, l, w'.listeners[l].refs, xt);
    assert Owners(w', xl + multiset{l}) == Owners(w, xl) + multiset{l};
  }

  /** The reference a listener holds on its table. */
  ghost function HeldBy(x: Listener): multiset<TId> {
    if x.table.Some? then multiset{x.table.value} else multiset{}
  }

  lemma DropTables(w: World, l: LId, xt: multiset<TId>)
    requires TablesCounted(w, xt) && l in w.listeners
    ensures TablesCounted(w.(listeners := w.listeners - {l}), xt + HeldBy(w.listeners[l]))
  {
    var w' := w.(listeners := w.listeners - {l});
    forall t
      ensures TableOwners(w', t, xt + HeldBy(w.listeners[l])) == TableOwners(w, t, xt)
    {
      HoldersRemove(w.listeners, l, t);
    }
  }

  lemma LastPutCounted(w: World, l: LId, xl: multiset<LId>, xt: multiset<TId>)
    requires Counted(w, xl + multiset{l}, xt) && l in w.listeners && w.listeners[l].refs == 1
    ensures Counted(w.(listeners := w.listeners - {l}), xl, xt + HeldBy(w.listeners[l]))
  {
    var w' := w.(listeners := w.listeners - {l});
    DropTables(w, l, xt);
    assert Shape(w');
    assert Owners(w', xl) + multiset{l} == Owners(w, xl + multiset{l});
  }

  /** Dropping the reference that x held on its table. */
  lemma DropHeld(w: World, x: Listener, xl: multiset<LId>, xt: multiset<TId>)
    requires Counted(w, xl, xt + HeldBy(x))
    ensures Counted(TableRefPut(w, x.table), xl, xt)
  {
    if x.table.Some? {
      TablePutCounted(w, x.table.value, xl, xt);
    } else {
      assert xt + HeldBy(x) == xt;
    }
  }

  lemma FreeCounted(w: World, l: LId, xl: multiset<LId>, xt: multiset<TId>)
    requires Counted(w, xl + multiset{l}, xt) && l in w.listeners && w.listeners[l].refs == 1
    ensures Counted(FreeListener(w, l), xl, xt)
  {
    LastPutCounted(w, l, xl, xt);
    DropHeld(w.(listeners := w.listeners - {l}), w.listeners[l], xl, xt);
  }

  lemma PutOneCounted(w: World, l: LId, xl: multiset<LId>, xt: multiset<TId>)
    requires Counted(w, xl + multiset{l}, xt) && l in w.listeners && w.listeners[l].refs > 1
    ensures Counted(ListenerRefPut(w, l), xl, xt)
  {
    RefsChanged(w, l, w.listeners[l].refs - 1, xt);
    PutOneOwners(w, l, xl);
  }

  lemma PutOneOwners(w: World, l: LId, xl: multiset<LId>)
    requires ListenersCounted(w, xl + multiset{l}) && l in w.listeners && w.listeners[l].refs > 1
    ensures ListenersCounted(ListenerRefPut(w, l), xl)
  {
    var w' := ListenerRefPut(w, l);
    forall m
      ensures Owners(w, xl + multiset{l})[m] == Owners(w', xl)[m] + if m == l then 1 else 0
    {
    }
  }

  lemma ListenerPutCounted(w: World, l: LId, xl: multiset<LId>, xt: multiset<TId>)
    requires Counted(w, xl + multiset{l}, xt)
    ensures Counted(ListenerRefPut(w, l), xl, xt)
  {
    assert l in Owners(w, xl + multiset{l});
    assert w.listeners[l].refs > 0;
    if w.listeners[l].refs == 1 {
      FreeCounted(w, l, xl, xt);
    } else {
      PutOneCounted(w, l, xl, xt);
    }
  }
}
