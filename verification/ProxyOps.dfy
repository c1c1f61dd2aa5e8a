/** Every operation on listeners and tables keeps the reference counts exact. */
module ProxyOps {
  import opened Options
  import opened ProxyModel
  import opened ProxyRefs

  // ---------------------------------------------------------------- lists

  lemma WithoutMultiset(s: seq<nat>, i: nat)
    requires i < |s|
    ensures multiset(s) == multiset(Without(s, i)) + multiset{s[i]}
  {
    assert s == s[..i] + ([s[i]] + s[i + 1..]);
  }

  lemma InsertMultiset(s: seq<nat>, k: nat, x: nat)
    requires k <= |s|
    ensures multiset(InsertAt(s, k, x)) == multiset(s) + multiset{x}
  {
    assert s == s[..k] + s[k..];
  }

  /** Moving a listener between the lists and the hands of the operation. */
  lemma Relisted(w: World, running: seq<LId>, incoming: seq<LId>, conns: seq<LId>,
                 xl: multiset<LId>, xl': multiset<LId>, xt: multiset<TId>)
    requires Counted(w, xl, xt)
    requires multiset(running) + multiset(incoming) + multiset(conns) + xl' == Owners(w, xl)
    requires Shape(w.(running := running, incoming := incoming, conns := conns))
    ensures Counted(w.(running := running, incoming := incoming, conns := conns), xl', xt)
  {
    assert Owners(w.(running := running, incoming := incoming, conns := conns), xl') == Owners(w, xl);
    RelistedTables(w, running, incoming, conns, xt);
  }

  lemma RelistedTables(w: World, running: seq<LId>, incoming: seq<LId>, conns: seq<LId>, xt: multiset<TId>)
    requires TablesCounted(w, xt)
    ensures TablesCounted(w.(running := running, incoming := incoming, conns := conns), xt)
  {
    var w' := w.(running := running, incoming := incoming, conns := conns);
    forall t
      ensures TableOwners(w', t, xt) == TableOwners(w, t, xt)
    {
    }
  }

  /** Moving a table between the lists and the hands of the operation. */
  lemma TablesRelisted(w: World, running: seq<TId>, incoming: seq<TId>,
                       xl: multiset<LId>, xt: multiset<TId>, xt': multiset<TId>)
    requires Counted(w, xl, xt)
    requires multiset(running) + multiset(incoming) + xt' ==
             multiset(w.runningTables) + multiset(w.incomingTables) + xt
    requires Shape(w.(runningTables := running, incomingTables := incoming))
    ensures Counted(w.(runningTables := running, incomingTables := incoming), xl, xt')
  {
    var w' := w.(runningTables := running, incomingTables := incoming);
    assert Owners(w', xl) == Owners(w, xl);
    forall t
      ensures TableOwners(w', t, xt') == TableOwners(w, t, xt)
    {
      assert (multiset(running) + multiset(incoming) + xt')[t] ==
             (multiset(w.runningTables) + multiset(w.incomingTables) + xt)[t];
    }
  }

  /** Rewriting a listener; its table reference changes hands with the operation. */
  lemma Rewritten(w: World, l: LId, x: Listener, xl: multiset<LId>, xt: multiset<TId>, xt': multiset<TId>)
    requires Counted(w, xl, xt) && l in w.listeners && x.refs == w.listeners[l].refs
    requires xt' + HeldBy(x) == xt + HeldBy(w.listeners[l])
    requires Shape(w.(listeners := w.listeners[l := x]))
    ensures Counted(w.(listeners := w.listeners[l := x]), xl, xt')
  {
    assert Owners(w.(listeners := w.listeners[l := x]), xl) == Owners(w, xl);
    RewrittenTables(w, l, x, xt, xt');
  }

  lemma RewrittenTables(w: World, l: LId, x: Listener, xt: multiset<TId>, xt': multiset<TId>)
    requires TablesCounted(w, xt) && l in w.listeners
    requires xt' + HeldBy(x) == xt + HeldBy(w.listeners[l])
    ensures TablesCounted(w.(listeners := w.listeners[l := x]), xt')
  {
    var w' := w.(listeners := w.listeners[l := x]);
    forall t
      ensures TableOwners(w', t, xt') == TableOwners(w, t, xt)
    {
      HoldersUpdate(w.listeners, l, x, t);
      assert (xt' + HeldBy(x))[t] == (xt + HeldBy(w.listeners[l]))[t];
    }
  }

  // ---------------------------------------------------------------- single steps

  lemma {:induction false} LookupSound(w: World, list: seq<TId>, name: TableName)
    ensures TableLookup(w, list, name).Some? ==>
              var t := TableLookup(w, list, name).value;
              t in list && t in w.tables && w.tables[t].name == name
    ensures TableLookup(w, list, name).None? ==>
              forall t :: t in list && t in w.tables ==> w.tables[t].name != name
  {
    if list != [] { LookupSound(w, list[1..], name); }
  }

  lemma InitCounted(w: World, l: LId, socketOk: bool, xl: multiset<LId>, xt: multiset<TId>)
    requires Counted(w, xl, xt) && l in w.listeners && w.listeners[l].table.None? && l !in w.incoming
    ensures Counted(InitListener(w, l, socketOk), xl, xt)
  {
    var name := w.listeners[l].tableName;
    var table := TableLookup(w, w.runningTables, name);
    if table.Some? {
      LookupSound(w, w.runningTables, name);
      TableGetCounted(w, table.value, xl, xt);
      var w1 := TableRefGet(w, table.value);
      var x := w1.listeners[l].(table := table, open := socketOk);
      TableSetShape(w1, l, x);
      Rewritten(w1, l, x, xl, xt + multiset{table.value}, xt);
    }
  }

  lemma CloseCounted(w: World, l: LId, xl: multiset<LId>, xt: multiset<TId>)
    requires Counted(w, xl, xt) && l in w.listeners
    ensures Counted(CloseListener(w, l), xl, xt)
  {
    SettingsShape(w, l, w.listeners[l].(open := false));
    Rewritten(w, l, w.listeners[l].(open := false), xl, xt, xt);
  }

  /** Putting the old table before getting the new one is safe when the new one is listed. */
  lemma PutGetCommute(w: World, old': Option<TId>, t: TId)
    requires t in w.tables
    requires old'.Some? ==> old'.value in w.tables && w.tables[old'.value].refs > 0
    requires old' == Some(t) ==> w.tables[t].refs > 1
    ensures TableRefGet(TableRefPut(w, old'), t) == TableRefPut(TableRefGet(w, t), old')
  {
    if old'.Some? {
      var a, b := TableRefGet(TableRefPut(w, old'), t), TableRefPut(TableRefGet(w, t), old');
      assert a.tables == b.tables;
    }
  }

  lemma {:induction false} MemberCount(s: seq<nat>, x: nat)
    ensures x in s <==> multiset(s)[x] > 0
  {
    assert x in s <==> x in multiset(s);
  }

  /** A listed table held by a listener has at least two references. */
  lemma HeldAndListed(w: World, l: LId, t: TId, xl: multiset<LId>, xt: multiset<TId>)
    requires Counted(w, xl, xt) && l in w.listeners && w.listeners[l].table == Some(t)
    ensures t in w.tables && w.tables[t].refs > 0
    ensures t in w.runningTables ==> w.tables[t].refs > 1
  {
    assert l in Holders(w.listeners, t);
    assert |Holders(w.listeners, t)| > 0;
    assert TableOwners(w, t, xt) > 0;
    MemberCount(w.runningTables, t);
  }

  lemma TakeNewTable(w: World, e: LId, t: TId, x: Listener, xl: multiset<LId>, xt: multiset<TId>)
    requires Counted(w, xl, xt) && e in w.listeners && e !in w.incoming && t in w.tables
    requires x == w.listeners[e].(table := Some(t))
    ensures Counted(TableRefGet(w, t).(listeners := w.listeners[e := x]), xl, xt + HeldBy(w.listeners[e]))
  {
    TableGetCounted(w, t, xl, xt);
    TableSetShape(TableRefGet(w, t), e, x);
    Rewritten(TableRefGet(w, t), e, x, xl, xt + multiset{t}, xt + HeldBy(w.listeners[e]));
  }

  /** A listener that keeps its table, and opens no socket, keeps the shape. */
  lemma SettingsShape(w: World, e: LId, x: Listener)
    requires Shape(w) && e in w.listeners
    requires x.table == w.listeners[e].table && (x.open ==> w.listeners[e].open)
    ensures Shape(w.(listeners := w.listeners[e := x]))
  {
  }

  lemma TableSetShape(w: World, e: LId, x: Listener)
    requires Shape(w) && e in w.listeners && e !in w.incoming && x.table.Some?
    ensures Shape(w.(listeners := w.listeners[e := x]))
  {
  }

  /** The world after listener_update has exchanged the table of e for t. */
  function Exchanged(w: World, e: LId, t: TId): World
    requires e in w.listeners
  {
    var w2 := TableRefGet(TableRefPut(w, w.listeners[e].table), t);
    w2.(listeners := w2.listeners[e := w.listeners[e].(table := Some(t))])
  }

  lemma ExchangeOrder(w: World, e: LId, t: TId)
    requires e in w.listeners && t in w.tables
    requires var before := w.listeners[e].table;
             && (before.Some? ==> before.value in w.tables && w.tables[before.value].refs > 0)
             && (before == Some(t) ==> w.tables[t].refs > 1)
    ensures Exchanged(w, e, t) ==
            TableRefPut(TableRefGet(w, t).(listeners := w.listeners[e := w.listeners[e].(table := Some(t))]),
                        w.listeners[e].table)
  {
    var before, ls := w.listeners[e].table, w.listeners[e := w.listeners[e].(table := Some(t))];
    PutGetCommute(w, before, t);
    PutOnTablesOnly(TableRefGet(w, t), ls, before);
    GetOnTablesOnly(TableRefPut(w, before), t);
  }

  lemma GetOnTablesOnly(w: World, t: TId)
    ensures TableRefGet(w, t).listeners == w.listeners
  {
  }

  lemma PutOnTablesOnly(w: World, ls: map<LId, Listener>, table: Option<TId>)
    ensures TableRefPut(w.(listeners := ls), table) == TableRefPut(w, table).(listeners := ls)
  {
  }

  /** Exchanging the table of a listener: the new one taken, the old one dropped. */
  lemma ExchangeCounted(w: World, e: LId, t: TId, xl: multiset<LId>, xt: multiset<TId>)
    requires Counted(w, xl, xt) && e in w.listeners && e !in w.incoming && t in w.runningTables && t in w.tables
    ensures Counted(Exchanged(w, e, t), xl, xt)
  {
    var x := w.listeners[e].(table := Some(t));
    TakeNewTable(w, e, t, x, xl, xt);
    DropHeld(TableRefGet(w, t).(listeners := w.listeners[e := x]), w.listeners[e], xl, xt);
    var before := w.listeners[e].table;
    if before.Some? { HeldAndListed(w, e, before.value, xl, xt); }
    ExchangeOrder(w, e, t);
  }

  lemma UpdateCounted(w: World, e: LId, n: LId, xl: multiset<LId>, xt: multiset<TId>)
    requires Counted(w, xl, xt) && e in w.running && n in w.incoming
    ensures Counted(UpdateListener(w, e, n), xl, xt)
  {
    ListedDistinct(w, e, n, xl, xt);
    var x := w.listeners[e].(tableName := w.listeners[n].tableName, settings := w.listeners[n].settings);
    RenameCounted(w, e, x, xl, xt);
    var w1 := w.(listeners := w.listeners[e := x]);
    var table := TableLookup(w1, w1.runningTables, x.tableName);
    LookupSound(w1, w1.runningTables, x.tableName);
    if table.Some? {
      ExchangeCounted(w1, e, table.value, xl, xt);
      UpdateIsExchange(w, e, n, x, table.value);
    }
  }

  lemma RenameCounted(w: World, e: LId, x: Listener, xl: multiset<LId>, xt: multiset<TId>)
    requires Counted(w, xl, xt) && e in w.listeners
    requires x == w.listeners[e].(tableName := x.tableName, settings := x.settings)
    ensures Counted(w.(listeners := w.listeners[e := x]), xl, xt)
  {
    SettingsShape(w, e, x);
    Rewritten(w, e, x, xl, xt, xt);
  }

  lemma UpdateIsExchange(w: World, e: LId, n: LId, x: Listener, t: TId)
    requires e in w.listeners && n in w.listeners && e != n && w.listeners[n].table.None?
    requires x == w.listeners[e].(tableName := w.listeners[n].tableName, settings := w.listeners[n].settings)
    requires var w1 := w.(listeners := w.listeners[e := x]);
             TableLookup(w1, w1.runningTables, x.tableName) == Some(t)
    ensures UpdateListener(w, e, n) == Exchanged(w.(listeners := w.listeners[e := x]), e, t)
  {
    var w1 := w.(listeners := w.listeners[e := x]);
    UpdateLast(w, Exchanged(w1, e, t), e, n);
  }

  /** The new listener has no table yet, so the end of listener_update changes nothing. */
  lemma UpdateLast(w: World, w3: World, e: LId, n: LId)
    requires n in w.listeners && n != e && w.listeners[n].table.None?
    requires n in w3.listeners && w3.listeners[n] == w.listeners[n]
    ensures var w4 := TableRefPut(w3, w.listeners[n].table);
            w4.(listeners := w4.listeners[n := w.listeners[n].(table := None)]) == w3
  {
    assert w.listeners[n].(table := None) == w.listeners[n];
    assert w3.listeners[n := w.listeners[n]] == w3.listeners;
  }

  lemma ListedDistinct(w: World, e: LId, n: LId, xl: multiset<LId>, xt: multiset<TId>)
    requires Counted(w, xl, xt) && e in w.running && n in w.incoming
    ensures e != n && e in w.listeners && n in w.listeners && e !in w.incoming && w.listeners[n].table.None?
  {
    MemberCount(w.running, e);
    MemberCount(w.incoming, n);
    MemberCount(w.incoming, e);
    assert e in Owners(w, xl) && n in Owners(w, xl);
  }

  // ---------------------------------------------------------------- list operations

  /** Lists that only lose listeners keep their shape. */
  lemma ShapeShrinks(w: World, running: seq<LId>, incoming: seq<LId>)
    requires Shape(w)
    requires multiset(running) <= multiset(w.running) && multiset(incoming) <= multiset(w.incoming)
    ensures Shape(w.(running := running, incoming := incoming))
  {
    forall l | l in incoming
      ensures l in w.incoming
    {
      assert l in multiset(incoming);
      assert l in multiset(w.incoming);
    }
  }

  lemma UnlistIncoming(w: World, j: nat, xl: multiset<LId>, xt: multiset<TId>)
    requires Counted(w, xl, xt) && j < |w.incoming|
    ensures Counted(w.(incoming := Without(w.incoming, j)), xl + multiset{w.incoming[j]}, xt)
    ensures w.incoming[j] !in Without(w.incoming, j) && w.incoming[j] !in w.running
  {
    var n, rest := w.incoming[j], Without(w.incoming, j);
    WithoutMultiset(w.incoming, j);
    ShapeShrinks(w, w.running, rest);
    assert multiset(w.running) + multiset(rest) + multiset(w.conns) + (xl + multiset{n}) == Owners(w, xl);
    assert w.(incoming := rest) == w.(running := w.running, incoming := rest, conns := w.conns);
    Relisted(w, w.running, rest, w.conns, xl, xl + multiset{n}, xt);
    MemberCount(rest, n);
    MemberCount(w.running, n);
  }

  lemma ListRunning(w: World, k: nat, n: LId, xl: multiset<LId>, xt: multiset<TId>)
    requires Counted(w, xl + multiset{n}, xt) && k <= |w.running| && n !in w.running && n !in w.incoming
    ensures Counted(w.(running := InsertAt(w.running, k, n)), xl, xt)
  {
    var list := InsertAt(w.running, k, n);
    InsertMultiset(w.running, k, n);
    MemberCount(w.running, n);
    MemberCount(w.incoming, n);
    var w' := w.(running := list);
    assert multiset(list) + multiset(w.incoming) + multiset(w.conns) + xl == Owners(w, xl + multiset{n});
    assert w' == w.(running := list, incoming := w.incoming, conns := w.conns);
    Relisted(w, list, w.incoming, w.conns, xl + multiset{n}, xl, xt);
  }

  lemma MergeAddCounted(w: World, j: nat, k: nat, socketOk: bool, xl: multiset<LId>, xt: multiset<TId>)
    requires Counted(w, xl, xt) && j < |w.incoming| && k <= |w.running|
    ensures Counted(MergeAdd(w, j, k, socketOk), xl, xt)
  {
    var n := w.incoming[j];
    UnlistIncoming(w, j, xl, xt);
    var w1 := w.(incoming := Without(w.incoming, j));
    assert n in Owners(w1, xl + multiset{n});
    ListenerGetCounted(w1, n, xl + multiset{n}, xt);
    var g := ListenerRefGet(w1, n);
    ListRunning(g, k, n, xl + multiset{n}, xt);
    var w2 := g.(running := InsertAt(w.running, k, n));
    assert n in w.incoming && w2.listeners[n].table.None?;
    InitCounted(w2, n, socketOk, xl + multiset{n}, xt);
    ListenerPutCounted(InitListener(w2, n, socketOk), n, xl, xt);
  }

  lemma RemoveRunningCounted(w: World, i: nat, xl: multiset<LId>, xt: multiset<TId>)
    requires Counted(w, xl, xt) && i < |w.running|
    ensures Counted(RemoveRunning(w, i), xl, xt)
  {
    var l, rest := w.running[i], Without(w.running, i);
    assert l in Owners(w, xl);
    CloseCounted(w, l, xl, xt);
    var c := CloseListener(w, l);
    WithoutMultiset(w.running, i);
    ShapeShrinks(c, rest, c.incoming);
    assert multiset(rest) + multiset(c.incoming) + multiset(c.conns) + (xl + multiset{l}) == Owners(c, xl);
    assert c.(running := rest) == c.(running := rest, incoming := c.incoming, conns := c.conns);
    Relisted(c, rest, c.incoming, c.conns, xl, xl + multiset{l}, xt);
    ListenerPutCounted(c.(running := rest), l, xl, xt);
  }

  lemma RemoveIncomingCounted(w: World, xl: multiset<LId>, xt: multiset<TId>)
    requires Counted(w, xl, xt) && w.incoming != []
    ensures Counted(RemoveIncoming(w), xl, xt)
  {
    var l := w.incoming[0];
    assert l in Owners(w, xl);
    CloseCounted(w, l, xl, xt);
    var c := CloseListener(w, l);
    assert Without(c.incoming, 0) == w.incoming[1..];
    UnlistIncoming(c, 0, xl, xt);
    ListenerPutCounted(c.(incoming := w.incoming[1..]), l, xl, xt);
  }

  // ---------------------------------------------------------------- table lists

  lemma UnlistTable(w: World, i: nat, xl: multiset<LId>, xt: multiset<TId>)
    requires Counted(w, xl, xt) && i < |w.runningTables|
    ensures Counted(TableRefPut(w.(runningTables := Without(w.runningTables, i)), Some(w.runningTables[i])), xl, xt)
  {
    var t, rest := w.runningTables[i], Without(w.runningTables, i);
    WithoutMultiset(w.runningTables, i);
    var w' := w.(runningTables := rest);
    assert w' == w.(runningTables := rest, incomingTables := w.incomingTables);
    TablesRelisted(w, rest, w.incomingTables, xl, xt, xt + multiset{t});
    TablePutCounted(w', t, xl, xt);
  }

  lemma UnlistIncomingTable(w: World, xl: multiset<LId>, xt: multiset<TId>)
    requires Counted(w, xl, xt) && w.incomingTables != []
    ensures Counted(w.(incomingTables := w.incomingTables[1..]), xl, xt + multiset{w.incomingTables[0]})
  {
    var t, rest := w.incomingTables[0], w.incomingTables[1..];
    assert Without(w.incomingTables, 0) == rest;
    WithoutMultiset(w.incomingTables, 0);
    var w' := w.(incomingTables := rest);
    assert w' == w.(runningTables := w.runningTables, incomingTables := rest);
    TablesRelisted(w, w.runningTables, rest, xl, xt, xt + multiset{t});
  }

  lemma FirstIncomingTable(w: World, xl: multiset<LId>, xt: multiset<TId>)
    requires Counted(w, xl, xt) && w.incomingTables != []
    ensures var t := w.incomingTables[0];
            t in w.tables && t !in w.runningTables && t !in w.incomingTables[1..]
  {
    var t, rest := w.incomingTables[0], w.incomingTables[1..];
    assert w.incomingTables == [t] + rest;
    assert multiset(w.incomingTables) == multiset{t} + multiset(rest);
    assert TableOwners(w, t, xt) > 0;
    MemberCount(w.runningTables, t);
    MemberCount(rest, t);
  }

  lemma ListTable(w: World, t: TId, xl: multiset<LId>, xt: multiset<TId>)
    requires Counted(w, xl, xt + multiset{t}) && t !in w.runningTables && t !in w.incomingTables
    ensures Counted(w.(runningTables := [t] + w.runningTables), xl, xt)
  {
    var list := [t] + w.runningTables;
    assert multiset(list) == multiset(w.runningTables) + multiset{t};
    MemberCount(w.runningTables, t);
    MemberCount(w.incomingTables, t);
    var w' := w.(runningTables := list);
    assert w' == w.(runningTables := list, incomingTables := w.incomingTables);
    TablesRelisted(w, list, w.incomingTables, xl, xt + multiset{t}, xt);
  }

  lemma AddTableCounted(w: World, t: TId, xl: multiset<LId>, xt: multiset<TId>)
    requires Counted(w, xl, xt) && t in w.tables && t !in w.runningTables && t !in w.incomingTables
    ensures Counted(AddTable(w, t), xl, xt)
  {
    TableGetCounted(w, t, xl, xt);
    ListTable(TableRefGet(w, t), t, xl, xt);
    assert AddTable(w, t) == TableRefGet(w, t).(runningTables := [t] + w.runningTables);
  }

  lemma SwapCounted(w: World, a: TId, b: TId, xl: multiset<LId>, xt: multiset<TId>)
    requires Counted(w, xl, xt) && a in w.tables && b in w.tables
    ensures Counted(SwapBackends(w, a, b), xl, xt)
  {
    var w' := SwapBackends(w, a, b);
    TablesChanged(w, w'.tables, xl);
    forall t
      ensures TableOwners(w', t, xt) == TableOwners(w, t, xt)
    {
    }
  }

  lemma InstallTableCounted(w: World, xl: multiset<LId>, xt: multiset<TId>)
    requires Counted(w, xl, xt) && w.incomingTables != []
    ensures Counted(InstallTable(w), xl, xt)
  {
    var t := w.incomingTables[0];
    var w1 := w.(incomingTables := w.incomingTables[1..]);
    UnlistIncomingTable(w, xl, xt);
    FirstIncomingTable(w, xl, xt);
    var existing := TableLookup(w1, w1.runningTables, NameOf(w1, t));
    LookupSound(w1, w1.runningTables, NameOf(w1, t));
    if existing.Some? {
      SwapCounted(w1, existing.value, t, xl, xt + multiset{t});
      TablePutCounted(SwapBackends(w1, existing.value, t), t, xl, xt);
    } else {
      AddTableCounted(w1, t, xl, xt + multiset{t});
      TablePutCounted(AddTable(w1, t), t, xl, xt);
    }
  }
}
