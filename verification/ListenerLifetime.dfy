/**
 * What a reload makes of every listener: the p-th running listener has the name, settings,
 * table and socket that the p-th listener of the new configuration calls for; one that
 * only connections hold keeps what it had. The number of the settings is the identity of
 * the objects listener_update moves, the fallback address among them.
 */
module ListenerLifetime {
  import opened Options
  import opened Addresses
  import opened ProxyModel
  import opened ProxyRefs
  import opened ProxyOps
  import opened ListenerMerge
  import opened TableReload
  import opened ProxyRuns
  import opened ReloadServes

  // ---------------------------------------------------------------- records through the merge

  /** What counts of a listener here. */
  datatype Summary = Summary(tableName: TableName, settings: nat, table: Option<TId>, open: bool)

  function SummaryOf(x: Listener): Summary { Summary(x.tableName, x.settings, x.table, x.open) }

  /** The merge, seen from its beginning: both lists, every record, lookups and sockets. */
  datatype Plan = Plan(before: seq<LId>, nw: seq<LId>, orig: LId -> Option<Summary>,
                       look: TableName -> Option<TId>, socketOk: LId -> bool)
  {
    /** The record of listener m, matched with the new listener n, or m itself new. */
    ghost predicate IsMatched(x: Summary, m: LId, n: LId) {
      && orig(m).Some? && orig(n).Some?
      && var name, found := orig(n).value.tableName, look(orig(n).value.tableName).Some?;
         x == Summary(name, orig(n).value.settings,
                      if found then look(name) else orig(m).value.table,
                      if found && m == n then socketOk(n) else orig(m).value.open)
    }

    /** The record of a listener that was not matched, or not yet; if removed its socket is closed. */
    ghost predicate IsUnmatched(x: Summary, m: LId, removed: bool) {
      orig(m).Some? && x == if removed then orig(m).value.(open := false) else orig(m).value
    }
  }

  ghost predicate PassedOk(w: World, i: nat, p: Plan) {
    forall k :: 0 <= k < i && k < |w.running| && k < |p.nw| && w.running[k] in w.listeners ==>
      p.IsMatched(SummaryOf(w.listeners[w.running[k]]), w.running[k], p.nw[k])
  }

  ghost predicate OthersOk(w: World, i: nat, p: Plan)
    requires i <= |w.running|
  {
    forall m :: m in w.listeners && m !in w.running[..i] ==>
      p.IsUnmatched(SummaryOf(w.listeners[m]), m, m in p.before && m !in w.running)
  }

  ghost predicate ListsOk(running: seq<LId>, incoming: seq<LId>, i: nat, j: nat, p: Plan) {
    && i <= |running| && j <= |incoming| && i <= |p.nw| && incoming[j..] == p.nw[i..]
    && (forall k :: i <= k < |running| ==> running[k] in p.before && running[k] !in p.nw)
    && (forall k :: 0 <= k < |p.nw| ==> p.nw[k] !in p.before)
    && (forall k :: 0 <= k < |incoming| ==> incoming[k] in p.nw)
  }

  ghost predicate Tracked(c: Cursor, p: Plan) {
    && ListsOk(c.w.running, c.w.incoming, c.i, c.j, p)
    && PassedOk(c.w, c.i, p) && OthersOk(c.w, c.i, p)
  }

  // ---------------------------------------------------------------- the added case

  /** What init_listener and the counts leave of the new listener. */
  lemma AddedSummary(w: World, j: nat, k: nat, ok: bool, look: TableName -> Option<TId>)
    requires j < |w.incoming| && k <= |w.running| && w.incoming[j] in w.listeners
    requires w.listeners[w.incoming[j]].refs > 0 && Looks(w, look)
    ensures var n, r := w.incoming[j], MergeAdd(w, j, k, ok);
            var x := w.listeners[n];
            && n in r.listeners && r.listeners.Keys <= w.listeners.Keys
            && SummaryOf(r.listeners[n]) ==
               if look(x.tableName).Some? then Summary(x.tableName, x.settings, look(x.tableName), ok) else SummaryOf(x)
  {
    var n := w.incoming[j];
    var w1 := w.(incoming := Without(w.incoming, j));
    var w2 := ListenerRefGet(w1, n).(running := InsertAt(w.running, k, n));
    LookupByNames(w, w2, w.runningTables, w2.listeners[n].tableName);
    var w3 := InitListener(w2, n, ok);
    assert w3.listeners.Keys == w.listeners.Keys && w3.listeners[n].refs > 1;
  }

  lemma ListsAdd(running: seq<LId>, incoming: seq<LId>, i: nat, j: nat, p: Plan)
    requires ListsOk(running, incoming, i, j, p) && j < |incoming|
    ensures i < |p.nw| && incoming[j] == p.nw[i]
    ensures var list := InsertAt(running, i, incoming[j]);
            && ListsOk(list, Without(incoming, j), i + 1, j, p)
            && list[..i + 1] == running[..i] + [incoming[j]]
  {
    assert incoming[j..][0] == p.nw[i..][0];
    assert Without(incoming, j)[j..] == incoming[j..][1..] == p.nw[i..][1..] == p.nw[i + 1..];
  }

  /** The record of n is as planned, and every other record as it was. */
  ghost predicate OnlyAdded(w: World, r: World, n: LId, p: Plan) {
    && (n in r.listeners ==> p.IsMatched(SummaryOf(r.listeners[n]), n, n))
    && (forall m :: m in r.listeners && m != n ==> m in w.listeners && r.listeners[m] == w.listeners[m])
  }

  lemma AddedOnly(c: Cursor, p: Plan)
    requires Tracked(c, p) && c.j < |c.w.incoming| && Looks(c.w, p.look) && Counted(c.w, multiset{}, multiset{})
    ensures OnlyAdded(c.w, MergeAdd(c.w, c.j, c.i, p.socketOk(c.w.incoming[c.j])), c.w.incoming[c.j], p)
    ensures c.w.incoming[c.j] !in c.w.running
  {
    var w, n := c.w, c.w.incoming[c.j];
    AllListed(w);
    if n in w.running { ListedDistinct(w, n, n, multiset{}, multiset{}); }
    AddedSummary(w, c.j, c.i, p.socketOk(n), p.look);
    assert p.IsUnmatched(SummaryOf(w.listeners[n]), n, n in p.before && n !in w.running);
    ListsAdd(w.running, w.incoming, c.i, c.j, p);
    forall m | m in MergeAdd(w, c.j, c.i, p.socketOk(n)).listeners && m != n
      ensures MergeAdd(w, c.j, c.i, p.socketOk(n)).listeners[m] == w.listeners[m]
    {
      AddOthers(w, c.j, c.i, p.socketOk(n), m);
    }
  }

  lemma AddedPassed(c: Cursor, r: World, p: Plan)
    requires Tracked(c, p) && c.i < |p.nw| && r.running == InsertAt(c.w.running, c.i, p.nw[c.i])
    requires p.nw[c.i] !in c.w.running && OnlyAdded(c.w, r, p.nw[c.i], p)
    ensures PassedOk(r, c.i + 1, p)
  {
    forall k | 0 <= k < c.i + 1 && r.running[k] in r.listeners
      ensures p.IsMatched(SummaryOf(r.listeners[r.running[k]]), r.running[k], p.nw[k])
    {
      assert r.running[k] == if k < c.i then c.w.running[k] else p.nw[c.i];
      if k < c.i { assert c.w.running[k] in c.w.running; }
    }
  }

  lemma AddedOthers(c: Cursor, r: World, p: Plan)
    requires Tracked(c, p) && c.i < |p.nw| && r.running == InsertAt(c.w.running, c.i, p.nw[c.i])
    requires OnlyAdded(c.w, r, p.nw[c.i], p)
    ensures OthersOk(r, c.i + 1, p)
  {
    var n := p.nw[c.i];
    assert r.running[..c.i + 1] == c.w.running[..c.i] + [n];
    forall m | m in r.listeners && m !in r.running[..c.i + 1]
      ensures p.IsUnmatched(SummaryOf(r.listeners[m]), m, m in p.before && m !in r.running)
    {
      assert m != n && m !in c.w.running[..c.i];
      InsertMember(c.w.running, c.i, n, m);
    }
  }

  lemma InsertMember(s: seq<LId>, k: nat, x: LId, n: LId)
    requires k <= |s|
    ensures n in InsertAt(s, k, x) <==> n == x || n in s
  {
    assert s == s[..k] + s[k..];
  }

  lemma TrackedAdd(c: Cursor, p: Plan)
    requires Tracked(c, p) && c.j < |c.w.incoming| && Looks(c.w, p.look) && Counted(c.w, multiset{}, multiset{})
    ensures Tracked(Cursor(MergeAdd(c.w, c.j, c.i, p.socketOk(c.w.incoming[c.j])), c.i + 1, c.j), p)
  {
    var r := MergeAdd(c.w, c.j, c.i, p.socketOk(c.w.incoming[c.j]));
    ListsAfterAdd(c.w, c.j, c.i, p.socketOk(c.w.incoming[c.j]));
    ListsAdd(c.w.running, c.w.incoming, c.i, c.j, p);
    AddedOnly(c, p);
    AddedPassed(c, r, p);
    AddedOthers(c, r, p);
  }

  // ---------------------------------------------------------------- the matched case

  lemma UpdatedSummary(w: World, e: LId, n: LId, look: TableName -> Option<TId>)
    requires e in w.listeners && n in w.listeners && e != n && w.listeners[n].table.None? && Looks(w, look)
    ensures var r := UpdateListener(w, e, n);
            var x, y := w.listeners[e], w.listeners[n];
            && r.listeners.Keys == w.listeners.Keys
            && SummaryOf(r.listeners[e]) ==
               Summary(y.tableName, y.settings, if look(y.tableName).Some? then look(y.tableName) else x.table, x.open)
            && forall m :: m in w.listeners && m != e ==> r.listeners[m] == w.listeners[m]
  {
    var x := w.listeners[e].(tableName := w.listeners[n].tableName, settings := w.listeners[n].settings);
    var w1 := w.(listeners := w.listeners[e := x]);
    LookupByNames(w, w1, w.runningTables, x.tableName);
    var table := TableLookup(w1, w1.runningTables, x.tableName);
    if table.Some? {
      TablesKeepLists(w1, x.table, table.value);
      var w2 := TableRefGet(TableRefPut(w1, x.table), table.value);
      var w3 := w2.(listeners := w2.listeners[e := x.(table := table)]);
      assert TableRefPut(w3, w.listeners[n].table).listeners == w3.listeners;
    }
  }

  /** The record of e is as planned, and every other record as it was. */
  ghost predicate OnlyMatched(w: World, r: World, e: LId, n: LId, p: Plan) {
    && (e in r.listeners ==> p.IsMatched(SummaryOf(r.listeners[e]), e, n))
    && (forall m :: m in r.listeners && m != e ==> m in w.listeners && r.listeners[m] == w.listeners[m])
  }

  lemma MatchedOnly(c: Cursor, p: Plan)
    requires Tracked(c, p) && Looks(c.w, p.look) && Counted(c.w, multiset{}, multiset{})
    requires c.i < |c.w.running| && c.j < |c.w.incoming|
    ensures var e, n := c.w.running[c.i], c.w.incoming[c.j];
            c.i < |p.nw| && n == p.nw[c.i] && OnlyMatched(c.w, UpdateListener(c.w, e, n), e, n, p)
    ensures c.w.running[c.i] !in c.w.running[..c.i]
  {
    var w, e, n := c.w, c.w.running[c.i], c.w.incoming[c.j];
    assert w.incoming[c.j..][0] == p.nw[c.i..][0];
    ListedDistinct(w, e, n, multiset{}, multiset{});
    NotPassed(w, c.i);
    if n in w.running { ListedDistinct(w, n, n, multiset{}, multiset{}); }
    UpdatedSummary(w, e, n, p.look);
    assert p.IsUnmatched(SummaryOf(w.listeners[e]), e, e in p.before && e !in w.running);
    assert p.IsUnmatched(SummaryOf(w.listeners[n]), n, n in p.before && n !in w.running);
  }

  lemma NotPassed(w: World, i: nat)
    requires ListsDistinct(w) && i < |w.running|
    ensures w.running[i] !in w.running[..i]
  {
    forall k | 0 <= k < i
      ensures w.running[k] != w.running[i]
    {
      ListedOnce(w, k, i);
    }
  }

  lemma TrackedUpdate(c: Cursor, p: Plan)
    requires Tracked(c, p) && Looks(c.w, p.look) && Counted(c.w, multiset{}, multiset{})
    requires c.i < |c.w.running| && c.j < |c.w.incoming|
    ensures var r := UpdateListener(c.w, c.w.running[c.i], c.w.incoming[c.j]);
            Tracked(Cursor(r, c.i + 1, c.j + 1), p)
  {
    var w, e, n := c.w, c.w.running[c.i], c.w.incoming[c.j];
    UpdateKeepsLists(w, e, n);
    MatchedOnly(c, p);
    MatchedTracked(c, UpdateListener(w, e, n), e, n, p);
  }

  lemma MatchedTracked(c: Cursor, r: World, e: LId, n: LId, p: Plan)
    requires Tracked(c, p) && c.i < |c.w.running| && c.j < |c.w.incoming|
    requires e == c.w.running[c.i] && c.i < |p.nw| && n == p.nw[c.i] && e !in c.w.running[..c.i]
    requires r.running == c.w.running && r.incoming == c.w.incoming && OnlyMatched(c.w, r, e, n, p)
    ensures Tracked(Cursor(r, c.i + 1, c.j + 1), p)
  {
    ListsBoth(c.w.running, c.w.incoming, c.i, c.j, p);
    MatchedPassed(c, r, e, n, p);
    MatchedOthers(c, r, e, n, p);
  }

  lemma ListsBoth(running: seq<LId>, incoming: seq<LId>, i: nat, j: nat, p: Plan)
    requires ListsOk(running, incoming, i, j, p) && i < |running| && j < |incoming|
    ensures ListsOk(running, incoming, i + 1, j + 1, p)
  {
    assert incoming[j + 1..] == incoming[j..][1..] == p.nw[i..][1..] == p.nw[i + 1..];
  }

  lemma MatchedOthers(c: Cursor, r: World, e: LId, n: LId, p: Plan)
    requires Tracked(c, p) && c.i < |c.w.running| && e == c.w.running[c.i]
    requires r.running == c.w.running && OnlyMatched(c.w, r, e, n, p)
    ensures OthersOk(r, c.i + 1, p)
  {
    assert c.w.running[..c.i + 1] == c.w.running[..c.i] + [e];
  }

  lemma MatchedPassed(c: Cursor, r: World, e: LId, n: LId, p: Plan)
    requires Tracked(c, p) && c.i < |c.w.running| && c.i < |p.nw| && n == p.nw[c.i] && e == c.w.running[c.i]
    requires r.running == c.w.running && OnlyMatched(c.w, r, e, n, p) && e !in c.w.running[..c.i]
    ensures PassedOk(r, c.i + 1, p)
  {
    forall k | 0 <= k < c.i + 1 && r.running[k] in r.listeners
      ensures p.IsMatched(SummaryOf(r.listeners[r.running[k]]), r.running[k], p.nw[k])
    {
      if k < c.i { assert c.w.running[k] in c.w.running[..c.i]; }
    }
  }

  // ---------------------------------------------------------------- the removed case

  lemma PutSummary(w: World, l: LId)
    ensures var r := ListenerRefPut(w, l);
            && r.listeners.Keys <= w.listeners.Keys
            && forall m :: m in r.listeners ==> SummaryOf(r.listeners[m]) == SummaryOf(w.listeners[m])
  {
    if l in w.listeners && w.listeners[l].refs == 1 {
      assert FreeListener(w, l).listeners == w.listeners - {l};
    }
  }

  lemma WithoutMember(w: World, i: nat, m: LId)
    requires ListsDistinct(w) && i < |w.running|
    ensures m in Without(w.running, i) <==> m in w.running && m != w.running[i]
  {
    WithoutMultiset(w.running, i);
    MemberCount(w.running, m);
    MemberCount(Without(w.running, i), m);
    assert multiset(w.running)[w.running[i]] <= 1;
  }

  lemma TrackedRemove(c: Cursor, p: Plan)
    requires Tracked(c, p) && Counted(c.w, multiset{}, multiset{}) && c.i < |c.w.running|
    ensures Tracked(Cursor(RemoveRunning(c.w, c.i), c.i, c.j), p)
  {
    var w, e := c.w, c.w.running[c.i];
    var w1 := CloseListener(w, e).(running := Without(w.running, c.i));
    var r := RemoveRunning(w, c.i);
    AllListed(w);
    ListsAfterRemove(w, c.i);
    PutSummary(w1, e);
    NotPassed(w, c.i);
    RemovedTracked(c, r, p);
  }

  lemma RemovedTracked(c: Cursor, r: World, p: Plan)
    requires Tracked(c, p) && ListsDistinct(c.w) && c.i < |c.w.running|
    requires r.running == Without(c.w.running, c.i) && r.incoming == c.w.incoming
    requires c.w.running[c.i] !in c.w.running[..c.i]
    requires forall m :: m in r.listeners ==>
               && m in c.w.listeners
               && var x := SummaryOf(c.w.listeners[m]);
                  SummaryOf(r.listeners[m]) == if m == c.w.running[c.i] then x.(open := false) else x
    ensures Tracked(Cursor(r, c.i, c.j), p)
  {
    assert r.running[..c.i] == c.w.running[..c.i];
    RemovedPassed(c, r, p);
    RemovedOthers(c, r, p);
  }

  lemma RemovedPassed(c: Cursor, r: World, p: Plan)
    requires Tracked(c, p) && c.i < |c.w.running| && r.running == Without(c.w.running, c.i)
    requires c.w.running[c.i] !in c.w.running[..c.i]
    requires forall m :: m in r.listeners && m != c.w.running[c.i] ==>
               m in c.w.listeners && SummaryOf(r.listeners[m]) == SummaryOf(c.w.listeners[m])
    ensures PassedOk(r, c.i, p)
  {
    forall k | 0 <= k < c.i && k < |p.nw| && r.running[k] in r.listeners
      ensures p.IsMatched(SummaryOf(r.listeners[r.running[k]]), r.running[k], p.nw[k])
    {
      assert r.running[k] == c.w.running[k] && c.w.running[k] in c.w.running[..c.i];
    }
  }

  lemma RemovedOthers(c: Cursor, r: World, p: Plan)
    requires Tracked(c, p) && ListsDistinct(c.w) && c.i < |c.w.running| && r.running == Without(c.w.running, c.i)
    requires r.running[..c.i] == c.w.running[..c.i] && c.w.running[c.i] !in c.w.running[..c.i]
    requires forall m :: m in r.listeners ==>
               && m in c.w.listeners
               && var x := SummaryOf(c.w.listeners[m]);
                  SummaryOf(r.listeners[m]) == if m == c.w.running[c.i] then x.(open := false) else x
    ensures OthersOk(r, c.i, p)
  {
    forall m | m in r.listeners && m !in r.running[..c.i]
      ensures p.IsUnmatched(SummaryOf(r.listeners[m]), m, m in p.before && m !in r.running)
    {
      WithoutMember(c.w, c.i, m);
      assert p.IsUnmatched(SummaryOf(c.w.listeners[m]), m, m in p.before && m !in c.w.running);
    }
  }

  // ---------------------------------------------------------------- the loop

  lemma TrackedStep(c: Cursor, addr: LId -> Addr, p: Plan)
    requires Walking(c, addr) && !c.Done() && Tracked(c, p) && Looks(c.w, p.look)
    ensures Tracked(MergeStep(c, p.socketOk), p)
  {
    var order := MergeCompare(c.w, c.i, c.j);
    if order > 0 {
      StepAdds(c, p.socketOk, addr);
      TrackedAdd(c, p);
    } else if order == 0 {
      StepUpdates(c, p.socketOk);
      TrackedUpdate(c, p);
    } else {
      StepRemoves(c, p.socketOk);
      TrackedRemove(c, p);
    }
  }

  lemma {:induction false} MergeTracked(c: Cursor, addr: LId -> Addr, content: Content, p: Plan)
    requires Walking(c, addr) && Tracked(c, p) && Looks(c.w, p.look) && ContentAgrees(c.w, content)
    ensures var r := Merge(c, p.socketOk); Tracked(Cursor(r, |r.running|, |r.incoming|), p)
    decreases c.Left()
  {
    if !c.Done() {
      WalkStep(c, p.socketOk, addr);
      TrackedStep(c, addr, p);
      LooksStep(c, p.socketOk, p.look, content, addr);
      MergeTracked(MergeStep(c, p.socketOk), addr, content, p);
    }
  }

  // ---------------------------------------------------------------- freeing the rest

  /** Listeners that were just read have no socket. */
  ghost predicate NewClosed(p: Plan) {
    forall k :: 0 <= k < |p.nw| && p.orig(p.nw[k]).Some? ==> !p.orig(p.nw[k]).value.open
  }

  /** What holds once the merge is over: every listed record and every other one. */
  ghost predicate Merged(w: World, p: Plan) {
    && |w.running| == |p.nw| && PassedOk(w, |w.running|, p) && OthersOk(w, |w.running|, p)
    && (forall k :: 0 <= k < |w.incoming| ==> w.incoming[k] in p.nw)
    && (forall k :: 0 <= k < |p.nw| ==> p.nw[k] !in p.before)
  }

  lemma RemoveIncomingMerged(w: World, p: Plan)
    requires Merged(w, p) && NewClosed(p) && w.incoming != [] && Counted(w, multiset{}, multiset{})
    ensures Merged(RemoveIncoming(w), p)
  {
    var l, r := w.incoming[0], RemoveIncoming(w);
    RemoveIncomingLists(w);
    AllListed(w);
    PutSummary(CloseListener(w, l).(incoming := w.incoming[1..]), l);
    if l in w.running { ListedDistinct(w, l, l, multiset{}, multiset{}); }
    assert forall m :: m in w.running[..|w.running|] <==> m in w.running;
    assert p.IsUnmatched(SummaryOf(w.listeners[l]), l, l in p.before && l !in w.running);
    assert !w.listeners[l].open by {
      var k :| 0 <= k < |p.nw| && p.nw[k] == l;
    }
    SameSummaries(w, r, p);
  }

  lemma SameSummaries(w: World, r: World, p: Plan)
    requires Merged(w, p) && r.running == w.running
    requires forall k :: 0 <= k < |r.incoming| ==> r.incoming[k] in p.nw
    requires forall m :: m in r.listeners ==> m in w.listeners && SummaryOf(r.listeners[m]) == SummaryOf(w.listeners[m])
    ensures Merged(r, p)
  {
  }

  lemma {:induction false} FreeIncomingMerged(w: World, p: Plan)
    requires Merged(w, p) && NewClosed(p) && Counted(w, multiset{}, multiset{})
    ensures Merged(FreeIncoming(w), p)
    decreases |w.incoming|
  {
    if w.incoming != [] {
      RemoveIncomingLists(w);
      RemoveIncomingMerged(w, p);
      RemoveIncomingCounted(w, multiset{}, multiset{});
      FreeIncomingMerged(RemoveIncoming(w), p);
    }
  }

  // ---------------------------------------------------------------- the whole of Install

  function SummariesIn(w: World): LId -> Option<Summary> {
    (l: LId) => if l in w.listeners then Some(SummaryOf(w.listeners[l])) else None
  }

  function PlanOf(l: World, socketOk: LId -> bool): Plan {
    Plan(l.running, l.incoming, SummariesIn(l), LookIn(ReloadTables(l)), socketOk)
  }

  lemma StartTracked(l: World, socketOk: LId -> bool)
    requires Counted(l, multiset{}, multiset{})
    ensures Tracked(Cursor(ReloadTables(l), 0, 0), PlanOf(l, socketOk))
  {
    ReloadTablesKeep(l);
    ListsApart(l);
    ListsStart(l.running, l.incoming, PlanOf(l, socketOk));
  }

  lemma ListsStart(running: seq<LId>, incoming: seq<LId>, p: Plan)
    requires Distinct(running, incoming) && p.before == running && p.nw == incoming
    ensures ListsOk(running, incoming, 0, 0, p)
  {
    assert incoming[0..] == incoming;
  }

  lemma InstallMerged(l: World, socketOk: LId -> bool)
    requires Counted(l, multiset{}, multiset{}) && ListsSorted(l) && NewClosed(PlanOf(l, socketOk))
    ensures Merged(Install(l, socketOk), PlanOf(l, socketOk))
  {
    var t, p := ReloadTables(l), PlanOf(l, socketOk);
    ReadyToMerge(l);
    StartTracked(l, socketOk);
    MergeTracked(Cursor(t, 0, 0), AddressIn(l), ContentIn(t), p);
    MergeResult(Cursor(t, 0, 0), socketOk, AddressIn(l));
    TrackedEnd(ListenersReload(t, socketOk), p);
    FreeIncomingMerged(ListenersReload(t, socketOk), p);
  }

  lemma TrackedEnd(w: World, p: Plan)
    requires Tracked(Cursor(w, |w.running|, |w.incoming|), p)
    ensures Merged(w, p)
  {
    assert w.incoming[|w.incoming|..] == [];
  }

  // ---------------------------------------------------------------- the configuration in order

  /** Where add_listener puts a listener among those already read. */
  function Place(list: seq<ListenerConfig>, a: Addr): (k: nat)
    ensures k <= |list|
  {
    if list == [] || Compare(a, list[0].address) < 0 then 0 else 1 + Place(list[1..], a)
  }

  function Arrange(list: seq<ListenerConfig>, cs: seq<ListenerConfig>): seq<ListenerConfig>
    decreases |cs|
  {
    if cs == [] then list else Arrange(InsertAt(list, Place(list, cs[0].address), cs[0]), cs[1..])
  }

  /** The listeners of a configuration sorted by address, equal ones in the order of the file. */
  function Arranged(cs: seq<ListenerConfig>): seq<ListenerConfig> { Arrange([], cs) }

  function ConfigOf(w: World, l: LId): ListenerConfig {
    if l in w.listeners
    then ListenerConfig(w.listeners[l].address, w.listeners[l].tableName, w.listeners[l].settings)
    else ListenerConfig(NO_ADDRESS, None, 0)
  }

  function ConfigsOf(w: World, list: seq<LId>): (cs: seq<ListenerConfig>)
    ensures |cs| == |list|
  {
    seq(|list|, i requires 0 <= i < |list| => ConfigOf(w, list[i]))
  }

  lemma {:induction false} PlaceIsPosition(w: World, list: seq<LId>, a: Addr)
    requires forall k :: 0 <= k < |list| ==> list[k] in w.listeners
    ensures Position(w, list, a) == Place(ConfigsOf(w, list), a)
  {
    if list != [] {
      assert ConfigsOf(w, list)[1..] == ConfigsOf(w, list[1..]);
      PlaceIsPosition(w, list[1..], a);
    }
  }

  /** Numbers in use are below the next one, and new listeners are in the store, closed and without a table. */
  ghost predicate Reading(w: World) {
    && (forall l :: l in w.listeners ==> l < w.nextId)
    && (forall l :: l in w.incoming ==> l in w.listeners && w.listeners[l].table.None? && !w.listeners[l].open)
  }

  lemma LoadReading(w: World, c: ListenerConfig)
    requires Reading(w)
    ensures Reading(LoadListener(w, c))
  {
    var r := LoadListener(w, c);
    forall l | l in r.incoming
      ensures l in r.listeners && r.listeners[l].table.None? && !r.listeners[l].open
    {
      InsertMember(w.incoming, Position(w, w.incoming, c.address), w.nextId, l);
    }
  }

  lemma LoadArranges(w: World, c: ListenerConfig)
    requires Reading(w)
    ensures var r, list := LoadListener(w, c), ConfigsOf(w, w.incoming);
            ConfigsOf(r, r.incoming) == InsertAt(list, Place(list, c.address), c)
  {
    var r, list, k := LoadListener(w, c), ConfigsOf(w, w.incoming), Position(w, w.incoming, c.address);
    PlaceIsPosition(w, w.incoming, c.address);
    forall i | 0 <= i < |r.incoming|
      ensures ConfigOf(r, r.incoming[i]) == InsertAt(list, k, c)[i]
    {
      assert r.incoming[i] == if i < k then w.incoming[i] else if i == k then w.nextId else w.incoming[i - 1];
    }
  }

  lemma {:induction false} LoadedArranged(w: World, cs: seq<ListenerConfig>)
    requires Reading(w)
    ensures var r := LoadListeners(w, cs);
            Reading(r) && ConfigsOf(r, r.incoming) == Arrange(ConfigsOf(w, w.incoming), cs)
    decreases |cs|
  {
    if cs != [] {
      LoadReading(w, cs[0]);
      LoadArranges(w, cs[0]);
      LoadedArranged(LoadListener(w, cs[0]), cs[1..]);
    }
  }

  /** What reading a file leaves: the new listeners in order, and the old ones as they were. */
  lemma LoadedConfig(w: World, c: Config)
    requires Good(w)
    ensures var l := LoadConfig(w, c);
            Reading(l) && ConfigsOf(l, l.incoming) == Arranged(c.listeners)
  {
    var a := LoadListeners(w, c.listeners);
    LoadedArranged(w, c.listeners);
    LoadTablesKeep(a, c.tables);
    LoadTablesNumbers(a, c.tables);
    assert ConfigsOf(w, w.incoming) == [];
    assert ConfigsOf(LoadConfig(w, c), a.incoming) == ConfigsOf(a, a.incoming);
  }

  lemma {:induction false} LoadTablesNumbers(w: World, cs: seq<TableConfig>)
    ensures LoadTables(w, cs).nextId >= w.nextId
    decreases |cs|
  {
    if cs != [] { LoadTablesNumbers(LoadTable(w, cs[0]), cs[1..]); }
  }

  lemma LoadedOld(w: World, c: Config, m: LId)
    requires Good(w)
    ensures var l := LoadConfig(w, c);
            && (m in w.listeners ==> m in l.listeners && l.listeners[m] == w.listeners[m] && m !in l.incoming)
            && (m in l.listeners && m !in w.listeners ==> m in l.incoming)
  {
    var a := LoadListeners(w, c.listeners);
    LoadTablesKeep(a, c.tables);
    LoadedNumbers(w, c.listeners, m);
    if m in w.listeners { LoadListenersAddress(w, c.listeners, m); }
  }

  /** The listeners that are read get the next numbers, and all of them are new. */
  lemma {:induction false} LoadedNumbers(w: World, cs: seq<ListenerConfig>, n: LId)
    ensures var r, added := LoadListeners(w, cs), w.nextId <= n < w.nextId + |cs|;
            (n in r.listeners <==> n in w.listeners || added) && (n in r.incoming <==> n in w.incoming || added)
    decreases |cs|
  {
    if cs != [] {
      InsertMember(w.incoming, Position(w, w.incoming, cs[0].address), w.nextId, n);
      LoadedNumbers(LoadListener(w, cs[0]), cs[1..], n);
    }
  }

  lemma {:induction false} ArrangeLength(list: seq<ListenerConfig>, cs: seq<ListenerConfig>)
    ensures |Arrange(list, cs)| == |list| + |cs|
    decreases |cs|
  {
    if cs != [] { ArrangeLength(InsertAt(list, Place(list, cs[0].address), cs[0]), cs[1..]); }
  }

  /** At each place of the merged list is the new listener of that place, or an existing one. */
  lemma {:induction false} MergeAt(addr: LId -> Addr, ex: seq<LId>, nw: seq<LId>, q: nat)
    requires q < |MergeIds(addr, ex, nw)|
    ensures q < |nw| && (MergeIds(addr, ex, nw)[q] == nw[q] || MergeIds(addr, ex, nw)[q] in ex)
    decreases |ex| + |nw|
  {
    if nw != [] && ex != [] {
      var order := Compare(addr(ex[0]), addr(nw[0]));
      if order > 0 {
        if q > 0 { MergeAt(addr, ex, nw[1..], q - 1); }
      } else if order == 0 {
        if q > 0 { MergeAt(addr, ex[1..], nw[1..], q - 1); }
      } else {
        MergeAt(addr, ex[1..], nw, q);
      }
    }
  }

  // ---------------------------------------------------------------- the whole reload

  lemma PlanClosed(w: World, c: Config, socketOk: LId -> bool)
    requires Good(w)
    ensures NewClosed(PlanOf(LoadConfig(w, c), socketOk))
  {
    LoadedConfig(w, c);
  }

  /** The record of a listed listener, in terms of the two configurations. */
  ghost predicate AsConfigured(w: World, r: World, m: LId, cfg: ListenerConfig, socketOk: LId -> bool) {
    && m in r.listeners
    && var x, found := r.listeners[m], TableLookup(r, r.runningTables, cfg.tableName);
       && x.address == cfg.address && x.tableName == cfg.tableName && x.settings == cfg.settings
       && x.table == (if found.Some? then found else if m in w.listeners then w.listeners[m].table else None)
       && x.open == if m in w.listeners then w.listeners[m].open else found.Some? && socketOk(m)
  }

  lemma MatchedMeans(w: World, c: Config, socketOk: LId -> bool, x: Summary, m: LId, n: LId)
    requires Good(w) && n in LoadConfig(w, c).incoming && (m == n || m in w.listeners)
    requires PlanOf(LoadConfig(w, c), socketOk).IsMatched(x, m, n)
    ensures var l := LoadConfig(w, c);
            var cfg, found := ConfigOf(l, n), LookIn(ReloadTables(l))(ConfigOf(l, n).tableName);
            && x.tableName == cfg.tableName && x.settings == cfg.settings
            && x.table == (if found.Some? then found else if m in w.listeners then w.listeners[m].table else None)
            && x.open == if m in w.listeners then w.listeners[m].open else found.Some? && socketOk(m)
  {
    LoadedConfig(w, c);
    LoadedOld(w, c, m);
    LoadedOld(w, c, n);
  }

  /**
   * After a reload the running listeners are those of the new configuration in order: each
   * has the address, table name and settings of its entry, holds the table the name finds
   * (or, if it finds none, the one it had), and accepts if it did before or is new and could
   * be set up.
   */
  lemma ListedAfterReload(w: World, c: Config, socketOk: LId -> bool, q: nat)
    requires Good(w) && q < |ReloadConfig(w, Some(c), socketOk).running|
    ensures var r := ReloadConfig(w, Some(c), socketOk);
            && |r.running| == |c.listeners| == |Arranged(c.listeners)|
            && AsConfigured(w, r, r.running[q], Arranged(c.listeners)[q], socketOk)
  {
    var l, r := LoadConfig(w, c), ReloadConfig(w, Some(c), socketOk);
    ReloadInstalls(w, c, socketOk);
    AllListed(r);
    ListedRecord(w, c, socketOk, q);
    ListedPlace(w, c, socketOk, q);
    MatchedMeans(w, c, socketOk, SummaryOf(r.listeners[r.running[q]]), r.running[q], l.incoming[q]);
    ReloadLooks(w, c, socketOk, l.listeners[l.incoming[q]].tableName);
    assert ConfigsOf(l, l.incoming)[q] == ConfigOf(l, l.incoming[q]);
  }

  lemma ReloadLooks(w: World, c: Config, socketOk: LId -> bool, n: TableName)
    requires Good(w)
    ensures var r := ReloadConfig(w, Some(c), socketOk);
            TableLookup(r, r.runningTables, n) == LookIn(ReloadTables(LoadConfig(w, c)))(n)
  {
    LoadedCounted(w, c);
    LoadedSorted(w, c);
    InstallKeepsTables(LoadConfig(w, c), socketOk);
  }

  lemma ListedRecord(w: World, c: Config, socketOk: LId -> bool, q: nat)
    requires Good(w) && q < |ReloadConfig(w, Some(c), socketOk).running|
    requires ReloadConfig(w, Some(c), socketOk).running[q] in ReloadConfig(w, Some(c), socketOk).listeners
    ensures var l, r := LoadConfig(w, c), ReloadConfig(w, Some(c), socketOk);
            && |r.running| == |l.incoming|
            && PlanOf(l, socketOk).IsMatched(SummaryOf(r.listeners[r.running[q]]), r.running[q], l.incoming[q])
  {
    ReloadMerged(w, c, socketOk);
    MatchedIn(ReloadConfig(w, Some(c), socketOk), PlanOf(LoadConfig(w, c), socketOk), q);
  }

  lemma ReloadMerged(w: World, c: Config, socketOk: LId -> bool)
    requires Good(w)
    ensures Merged(ReloadConfig(w, Some(c), socketOk), PlanOf(LoadConfig(w, c), socketOk))
  {
    LoadedCounted(w, c);
    LoadedSorted(w, c);
    PlanClosed(w, c, socketOk);
    InstallMerged(LoadConfig(w, c), socketOk);
  }

  lemma MatchedIn(w: World, p: Plan, q: nat)
    requires Merged(w, p) && q < |w.running| && w.running[q] in w.listeners
    ensures q < |p.nw| && p.IsMatched(SummaryOf(w.listeners[w.running[q]]), w.running[q], p.nw[q])
  {
  }

  lemma UnmatchedIn(w: World, p: Plan, m: LId)
    requires Merged(w, p) && m in w.listeners && m !in w.running
    ensures p.IsUnmatched(SummaryOf(w.listeners[m]), m, m in p.before)
  {
    assert w.running[..|w.running|] == w.running;
  }

  /** The listener at a place is the new one of that place or one of before, with its address. */
  lemma ListedPlace(w: World, c: Config, socketOk: LId -> bool, q: nat)
    requires Good(w) && q < |ReloadConfig(w, Some(c), socketOk).running|
    ensures var l, r := LoadConfig(w, c), ReloadConfig(w, Some(c), socketOk);
            && |r.running| == |l.incoming| == |c.listeners| == |Arranged(c.listeners)|
            && ConfigsOf(l, l.incoming) == Arranged(c.listeners)
            && l.incoming[q] in l.listeners && (r.running[q] == l.incoming[q] || r.running[q] in w.listeners)
            && (r.running[q] in r.listeners ==>
                  r.listeners[r.running[q]].address == l.listeners[l.incoming[q]].address)
  {
    LoadedCounted(w, c);
    LoadedSorted(w, c);
    LoadedConfig(w, c);
    ArrangeLength([], c.listeners);
    AllListed(w);
    InstalledPlace(LoadConfig(w, c), socketOk, q);
  }

  lemma InstalledPlace(l: World, socketOk: LId -> bool, q: nat)
    requires Counted(l, multiset{}, multiset{}) && ListsSorted(l) && q < |Install(l, socketOk).running|
    ensures var r := Install(l, socketOk);
            && |r.running| == |l.incoming| && l.incoming[q] in l.listeners
            && (r.running[q] == l.incoming[q] || r.running[q] in l.running)
            && (r.running[q] in r.listeners ==>
                  r.listeners[r.running[q]].address == l.listeners[l.incoming[q]].address)
  {
    var r := Install(l, socketOk);
    InstallLists(l, socketOk);
    MergeAddresses(AddressIn(l), l.running, l.incoming);
    MergeAt(AddressIn(l), l.running, l.incoming, q);
    AllListed(l);
    assert AddressesOf(AddressIn(l), r.running)[q] == AddressesOf(AddressIn(l), l.incoming)[q];
  }

  /** A listener that only connections hold has what it had, and its socket is closed if it was listed. */
  lemma UnlistedAfterReload(w: World, c: Config, socketOk: LId -> bool, m: LId)
    requires Good(w) && m in ReloadConfig(w, Some(c), socketOk).listeners
    requires m !in ReloadConfig(w, Some(c), socketOk).running
    ensures var r := ReloadConfig(w, Some(c), socketOk);
            && m in w.listeners && m in w.conns
            && SummaryOf(r.listeners[m]) ==
               if m in w.running then SummaryOf(w.listeners[m]).(open := false) else SummaryOf(w.listeners[m])
  {
    ReloadInstalls(w, c, socketOk);
    HeldByConnection(ReloadConfig(w, Some(c), socketOk), m);
    ConnectionListener(w, m);
    UnlistedRecord(w, c, socketOk, m);
    LoadedSorted(w, c);
    LoadedOld(w, c, m);
  }

  lemma HeldByConnection(w: World, m: LId)
    requires Good(w) && m in w.listeners && m !in w.running
    ensures m in w.conns
  {
    MemberCount(w.running, m);
    MemberCount(w.conns, m);
    assert m in Owners(w, multiset{});
  }

  lemma ConnectionListener(w: World, l: LId)
    requires Good(w) && l in w.conns
    ensures l in w.listeners
  {
    MemberCount(w.conns, l);
    assert l in Owners(w, multiset{});
  }

  lemma UnlistedRecord(w: World, c: Config, socketOk: LId -> bool, m: LId)
    requires Good(w) && m in ReloadConfig(w, Some(c), socketOk).listeners
    requires m !in ReloadConfig(w, Some(c), socketOk).running
    ensures var l, r := LoadConfig(w, c), ReloadConfig(w, Some(c), socketOk);
            PlanOf(l, socketOk).IsUnmatched(SummaryOf(r.listeners[m]), m, m in l.running)
  {
    ReloadMerged(w, c, socketOk);
    UnmatchedIn(ReloadConfig(w, Some(c), socketOk), PlanOf(LoadConfig(w, c), socketOk), m);
  }

  /**
   * End to end: after reloading a file, the running listener at every place holds a live
   * table with exactly the backends that the file gives, by its first definition, to the
   * table name of the listener of that place.
   */
  lemma ReloadServesNewBackends(w: World, c: Config, socketOk: LId -> bool, q: nat, backends: seq<nat>)
    requires Good(w) && q < |c.listeners| == |Arranged(c.listeners)|
    requires FirstNamed(c.tables, Arranged(c.listeners)[q].tableName) == Some(backends)
    ensures var r := ReloadConfig(w, Some(c), socketOk);
            && q < |r.running| && r.running[q] in r.listeners
            && var table := r.listeners[r.running[q]].table;
               table.Some? && table.value in r.tables && r.tables[table.value].backends == backends
  {
    RunningLength(w, c, socketOk);
    ListedAfterReload(w, c, socketOk, q);
    NameServesFile(w, c, socketOk, Arranged(c.listeners)[q].tableName, backends);
  }

  lemma RunningLength(w: World, c: Config, socketOk: LId -> bool)
    requires Good(w)
    ensures |ReloadConfig(w, Some(c), socketOk).running| == |c.listeners|
  {
    var l, r := LoadConfig(w, c), ReloadConfig(w, Some(c), socketOk);
    LoadedCounted(w, c);
    LoadedSorted(w, c);
    InstallLists(l, socketOk);
    LoadedConfig(w, c);
    ArrangeLength([], c.listeners);
    MergeAddresses(AddressIn(l), l.running, l.incoming);
    assert |AddressesOf(AddressIn(l), r.running)| == |AddressesOf(AddressIn(l), l.incoming)|;
  }
}
