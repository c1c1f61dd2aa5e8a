/**
 * Which listeners accept. ListenerLifetime says what a reload makes of every socket; here:
 * a listener without one never gets one, in any run.
 */
module Accepting {
  import opened Options
  import opened Addresses
  import opened ProxyModel
  import opened ListenerMerge
  import opened TableReload
  import opened ProxyRuns
  import L = ListenerLifetime

  // ---------------------------------------------------------------- numbers are never used again

  lemma {:induction false} DropsKeepNext(w: World, i: nat)
    ensures DropFollowing(w, i).nextId == w.nextId
    decreases |w.runningTables| - i
  {
    if i < |w.runningTables| { DropsKeepNext(FollowStep(w, i), i + 1); }
  }

  lemma {:induction false} LeadKeepsNext(w: World)
    ensures DropLeading(w).nextId == w.nextId
    decreases |w.runningTables|
  {
    if w.runningTables != [] && !Used(w, w.runningTables[0]) {
      LeadKeepsNext(TableRefPut(w.(runningTables := w.runningTables[1..]), Some(w.runningTables[0])));
    }
  }

  lemma {:induction false} InstallKeepsNext(w: World)
    ensures InstallTables(w).nextId == w.nextId
    decreases |w.incomingTables|
  {
    if w.incomingTables != [] {
      InstallIncoming(w);
      InstallKeepsNext(InstallTable(w));
    }
  }

  lemma {:induction false} MergeKeepsNext(c: Cursor, socketOk: LId -> bool)
    requires c.Ok()
    ensures Merge(c, socketOk).nextId == c.w.nextId
    decreases c.Left()
  {
    if !c.Done() {
      StepKeepsNext(c, socketOk);
      MergeKeepsNext(MergeStep(c, socketOk), socketOk);
    }
  }

  lemma StepKeepsNext(c: Cursor, socketOk: LId -> bool)
    requires c.Ok() && !c.Done()
    ensures MergeStep(c, socketOk).w.nextId == c.w.nextId
  {
    var order := MergeCompare(c.w, c.i, c.j);
    if order > 0 {
      var n := c.w.incoming[c.j];
      ListsAfterAdd(c.w, c.j, Position(c.w, c.w.running, AddressOf(c.w, n)), socketOk(n));
    } else if order == 0 {
      UpdateKeepsLists(c.w, c.w.running[c.i], c.w.incoming[c.j]);
    } else {
      ListsAfterRemove(c.w, c.i);
    }
  }

  lemma {:induction false} FreeKeepsNext(w: World)
    ensures FreeIncoming(w).nextId == w.nextId
    decreases |w.incoming|
  {
    if w.incoming != [] {
      RemoveIncomingLists(w);
      FreeKeepsNext(RemoveIncoming(w));
    }
  }

  lemma {:induction false} LoadListenersNext(w: World, cs: seq<ListenerConfig>)
    ensures LoadListeners(w, cs).nextId >= w.nextId
    decreases |cs|
  {
    if cs != [] { LoadListenersNext(LoadListener(w, cs[0]), cs[1..]); }
  }

  lemma ReloadNext(w: World, c: Config, socketOk: LId -> bool)
    ensures ReloadConfig(w, Some(c), socketOk).nextId >= w.nextId
  {
    var l := LoadConfig(w, c);
    LoadListenersNext(w, c.listeners);
    L.LoadTablesNumbers(LoadListeners(w, c.listeners), c.tables);
    LeadKeepsNext(l);
    DropsKeepNext(DropLeading(l), 0);
    InstallKeepsNext(DropFollowing(DropLeading(l), 0));
    MergeKeepsNext(Cursor(ReloadTables(l), 0, 0), socketOk);
    FreeKeepsNext(ListenersReload(ReloadTables(l), socketOk));
  }

  // ---------------------------------------------------------------- a closed listener stays closed

  /** The number is taken, and whoever has it has no socket. */
  predicate Shut(w: World, l: LId) {
    l < w.nextId && (l in w.listeners ==> !w.listeners[l].open)
  }

  lemma ReloadStaysShut(w: World, c: Config, socketOk: LId -> bool, l: LId)
    requires Good(w) && Shut(w, l)
    ensures Shut(ReloadConfig(w, Some(c), socketOk), l)
  {
    var r := ReloadConfig(w, Some(c), socketOk);
    ReloadNext(w, c, socketOk);
    if l in r.listeners {
      if l in r.running {
        var q :| 0 <= q < |r.running| && r.running[q] == l;
        L.ListedAfterReload(w, c, socketOk, q);
        OldNumber(w, c, socketOk, q);
      } else {
        L.UnlistedAfterReload(w, c, socketOk, l);
      }
    }
  }

  lemma OldNumber(w: World, c: Config, socketOk: LId -> bool, q: nat)
    requires Good(w) && q < |ReloadConfig(w, Some(c), socketOk).running|
    requires ReloadConfig(w, Some(c), socketOk).running[q] < w.nextId
    ensures ReloadConfig(w, Some(c), socketOk).running[q] in w.listeners
  {
    var l := LoadConfig(w, c);
    L.ListedPlace(w, c, socketOk, q);
    LoadTablesKeep(LoadListeners(w, c.listeners), c.tables);
    L.LoadedNumbers(w, c.listeners, l.incoming[q]);
  }

  lemma StepStaysShut(w: World, e: Event, l: LId)
    requires Good(w) && Enabled(w, e) && Shut(w, l)
    ensures Shut(Next(w, e), l)
  {
    match e
    case Accept(m) =>
    case AcceptFails(m) => L.PutSummary(ListenerRefGet(w, m), m); CountsKeepLists(ListenerRefGet(w, m), m, None);
    case Close(i) =>
      var w1 := w.(conns := Without(w.conns, i));
      L.PutSummary(w1, w.conns[i]);
      CountsKeepLists(w1, w.conns[i], None);
    case Reload(c, socketOk) => if c.Some? { ReloadStaysShut(w, c.value, socketOk, l); }
    case Shutdown =>
      ShutdownFreesAll(w);
      ShutdownKeepsNext(w);
  }

  lemma ShutdownKeepsNext(w: World)
    ensures ShutDown(w).nextId == w.nextId
  {
    FreeConnectionsNext(w);
    FreeRunningNext(FreeConnections(w));
    FreeTablesNext(FreeRunning(FreeConnections(w)));
  }

  lemma {:induction false} FreeConnectionsNext(w: World)
    ensures FreeConnections(w).nextId == w.nextId
    decreases |w.conns|
  {
    if w.conns != [] {
      CountsKeepLists(w.(conns := Without(w.conns, 0)), w.conns[0], None);
      FreeConnectionsNext(CloseConn(w, 0));
    }
  }

  lemma {:induction false} FreeRunningNext(w: World)
    ensures FreeRunning(w).nextId == w.nextId
    decreases |w.running|
  {
    if w.running != [] {
      ListsAfterRemove(w, 0);
      FreeRunningNext(RemoveRunning(w, 0));
    }
  }

  lemma {:induction false} FreeTablesNext(w: World)
    ensures FreeTables(w).nextId == w.nextId
    decreases |w.runningTables|
  {
    if w.runningTables != [] {
      FreeTablesNext(TableRefPut(w.(runningTables := Without(w.runningTables, 0)), Some(w.runningTables[0])));
    }
  }

  lemma {:induction false} RunStaysShut(w: World, es: seq<Event>, l: LId)
    requires Good(w) && Feasible(w, es) && Shut(w, l)
    ensures Shut(Run(w, es), l)
    decreases |es|
  {
    if es != [] {
      StepGood(w, es[0]);
      StepStaysShut(w, es[0], l);
      RunStaysShut(Next(w, es[0]), es[1..], l);
    }
  }

  /** A listener that has no socket never accepts again, whatever is reloaded. */
  lemma NeverAccepts(w: World, es: seq<Event>, l: LId)
    requires Good(w) && Feasible(w, es) && l in w.listeners && !w.listeners[l].open
    ensures !Enabled(Run(w, es), Accept(l))
  {
    RunStaysShut(w, es, l);
  }

  // ---------------------------------------------------------------- such a listener stays listed

  lemma OneArranged(a: Addr, settings: nat, b: nat)
    ensures L.Arranged(OneListener(a, settings, b).listeners) == OneListener(a, settings, b).listeners
  {
    var cs := OneListener(a, settings, b).listeners;
    var none: seq<ListenerConfig> := [];
    assert L.Place(none, cs[0].address) == 0 && InsertAt(none, 0, cs[0]) == cs && cs[1..] == [];
    assert L.Arrange(cs, cs[1..]) == cs;
  }

  /** Its set-up fails: it is listed and does not accept. */
  lemma FailedListed(w: World, a: Addr, settings: nat, b: nat, fails: LId -> bool)
    requires Good(w) && w.running == [] && forall l :: !fails(l)
    ensures var r := ReloadConfig(w, Some(OneListener(a, settings, b)), fails);
            && Good(r) && |r.running| == 1 && r.running[0] in r.listeners
            && r.listeners[r.running[0]].address == a && !r.listeners[r.running[0]].open
  {
    var c := OneListener(a, settings, b);
    ReloadInstalls(w, c, fails);
    L.RunningLength(w, c, fails);
    L.ListedAfterReload(w, c, fails, 0);
    OneArranged(a, settings, b);
    NewInEmpty(w, c, fails);
  }

  lemma NewInEmpty(w: World, c: Config, socketOk: LId -> bool)
    requires Good(w) && w.running == [] && |ReloadConfig(w, Some(c), socketOk).running| > 0
    ensures ReloadConfig(w, Some(c), socketOk).running[0] !in w.listeners
  {
    var l := LoadConfig(w, c);
    LoadedCounted(w, c);
    LoadedSorted(w, c);
    L.InstalledPlace(l, socketOk, 0);
    L.LoadedOld(w, c, l.incoming[0]);
  }

  /** The file is read again: the same listener, still not accepting, though it could be set up. */
  lemma NotOpenedAgain(w: World, a: Addr, settings: nat, b: nat, socketOk: LId -> bool)
    requires Good(w) && |w.running| == 1 && w.running[0] in w.listeners
    requires w.listeners[w.running[0]].address == a && !w.listeners[w.running[0]].open
    ensures var r := ReloadConfig(w, Some(OneListener(a, settings, b)), socketOk);
            && r.running == w.running && r.running[0] in r.listeners && !r.listeners[r.running[0]].open
  {
    SameListed(w, a, settings, b, socketOk);
    L.ListedAfterReload(w, OneListener(a, settings, b), socketOk, 0);
  }

  lemma SameListed(w: World, a: Addr, settings: nat, b: nat, socketOk: LId -> bool)
    requires Good(w) && |w.running| == 1 && AddressOf(w, w.running[0]) == a
    ensures ReloadConfig(w, Some(OneListener(a, settings, b)), socketOk).running == w.running
  {
    var c := OneListener(a, settings, b);
    ReloadKeepsMatched(w, c, socketOk, 0);
    L.RunningLength(w, c, socketOk);
    OnlyOne(w);
    OneAddress(a, settings, b);
    Single(ReloadConfig(w, Some(c), socketOk).running, w.running);
  }

  lemma OneAddress(a: Addr, settings: nat, b: nat)
    ensures multiset(ConfigAddresses(OneListener(a, settings, b).listeners))[a] == 1
  {
    assert ConfigAddresses(OneListener(a, settings, b).listeners) == [a];
  }

  lemma Single(s: seq<LId>, t: seq<LId>)
    requires |s| == |t| == 1 && t[0] in s
    ensures s == t
  {
  }

  lemma OnlyOne(w: World)
    requires |w.running| == 1
    ensures RankAmongEqual(w, 0) == 1
  {
    var list, a := w.running[..1], AddressOf(w, w.running[0]);
    assert list[1..] == [];
    assert Occurrences(AddressIn(w), list, a) == 1 + Occurrences(AddressIn(w), list[1..], a);
  }

  /** From start-up: a listener is added by a reload and cannot be set up; the next reload leaves it so. */
  lemma FailedListenerStays(a: Addr, s0: nat, b0: nat, s1: nat, b1: nat, fails: LId -> bool, socketOk: LId -> bool)
    requires forall l :: !fails(l)
    ensures var w := Boot(Config([], []), socketOk);
            var es := [Reload(Some(OneListener(a, s0, b0)), fails)] + [Reload(Some(OneListener(a, s1, b1)), socketOk)];
            && Feasible(w, es)
            && var r := Run(w, es);
               |r.running| == 1 && r.running[0] in r.listeners && !r.listeners[r.running[0]].open
  {
    var w := Boot(Config([], []), socketOk);
    NothingBooted(socketOk);
    FailedListed(w, a, s0, b0, fails);
    var e, e' := Reload(Some(OneListener(a, s0, b0)), fails), Reload(Some(OneListener(a, s1, b1)), socketOk);
    NotOpenedAgain(Next(w, e), a, s1, b1, socketOk);
    TwoEvents(w, e, e');
  }

  lemma NothingBooted(socketOk: LId -> bool)
    ensures Good(Boot(Config([], []), socketOk)) && Boot(Config([], []), socketOk).running == []
  {
    var w := Boot(Config([], []), socketOk);
    BootGood(Config([], []), socketOk);
    var none: seq<Addr> := [];
    assert ConfigAddresses(Config([], []).listeners) == none && multiset(none) == multiset{};
    assert |multiset(AddressesOf(AddressIn(w), w.running))| == 0;
    assert |AddressesOf(AddressIn(w), w.running)| == 0;
  }

  lemma TwoEvents(w: World, e: Event, e': Event)
    requires e.Reload? && e'.Reload?
    ensures Feasible(w, [e] + [e']) && Run(w, [e] + [e']) == Next(Next(w, e), e')
  {
    var es := [e] + [e'];
    assert es[0] == e && es[1..] == [e'] && [e'][1..] == [];
    var d := Next(w, e);
    assert Feasible(Next(d, e'), []) && Run(Next(d, e'), []) == Next(d, e');
    assert Feasible(d, [e']) && Run(d, [e']) == Run(Next(d, e'), [e'][1..]);
    assert Run(w, es) == Run(d, [e']);
  }
}
