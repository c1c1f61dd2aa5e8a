/**
 * How long the address of a pending lookup lives. A host name to resolve that was not
 * copied for the query belongs to a backend of the listener's table, or to the listener
 * as its fallback; resolv_cb reads it when the answer arrives, after any number of reloads.
 */
module LookupLifetime {
  import opened Bits
  import opened Options
  import opened Addresses
  import opened ProxyModel
  import opened ListenerMerge
  import opened ProxyRuns
  import opened ReloadServes
  import opened BackendLifetime
  import opened TableLifetime
  import L = ListenerLifetime
  import C = ConnectionModel
  import CR = ConnectionRuns
  import Q = QueryRuns
  import R = Resolver

  /** The object an address belongs to: backend b of table t, or the settings of the listener. */
  datatype Source = FromTable(t: TId, b: nat) | FromListener(settings: nat)

  /** Listener l has these settings, and no other listener does. */
  ghost predicate HasSettings(w: World, l: LId, s: nat) {
    && l in w.listeners && w.listeners[l].settings == s
    && forall m :: m in w.listeners && w.listeners[m].settings == s ==> m == l
  }

  ghost predicate Alive(w: World, l: LId, source: Source) {
    match source
    case FromTable(t, b) => Owns(w, t, b)
    case FromListener(s) => HasSettings(w, l, s)
  }

  /** The object is not reachable from anything that exists. */
  ghost predicate Gone(w: World, source: Source) {
    match source
    case FromTable(_, b) => Freed(w, b)
    case FromListener(s) => forall m :: m in w.listeners ==> w.listeners[m].settings != s
  }

  predicate BringsSettings(c: Config, s: nat) {
    exists k :: 0 <= k < |c.listeners| && c.listeners[k].settings == s
  }

  /** Objects of a configuration that is read are new. */
  predicate BringsSource(c: Config, source: Source) {
    match source
    case FromTable(_, b) => Brings(c, b)
    case FromListener(s) => BringsSettings(c, s)
  }

  // ---------------------------------------------------------------- one reload

  /** The listener is among as many of its address, from the front, as the configuration has. */
  predicate Kept(w: World, c: Config, l: LId) {
    exists p :: 0 <= p < |w.running| && w.running[p] == l
                && RankAmongEqual(w, p) <= multiset(ConfigAddresses(c.listeners))[AddressOf(w, l)]
  }

  lemma KeptExactly(w: World, c: Config, socketOk: LId -> bool, l: LId)
    requires Good(w) && l in w.listeners
    ensures l in ReloadConfig(w, Some(c), socketOk).running <==> Kept(w, c, l)
  {
    if l in ReloadConfig(w, Some(c), socketOk).running { StillRunning(w, c, socketOk, l); }
    if l in w.running {
      var p :| 0 <= p < |w.running| && w.running[p] == l;
      ReloadKeepsMatched(w, c, socketOk, p);
      forall q | 0 <= q < |w.running| && w.running[q] == l
        ensures q == p
      {
        if q != p { ListedOnce(w, p, q); }
      }
    }
  }

  lemma StillRunning(w: World, c: Config, socketOk: LId -> bool, l: LId)
    requires Good(w) && l in w.listeners && l in ReloadConfig(w, Some(c), socketOk).running
    ensures l in w.running
  {
    var d := LoadConfig(w, c);
    LoadedCounted(w, c);
    LoadedSorted(w, c);
    InstallLists(d, socketOk);
    MergeMembers(AddressIn(d), d.running, d.incoming, l);
    L.LoadedOld(w, c, l);
  }

  /** Told before the reload: whether it leaves the address of a connection whose listener is l. */
  ghost predicate ReloadSpares(w: World, c: Config, l: LId, source: Source) {
    match source
    case FromTable(t, b) => t in w.tables && !Replaced(w, c, t) && Survives(w, c, t)
    case FromListener(_) => !Kept(w, c, l)
  }

  lemma {:induction false} ArrangedFrom(list: seq<ListenerConfig>, cs: seq<ListenerConfig>, x: ListenerConfig)
    requires x in L.Arrange(list, cs)
    ensures x in list || x in cs
    decreases |cs|
  {
    if cs != [] {
      ArrangedFrom(InsertAt(list, L.Place(list, cs[0].address), cs[0]), cs[1..], x);
    }
  }

  /** The settings of listed listeners are those of the file. */
  lemma ListedSettings(w: World, c: Config, socketOk: LId -> bool, m: LId)
    requires Good(w) && m in ReloadConfig(w, Some(c), socketOk).running
    ensures var r := ReloadConfig(w, Some(c), socketOk);
            m in r.listeners && BringsSettings(c, r.listeners[m].settings)
  {
    var r := ReloadConfig(w, Some(c), socketOk);
    var q :| 0 <= q < |r.running| && r.running[q] == m;
    L.ListedAfterReload(w, c, socketOk, q);
    var x := L.Arranged(c.listeners)[q];
    ArrangedFrom([], c.listeners, x);
    var k :| 0 <= k < |c.listeners| && c.listeners[k] == x;
    assert c.listeners[k].settings == r.listeners[m].settings;
  }

  lemma ReloadSettings(w: World, c: Config, socketOk: LId -> bool, l: LId, s: nat)
    requires Good(w) && l in w.conns && HasSettings(w, l, s) && !BringsSettings(c, s)
    ensures var r := ReloadConfig(w, Some(c), socketOk);
            if Kept(w, c, l) then Gone(r, FromListener(s)) else HasSettings(r, l, s)
  {
    var r := ReloadConfig(w, Some(c), socketOk);
    KeptExactly(w, c, socketOk, l);
    ReloadInstalls(w, c, socketOk);
    L.ConnectionListener(r, l);
    forall m | m in r.listeners
      ensures r.listeners[m].settings == s <==> m == l && l !in r.running
    {
      SettingsAfter(w, c, socketOk, m);
    }
  }

  lemma SettingsAfter(w: World, c: Config, socketOk: LId -> bool, m: LId)
    requires Good(w) && m in ReloadConfig(w, Some(c), socketOk).listeners
    ensures var r := ReloadConfig(w, Some(c), socketOk);
            if m in r.running then BringsSettings(c, r.listeners[m].settings)
            else m in w.listeners && r.listeners[m].settings == w.listeners[m].settings
  {
    if m in ReloadConfig(w, Some(c), socketOk).running {
      ListedSettings(w, c, socketOk, m);
    } else {
      L.UnlistedAfterReload(w, c, socketOk, m);
    }
  }

  /**
   * A reload frees the address exactly when it does not spare it: a backend of a table that
   * is replaced or does not survive, the fallback of a listener that is matched with a new one.
   */
  lemma ReloadAndLookup(w: World, c: Config, socketOk: LId -> bool, l: LId, source: Source)
    requires Good(w) && l in w.conns && Alive(w, l, source) && !BringsSource(c, source)
    ensures var r := ReloadConfig(w, Some(c), socketOk);
            if ReloadSpares(w, c, l, source) then Alive(r, l, source) else Gone(r, source)
  {
    match source
    case FromTable(t, b) => BackendSurvives(w, c, socketOk, t, b);
    case FromListener(s) => ReloadSettings(w, c, socketOk, l, s);
  }

  /** The table of a connection's listener survives a reload that does not match the listener. */
  lemma TableOfConnection(w: World, c: Config, l: LId, t: TId)
    requires Good(w) && l in w.conns && l in w.listeners && w.listeners[l].table == Some(t) && !Kept(w, c, l)
    ensures Survives(w, c, t)
  {
    KeptExactly(w, c, _ => true, l);
    RunningIsMerged(w, c, _ => true);
    assert HoldsOn(w, c, l);
  }

  lemma ReloadKeepsGone(w: World, c: Config, socketOk: LId -> bool, source: Source)
    requires Good(w) && Gone(w, source) && !BringsSource(c, source)
    ensures Gone(ReloadConfig(w, Some(c), socketOk), source)
  {
    match source
    case FromTable(_, b) => FreedStays(w, c, socketOk, b);
    case FromListener(s) =>
      var r := ReloadConfig(w, Some(c), socketOk);
      forall m | m in r.listeners
        ensures r.listeners[m].settings != s
      {
        SettingsAfter(w, c, socketOk, m);
      }
  }

  // ---------------------------------------------------------------- accepts and closes

  /** Tables keep their content and listeners their settings; either may be freed. */
  predicate Shrinks(w: World, r: World) {
    && ContentAgrees(r, ContentIn(w))
    && forall m :: m in r.listeners ==> m in w.listeners && r.listeners[m].settings == w.listeners[m].settings
  }

  lemma GetShrinks(w: World, l: LId)
    requires l in w.listeners
    ensures Shrinks(w, ListenerRefGet(w, l))
  {
  }

  lemma PutShrinks(w: World, l: LId)
    ensures Shrinks(w, ListenerRefPut(w, l))
  {
    PutKeepsContent(w, l, ContentIn(w));
    L.PutSummary(w, l);
    var r := ListenerRefPut(w, l);
    assert forall m :: m in r.listeners ==> L.SummaryOf(r.listeners[m]).settings == r.listeners[m].settings;
  }

  lemma ShrinksTwice(a: World, b: World, c: World)
    requires Shrinks(a, b) && Shrinks(b, c)
    ensures Shrinks(a, c)
  {
  }

  /** Events other than reload and shutdown. */
  lemma OtherEvents(w: World, e: Event)
    requires Enabled(w, e) && !e.Reload? && !e.Shutdown?
    ensures Shrinks(w, Next(w, e))
  {
    match e
    case Accept(l) => GetShrinks(w, l);
    case AcceptFails(l) =>
      GetShrinks(w, l);
      PutShrinks(ListenerRefGet(w, l), l);
      ShrinksTwice(w, ListenerRefGet(w, l), Next(w, e));
    case Close(i) => PutShrinks(w.(conns := Without(w.conns, i)), w.conns[i]);
  }

  lemma ShrinkAndLookup(w: World, r: World, l: LId, source: Source)
    requires Shrinks(w, r) && Alive(w, l, source) && l in r.listeners
    ensures if source.FromListener? || source.t in r.tables then Alive(r, l, source) else Gone(r, source)
  {
  }

  lemma ShrinkKeepsGone(w: World, r: World, source: Source)
    requires Shrinks(w, r) && Gone(w, source)
    ensures Gone(r, source)
  {
  }

  // ---------------------------------------------------------------- the whole process

  /**
   * The proxy, one of its connections with its query, and where the address of its lookup
   * came from (None: none yet, or a copy the query owns).
   */
  datatype Process = Process(w: World, l: LId, s: Q.System, source: Option<Source>)

  /** Something happens to the proxy, or to the connection; a lookup may yield this source. */
  datatype Step = ProxyStep(proxy: Event) | ConnectionStep(query: Q.Event, source: Source)

  /** Told before the event: whether it leaves the address. */
  ghost predicate Spares(w: World, e: Event, l: LId, source: Source)
    requires Enabled(w, e)
  {
    match e
    case Reload(Some(c), _) => ReloadSpares(w, c, l, source)
    case Close(i) => source.FromListener? || !LastHold(w, i, source.t)
    case _ => true
  }

  /** The table still exists after an event that is no reload. */
  lemma SparedTable(w: World, e: Event, t: TId)
    requires Good(w) && Enabled(w, e) && !e.Reload? && !e.Shutdown? && t in w.tables
    ensures t in Next(w, e).tables <==> (e.Close? ==> !LastHold(w, e.i, t))
  {
    match e
    case Accept(l) => AcceptsFreeNothing(w, l, t);
    case AcceptFails(l) => AcceptsFreeNothing(w, l, t);
    case Close(i) => CloseFreesTable(w, i, t);
  }

  /** resolve_server_address found a host name that it does not own. */
  predicate Borrows(s: Q.System, d: Q.System) {
    !s.c.state.Resolving? && d.c.state.Resolving? && d.c.query.Pending? && !d.c.query.ownsAddress
  }

  /** An address found in a table is one of the listener's own table. */
  predicate OwnTable(w: World, l: LId, source: Source) {
    source.FromTable? ==> l in w.listeners && w.listeners[l].table == Some(source.t)
  }

  /** The connection stays, the process goes on, and an address that is looked up exists. */
  ghost predicate CanStep(x: Process, e: Step)
    requires C.BuffersValid(x.s.c)
  {
    match e
    case ProxyStep(pe) =>
      && Enabled(x.w, pe) && !pe.Shutdown? && x.l in Next(x.w, pe).conns
      && (pe.Reload? && pe.config.Some? && x.source.Some? ==> !BringsSource(pe.config.value, x.source.value))
    case ConnectionStep(qe, source) =>
      && Q.Enabled(x.s, qe)
      && (Borrows(x.s, Q.Next(x.s, qe)) ==> Alive(x.w, x.l, source) && OwnTable(x.w, x.l, source))
  }

  ghost function After(x: Process, e: Step): Process
    requires C.BuffersValid(x.s.c)
    requires match e case ProxyStep(pe) => Enabled(x.w, pe) case ConnectionStep(qe, _) => Q.Enabled(x.s, qe)
  {
    match e
    case ProxyStep(pe) => x.(w := Next(x.w, pe))
    case ConnectionStep(qe, source) =>
      var d := Q.Next(x.s, qe);
      if Borrows(x.s, d) then x.(s := d, source := Some(source)) else x.(s := d)
  }

  /** A borrowed address is where it was, or nowhere, and the connection has been to RESOLVING. */
  ghost predicate Sound(x: Process) {
    && Good(x.w) && x.l in x.w.conns && Q.Joined(x.s)
    && (x.source.Some? ==>
          && CR.Rank(x.s.c.state) >= CR.Rank(C.Resolving)
          && (Alive(x.w, x.l, x.source.value) || Gone(x.w, x.source.value)))
  }

  lemma ProxyStepAndLookup(w: World, e: Event, l: LId, source: Source)
    requires Good(w) && l in w.conns && Enabled(w, e) && !e.Shutdown? && l in Next(w, e).conns
    requires e.Reload? && e.config.Some? ==> !BringsSource(e.config.value, source)
    ensures Alive(w, l, source) ==>
              if Spares(w, e, l, source) then Alive(Next(w, e), l, source) else Gone(Next(w, e), source)
    ensures Gone(w, source) ==> Gone(Next(w, e), source)
  {
    if e.Reload? {
      if e.config.Some? {
        if Alive(w, l, source) { ReloadAndLookup(w, e.config.value, e.socketOk, l, source); }
        if Gone(w, source) { ReloadKeepsGone(w, e.config.value, e.socketOk, source); }
      }
    } else {
      OtherEvents(w, e);
      StepGood(w, e);
      L.ConnectionListener(Next(w, e), l);
      if source.FromTable? && source.t in w.tables { SparedTable(w, e, source.t); }
      if Alive(w, l, source) { ShrinkAndLookup(w, Next(w, e), l, source); }
      if Gone(w, source) { ShrinkKeepsGone(w, Next(w, e), source); }
    }
  }

  /** Told before the step: whether it leaves the address. */
  ghost predicate StepSpares(x: Process, e: Step)
    requires C.BuffersValid(x.s.c) && CanStep(x, e) && x.source.Some?
  {
    e.ProxyStep? ==> Spares(x.w, e.proxy, x.l, x.source.value)
  }

  /** A connection borrows at most one address; a step keeps it if it spares it and frees it otherwise. */
  lemma StepBorrowed(x: Process, e: Step)
    requires Sound(x) && CanStep(x, e) && x.source.Some?
    ensures Sound(After(x, e)) && After(x, e).source == x.source
    ensures var source := x.source.value;
            && (Alive(x.w, x.l, source) ==>
                  if StepSpares(x, e) then Alive(After(x, e).w, x.l, source) else Gone(After(x, e).w, source))
            && (Gone(x.w, source) ==> Gone(After(x, e).w, source))
  {
    match e
    case ProxyStep(pe) =>
      StepGood(x.w, pe);
      ProxyStepAndLookup(x.w, pe, x.l, x.source.value);
    case ConnectionStep(qe, _) =>
      Q.StepJoined(x.s, qe);
      Q.SystemAdvances(x.s, qe);
  }

  lemma StepSound(x: Process, e: Step)
    requires Sound(x) && CanStep(x, e)
    ensures Sound(After(x, e))
  {
    if x.source.Some? {
      StepBorrowed(x, e);
    } else {
      match e
      case ProxyStep(pe) => StepGood(x.w, pe);
      case ConnectionStep(qe, _) => Q.StepJoined(x.s, qe);
    }
  }

  ghost predicate CanRun(x: Process, es: seq<Step>)
    requires Sound(x)
    decreases |es|
  {
    es == [] || (CanStep(x, es[0]) && (StepSound(x, es[0]); CanRun(After(x, es[0]), es[1..])))
  }

  ghost function RunAll(x: Process, es: seq<Step>): (r: Process)
    requires Sound(x) && CanRun(x, es)
    ensures Sound(r)
    decreases |es|
  {
    if es == [] then x else StepSound(x, es[0]); RunAll(After(x, es[0]), es[1..])
  }

  lemma AcceptedSound(w: World, l: LId, peer: C.Peer, wantsHeader: bool)
    requires Good(w) && Enabled(w, Accept(l)) && peer.Valid()
    ensures Sound(Process(Next(w, Accept(l)), l, Q.Start(peer, wantsHeader), None))
  {
    StepGood(w, Accept(l));
  }

  /** A connection that has just been accepted is where every run of it begins. */
  ghost function Accepted(w: World, l: LId, peer: C.Peer, wantsHeader: bool): (x: Process)
    requires Good(w) && Enabled(w, Accept(l)) && peer.Valid()
    ensures Sound(x)
  {
    AcceptedSound(w, l, peer, wantsHeader);
    Process(Next(w, Accept(l)), l, Q.Start(peer, wantsHeader), None)
  }

  ghost function SoundAfter(x: Process, e: Step): (y: Process)
    requires Sound(x) && CanStep(x, e)
    ensures Sound(y) && y == After(x, e)
  {
    StepSound(x, e);
    After(x, e)
  }

  /** Every event of the run leaves the address that was borrowed before it. */
  ghost predicate AllSpare(x: Process, es: seq<Step>)
    requires Sound(x) && CanRun(x, es) && x.source.Some?
    decreases |es|
  {
    es == [] ||
    (StepSpares(x, es[0]) && (StepBorrowed(x, es[0]); AllSpare(After(x, es[0]), es[1..])))
  }

  lemma {:induction false} BorrowedAtEnd(x: Process, es: seq<Step>)
    requires Sound(x) && CanRun(x, es) && x.source.Some?
    ensures var r, source := RunAll(x, es), x.source.value;
            && r.l == x.l && r.source == x.source
            && (Alive(x.w, x.l, source) ==> if AllSpare(x, es) then Alive(r.w, r.l, source) else Gone(r.w, source))
            && (Gone(x.w, source) ==> Gone(r.w, source))
    decreases |es|
  {
    if es != [] {
      StepBorrowed(x, es[0]);
      BorrowedAtEnd(After(x, es[0]), es[1..]);
    }
  }

  /**
   * From accept on, any interleaving of reloads, accepts, closes, socket events and answers
   * (before), a lookup that borrows an address (e), and again any interleaving (es): the
   * listener exists, an outstanding query finds its connection waiting, and the address
   * exists if every event since the lookup spared it; otherwise nothing has it any more.
   */
  lemma AddressAtAnswer(w: World, l: LId, peer: C.Peer, wantsHeader: bool, before: seq<Step>, e: Step, es: seq<Step>)
    requires Good(w) && Enabled(w, Accept(l)) && peer.Valid() && CanRun(Accepted(w, l, peer, wantsHeader), before)
    requires var x := RunAll(Accepted(w, l, peer, wantsHeader), before);
             && e.ConnectionStep? && CanStep(x, e) && Borrows(x.s, Q.Next(x.s, e.query))
             && CanRun(SoundAfter(x, e), es)
    ensures var y := SoundAfter(RunAll(Accepted(w, l, peer, wantsHeader), before), e);
            var r := RunAll(y, es);
            && r.l in r.w.listeners && r.source == Some(e.source)
            && (r.s.query.Some? ==> r.s.c.state.Resolving?)
            && if AllSpare(y, es) then Alive(r.w, r.l, e.source) else Gone(r.w, e.source)
  {
    var y := SoundAfter(RunAll(Accepted(w, l, peer, wantsHeader), before), e);
    BorrowedAtEnd(y, es);
    L.ConnectionListener(RunAll(y, es).w, RunAll(y, es).l);
  }

  /** Reading a file with a table of the same name frees the backend a pending lookup points to. */
  lemma SameTableFrees(w: World, c: Config, socketOk: LId -> bool, l: LId, t: TId, b: nat)
    requires Good(w) && l in w.conns && Owns(w, t, b) && !Brings(c, b)
    requires TableLookup(w, w.runningTables, w.tables[t].name) == Some(t) && Names(c, w.tables[t].name)
    ensures Gone(ReloadConfig(w, Some(c), socketOk), FromTable(t, b))
  {
    ReloadAndLookup(w, c, socketOk, l, FromTable(t, b));
  }

  // ---------------------------------------------------------------- a run in which the address goes

  /** The proxy started with a file of one listener; each reading of the file makes new objects. */
  lemma Booted(a: Addr, settings: nat, b: nat)
    ensures var w := Boot(OneListener(a, settings, b), _ => true);
            && w.running == [0] && w.runningTables == [1] && w.conns == []
            && w.listeners == map[0 := Listener(a, None, settings, Some(1), 1, true)]
            && w.tables == map[1 := Table(None, [b], 2)]
  {
    var c := OneListener(a, settings, b);
    var w1 := LoadListener(EMPTY_WORLD, c.listeners[0]);
    assert c.listeners[1..] == [] && c.tables[1..] == [];
    assert LoadListeners(EMPTY_WORLD, c.listeners) == w1 && w1.incoming == [0];
    var w2 := LoadTable(w1, c.tables[0]);
    assert LoadTables(w1, c.tables) == w2 && w2.incomingTables == [1];
    var w3 := Adopt(w2);
    assert TableLookup(w3, w3.runningTables, None) == Some(1);
    var w4 := InitListener(w3, 0, true);
    assert w4.running == [0] && InitAll(w4, 1, _ => true) == w4;
  }

  /** A request whose lookup borrows the address of backend b of table 1. */
  function BorrowStep(b: nat, bytes: seq<byte>, env: C.Env, mode: R.Mode): Step {
    ConnectionStep(Q.Socket(CR.Request(bytes, env), mode, true, true), FromTable(1, b))
  }

  /** The file is read again. */
  function ReadStep(a: Addr, settings: nat, b: nat): Step {
    ProxyStep(Reload(Some(OneListener(a, settings, b)), _ => true))
  }

  /** While the query is pending its address is freed. */
  lemma AddressLost(a: Addr, s0: nat, b0: nat, s1: nat, b1: nat,
                    peer: C.Peer, bytes: seq<byte>, env: C.Env, mode: R.Mode)
    requires b0 != b1 && peer.Valid() && CR.Acceptable(bytes, env) && env.lookup.HostName? && !env.lookup.callerFrees
    ensures Good(Boot(OneListener(a, s0, b0), _ => true)) && Enabled(Boot(OneListener(a, s0, b0), _ => true), Accept(0))
    ensures var x, es := Accepted(Boot(OneListener(a, s0, b0), _ => true), 0, peer, false),
                         [BorrowStep(b0, bytes, env, mode)] + [ReadStep(a, s1, b1)];
            && CanRun(x, es) && RunAll(x, es).s.query.Some?
            && RunAll(x, es).source == Some(FromTable(1, b0)) && Gone(RunAll(x, es).w, FromTable(1, b0))
  {
    var w := Boot(OneListener(a, s0, b0), _ => true);
    BootGood(OneListener(a, s0, b0), _ => true);
    Booted(a, s0, b0);
    LostFrom(Accepted(w, 0, peer, false), a, s1, b0, b1, peer, bytes, env, mode);
  }

  lemma LostFrom(x: Process, a: Addr, s1: nat, b0: nat, b1: nat,
                 peer: C.Peer, bytes: seq<byte>, env: C.Env, mode: R.Mode)
    requires b0 != b1 && peer.Valid() && CR.Acceptable(bytes, env) && env.lookup.HostName? && !env.lookup.callerFrees
    requires Sound(x) && x.s == Q.Start(peer, false) && Owns(x.w, 1, b0) && OwnTable(x.w, x.l, FromTable(1, b0))
    requires x.w.tables[1].name == None && TableLookup(x.w, x.w.runningTables, None) == Some(1)
    ensures var es := [BorrowStep(b0, bytes, env, mode)] + [ReadStep(a, s1, b1)];
            && CanRun(x, es) && RunAll(x, es).s.query.Some?
            && RunAll(x, es).source == Some(FromTable(1, b0)) && Gone(RunAll(x, es).w, FromTable(1, b0))
  {
    Borrowing(x, b0, peer, bytes, env, mode);
    ThenReadAgain(x, BorrowStep(b0, bytes, env, mode), a, s1, b0, b1);
  }

  lemma ThenReadAgain(x: Process, e: Step, a: Addr, s1: nat, b0: nat, b1: nat)
    requires Sound(x) && b0 != b1 && CanStep(x, e) && After(x, e).w == x.w
    requires After(x, e).source == Some(FromTable(1, b0)) && Owns(x.w, 1, b0)
    requires x.w.tables[1].name == None && TableLookup(x.w, x.w.runningTables, None) == Some(1)
    ensures var es := [e] + [ReadStep(a, s1, b1)];
            && CanRun(x, es) && RunAll(x, es).s == After(x, e).s
            && RunAll(x, es).source == Some(FromTable(1, b0)) && Gone(RunAll(x, es).w, FromTable(1, b0))
  {
    StepSound(x, e);
    ReadAgainRuns(After(x, e), a, s1, b0, b1);
    FirstStep(x, e, After(x, e), [ReadStep(a, s1, b1)]);
  }

  lemma ReadAgainRuns(y: Process, a: Addr, s1: nat, b0: nat, b1: nat)
    requires Sound(y) && b0 != b1 && y.source == Some(FromTable(1, b0)) && Owns(y.w, 1, b0)
    requires y.w.tables[1].name == None && TableLookup(y.w, y.w.runningTables, None) == Some(1)
    ensures var es := [ReadStep(a, s1, b1)];
            && CanRun(y, es) && RunAll(y, es).s == y.s && RunAll(y, es).source == y.source
            && Gone(RunAll(y, es).w, FromTable(1, b0))
  {
    ReadAgain(y, a, s1, b0, b1);
    LastStep(y, ReadStep(a, s1, b1), After(y, ReadStep(a, s1, b1)));
  }

  lemma FirstStep(x: Process, e: Step, y: Process, rest: seq<Step>)
    requires Sound(x) && CanStep(x, e) && y == After(x, e) && Sound(y) && CanRun(y, rest)
    ensures CanRun(x, [e] + rest) && RunAll(x, [e] + rest) == RunAll(y, rest)
  {
    assert ([e] + rest)[1..] == rest && ([e] + rest)[0] == e;
  }

  lemma LastStep(x: Process, e: Step, y: Process)
    requires Sound(x) && CanStep(x, e) && y == After(x, e)
    ensures Sound(y) && CanRun(x, [e]) && RunAll(x, [e]) == y
  {
    StepSound(x, e);
    FirstStep(x, e, y, []);
    assert [e] + [] == [e];
  }

  lemma ReadAgain(y: Process, a: Addr, s1: nat, b0: nat, b1: nat)
    requires Sound(y) && b0 != b1 && y.source == Some(FromTable(1, b0)) && Owns(y.w, 1, b0)
    requires y.w.tables[1].name == None && TableLookup(y.w, y.w.runningTables, None) == Some(1)
    ensures var e := ReadStep(a, s1, b1);
            && CanStep(y, e) && After(y, e).s == y.s && After(y, e).source == y.source
            && Gone(After(y, e).w, FromTable(1, b0))
  {
    ReadAgainFrees(y.w, y.l, OneListener(a, s1, b1), ReadStep(a, s1, b1).proxy.socketOk, b0);
  }

  lemma ReadAgainFrees(w: World, l: LId, c: Config, socketOk: LId -> bool, b0: nat)
    requires Good(w) && l in w.conns && Owns(w, 1, b0) && |c.tables| == 1 && c.tables[0].name == None
    requires b0 !in c.tables[0].backends
    requires w.tables[1].name == None && TableLookup(w, w.runningTables, None) == Some(1)
    ensures var r := ReloadConfig(w, Some(c), socketOk); l in r.conns && Gone(r, FromTable(1, b0))
    ensures !BringsSource(c, FromTable(1, b0))
  {
    assert c.tables[0].name == None;
    ConnectionsStay(w, c, socketOk);
    SameTableFrees(w, c, socketOk, l, 1, b0);
  }

  lemma ConnectionsStay(w: World, c: Config, socketOk: LId -> bool)
    requires Good(w)
    ensures ReloadConfig(w, Some(c), socketOk).conns == w.conns
  {
    ReloadInstalls(w, c, socketOk);
  }

  lemma Borrowing(x: Process, b0: nat, peer: C.Peer, bytes: seq<byte>, env: C.Env, mode: R.Mode)
    requires peer.Valid() && CR.Acceptable(bytes, env) && env.lookup.HostName? && !env.lookup.callerFrees
    requires Sound(x) && x.s == Q.Start(peer, false) && Owns(x.w, 1, b0) && OwnTable(x.w, x.l, FromTable(1, b0))
    ensures var e := BorrowStep(b0, bytes, env, mode);
            && CanStep(x, e) && After(x, e).w == x.w && After(x, e).l == x.l
            && After(x, e).source == Some(FromTable(1, b0)) && After(x, e).s.query.Some?
  {
    CR.RequestResolves(peer, bytes, env);
  }
}
