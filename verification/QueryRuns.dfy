/**
 * A connection together with the resolver query it waits for. The resolver calls back
 * whenever its answers are in, whatever became of the connection; the theorems say that
 * this is never too late.
 */
module QueryRuns {
  import opened Bits
  import opened Options
  import opened ConnectionModel
  import opened ConnectionProofs
  import opened ConnectionRuns
  import Resolver

  /**
   * query is the resolver's object while it exists; lost records that resolv_query
   * returned NULL, and fault that NULL was passed to resolv_cancel or that a callback
   * found its connection freed.
   */
  datatype System = System(c: Conn, query: Option<Resolver.Query>, lost: bool, fault: bool)

  datatype Event =
    | Socket(e: ConnectionModel.Event, mode: Resolver.Mode, ok4: bool, ok6: bool)
    | Answer(r: Resolver.Event, env: Env)

  /** The resolver answers an outstanding query without regard to the connection. */
  predicate Enabled(s: System, e: Event) {
    match e
    case Socket(ce, _, _, _) => !ce.Dns? && ConnectionModel.Enabled(s.c, ce)
    case Answer(r, env) =>
      s.query.Some? && !r.Cancel? && Resolver.Enabled(s.query.value, r) && env.protocol.Valid()
  }

  /** resolv_query on entering RESOLVING, resolv_cancel when the client leaves it. */
  function AfterSocket(s: System, d: Conn, mode: Resolver.Mode, ok4: bool, ok6: bool): System {
    if s.c.state.Resolving? && !d.state.Resolving? then
      System(d, None, s.lost, s.fault || s.query.None?)
    else if !s.c.state.Resolving? && d.state.Resolving? then
      var q := Resolver.Submit(mode, ok4, ok6);
      System(d, if q.live then Some(q) else None, s.lost || !q.live, s.fault)
    else s.(c := d)
  }

  /** The last answer calls resolv_cb. */
  function AfterAnswer(s: System, q: Resolver.Query, env: Env): System
    requires BuffersValid(s.c)
  {
    if q.live then s.(query := Some(q))
    else if s.c.state.Closed? then s.(query := None, fault := true)
    else s.(c := ResolvCb(s.c, q.chosen.Some?, env), query := None)
  }

  function Next(s: System, e: Event): System
    requires BuffersValid(s.c) && Enabled(s, e)
  {
    match e
    case Socket(ce, mode, ok4, ok6) => AfterSocket(s, ConnectionModel.Next(s.c, ce), mode, ok4, ok6)
    case Answer(r, env) => AfterAnswer(s, Resolver.Next(s.query.value, r), env)
  }

  /** A query exists exactly while the connection waits for it. */
  predicate Joined(s: System) {
    && Sound(s.c)
    && (s.query.Some? <==> s.c.state.Resolving? && !s.lost)
    && (s.query.Some? ==> Resolver.Inv(s.query.value) && s.query.value.live)
    && (s.lost ==> Rank(s.c.state) >= Rank(Resolving))
    && (s.fault <==> s.lost && !s.c.state.Resolving?)
  }

  lemma SocketJoined(s: System, ce: ConnectionModel.Event, mode: Resolver.Mode, ok4: bool, ok6: bool)
    requires Joined(s) && !ce.Dns? && ConnectionModel.Enabled(s.c, ce)
    ensures Joined(AfterSocket(s, ConnectionModel.Next(s.c, ce), mode, ok4, ok6))
  {
    StepSafe(s.c, ce);
    StatesAdvance(s.c, ce);
  }

  lemma AnswerJoined(s: System, r: Resolver.Event, env: Env)
    requires Joined(s) && Enabled(s, Answer(r, env))
    ensures Joined(Next(s, Answer(r, env)))
  {
    var q := Resolver.Next(s.query.value, r);
    Resolver.StepKeepsInv(s.query.value, r);
    if !q.live {
      StepSafe(s.c, Dns(q.chosen.Some?, env));
      ResolvCbForward(s.c, q.chosen.Some?, env);
    }
  }

  /** The connection's states never go back, whatever the resolver does. */
  lemma SystemAdvances(s: System, e: Event)
    requires Joined(s) && Enabled(s, e)
    ensures var d := Next(s, e);
            && Rank(s.c.state) <= Rank(d.c.state)
            && (Rank(s.c.state) == Rank(d.c.state) ==> d.c.state == s.c.state)
  {
    match e
    case Socket(ce, _, _, _) =>
      StepSafe(s.c, ce);
      StatesAdvance(s.c, ce);
    case Answer(r, env) =>
      var q := Resolver.Next(s.query.value, r);
      if !q.live {
        StepSafe(s.c, Dns(q.chosen.Some?, env));
        StatesAdvance(s.c, Dns(q.chosen.Some?, env));
      }
  }

  lemma StepJoined(s: System, e: Event)
    requires Joined(s) && Enabled(s, e)
    ensures Joined(Next(s, e))
  {
    match e
    case Socket(ce, mode, ok4, ok6) => SocketJoined(s, ce, mode, ok4, ok6);
    case Answer(r, env) => AnswerJoined(s, r, env);
  }

  predicate Feasible(s: System, es: seq<Event>)
    requires Joined(s)
    decreases |es|
  {
    es == [] || (Enabled(s, es[0]) && (StepJoined(s, es[0]); Feasible(Next(s, es[0]), es[1..])))
  }

  function Run(s: System, es: seq<Event>): (r: System)
    requires Joined(s) && Feasible(s, es)
    ensures Joined(r)
    decreases |es|
  {
    if es == [] then s else StepJoined(s, es[0]); Run(Next(s, es[0]), es[1..])
  }

  function Start(peer: Peer, wantsHeader: bool): (s: System)
    requires peer.Valid()
    ensures Joined(s)
  {
    AcceptSafe(peer, wantsHeader);
    assert ConnectionRuns.Start(peer, wantsHeader).state.Accepted? by { StartsAccepted(peer, wantsHeader); }
    System(ConnectionRuns.Start(peer, wantsHeader), None, false, false)
  }

  lemma StartsAccepted(peer: Peer, wantsHeader: bool)
    requires peer.Valid()
    ensures ConnectionRuns.Start(peer, wantsHeader).state.Accepted?
  {
    if wantsHeader {
      HeaderLength(peer);
      assert Inv(Fresh());
      PushPartsFit(Fresh(), HeaderParts(peer));
    }
  }

  // ---------------------------------------------------------------- the connection's own run

  /** The connection's share of an event. */
  function Share(s: System, e: Event): seq<ConnectionModel.Event>
    requires Enabled(s, e)
  {
    match e
    case Socket(ce, _, _, _) => [ce]
    case Answer(r, env) =>
      var q := Resolver.Next(s.query.value, r);
      if q.live then [] else [Dns(q.chosen.Some?, env)]
  }

  function Shares(s: System, es: seq<Event>): seq<ConnectionModel.Event>
    requires Joined(s) && Feasible(s, es)
    decreases |es|
  {
    if es == [] then []
    else StepJoined(s, es[0]); Share(s, es[0]) + Shares(Next(s, es[0]), es[1..])
  }

  lemma RunOfOne(c: Conn, e: ConnectionModel.Event, es: seq<ConnectionModel.Event>)
    requires Sound(c) && ConnectionModel.Enabled(c, e)
    requires Sound(ConnectionModel.Next(c, e)) && ConnectionRuns.Feasible(ConnectionModel.Next(c, e), es)
    ensures ConnectionRuns.Feasible(c, [e] + es)
    ensures ConnectionRuns.Run(c, [e] + es) == ConnectionRuns.Run(ConnectionModel.Next(c, e), es)
  {
    assert ([e] + es)[1..] == es;
  }

  lemma ShareOfSocket(s: System, ce: ConnectionModel.Event, d: System)
    requires Joined(s) && ConnectionModel.Enabled(s.c, ce)
    requires exists mode, ok4, ok6 :: d == AfterSocket(s, ConnectionModel.Next(s.c, ce), mode, ok4, ok6)
    ensures Sound(ConnectionModel.Next(s.c, ce)) && d.c == ConnectionModel.Next(s.c, ce)
  {
    StepSafe(s.c, ce);
  }

  lemma ShareOfAnswer(s: System, r: Resolver.Event, env: Env)
    requires Joined(s) && Enabled(s, Answer(r, env))
    ensures var q := Resolver.Next(s.query.value, r);
            var d, e := Next(s, Answer(r, env)).c, Dns(q.chosen.Some?, env);
            if q.live then d == s.c
            else
              && ConnectionModel.Enabled(s.c, e)
              && Sound(ConnectionModel.Next(s.c, e)) && d == ConnectionModel.Next(s.c, e)
  {
    var q := Resolver.Next(s.query.value, r);
    if !q.live { StepSafe(s.c, Dns(q.chosen.Some?, env)); }
  }

  lemma ShareRuns(s: System, e: Event, rest: seq<ConnectionModel.Event>)
    requires Joined(s) && Enabled(s, e) && Sound(Next(s, e).c) && ConnectionRuns.Feasible(Next(s, e).c, rest)
    ensures ConnectionRuns.Feasible(s.c, Share(s, e) + rest)
    ensures ConnectionRuns.Run(s.c, Share(s, e) + rest) == ConnectionRuns.Run(Next(s, e).c, rest)
  {
    match e
    case Socket(ce, mode, ok4, ok6) =>
      ShareOfSocket(s, ce, Next(s, e));
      RunOfOne(s.c, ce, rest);
    case Answer(r, env) =>
      ShareOfAnswer(s, r, env);
      var q := Resolver.Next(s.query.value, r);
      if q.live {
        assert Share(s, e) + rest == rest;
      } else {
        RunOfOne(s.c, Dns(q.chosen.Some?, env), rest);
      }
  }

  /** Whatever the resolver does, the connection goes through one of its own runs. */
  lemma {:induction false} ConnectionRunsAlone(s: System, es: seq<Event>)
    requires Joined(s) && Feasible(s, es)
    ensures ConnectionRuns.Feasible(s.c, Shares(s, es))
    ensures ConnectionRuns.Run(s.c, Shares(s, es)) == Run(s, es).c
    decreases |es|
  {
    if es != [] {
      StepJoined(s, es[0]);
      ConnectionRunsAlone(Next(s, es[0]), es[1..]);
      ShareRuns(s, es[0], Shares(Next(s, es[0]), es[1..]));
    }
  }

  // ---------------------------------------------------------------- nothing submitted

  /** The event enters RESOLVING and submits neither query. */
  predicate AsksNothing(s: System, e: Event)
    requires BuffersValid(s.c) && Enabled(s, e)
  {
    && e.Socket? && !s.c.state.Resolving? && ConnectionModel.Next(s.c, e.e).state.Resolving?
    && (e.mode.Ipv6Only? || !e.ok4) && (e.mode.Ipv4Only? || !e.ok6)
  }

  predicate NothingAsked(s: System, es: seq<Event>)
    requires Joined(s) && Feasible(s, es)
    decreases |es|
  {
    && es != []
    && (StepJoined(s, es[0]); AsksNothing(s, es[0]) || NothingAsked(Next(s, es[0]), es[1..]))
  }

  lemma {:induction false} LostIsNothingAsked(s: System, es: seq<Event>)
    requires Joined(s) && Feasible(s, es)
    ensures Run(s, es).lost <==> s.lost || NothingAsked(s, es)
    decreases |es|
  {
    if es != [] {
      StepJoined(s, es[0]);
      LostIsNothingAsked(Next(s, es[0]), es[1..]);
    }
  }

  /**
   * Over every interleaving of socket events, answers, cancellation and shutdown: a query
   * exists exactly while its connection is in RESOLVING, so none outlives a freed
   * connection; what the connection does is a run of its own, so its theorems hold; and
   * the one fault, NULL passed to resolv_cancel, happens exactly when some event entered
   * RESOLVING with neither query submitted, and RESOLVING was left all the same.
   */
  lemma NoLateCallback(peer: Peer, wantsHeader: bool, es: seq<Event>)
    requires peer.Valid() && Feasible(Start(peer, wantsHeader), es)
    ensures var start := Start(peer, wantsHeader);
            var s := Run(start, es);
            && (s.query.Some? <==> s.c.state.Resolving? && !NothingAsked(start, es))
            && (s.c.state.Closed? ==> s.query.None?)
            && (s.fault <==> NothingAsked(start, es) && !s.c.state.Resolving?)
            && ConnectionRuns.Feasible(start.c, Shares(start, es))
            && s.c == ConnectionRuns.Run(start.c, Shares(start, es))
  {
    ConnectionRunsAlone(Start(peer, wantsHeader), es);
    LostIsNothingAsked(Start(peer, wantsHeader), es);
  }

  /** An answer that arrives finds its connection waiting, so resolv_cb passes its test. */
  lemma AnswerFindsConnection(peer: Peer, wantsHeader: bool, es: seq<Event>, r: Resolver.Event, env: Env)
    requires peer.Valid() && Feasible(Start(peer, wantsHeader), es)
    requires Enabled(Run(Start(peer, wantsHeader), es), Answer(r, env))
    ensures Run(Start(peer, wantsHeader), es).c.state.Resolving?
  {
  }

  /** The fault happens: a request, a host name to look up, neither query submitted, shutdown. */
  lemma NothingSubmittedFaults(peer: Peer, bytes: seq<byte>, env: Env, mode: Resolver.Mode)
    requires peer.Valid() && Acceptable(bytes, env) && env.lookup.HostName?
    ensures var s := Start(peer, false);
            var es := [Socket(Request(bytes, env), mode, false, false), Socket(Shutdown, mode, false, false)];
            Feasible(s, es) && Run(s, es).fault
  {
    var s := Start(peer, false);
    var es := [Socket(Request(bytes, env), mode, false, false), Socket(Shutdown, mode, false, false)];
    RequestResolves(peer, bytes, env);
    StepJoined(s, es[0]);
    var d := Next(s, es[0]);
    CloseConnectionSafe(d.c);
    StepJoined(d, es[1]);
    assert es[1..] == [es[1]] && es[1..][1..] == [];
    assert Feasible(d, es[1..]) && Run(d, es[1..]) == Next(d, es[1]);
  }
}
