/** What holds of a connection in every run: see README.md for the main theorems. */
module ConnectionProofs {
  import opened Bits
  import opened Text
  import opened Buffers
  import opened ConnectionModel

  predicate BeforeConnect(s: State) { s.Accepted? || s.Parsed? || s.Resolving? || s.Resolved? }

  /** The part of the queued client data that precedes the client's own bytes on the wire. */
  function Prefix(c: Conn): seq<byte> {
    if c.h.connected && !c.useProxyHeader then [] else c.t.header
  }

  /** Every byte is where it should be: sent or still queued, in order, nothing else. */
  predicate StreamsExact(c: Conn) {
    && c.t.serverOut + c.client.bytes == Prefix(c) + c.t.clientIn
    && c.t.clientOut + c.server.bytes == (if c.h.aborted then c.h.abortMessage else c.t.serverIn)
    && (c.h.aborted ==> c.t.serverIn == [])
    && (!c.h.connected ==> c.t.serverOut == [] && c.t.serverIn == [])
  }

  predicate PhasesConsistent(c: Conn) {
    && (BeforeConnect(c.state) ==> !c.h.connected && !c.h.aborted && c.t.clientOut == [])
    && (ServerOpen(c.state) ==> c.h.connected)
    && (c.state.ServerClosed? ==> c.h.connected || c.h.aborted)
    && (c.h.aborted ==> !c.h.connected && 0 < |c.h.abortMessage|)
    && |c.t.header| == c.headerLen <= MAX_HEADER_LEN
    && (c.state.Accepted? ==> c.client.head == 0)
  }

  predicate PayloadsGenuine(c: Conn) {
    forall i :: 0 <= i < |c.h.payloads| ==> c.h.payloads[i] <= c.t.clientIn
  }

  /** Descriptors and looked-up addresses are released exactly once. */
  predicate ResourcesExact(c: Conn) {
    && c.h.clientCloses == (if ClientOpen(c.state) then 0 else 1)
    && c.h.serverOpens == c.h.serverCloses + (if ServerOpen(c.state) then 1 else 0)
    && c.h.serverOpens <= 1
    && (BeforeConnect(c.state) ==> c.h.serverOpens == 0)
    && c.h.addressesTaken == c.h.addressesFreed +
         (if c.query.Pending? && c.query.ownsAddress then 1 else 0)
    && (c.query.Pending? <==> c.state.Resolving?)
  }

  predicate ClosedUnwatched(c: Conn) {
    && (c.clientWatcher.active ==> ClientOpen(c.state))
    && (c.serverWatcher.active ==> ServerOpen(c.state))
  }

  /** What every intermediate point of a callback keeps. */
  predicate Core(c: Conn) {
    && !c.h.fault
    && BuffersValid(c)
    && StreamsExact(c)
    && PhasesConsistent(c)
    && PayloadsGenuine(c)
    && ResourcesExact(c)
    && ClosedUnwatched(c)
  }

  /** The watcher of an open socket asks for exactly what its buffers allow. */
  predicate Wanted(w: Watcher, input: Queue, output: Queue) {
    var read, write := input.Room() > 0, output.bytes != [];
    && (w.active <==> read || write)
    && (w.active ==> w.read == read && w.write == write)
  }

  predicate WatchersWanted(c: Conn) {
    && (ClientOpen(c.state) ==> Wanted(c.clientWatcher, c.client, c.server))
    && (ServerOpen(c.state) ==> Wanted(c.serverWatcher, c.server, c.client))
  }

  /** A half-closed connection still has something to flush; ACCEPTED has room to read. */
  predicate CanProgress(c: Conn) {
    && (c.state.Accepted? ==> c.client.Room() > 0)
    && (c.state.ServerClosed? ==> c.server.bytes != [])
    && (c.state.ClientClosed? ==> c.client.bytes != [])
    && !c.state.Parsed? && !c.state.Resolved?
  }

  /** The invariant between callbacks. */
  predicate Inv(c: Conn) {
    && Core(c)
    && CanProgress(c)
    && WatchersWanted(c)
  }

  // ---------------------------------------------------------------- what counts as a fault

  /** The asserts of the two closing functions and of abort_connection, told by the state. */
  lemma AssertsExactly(c: Conn, p: Protocol)
    requires !c.h.fault
    ensures CloseClientSocket(c).h.fault <==> c.state in {ClientClosed, Closed}
    ensures CloseServerSocket(c).h.fault <==> c.state in {ServerClosed, Closed}
    ensures Abort(c, p).h.fault <==> c.state in {ClientClosed, Closed}
  {
  }

  /** The asserts of reactivate_watchers: no closed socket is watched, and something is. */
  lemma WatcherAssertsExactly(c: Conn)
    requires !c.h.fault
    ensures var w := WatchersSet(c);
            ReactivateWatchers(c).h.fault <==>
            || (w.clientWatcher.active && c.state in {ClientClosed, Closed})
            || (w.serverWatcher.active && c.state !in {Connected, ClientClosed})
            || (&& !c.state.Resolving?
                && !(w.clientWatcher.active && (w.clientWatcher.read || w.clientWatcher.write))
                && !(w.serverWatcher.active && (w.serverWatcher.read || w.serverWatcher.write)))
  {
  }

  /** The region handed to the parser leaves the storage exactly when the queued bytes wrap. */
  lemma ParseFaultExactly(c: Conn, env: Env)
    requires !c.h.fault && BuffersValid(c) && ClientOpen(c.state)
    ensures ParseClientRequest(c, env).h.fault <==> c.client.head + |c.client.bytes| > 4096
  {
  }

  // ---------------------------------------------------------------- one lemma per step

  lemma CloseClientKeepsCore(c: Conn)
    requires Core(c) && ClientOpen(c.state)
    ensures Core(CloseClientSocket(c))
    ensures CloseClientSocket(c).state == if c.state.Connected? then ClientClosed else Closed
  {
  }

  lemma CloseServerKeepsCore(c: Conn)
    requires Core(c) && ServerOpen(c.state)
    ensures Core(CloseServerSocket(c))
    ensures CloseServerSocket(c).state == if c.state.Connected? then ServerClosed else Closed
  {
  }

  lemma StoreKeepsCore(c: Conn, side: Side, r: RecvResult)
    requires Core(c) && RecvFits(c, side, r)
    requires if side.Client? then ClientOpen(c.state) else ServerOpen(c.state)
    ensures Core(StoreReceived(c, side, r)) && StoreReceived(c, side, r).state == c.state
  {
    match side
    case Client => StoreFromClient(c, r);
    case Server => StoreFromServer(c, r);
  }

  lemma StoreFromClient(c: Conn, r: RecvResult)
    requires Core(c) && RecvFits(c, Client, r) && ClientOpen(c.state)
    ensures Core(StoreReceived(c, Client, r))
  {
    var got := if r.Received? then r.bytes else [];
    Reassociate(c.t.serverOut, c.client.bytes, got);
    Reassociate(Prefix(c), c.t.clientIn, got);
  }

  lemma StoreFromServer(c: Conn, r: RecvResult)
    requires Core(c) && RecvFits(c, Server, r) && ServerOpen(c.state)
    ensures Core(StoreReceived(c, Server, r))
  {
    Reassociate(c.t.clientOut, c.server.bytes, if r.Received? then r.bytes else []);
  }

  lemma TakeKeepsCore(c: Conn, side: Side, n: nat)
    requires Core(c) && n <= |Output(c, side).bytes|
    requires if side.Client? then c.state.Connected? || c.state.ServerClosed? else ServerOpen(c.state)
    ensures Core(TakeSent(c, side, n)) && TakeSent(c, side, n).state == c.state
  {
    var q := Output(c, side).bytes;
    assert q == q[..n] + q[n..];
    if side.Client? {
      assert (c.t.clientOut + q[..n]) + q[n..] == c.t.clientOut + q;
    } else {
      assert (c.t.serverOut + q[..n]) + q[n..] == c.t.serverOut + q;
    }
  }

  predicate Open(s: State, side: Side) { if side.Client? then ClientOpen(s) else ServerOpen(s) }

  lemma CloseKeepsCore(c: Conn, side: Side)
    requires Core(c) && Open(c.state, side)
    ensures Core(CloseSocket(c, side))
    ensures c.state.Connected? ==>
              CloseSocket(c, side).state == if side.Client? then ClientClosed else ServerClosed
    ensures !c.state.Connected? ==> CloseSocket(c, side).state == Closed
    ensures CloseSocket(c, side).client == c.client && CloseSocket(c, side).server == c.server
  {
    if side.Client? { CloseClientKeepsCore(c); } else { CloseServerKeepsCore(c); }
  }

  lemma SocketIoKeepsCore(c: Conn, side: Side, readable: bool, writable: bool, rr: RecvResult, sr: SendResult)
    requires Core(c) && Open(c.state, side) && RecvFits(c, side, rr) && SendFits(c, side, sr)
    ensures Core(SocketIo(c, side, readable, writable, rr, sr))
  {
    var (c1, closed) := Receive(c, side, readable, rr);
    ReceiveKeepsCore(c, side, readable, rr);
    if !closed {
      TransmitKeepsCore(c1, side, writable, sr);
    }
  }

  lemma ReceiveKeepsCore(c: Conn, side: Side, readable: bool, r: RecvResult)
    requires Core(c) && Open(c.state, side) && RecvFits(c, side, r)
    ensures Core(Receive(c, side, readable, r).0)
    ensures !Receive(c, side, readable, r).1 ==> Receive(c, side, readable, r).0.state == c.state
  {
    StoreKeepsCore(c, side, r);
    var stored := StoreReceived(c, side, r);
    CloseKeepsCore(stored, side);
  }

  lemma TransmitKeepsCore(c: Conn, side: Side, writable: bool, r: SendResult)
    requires Core(c) && Open(c.state, side) && SendFits(c, side, r)
    ensures Core(Transmit(c, side, writable, r))
  {
    if writable && Output(c, side).bytes != [] {
      match r
      case Sent(n) => TakeKeepsCore(c, side, n);
      case SendTemporary =>
      case SendFailed => CloseKeepsCore(c, side);
    }
  }

  lemma NothingForClientYet(c: Conn)
    requires Core(c) && BeforeConnect(c.state)
    ensures c.server.bytes == [] && c.client.bytes == c.t.header + c.t.clientIn
  {
  }

  lemma AbortKeepsCore(c: Conn, p: Protocol)
    requires Core(c) && BeforeConnect(c.state) && !c.state.Resolving? && p.Valid()
    ensures Core(Abort(c, p)) && Abort(c, p).state.ServerClosed? && Abort(c, p).server.bytes != []
  {
    NothingForClientYet(c);
    assert c.server.Push(p.abortMessage).bytes == p.abortMessage;
    assert [] + p.abortMessage == p.abortMessage;
  }

  /** Skipping the header leaves exactly what the client has sent so far. */
  lemma PayloadIsClientInput(c: Conn)
    requires Core(c) && c.state.Accepted?
    ensures c.client.head == 0
    ensures (if c.client.CoalesceKeeps() then c.client.head else 0) + |c.client.bytes| <= c.client.size
    ensures c.client.Coalesce().bytes[c.headerLen..] == c.t.clientIn
    ensures c.client.Coalesce().head == 0
  {
    NothingForClientYet(c);
  }

  lemma ParseKeepsCore(c: Conn, env: Env)
    requires Core(c) && c.state.Accepted? && env.protocol.Valid()
    ensures Core(ParseClientRequest(c, env))
    ensures var s := ParseClientRequest(c, env);
            && (s.state.Accepted? || s.state.Parsed? || s.state.ServerClosed?)
            && (s.state.Accepted? ==> s.client.Room() > 0)
            && (s.state.ServerClosed? ==> s.server.bytes != [])
  {
    PayloadIsClientInput(c);
    CoalesceKeepsCore(c);
    var c1 := c.(client := c.client.Coalesce());
    if |c.client.bytes| > c.headerLen {
      PayloadKeepsCore(c1, c.t.clientIn);
      var c2 := c1.(h := c1.h.(payloads := c1.h.payloads + [c.t.clientIn]));
      AbortKeepsCore(c2, env.protocol);
    }
  }

  lemma CoalesceKeepsCore(c: Conn)
    requires Core(c) && c.state.Accepted?
    ensures Core(c.(client := c.client.Coalesce()))
  {
    PayloadIsClientInput(c);
  }

  lemma PayloadKeepsCore(c: Conn, payload: seq<byte>)
    requires Core(c) && payload == c.t.clientIn
    ensures Core(c.(h := c.h.(payloads := c.h.payloads + [payload])))
  {
  }

  lemma ResolveKeepsCore(c: Conn, env: Env)
    requires Core(c) && c.state.Parsed? && env.protocol.Valid()
    ensures var s := ResolveServerAddress(c, env);
            if env.lookup.OtherAddress? then s == Faulted(c)
            else
              && Core(s) && (s.state.Resolving? || s.state.Resolved? || s.state.ServerClosed?)
              && (s.state.ServerClosed? ==> s.server.bytes != [])
  {
    AbortKeepsCore(c, env.protocol);
  }

  // ---------------------------------------------------------------- the assert that can fail

  function Faulted(c: Conn): Conn { c.(h := c.h.(fault := true)) }

  function Cleared(c: Conn): Conn { c.(h := c.h.(fault := false)) }

  /** parse_client_request has its answer: a name, or none and a fallback to go to. */
  predicate AsksLookup(c: Conn, env: Env) {
    && c.state.Accepted? && |c.client.bytes| > c.headerLen
    && var result := env.protocol.parse(c.client.bytes[c.headerLen..]);
       (result >= 0 || env.hasFallback) && !(result == -1 && c.client.Room() > 0)
  }

  /** The callback gets to assert(0) in resolve_server_address. */
  predicate ReachesAssert(c: Conn, e: Event)
    requires BuffersValid(c) && Enabled(c, e)
  {
    && e.Io? && e.side.Client? && e.env.lookup.OtherAddress?
    && AsksLookup(SocketIo(c, e.side, e.readable, e.writable, e.recv, e.send), e.env)
  }

  lemma AsksLookupIs(c: Conn, env: Env)
    requires Core(c) && c.state.Accepted? && env.protocol.Valid()
    ensures ParseClientRequest(c, env).state.Parsed? <==> AsksLookup(c, env)
  {
    PayloadIsClientInput(c);
  }

  /** A process that ended at that assert: all else is as it should be at that point. */
  predicate Crashed(c: Conn) {
    c.h.fault && c.state.Parsed? && Core(Cleared(c))
  }

  /** What holds after every callback of any run. */
  predicate Sound(c: Conn) { Inv(c) || Crashed(c) }

  lemma ConnectKeepsCore(c: Conn, env: Env)
    requires Core(c) && c.state.Resolved? && env.protocol.Valid()
    ensures Core(InitiateServerConnect(c, env))
    ensures var s := InitiateServerConnect(c, env);
            && (s.state.Connected? || s.state.ServerClosed?)
            && (s.state.ServerClosed? ==> s.server.bytes != [])
  {
    NothingForClientYet(c);
    match env.connect
    case SocketFailed => AbortKeepsCore(c, env.protocol);
    case SetupFailed =>
      AbortKeepsCore(c, env.protocol);
      var a := Abort(c, env.protocol);
      assert InitiateServerConnect(c, env) == a.(h := a.h.(serverOpens := 1, serverCloses := 1));
    case ConnectStarted =>
      assert (c.t.header + c.t.clientIn)[c.headerLen..] == c.t.clientIn;
  }

  /** After the state specific logic nothing transient is left and ACCEPTED still has room. */
  lemma AdvanceKeepsCore(c: Conn, side: Side, env: Env)
    requires Core(c) && env.protocol.Valid() && !c.state.Parsed? && !c.state.Resolved?
    requires side.Server? ==> !c.state.Accepted?
    ensures var s := Advance(c, side, env);
            if side.Client? && env.lookup.OtherAddress? && AsksLookup(c, env) then Crashed(s)
            else
              && Core(s) && (s.state.Accepted? ==> s.client.Room() > 0)
              && !s.state.Parsed? && !s.state.Resolved?
  {
    if side.Client? {
      var c1 := if c.state.Accepted? then ParseClientRequest(c, env) else c;
      if c.state.Accepted? {
        ParseKeepsCore(c, env);
        AsksLookupIs(c, env);
      }
      var c2 := if c1.state.Parsed? then ResolveServerAddress(c1, env) else c1;
      if c1.state.Parsed? { ResolveKeepsCore(c1, env); }
      if c2.state.Resolved? { ConnectKeepsCore(c2, env); }
    }
  }

  lemma CloseFlushedKeepsCore(c: Conn)
    requires Core(c) && (c.state.Accepted? ==> c.client.Room() > 0)
    requires !c.state.Parsed? && !c.state.Resolved?
    ensures Core(CloseFlushed(c)) && CanProgress(CloseFlushed(c))
  {
    if c.state.ServerClosed? && c.server.bytes == [] {
      CloseClientKeepsCore(c);
    } else if c.state.ClientClosed? && c.client.bytes == [] {
      CloseServerKeepsCore(c);
    }
  }

  /** The asserts of reactivate_watchers hold: a full input buffer forces write interest opposite. */
  lemma ReactivateSafe(c: Conn)
    requires Core(c) && CanProgress(c) && !c.state.Closed?
    ensures Inv(ReactivateWatchers(c)) && WatchersConsistent(ReactivateWatchers(c))
  {
    var w := ReactivateWatcher(c.clientWatcher, c.client, c.server);
    var v := ReactivateWatcher(c.serverWatcher, c.server, c.client);
    assert Wanted(w, c.client, c.server) && Wanted(v, c.server, c.client);
  }

  lemma ConnectionCbSafe(c: Conn, side: Side, readable: bool, writable: bool,
                         rr: RecvResult, sr: SendResult, env: Env)
    requires Inv(c) && Enabled(c, Io(side, readable, writable, rr, sr, env))
    ensures var d := ConnectionCb(c, side, readable, writable, rr, sr, env);
            if ReachesAssert(c, Io(side, readable, writable, rr, sr, env)) then Crashed(d) else Inv(d)
  {
    CallbackStages(c, side, readable, writable, rr, sr, env);
    if !ReachesAssert(c, Io(side, readable, writable, rr, sr, env)) {
      FinishSafe(Advance(SocketIo(c, side, readable, writable, rr, sr), side, env));
    }
  }

  lemma FinishSafe(c: Conn)
    requires Core(c) && (c.state.Accepted? ==> c.client.Room() > 0) && !c.state.Parsed? && !c.state.Resolved?
    ensures Inv(Finish(c))
  {
    CloseFlushedKeepsCore(c);
    if !CloseFlushed(c).state.Closed? {
      ReactivateSafe(CloseFlushed(c));
    }
  }

  /** What holds after the socket i/o of a callback, and after the state specific logic. */
  lemma CallbackStages(c: Conn, side: Side, readable: bool, writable: bool,
                       rr: RecvResult, sr: SendResult, env: Env)
    requires Inv(c) && Enabled(c, Io(side, readable, writable, rr, sr, env))
    ensures var c1 := SocketIo(c, side, readable, writable, rr, sr);
            && Core(c1) && !c1.state.Parsed? && !c1.state.Resolved? && (side.Server? ==> !c1.state.Accepted?)
    ensures var c2 := Advance(SocketIo(c, side, readable, writable, rr, sr), side, env);
            if ReachesAssert(c, Io(side, readable, writable, rr, sr, env)) then Crashed(c2)
            else
              && Core(c2) && (c2.state.Accepted? ==> c2.client.Room() > 0)
              && !c2.state.Parsed? && !c2.state.Resolved?
  {
    SocketIoKeepsCore(c, side, readable, writable, rr, sr);
    SocketIoState(c, side, readable, writable, rr, sr);
    AdvanceKeepsCore(SocketIo(c, side, readable, writable, rr, sr), side, env);
  }

  lemma SocketIoState(c: Conn, side: Side, readable: bool, writable: bool, rr: RecvResult, sr: SendResult)
    requires Core(c) && Open(c.state, side) && RecvFits(c, side, rr) && SendFits(c, side, sr)
    ensures var s := SocketIo(c, side, readable, writable, rr, sr).state;
            s == c.state || s == Closed
            || (c.state.Connected? && s == if side.Client? then ClientClosed else ServerClosed)
  {
    ReceiveKeepsCore(c, side, readable, rr);
    StoreKeepsCore(c, side, rr);
    CloseKeepsCore(StoreReceived(c, side, rr), side);
    var (c1, closed) := Receive(c, side, readable, rr);
    if !closed {
      CloseKeepsCore(c1, side);
      TakeSentState(c1, side, sr);
    }
  }

  lemma TakeSentState(c: Conn, side: Side, r: SendResult)
    requires Core(c) && SendFits(c, side, r)
    ensures r.Sent? ==> TakeSent(c, side, r.count).state == c.state
  {
  }

  /** The connection after resolv_cb has dealt with the answer and the query is released. */
  function Answered(c: Conn, answered: bool, env: Env): Conn
    requires c.client.Valid()
  {
    var idle := FreeQueryData(c.(state := Resolved));
    if answered then InitiateServerConnect(idle, env) else Abort(idle, env.protocol)
  }

  lemma ResolvCbSafe(c: Conn, answered: bool, env: Env)
    requires Inv(c) && Enabled(c, Dns(answered, env))
    ensures Inv(ResolvCb(c, answered, env))
    ensures var next := Answered(c, answered, env);
            && Core(next) && CanProgress(next) && !next.state.Closed?
            && ResolvCb(c, answered, env) == ReactivateWatchers(next)
  {
    var asked := c.(state := Resolved);
    var idle := FreeQueryData(asked);
    assert Core(idle);
    var next := Answered(c, answered, env);
    if answered {
      ConnectKeepsCore(idle, env);
      ReleaseCommutesWithConnect(asked, env);
      ReleaseCommutesWithWatchers(InitiateServerConnect(asked, env));
    } else {
      AbortKeepsCore(idle, env.protocol);
      ReleaseCommutesWithAbort(c, asked, env.protocol);
      ReleaseCommutesWithWatchers(Abort(c, env.protocol));
    }
    ReactivateSafe(next);
    assert ResolvCb(c, answered, env) == ReactivateWatchers(next);
  }

  // Freeing the callback data last is the same as freeing it first.

  lemma ReleaseCommutesWithAbort(c: Conn, asked: Conn, p: Protocol)
    requires c.state.Resolving? && asked == c.(state := Resolved)
    ensures FreeQueryData(Abort(c, p)) == Abort(FreeQueryData(asked), p)
  {
  }

  lemma ReleaseCommutesWithConnect(c: Conn, env: Env)
    requires c.client.Valid() && c.state.Resolved?
    ensures FreeQueryData(InitiateServerConnect(c, env)) == InitiateServerConnect(FreeQueryData(c), env)
  {
    match env.connect
    case SocketFailed =>
    case SetupFailed => assert FreeQueryData(SocketDropped(c)) == SocketDropped(FreeQueryData(c));
    case ConnectStarted =>
  }

  lemma ReleaseCommutesWithWatchers(c: Conn)
    ensures FreeQueryData(ReactivateWatchers(c)) == ReactivateWatchers(FreeQueryData(c))
  {
    var d := FreeQueryData(c);
    assert d.state == c.state && d.client == c.client && d.server == c.server;
    assert d.clientWatcher == c.clientWatcher && d.serverWatcher == c.serverWatcher;
  }

  lemma CloseConnectionSafe(c: Conn)
    requires Inv(c) && !c.state.Closed?
    ensures Inv(CloseConnection(c)) && CloseConnection(c).state.Closed?
  {
    var c1 := if ServerOpen(c.state) then CloseServerSocket(c) else c;
    if ServerOpen(c.state) { CloseServerKeepsCore(c); }
    if ClientOpen(c1.state) { CloseClientKeepsCore(c1); }
  }

  /** Every event keeps the invariant, or is one that gets to the assert that can fail. */
  lemma StepSafe(c: Conn, e: Event)
    requires Sound(c) && Enabled(c, e)
    ensures Inv(c) && if ReachesAssert(c, e) then Crashed(Next(c, e)) else Inv(Next(c, e))
  {
    match e
    case Io(side, readable, writable, rr, sr, env) => ConnectionCbSafe(c, side, readable, writable, rr, sr, env);
    case Dns(answered, env) => ResolvCbSafe(c, answered, env);
    case Shutdown => CloseConnectionSafe(c);
  }
}
