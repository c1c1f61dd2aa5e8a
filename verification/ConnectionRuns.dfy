/** Whole runs of a connection, from accept to close: the main theorems about connection.c. */
module ConnectionRuns {
  import opened Bits
  import opened Text
  import opened Options
  import opened Buffers
  import opened ConnectionModel
  import opened ConnectionProofs

  /** A run from c in which each event can happen when it does. */
  predicate Feasible(c: Conn, es: seq<Event>)
    requires Sound(c)
    decreases |es|
  {
    es == [] || (Enabled(c, es[0]) && (StepSafe(c, es[0]); Feasible(Next(c, es[0]), es[1..])))
  }

  function Run(c: Conn, es: seq<Event>): (r: Conn)
    requires Sound(c) && Feasible(c, es)
    ensures Sound(r)
    decreases |es|
  {
    if es == [] then c else StepSafe(c, es[0]); Run(Next(c, es[0]), es[1..])
  }

  function Concat(parts: seq<seq<byte>>): seq<byte> {
    if parts == [] then [] else parts[0] + Concat(parts[1..])
  }

  // ---------------------------------------------------------------- accept

  lemma {:induction false} PushPartsFit(c: Conn, parts: seq<seq<byte>>)
    requires Inv(c) && c.state.Accepted? && c.headerLen + |Concat(parts)| <= MAX_HEADER_LEN
    requires c.t.clientIn == []
    requires forall i :: 0 <= i < |parts| ==> parts[i] != []
    ensures var r := PushParts(c, parts);
            Inv(r) && r.h == c.h && r.t == c.t.(header := c.t.header + Concat(parts)) && r.state.Accepted?
    decreases |parts|
  {
    if parts == [] {
      assert c.t.header + [] == c.t.header;
    } else {
      var c1 := PushPart(c, parts[0]);
      PushPartFits(c, parts[0]);
      PushPartsFit(c1, parts[1..]);
      Reassociate(c.t.header, parts[0], Concat(parts[1..]));
    }
  }

  lemma PushPartFits(c: Conn, part: seq<byte>)
    requires Inv(c) && c.state.Accepted? && c.headerLen + |part| <= MAX_HEADER_LEN
    requires c.t.clientIn == []
    ensures Inv(PushPart(c, part))
  {
    NothingForClientYet(c);
  }

  lemma HeaderLength(p: Peer)
    requires p.Valid()
    ensures |Concat(HeaderParts(p))| <= MAX_HEADER_LEN
    ensures forall i :: 0 <= i < |HeaderParts(p)| ==> HeaderParts(p)[i] != []
  {
    var bounds := HeaderBounds(p);
    PartsBounded(p);
    ConcatLength(HeaderParts(p), bounds);
    SumOf(bounds, if p.OtherFamily? then [15, 9, 2, 0] else [116, 110, 105, 60, 59, 14, 8, 2, 0]);
  }

  function HeaderBounds(p: Peer): seq<nat> {
    if p.OtherFamily? then [6, 7, 2] else [6, 5, 45, 1, 45, 6, 6, 2]
  }

  lemma PartsBounded(p: Peer)
    requires p.Valid()
    ensures var parts, bounds := HeaderParts(p), HeaderBounds(p);
            |parts| == |bounds| && forall i :: 0 <= i < |parts| ==> 0 < |parts[i]| <= bounds[i]
  {
    var parts := HeaderParts(p);
    if p.OtherFamily? {
      assert |parts| == 3 && |parts[0]| == 6 && |parts[1]| == 7 && |parts[2]| == 2;
    } else {
      DecimalOfPort(p.sourcePort);
      DecimalOfPort(p.localPort);
      assert |parts| == 8;
      assert |parts[0]| == 6 && |parts[1]| == 5 && parts[2] == p.source && |parts[3]| == 1;
      assert parts[4] == p.local && |parts[5]| <= 6 && |parts[6]| <= 6 && |parts[7]| == 2;
    }
  }

  function Sum(bounds: seq<nat>): nat {
    if bounds == [] then 0 else bounds[0] + Sum(bounds[1..])
  }

  /** partial lists the sums of the suffixes of b. */
  lemma {:induction false} SumOf(b: seq<nat>, partial: seq<nat>)
    requires |partial| == |b| + 1 && partial[|b|] == 0
    requires forall i :: 0 <= i < |b| ==> partial[i] == b[i] + partial[i + 1]
    ensures Sum(b) == partial[0]
  {
    if b != [] {
      SumOf(b[1..], partial[1..]);
    }
  }

  lemma {:induction false} ConcatLength(parts: seq<seq<byte>>, bounds: seq<nat>)
    requires |parts| == |bounds| && forall i :: 0 <= i < |parts| ==> |parts[i]| <= bounds[i]
    ensures |Concat(parts)| <= Sum(bounds)
  {
    if parts != [] {
      ConcatLength(parts[1..], bounds[1..]);
    }
  }

  /** accept_connection establishes the invariant, with or without a PROXY header. */
  lemma AcceptSafe(peer: Peer, wantsHeader: bool)
    requires peer.Valid()
    ensures Inv(Accept(peer, wantsHeader))
    ensures Accept(peer, wantsHeader).h == NO_HISTORY
    ensures Accept(peer, wantsHeader).t ==
            NO_TRAFFIC.(header := if wantsHeader then Concat(HeaderParts(peer)) else [])
  {
    assert Inv(Fresh());
    if wantsHeader {
      HeaderLength(peer);
      PushPartsFit(Fresh(), HeaderParts(peer));
      assert [] + Concat(HeaderParts(peer)) == Concat(HeaderParts(peer));
    }
  }

  /** Where every run begins. */
  function Start(peer: Peer, wantsHeader: bool): (c: Conn)
    requires peer.Valid()
    ensures Inv(c)
  {
    AcceptSafe(peer, wantsHeader);
    Accept(peer, wantsHeader)
  }

  // ---------------------------------------------------------------- streams

  /** The bytes that recv hands over on one side in the course of a list of events. */
  function Supplied(es: seq<Event>, side: Side): seq<byte> {
    if es == [] then [] else SuppliedBy(es[0], side) + Supplied(es[1..], side)
  }

  function SuppliedBy(e: Event, side: Side): seq<byte> {
    if e.Io? && e.side == side && e.readable && e.recv.Received? then e.recv.bytes else []
  }

  /** Whether send is called: the socket is writable, was not just closed, and data is queued. */
  predicate SendCalled(c: Conn, e: Event, side: Side) {
    && e.Io? && e.side == side && e.writable
    && Output(c, side).bytes != []
    && !(RecvCalled(c, e, side) && (e.recv.EndOfStream? || e.recv.RecvFailed?))
  }

  function SentBy(c: Conn, e: Event, side: Side): nat {
    if SendCalled(c, e, side) && e.send.Sent? then e.send.count else 0
  }

  /** How many bytes the kernel accepted for one side in a run. */
  function SentCount(c: Conn, es: seq<Event>, side: Side): nat
    requires Sound(c) && Feasible(c, es)
    decreases |es|
  {
    if es == [] then 0
    else StepSafe(c, es[0]); SentBy(c, es[0], side) + SentCount(Next(c, es[0]), es[1..], side)
  }

  /** Nothing after the socket i/o of a callback touches the histories of bytes. */
  predicate SameTraffic(a: Conn, b: Conn) { a.t == b.t }

  lemma ParseKeepsTraffic(c: Conn, env: Env)
    requires c.client.Valid()
    ensures SameTraffic(c, ParseClientRequest(c, env))
  {
  }

  lemma ResolveKeepsTraffic(c: Conn, env: Env)
    ensures SameTraffic(c, ResolveServerAddress(c, env))
  {
  }

  lemma ConnectKeepsTraffic(c: Conn, env: Env)
    requires c.client.Valid()
    ensures SameTraffic(c, InitiateServerConnect(c, env))
  {
  }

  lemma AdvanceKeepsTraffic(c: Conn, side: Side, env: Env)
    requires BuffersValid(c)
    ensures SameTraffic(c, Advance(c, side, env))
  {
    if side.Client? {
      var c1 := if c.state.Accepted? then ParseClientRequest(c, env) else c;
      var c2 := if c1.state.Parsed? then ResolveServerAddress(c1, env) else c1;
      if c.state.Accepted? { ParseKeepsTraffic(c, env); }
      if c1.state.Parsed? { ResolveKeepsTraffic(c1, env); }
      if c2.state.Resolved? { ConnectKeepsTraffic(c2, env); }
    }
  }

  lemma CloseKeepsTraffic(c: Conn, side: Side)
    ensures SameTraffic(c, CloseSocket(c, side))
    ensures CloseSocket(c, side).client == c.client && CloseSocket(c, side).server == c.server
  {
  }

  lemma CloseFlushedKeepsTraffic(c: Conn)
    ensures SameTraffic(c, CloseFlushed(c))
  {
    CloseKeepsTraffic(c, Client);
    var c1 := if c.state.ServerClosed? && c.server.bytes == [] then CloseClientSocket(c) else c;
    CloseKeepsTraffic(c1, Server);
  }

  lemma WatchersKeepTraffic(c: Conn)
    ensures SameTraffic(c, ReactivateWatchers(c))
  {
  }

  lemma FinishKeepsTraffic(c: Conn)
    ensures SameTraffic(c, Finish(c))
  {
    CloseFlushedKeepsTraffic(c);
    WatchersKeepTraffic(CloseFlushed(c));
  }

  /** What one event adds to the histories. */
  predicate Adds(c: Conn, e: Event, d: Conn) {
    && d.t.header == c.t.header
    && d.t.clientIn == c.t.clientIn + SuppliedBy(e, Client)
    && d.t.serverIn == c.t.serverIn + SuppliedBy(e, Server)
    && |d.t.clientOut| == |c.t.clientOut| + SentBy(c, e, Client)
    && |d.t.serverOut| == |c.t.serverOut| + SentBy(c, e, Server)
  }

  lemma SocketIoTraffic(c: Conn, side: Side, readable: bool, writable: bool, rr: RecvResult, sr: SendResult, env: Env)
    requires Inv(c) && Enabled(c, Io(side, readable, writable, rr, sr, env))
    ensures Adds(c, Io(side, readable, writable, rr, sr, env), SocketIo(c, side, readable, writable, rr, sr))
  {
    var (c1, closed) := Receive(c, side, readable, rr);
    ReceiveTraffic(c, side, readable, rr);
    assert Output(c1, side) == Output(c, side);
    TransmitTraffic(c1, side, writable && !closed, sr);
  }

  lemma ReceiveTraffic(c: Conn, side: Side, readable: bool, r: RecvResult)
    requires BuffersValid(c) && RecvFits(c, side, r)
    ensures var (d, closed) := Receive(c, side, readable, r);
            var got := if readable && r.Received? then r.bytes else [];
            && d.t.header == c.t.header && d.t.clientOut == c.t.clientOut && d.t.serverOut == c.t.serverOut
            && d.t.clientIn == c.t.clientIn + (if side.Client? then got else [])
            && d.t.serverIn == c.t.serverIn + (if side.Server? then got else [])
            && (closed <==> readable && Input(c, side).Room() > 0 && (r.EndOfStream? || r.RecvFailed?))
  {
    assert c.t.clientIn + [] == c.t.clientIn && c.t.serverIn + [] == c.t.serverIn;
    CloseKeepsTraffic(StoreReceived(c, side, r), side);
  }

  lemma TransmitTraffic(c: Conn, side: Side, writable: bool, r: SendResult)
    requires BuffersValid(c) && SendFits(c, side, r)
    ensures var d := Transmit(c, side, writable, r);
            var n := if writable && r.Sent? && Output(c, side).bytes != [] then r.count else 0;
            && d.t.header == c.t.header && d.t.clientIn == c.t.clientIn && d.t.serverIn == c.t.serverIn
            && |d.t.clientOut| == |c.t.clientOut| + (if side.Client? then n else 0)
            && |d.t.serverOut| == |c.t.serverOut| + (if side.Server? then n else 0)
  {
    CloseKeepsTraffic(c, side);
  }

  lemma StepTraffic(c: Conn, e: Event)
    requires Inv(c) && Enabled(c, e)
    ensures Adds(c, e, Next(c, e))
  {
    match e
    case Io(side, readable, writable, rr, sr, env) =>
      var c1 := SocketIo(c, side, readable, writable, rr, sr);
      SocketIoTraffic(c, side, readable, writable, rr, sr, env);
      AdvanceKeepsTraffic(c1, side, env);
      FinishKeepsTraffic(Advance(c1, side, env));
    case Dns(answered, env) =>
      ResolvCbKeepsTraffic(c, answered, env);
      NothingAdded(c, e, ResolvCb(c, answered, env));
    case Shutdown =>
      var c1 := if ServerOpen(c.state) then CloseServerSocket(c) else c;
      CloseKeepsTraffic(c, Server);
      CloseKeepsTraffic(c1, Client);
      NothingAdded(c, e, CloseConnection(c));
  }

  lemma ResolvCbKeepsTraffic(c: Conn, answered: bool, env: Env)
    requires BuffersValid(c)
    ensures SameTraffic(c, ResolvCb(c, answered, env))
  {
    var c1 := if answered then InitiateServerConnect(c.(state := Resolved), env) else Abort(c, env.protocol);
    ConnectKeepsTraffic(c.(state := Resolved), env);
    WatchersKeepTraffic(c1);
  }

  lemma NothingAdded(c: Conn, e: Event, d: Conn)
    requires !e.Io? && SameTraffic(c, d)
    ensures Adds(c, e, d)
  {
    assert c.t.clientIn + [] == c.t.clientIn && c.t.serverIn + [] == c.t.serverIn;
  }

  /** The histories of a run are what the environment supplied and accepted. */
  lemma {:induction false} RunTraffic(c: Conn, es: seq<Event>)
    requires Sound(c) && Feasible(c, es)
    ensures var d := Run(c, es);
            && d.t.header == c.t.header
            && d.t.clientIn == c.t.clientIn + Supplied(es, Client)
            && d.t.serverIn == c.t.serverIn + Supplied(es, Server)
            && |d.t.clientOut| == |c.t.clientOut| + SentCount(c, es, Client)
            && |d.t.serverOut| == |c.t.serverOut| + SentCount(c, es, Server)
    decreases |es|
  {
    if es == [] {
      assert c.t.clientIn + [] == c.t.clientIn && c.t.serverIn + [] == c.t.serverIn;
    } else {
      StepSafe(c, es[0]);
      StepTraffic(c, es[0]);
      RunTraffic(Next(c, es[0]), es[1..]);
      Reassociate(c.t.clientIn, SuppliedBy(es[0], Client), Supplied(es[1..], Client));
      Reassociate(c.t.serverIn, SuppliedBy(es[0], Server), Supplied(es[1..], Server));
    }
  }

  // ---------------------------------------------------------------- where an abort message comes from

  /** The message is that of the protocol the event was handled with. */
  predicate Carries(e: Event, message: seq<byte>) {
    (e.Io? || e.Dns?) && e.env.protocol.abortMessage == message
  }

  /** An abort in d is one c had already, or has this protocol's message. */
  predicate AbortFrom(c: Conn, d: Conn, p: Protocol) {
    && (c.h.aborted ==> d.h.aborted)
    && (d.h.aborted ==> (c.h.aborted && d.h.abortMessage == c.h.abortMessage) || d.h.abortMessage == p.abortMessage)
  }

  /** Same abort history. */
  predicate SameAbort(c: Conn, d: Conn) { d.h.aborted == c.h.aborted && d.h.abortMessage == c.h.abortMessage }

  lemma SocketIoKeepsAbort(c: Conn, side: Side, readable: bool, writable: bool, rr: RecvResult, sr: SendResult)
    requires BuffersValid(c) && RecvFits(c, side, rr) && SendFits(c, side, sr)
    ensures SameAbort(c, SocketIo(c, side, readable, writable, rr, sr))
  {
    var (c1, closed) := Receive(c, side, readable, rr);
    CloseKeepsAbort(StoreReceived(c, side, rr), side);
    assert SameAbort(c, c1);
    TransmitKeepsAbort(c1, side, writable && !closed, sr);
  }

  lemma CloseKeepsAbort(c: Conn, side: Side)
    ensures SameAbort(c, CloseSocket(c, side))
  {
  }

  lemma TransmitKeepsAbort(c: Conn, side: Side, writable: bool, r: SendResult)
    requires BuffersValid(c) && SendFits(c, side, r)
    ensures SameAbort(c, Transmit(c, side, writable, r))
  {
    CloseKeepsAbort(c, side);
  }

  lemma FinishKeepsAbort(c: Conn)
    ensures SameAbort(c, Finish(c))
  {
  }

  lemma AdvanceAborts(c: Conn, side: Side, env: Env)
    requires BuffersValid(c)
    ensures AbortFrom(c, Advance(c, side, env), env.protocol)
  {
    if side.Client? {
      var c1 := if c.state.Accepted? then ParseClientRequest(c, env) else c;
      var c2 := if c1.state.Parsed? then ResolveServerAddress(c1, env) else c1;
      if c.state.Accepted? { ParseAborts(c, env); }
      if c1.state.Parsed? { LookupAborts(c1, env); }
      AbortChain(c, c1, c2, env.protocol);
      if c2.state.Resolved? { ConnectAborts(c2, env); }
      AbortChain(c, c2, Advance(c, side, env), env.protocol);
    }
  }

  lemma AbortChain(a: Conn, b: Conn, c: Conn, p: Protocol)
    requires AbortFrom(a, b, p) && AbortFrom(b, c, p)
    ensures AbortFrom(a, c, p)
  {
  }

  lemma ParseAborts(c: Conn, env: Env)
    requires c.client.Valid()
    ensures AbortFrom(c, ParseClientRequest(c, env), env.protocol)
  {
  }

  lemma LookupAborts(c: Conn, env: Env)
    ensures AbortFrom(c, ResolveServerAddress(c, env), env.protocol)
  {
  }

  lemma ConnectAborts(c: Conn, env: Env)
    requires c.client.Valid()
    ensures AbortFrom(c, InitiateServerConnect(c, env), env.protocol)
  {
  }

  lemma StepAborts(c: Conn, e: Event)
    requires Inv(c) && Enabled(c, e)
    ensures var d := Next(c, e);
            d.h.aborted ==> (c.h.aborted && d.h.abortMessage == c.h.abortMessage) || Carries(e, d.h.abortMessage)
  {
    match e
    case Io(side, readable, writable, rr, sr, env) =>
      var c1 := SocketIo(c, side, readable, writable, rr, sr);
      SocketIoKeepsAbort(c, side, readable, writable, rr, sr);
      AdvanceAborts(c1, side, env);
      FinishKeepsAbort(Advance(c1, side, env));
    case Dns(answered, env) =>
    case Shutdown =>
  }

  /** An abort message queued in a run is that of the protocol of some event of the run. */
  lemma {:induction false} RunAborts(c: Conn, es: seq<Event>)
    requires Sound(c) && Feasible(c, es) && !c.h.aborted
    ensures Run(c, es).h.aborted ==> exists i :: 0 <= i < |es| && Carries(es[i], Run(c, es).h.abortMessage)
    decreases |es|
  {
    if es != [] && Run(c, es).h.aborted {
      var d, rest := Next(c, es[0]), es[1..];
      StepSafe(c, es[0]);
      StepAborts(c, es[0]);
      if d.h.aborted {
        AbortedStays(d, rest);
      } else {
        RunAborts(d, rest);
        CarriedLater(es, Run(d, rest).h.abortMessage);
      }
    }
  }

  lemma CarriedLater(es: seq<Event>, message: seq<byte>)
    requires es != [] && exists i :: 0 <= i < |es[1..]| && Carries(es[1..][i], message)
    ensures exists i :: 0 <= i < |es| && Carries(es[i], message)
  {
    var i :| 0 <= i < |es[1..]| && Carries(es[1..][i], message);
    assert es[i + 1] == es[1..][i];
  }

  /** A second abort would find the first: an aborted connection only drains and closes. */
  lemma {:induction false} AbortedStays(c: Conn, es: seq<Event>)
    requires Sound(c) && Feasible(c, es) && c.h.aborted
    ensures Run(c, es).h.aborted && Run(c, es).h.abortMessage == c.h.abortMessage
    decreases |es|
  {
    if es != [] {
      StepSafe(c, es[0]);
      AbortedStep(c, es[0]);
      AbortedStays(Next(c, es[0]), es[1..]);
    }
  }

  lemma AbortedStep(c: Conn, e: Event)
    requires Inv(c) && Enabled(c, e) && c.h.aborted
    ensures Next(c, e).h.aborted && Next(c, e).h.abortMessage == c.h.abortMessage
  {
    match e
    case Io(side, readable, writable, rr, sr, env) =>
      var c1 := SocketIo(c, side, readable, writable, rr, sr);
      SocketIoState(c, side, readable, writable, rr, sr);
      SocketIoKeepsAbort(c, side, readable, writable, rr, sr);
      AdvanceForward(c1, side, env);
      FinishKeepsAbort(c1);
    case Dns(answered, env) =>
    case Shutdown =>
  }

  // ---------------------------------------------------------------- who wants the header

  /** The event leads to a lookup, which finds a server. */
  predicate FindsServer(c: Conn, e: Event)
    requires BuffersValid(c) && Enabled(c, e)
  {
    && e.Io? && e.side.Client? && (e.env.lookup.HostName? || e.env.lookup.SockAddr?)
    && AsksLookup(SocketIo(c, e.side, e.readable, e.writable, e.recv, e.send), e.env)
  }

  /** Whether the server that a run found wants the PROXY header. */
  function HeaderWanted(c: Conn, es: seq<Event>): Option<bool>
    requires Sound(c) && Feasible(c, es)
    decreases |es|
  {
    if es == [] then None
    else
      StepSafe(c, es[0]);
      var later := HeaderWanted(Next(c, es[0]), es[1..]);
      if later.None? && FindsServer(c, es[0]) then Some(es[0].env.lookup.useProxyHeader) else later
  }

  lemma SocketIoKeepsChoice(c: Conn, side: Side, readable: bool, writable: bool, rr: RecvResult, sr: SendResult)
    requires BuffersValid(c) && RecvFits(c, side, rr) && SendFits(c, side, sr)
    ensures SocketIo(c, side, readable, writable, rr, sr).useProxyHeader == c.useProxyHeader
  {
    var (c1, closed) := Receive(c, side, readable, rr);
    assert c1.useProxyHeader == c.useProxyHeader;
  }

  lemma ParseKeepsChoice(c: Conn, env: Env)
    requires c.client.Valid()
    ensures ParseClientRequest(c, env).useProxyHeader == c.useProxyHeader
  {
  }

  lemma ResolveChooses(c: Conn, env: Env)
    ensures ResolveServerAddress(c, env).useProxyHeader ==
            match env.lookup
            case HostName(proxy, _) => proxy
            case SockAddr(proxy, _) => proxy
            case _ => c.useProxyHeader
  {
  }

  lemma ConnectKeepsChoice(c: Conn, env: Env)
    requires c.client.Valid()
    ensures InitiateServerConnect(c, env).useProxyHeader == c.useProxyHeader
  {
  }

  lemma AdvanceChooses(c: Conn, side: Side, env: Env)
    requires Core(c) && env.protocol.Valid() && !c.state.Parsed? && !c.state.Resolved?
    ensures Advance(c, side, env).useProxyHeader ==
            if side.Client? && (env.lookup.HostName? || env.lookup.SockAddr?) && AsksLookup(c, env)
            then env.lookup.useProxyHeader else c.useProxyHeader
  {
    if side.Client? && c.state.Accepted? {
      var c1 := ParseClientRequest(c, env);
      AsksLookupIs(c, env);
      ParseKeepsChoice(c, env);
      ResolveChooses(c1, env);
      var c2 := if c1.state.Parsed? then ResolveServerAddress(c1, env) else c1;
      if c2.state.Resolved? { ConnectKeepsChoice(c2, env); }
    }
  }

  lemma FinishKeepsChoice(c: Conn)
    ensures Finish(c).useProxyHeader == c.useProxyHeader
  {
  }

  /** Whether the server wants the header is what the lookup says, and nothing else changes it. */
  lemma StepChooses(c: Conn, e: Event)
    requires Inv(c) && Enabled(c, e)
    ensures Next(c, e).useProxyHeader ==
            if FindsServer(c, e) then e.env.lookup.useProxyHeader else c.useProxyHeader
  {
    match e
    case Io(side, readable, writable, rr, sr, env) =>
      var c1 := SocketIo(c, side, readable, writable, rr, sr);
      SocketIoKeepsChoice(c, side, readable, writable, rr, sr);
      CallbackStages(c, side, readable, writable, rr, sr, env);
      AdvanceChooses(c1, side, env);
      FinishKeepsChoice(Advance(c1, side, env));
    case Dns(answered, env) => ConnectKeepsChoice(c.(state := Resolved), env);
    case Shutdown =>
  }

  lemma {:induction false} RunChooses(c: Conn, es: seq<Event>)
    requires Sound(c) && Feasible(c, es)
    ensures var wanted := HeaderWanted(c, es);
            Run(c, es).useProxyHeader == if wanted.Some? then wanted.value else c.useProxyHeader
    decreases |es|
  {
    if es != [] {
      StepSafe(c, es[0]);
      StepChooses(c, es[0]);
      RunChooses(Next(c, es[0]), es[1..]);
    }
  }

  /** Nothing is wanted before a server is found. */
  lemma NoChoiceYet(peer: Peer, wantsHeader: bool)
    requires peer.Valid()
    ensures !Start(peer, wantsHeader).useProxyHeader
  {
    if wantsHeader { PushKeepsRest(Fresh(), HeaderParts(peer)); }
  }

  lemma {:induction false} PushKeepsRest(c: Conn, parts: seq<seq<byte>>)
    ensures var d := PushParts(c, parts);
            d.state == c.state && d.useProxyHeader == c.useProxyHeader && d.query == c.query
    decreases |parts|
  {
    if parts != [] { PushKeepsRest(PushPart(c, parts[0]), parts[1..]); }
  }

  /**
   * Stream exactness, over every run from accept. What the server was sent, followed by
   * what is queued for it, is the header (if it was inserted and the lookup of some event
   * says that this backend wants it) followed by all the client's bytes; what the client was
   * sent, followed by what is queued for it, is all the server's bytes, or one whole abort
   * message.
   */
  lemma StreamExactness(peer: Peer, wantsHeader: bool, es: seq<Event>)
    requires peer.Valid() && Feasible(Start(peer, wantsHeader), es)
    ensures var start := Start(peer, wantsHeader);
            var c := Run(start, es);
            var header := if wantsHeader then Concat(HeaderParts(peer)) else [];
            && |c.t.serverOut| == SentCount(start, es, Server)
            && |c.t.clientOut| == SentCount(start, es, Client)
            && (!c.h.connected ==> c.t.serverOut == [] && c.client.bytes == header + Supplied(es, Client))
            && (c.h.connected ==>
                  c.t.serverOut + c.client.bytes ==
                  (if HeaderWanted(start, es) == Some(true) then header else []) + Supplied(es, Client))
            && (c.h.aborted ==>
                  && Supplied(es, Server) == [] && c.t.clientOut + c.server.bytes == c.h.abortMessage
                  && exists i :: 0 <= i < |es| && Carries(es[i], c.h.abortMessage))
            && (!c.h.aborted ==> c.t.clientOut + c.server.bytes == Supplied(es, Server))
  {
    AcceptSafe(peer, wantsHeader);
    RunTraffic(Start(peer, wantsHeader), es);
    RunAborts(Start(peer, wantsHeader), es);
    NoChoiceYet(peer, wantsHeader);
    RunChooses(Start(peer, wantsHeader), es);
    assert [] + Supplied(es, Client) == Supplied(es, Client);
    assert [] + Supplied(es, Server) == Supplied(es, Server);
  }

  // ---------------------------------------------------------------- no stall, no failed assert

  /** The invariant implies the asserts of reactivate_watchers. */
  lemma InvWatches(c: Conn)
    requires Inv(c) && !c.state.Closed?
    ensures WatchersConsistent(c)
  {
  }

  /** Some event of the run gets to assert(0) in resolve_server_address. */
  predicate Asserts(c: Conn, es: seq<Event>)
    requires Sound(c) && Feasible(c, es)
    decreases |es|
  {
    && es != []
    && (StepSafe(c, es[0]); ReachesAssert(c, es[0]) || Asserts(Next(c, es[0]), es[1..]))
  }

  lemma {:induction false} FaultIsAssert(c: Conn, es: seq<Event>)
    requires Sound(c) && Feasible(c, es)
    ensures Run(c, es).h.fault <==> c.h.fault || Asserts(c, es)
    decreases |es|
  {
    if es != [] {
      StepSafe(c, es[0]);
      FaultIsAssert(Next(c, es[0]), es[1..]);
    }
  }

  /**
   * Exactly one assert of connection.c can fail in a run, and exactly on an event whose
   * request is looked up to an address that is neither a host name nor a socket address;
   * the parser never reads outside the buffer. A connection that is not freed, in a process
   * that did not end so, has a closed socket unwatched, every open socket watched for
   * exactly the events its buffers allow, and something to wait for.
   */
  lemma NoStall(peer: Peer, wantsHeader: bool, es: seq<Event>)
    requires peer.Valid() && Feasible(Start(peer, wantsHeader), es)
    ensures var c := Run(Start(peer, wantsHeader), es);
            && (c.h.fault <==> Asserts(Start(peer, wantsHeader), es))
            && (!c.h.fault && !c.state.Closed? ==> WatchersConsistent(c) && WatchersWanted(c))
            && (c.state.Resolving? <==> c.query.Pending?)
  {
    var c := Run(Start(peer, wantsHeader), es);
    FaultIsAssert(Start(peer, wantsHeader), es);
    if !c.h.fault && !c.state.Closed? { InvWatches(c); }
  }

  // ---------------------------------------------------------------- a request that arrives at once

  /** The client's request arrives in one piece. */
  function Request(bytes: seq<byte>, env: Env): Event {
    Io(Client, true, false, Received(bytes), SendTemporary, env)
  }

  /** A request that fits the buffer and that the parser is content with. */
  predicate Acceptable(bytes: seq<byte>, env: Env) {
    0 < |bytes| <= CONNECTION_BUFFER_SIZE && env.protocol.Valid() && env.protocol.parse(bytes) >= 0
  }

  /** The lookup follows in the same callback. */
  lemma RequestAsks(peer: Peer, bytes: seq<byte>, env: Env)
    requires peer.Valid() && Acceptable(bytes, env)
    ensures var c, e := Start(peer, false), Request(bytes, env);
            && Enabled(c, e) && AsksLookup(SocketIo(c, Client, true, false, Received(bytes), SendTemporary), env)
            && SocketIo(c, Client, true, false, Received(bytes), SendTemporary).state.Accepted?
  {
    var c1 := SocketIo(Fresh(), Client, true, false, Received(bytes), SendTemporary);
    assert c1.client.bytes == bytes && c1.client.bytes[c1.headerLen..] == bytes;
  }

  lemma RequestResolves(peer: Peer, bytes: seq<byte>, env: Env)
    requires peer.Valid() && Acceptable(bytes, env) && env.lookup.HostName?
    ensures var c, e := Start(peer, false), Request(bytes, env);
            && Enabled(c, e) && !ReachesAssert(c, e)
            && Next(c, e).state.Resolving? && Next(c, e).query == Pending(env.lookup.callerFrees)
  {
    var c := Start(peer, false);
    var c1 := SocketIo(c, Client, true, false, Received(bytes), SendTemporary);
    RequestAsks(peer, bytes, env);
    SocketIoKeepsCore(c, Client, true, false, Received(bytes), SendTemporary);
    AsksLookupIs(c1, env);
    StepSafe(c, Request(bytes, env));
  }

  /** A run of that one event. */
  lemma RequestWaits(peer: Peer, bytes: seq<byte>, env: Env)
    requires peer.Valid() && Acceptable(bytes, env) && env.lookup.HostName?
    ensures var c, es := Start(peer, false), [Request(bytes, env)];
            && Feasible(c, es) && HeaderWanted(c, es) == Some(env.lookup.useProxyHeader)
            && Run(c, es).state.Resolving? && Run(c, es).query == Pending(env.lookup.callerFrees)
  {
    var e := Request(bytes, env);
    RequestAsks(peer, bytes, env);
    RequestResolves(peer, bytes, env);
    StepSafe(Start(peer, false), e);
    assert [e][1..] == [];
  }

  /** The assert fails: a request, and a lookup that finds a wildcard or a pattern. */
  lemma RequestAsserts(peer: Peer, bytes: seq<byte>, env: Env)
    requires peer.Valid() && Acceptable(bytes, env) && env.lookup.OtherAddress?
    ensures var c, es := Start(peer, false), [Request(bytes, env)];
            Feasible(c, es) && Run(c, es).h.fault
  {
    var c, es := Start(peer, false), [Request(bytes, env)];
    RequestAsks(peer, bytes, env);
    StepSafe(c, es[0]);
    assert es[1..] == [];
  }

  /** Whatever the parser was shown in a run is an initial part of the client's bytes. */
  lemma ParserSeesClientBytes(peer: Peer, wantsHeader: bool, es: seq<Event>)
    requires peer.Valid() && Feasible(Start(peer, wantsHeader), es)
    ensures var c := Run(Start(peer, wantsHeader), es);
            && (c.h.fault <==> Asserts(Start(peer, wantsHeader), es))
            && forall p :: p in c.h.payloads ==> p <= Supplied(es, Client)
  {
    FaultIsAssert(Start(peer, wantsHeader), es);
    AcceptSafe(peer, wantsHeader);
    RunTraffic(Start(peer, wantsHeader), es);
    assert [] + Supplied(es, Client) == Supplied(es, Client);
  }

  lemma ResourcesBalance(c: Conn)
    requires Sound(c)
    ensures c.h.clientCloses <= 1 && c.h.serverCloses <= c.h.serverOpens <= 1
    ensures c.state.Closed? ==>
              && c.h.clientCloses == 1 && c.h.serverCloses == c.h.serverOpens
              && c.h.addressesFreed == c.h.addressesTaken
              && !c.clientWatcher.active && !c.serverWatcher.active
  {
    if Crashed(c) { assert ResourcesExact(Cleared(c)); }
  }

  /** A freed connection closed its client once, and its server as often as it opened one. */
  lemma SocketsClosedOnce(peer: Peer, wantsHeader: bool, es: seq<Event>)
    requires peer.Valid() && Feasible(Start(peer, wantsHeader), es)
    ensures var c := Run(Start(peer, wantsHeader), es);
            && c.h.clientCloses <= 1 && c.h.serverCloses <= c.h.serverOpens <= 1
            && (c.state.Closed? ==>
                  c.h.clientCloses == 1 && c.h.serverCloses == c.h.serverOpens
                  && c.h.addressesFreed == c.h.addressesTaken
                  && !c.clientWatcher.active && !c.serverWatcher.active)
  {
    ResourcesBalance(Run(Start(peer, wantsHeader), es));
  }

  /** Any live connection can be shut down, and that always ends in CLOSED. */
  lemma ShutdownCloses(peer: Peer, wantsHeader: bool, es: seq<Event>)
    requires peer.Valid() && Feasible(Start(peer, wantsHeader), es)
    requires !Run(Start(peer, wantsHeader), es).state.Closed?
    ensures var c := Run(Start(peer, wantsHeader), es);
            c.h.fault || (Enabled(c, Shutdown) && Next(c, Shutdown).state.Closed? && Inv(Next(c, Shutdown)))
  {
    var c := Run(Start(peer, wantsHeader), es);
    if !c.h.fault { CloseConnectionSafe(c); }
  }

  // ---------------------------------------------------------------- progress and draining

  function Rank(s: State): nat {
    match s
    case Accepted => 0
    case Parsed => 1
    case Resolving => 2
    case Resolved => 3
    case Connected => 4
    case ServerClosed => 5
    case ClientClosed => 5
    case Closed => 6
  }

  lemma AdvanceForward(c: Conn, side: Side, env: Env)
    requires BuffersValid(c)
    ensures var s := Advance(c, side, env).state;
            Rank(c.state) <= Rank(s) && (Rank(c.state) == Rank(s) ==> s == c.state)
    ensures !BeforeConnect(c.state) ==> Advance(c, side, env) == c
  {
  }

  lemma CloseFlushedForward(c: Conn)
    ensures var s := CloseFlushed(c).state;
            Rank(c.state) <= Rank(s) && (Rank(c.state) == Rank(s) ==> s == c.state)
    ensures CloseFlushed(c).client == c.client && CloseFlushed(c).server == c.server
    ensures CloseFlushed(c).state != c.state ==>
              || (c.state.ServerClosed? && c.server.bytes == [])
              || (c.state.ClientClosed? && c.client.bytes == [])
  {
  }

  lemma SettleStays(c: Conn)
    ensures var d := Settle(c); d.state == c.state && d.client == c.client && d.server == c.server
  {
  }

  lemma FinishForward(c: Conn)
    ensures var s := Finish(c).state;
            Rank(c.state) <= Rank(s) && (Rank(c.state) == Rank(s) ==> s == c.state)
  {
    CloseFlushedForward(c);
    SettleStays(CloseFlushed(c));
  }

  /** States never go back: each event keeps the state or moves it up the order. */
  lemma StatesAdvance(c: Conn, e: Event)
    requires Inv(c) && Enabled(c, e)
    ensures var d := Next(c, e);
            Rank(c.state) <= Rank(d.state) && (Rank(c.state) == Rank(d.state) ==> d.state == c.state)
  {
    match e
    case Io(side, readable, writable, rr, sr, env) => CallbackForward(c, side, readable, writable, rr, sr, env);
    case Dns(answered, env) => ResolvCbForward(c, answered, env);
    case Shutdown => CloseConnectionSafe(c);
  }

  lemma CallbackForward(c: Conn, side: Side, readable: bool, writable: bool,
                        rr: RecvResult, sr: SendResult, env: Env)
    requires Core(c) && Open(c.state, side) && RecvFits(c, side, rr) && SendFits(c, side, sr)
    ensures var s := ConnectionCb(c, side, readable, writable, rr, sr, env).state;
            Rank(c.state) <= Rank(s) && (Rank(c.state) == Rank(s) ==> s == c.state)
  {
    var c1 := SocketIo(c, side, readable, writable, rr, sr);
    SocketIoState(c, side, readable, writable, rr, sr);
    AdvanceForward(c1, side, env);
    FinishForward(Advance(c1, side, env));
  }

  lemma ResolvCbForward(c: Conn, answered: bool, env: Env)
    requires BuffersValid(c) && c.state.Resolving?
    ensures var s := ResolvCb(c, answered, env).state; s.Connected? || s.ServerClosed?
  {
  }

  /** The socket that is still open in a half-closed state. */
  function Survivor(s: State): Side { if s.ServerClosed? then Client else Server }

  predicate HalfClosed(s: State) { s.ServerClosed? || s.ClientClosed? }

  /** Whether recv is called: the socket is readable and its buffer has room. */
  predicate RecvCalled(c: Conn, e: Event, side: Side) {
    e.Io? && e.side == side && e.readable && Input(c, side).Room() > 0
  }

  /** A call on this socket reported end of stream or an error. */
  predicate SocketFailed(c: Conn, e: Event, side: Side) {
    || (RecvCalled(c, e, side) && (e.recv.EndOfStream? || e.recv.RecvFailed?))
    || (SendCalled(c, e, side) && e.send.SendFailed?)
  }

  lemma SocketIoQueues(c: Conn, side: Side, readable: bool, writable: bool, rr: RecvResult, sr: SendResult, env: Env)
    requires Inv(c) && Enabled(c, Io(side, readable, writable, rr, sr, env))
    ensures var d := SocketIo(c, side, readable, writable, rr, sr);
            var e := Io(side, readable, writable, rr, sr, env);
            && SentBy(c, e, side) <= |Output(c, side).bytes|
            && Output(d, side).bytes == Output(c, side).bytes[SentBy(c, e, side)..]
            && (d.state != c.state ==> SocketFailed(c, e, side))
  {
    var (c1, closed) := Receive(c, side, readable, rr);
    ReceiveTraffic(c, side, readable, rr);
    CloseKeepsTraffic(c1, side);
    assert Output(c1, side) == Output(c, side);
  }

  /**
   * Drain before close: in a half-closed state the buffer of the surviving socket only
   * loses what send accepts, and the connection closes only when that buffer is empty,
   * the surviving socket itself ended, or the process shuts down.
   */
  lemma DrainBeforeClose(c: Conn, e: Event)
    requires Inv(c) && Enabled(c, e) && HalfClosed(c.state)
    ensures var d := Next(c, e);
            var side := Survivor(c.state);
            && (d.state == c.state || d.state.Closed?)
            && SentBy(c, e, side) <= |Output(c, side).bytes|
            && Output(d, side).bytes == Output(c, side).bytes[SentBy(c, e, side)..]
            && (d.state.Closed? ==> Output(d, side).bytes == [] || e.Shutdown? || SocketFailed(c, e, side))
  {
    if e.Io? {
      DrainIo(c, e.side, e.readable, e.writable, e.recv, e.send, e.env);
    } else if e.Shutdown? {
      DrainShutdown(c);
    }
  }

  lemma DrainIo(c: Conn, side: Side, readable: bool, writable: bool, rr: RecvResult, sr: SendResult, env: Env)
    requires Inv(c) && Enabled(c, Io(side, readable, writable, rr, sr, env)) && HalfClosed(c.state)
    ensures side == Survivor(c.state)
    ensures var e := Io(side, readable, writable, rr, sr, env);
            var d := Next(c, e);
            && (d.state == c.state || d.state.Closed?)
            && SentBy(c, e, side) <= |Output(c, side).bytes|
            && Output(d, side).bytes == Output(c, side).bytes[SentBy(c, e, side)..]
            && (d.state.Closed? ==> Output(d, side).bytes == [] || SocketFailed(c, e, side))
  {
    var c1 := SocketIo(c, side, readable, writable, rr, sr);
    SocketIoQueues(c, side, readable, writable, rr, sr, env);
    SocketIoState(c, side, readable, writable, rr, sr);
    FinishHalfClosed(c1, side, env);
  }

  lemma DrainShutdown(c: Conn)
    requires Inv(c) && HalfClosed(c.state)
    ensures var d := Next(c, Shutdown);
            d.state.Closed? && d.client == c.client && d.server == c.server
  {
    CloseConnectionSafe(c);
    CloseKeepsTraffic(c, Survivor(c.state));
  }

  /** After the socket i/o of a half-closed connection only the flush test remains. */
  lemma FinishHalfClosed(c: Conn, side: Side, env: Env)
    requires BuffersValid(c) && (HalfClosed(c.state) || c.state.Closed?)
    ensures var d := Finish(Advance(c, side, env));
            && d.client == c.client && d.server == c.server
            && (d.state == c.state || (d.state.Closed? && Output(c, Survivor(c.state)).bytes == []))
  {
    AdvanceForward(c, side, env);
    CloseFlushedForward(c);
    SettleStays(CloseFlushed(c));
  }

  /** Sends of at least one byte to the surviving socket in a run. */
  function SuccessfulSends(c: Conn, es: seq<Event>, side: Side): nat
    requires Sound(c) && Feasible(c, es)
    decreases |es|
  {
    if es == [] then 0
    else
      StepSafe(c, es[0]);
      (if SentBy(c, es[0], side) > 0 then 1 else 0) + SuccessfulSends(Next(c, es[0]), es[1..], side)
  }

  /** From a half-closed state at most as many successful sends remain as bytes are queued. */
  lemma {:induction false} DrainBounded(c: Conn, es: seq<Event>)
    requires Sound(c) && Feasible(c, es) && HalfClosed(c.state)
    ensures SuccessfulSends(c, es, Survivor(c.state)) <= |Output(c, Survivor(c.state)).bytes|
    decreases |es|
  {
    if es != [] {
      var e, d := es[0], Next(c, es[0]);
      StepSafe(c, e);
      DrainBeforeClose(c, e);
      if d.state.Closed? {
        NothingAfterClose(d, es[1..], Survivor(c.state));
      } else {
        DrainBounded(d, es[1..]);
      }
    }
  }

  /** A closed connection has no further events. */
  lemma NothingAfterClose(c: Conn, es: seq<Event>, side: Side)
    requires Sound(c) && Feasible(c, es) && c.state.Closed?
    ensures es == []
  {
  }
}
