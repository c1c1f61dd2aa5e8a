/**
 * A connection told without buffers, watchers and intermediate states: what has come in,
 * how much has gone out, and which state follows from it. Every callback of connection.c
 * does exactly what this specification says.
 */
module Relay {
  import opened Bits
  import opened Options
  import opened Buffers
  import opened ConnectionModel
  import opened ConnectionProofs
  import opened ConnectionRuns

  datatype Relay = Relay(
    state: State, header: seq<byte>,
    fromClient: seq<byte>, fromServer: seq<byte>, toClient: nat, toServer: nat,
    useProxyHeader: bool, connected: bool, abort: Option<seq<byte>>,
    shown: seq<seq<byte>>, query: Query, sockets: nat, taken: nat)

  // ---------------------------------------------------------------- the specification

  /** All that ever goes to a side, in order. */
  function Stream(r: Relay, side: Side): seq<byte> {
    if side.Server? then (if r.connected && !r.useProxyHeader then [] else r.header) + r.fromClient
    else if r.abort.Some? then r.abort.value
    else r.fromServer
  }

  function Gone(r: Relay, side: Side): nat { if side.Server? then r.toServer else r.toClient }

  /** What is still to be sent to a side. */
  function Queued(r: Relay, side: Side): seq<byte> {
    if Gone(r, side) <= |Stream(r, side)| then Stream(r, side)[Gone(r, side)..] else []
  }

  function Other(side: Side): Side { if side.Client? then Server else Client }

  /** How much may be read from a side: its bytes wait for the other one. */
  function Space(r: Relay, side: Side): int { 4096 - |Queued(r, Other(side))| }

  /** A socket is waited for while it is open and there is space or something to send. */
  predicate CanHappen(r: Relay, e: Event) {
    && !r.state.Parsed?
    && match e
       case Io(side, _, _, rr, sr, env) =>
         && Open(r.state, side) && (Space(r, side) > 0 || Queued(r, side) != [])
         && (rr.Received? ==> 0 < |rr.bytes| <= Space(r, side))
         && (sr.Sent? ==> sr.count <= |Queued(r, side)|) && env.protocol.Valid()
       case Dns(_, env) => r.state.Resolving? && env.protocol.Valid()
       case Shutdown => !r.state.Closed?
  }

  predicate HungUp(r: Relay, e: Event)
    requires e.Io?
  {
    e.readable && Space(r, e.side) > 0 && (e.recv.EndOfStream? || e.recv.RecvFailed?)
  }

  /** Whether send is called. */
  predicate Sends(r: Relay, e: Event)
    requires e.Io?
  {
    e.writable && Queued(r, e.side) != [] && !HungUp(r, e)
  }

  /** The socket of the event is at its end. */
  predicate Fails(r: Relay, e: Event)
    requires e.Io?
  {
    HungUp(r, e) || (Sends(r, e) && e.send.SendFailed?)
  }

  /** What comes in with an event. */
  function Taken(r: Relay, e: Event): Relay
    requires e.Io?
  {
    var got := if e.readable && e.recv.Received? then e.recv.bytes else [];
    if e.side.Client? then r.(fromClient := r.fromClient + got) else r.(fromServer := r.fromServer + got)
  }

  function Delivered(r: Relay, side: Side, n: nat): Relay {
    if side.Client? then r.(toClient := r.toClient + n) else r.(toServer := r.toServer + n)
  }

  /** What comes in and what goes out with an event. */
  function Moved(r: Relay, e: Event): Relay
    requires e.Io?
  {
    Delivered(Taken(r, e), e.side, if Sends(r, e) && e.send.Sent? then e.send.count else 0)
  }

  /** The end of one socket: of a relayed pair the other one stays, of anything else nothing. */
  function HangUp(r: Relay, side: Side): Relay {
    if r.state.Connected? then r.(state := if side.Client? then ClientClosed else ServerClosed)
    else r.(state := Closed, query := NoQuery)
  }

  /** A half-closed pair closes once nothing is left for the socket that stayed. */
  function Flushed(r: Relay): Relay {
    if HalfClosed(r.state) && Queued(r, Survivor(r.state)) == [] then r.(state := Closed) else r
  }

  function Refuse(r: Relay, env: Env): Relay {
    r.(state := ServerClosed, abort := Some(env.protocol.abortMessage))
  }

  function Contact(r: Relay, env: Env): Relay {
    match env.connect
    case SocketFailed => Refuse(r, env)
    case SetupFailed => Refuse(r, env).(sockets := r.sockets + 1)
    case ConnectStarted => r.(state := Connected, connected := true, sockets := r.sockets + 1)
  }

  function LookedUp(r: Relay, useProxyHeader: bool, callerFrees: bool): Relay {
    r.(useProxyHeader := useProxyHeader, taken := r.taken + if callerFrees then 1 else 0)
  }

  /** Where a request goes. */
  function Route(r: Relay, env: Env): Relay {
    match env.lookup
    case NoAddress => Refuse(r, env)
    case HostName(proxy, owned) => LookedUp(r, proxy, owned).(state := Resolving, query := Pending(owned))
    case SockAddr(proxy, owned) => Contact(LookedUp(r, proxy, owned), env)
    case OtherAddress => r.(state := Parsed)
  }

  datatype Verdict = Wait | Reject | Serve

  /** Whether more of the request is awaited, or it cannot be served, or it can. */
  function Judge(r: Relay, env: Env): Verdict {
    var result := env.protocol.parse(r.fromClient);
    if result == -1 && |r.header| + |r.fromClient| < 4096 then Wait
    else if result < 0 && !env.hasFallback then Reject
    else Serve
  }

  function Shown(r: Relay): Relay { r.(shown := r.shown + [r.fromClient]) }

  /** What follows from all the client has sent so far. */
  function Decide(r: Relay, env: Env): Relay {
    if r.fromClient == [] then r
    else match Judge(r, env)
      case Wait => Shown(r)
      case Reject => Refuse(Shown(r), env)
      case Serve => Route(Shown(r), env)
  }

  function Step(r: Relay, e: Event): Relay {
    match e
    case Io(side, _, _, _, _, env) =>
      var m := Moved(r, e);
      Flushed(if Fails(r, e) then HangUp(m, side) else if r.state.Accepted? then Decide(m, env) else m)
    case Dns(answered, env) => (if answered then Contact(r, env) else Refuse(r, env)).(query := NoQuery)
    case Shutdown => r.(state := Closed, query := NoQuery)
  }

  predicate CanRun(r: Relay, es: seq<Event>)
    decreases |es|
  {
    es == [] || (CanHappen(r, es[0]) && CanRun(Step(r, es[0]), es[1..]))
  }

  function Steps(r: Relay, es: seq<Event>): Relay
    decreases |es|
  {
    if es == [] then r else Steps(Step(r, es[0]), es[1..])
  }

  // ---------------------------------------------------------------- what a connection is to it

  function View(c: Conn): Relay {
    Relay(c.state, c.t.header, c.t.clientIn, c.t.serverIn, |c.t.clientOut|, |c.t.serverOut|,
          c.useProxyHeader, c.h.connected, if c.h.aborted then Some(c.h.abortMessage) else None,
          c.h.payloads, c.query, c.h.serverOpens, c.h.addressesTaken)
  }

  lemma TailOf(a: seq<byte>, b: seq<byte>, all: seq<byte>)
    requires a + b == all
    ensures |a| <= |all| && all[|a|..] == b
  {
  }

  /** The buffers hold exactly what is still to be sent. */
  lemma BuffersAreQueued(c: Conn)
    requires StreamsExact(c)
    ensures Queued(View(c), Server) == c.client.bytes && Queued(View(c), Client) == c.server.bytes
  {
    TailOf(c.t.serverOut, c.client.bytes, Stream(View(c), Server));
    TailOf(c.t.clientOut, c.server.bytes, Stream(View(c), Client));
  }

  lemma OutputIsQueued(c: Conn, side: Side)
    requires Core(c)
    ensures Output(c, side).bytes == Queued(View(c), side)
    ensures Input(c, side).Room() == Space(View(c), side)
  {
    BuffersAreQueued(c);
  }

  /** Which events can happen is decided by what has come in and gone out. */
  lemma EnabledExactly(c: Conn, e: Event)
    requires Sound(c)
    ensures Enabled(c, e) <==> CanHappen(View(c), e)
  {
    if Inv(c) {
      OutputIsQueued(c, Client);
      OutputIsQueued(c, Server);
    }
  }

  // ---------------------------------------------------------------- socket i/o

  lemma CloseView(c: Conn, side: Side)
    requires Core(c) && Open(c.state, side)
    ensures View(CloseSocket(c, side)) == HangUp(View(c), side)
  {
  }

  lemma StoreView(c: Conn, e: Event)
    requires e.Io? && e.readable
    ensures View(StoreReceived(c, e.side, e.recv)) == Taken(View(c), e)
  {
  }

  lemma NothingTaken(r: Relay, e: Event)
    requires e.Io? && !(e.readable && e.recv.Received?)
    ensures Taken(r, e) == r
  {
    assert r.fromClient + [] == r.fromClient && r.fromServer + [] == r.fromServer;
  }

  /** recv is called, or not. */
  lemma ReceiveCases(c: Conn, e: Event)
    requires Inv(c) && Enabled(c, e) && e.Io?
    ensures var (d, closed) := Receive(c, e.side, e.readable, e.recv);
            && (closed <==> HungUp(View(c), e))
            && d == if !e.readable || Space(View(c), e.side) <= 0 then c
                    else if closed then CloseSocket(StoreReceived(c, e.side, e.recv), e.side)
                    else StoreReceived(c, e.side, e.recv)
  {
    OutputIsQueued(c, e.side);
  }

  /** After recv. */
  lemma ReceiveView(c: Conn, e: Event)
    requires Inv(c) && Enabled(c, e) && e.Io?
    ensures var (d, closed) := Receive(c, e.side, e.readable, e.recv);
            View(d) == if closed then HangUp(Taken(View(c), e), e.side) else Taken(View(c), e)
  {
    ReceiveCases(c, e);
    if !e.readable || Space(View(c), e.side) <= 0 {
      OutputIsQueued(c, e.side);
      NothingTaken(View(c), e);
    } else {
      StoreView(c, e);
      StoreKeepsCore(c, e.side, e.recv);
      CloseView(StoreReceived(c, e.side, e.recv), e.side);
    }
  }

  /** After send. */
  lemma TransmitView(c: Conn, side: Side, writable: bool, r: SendResult)
    requires Core(c) && Open(c.state, side) && SendFits(c, side, r)
    ensures var called := writable && Output(c, side).bytes != [];
            View(Transmit(c, side, writable, r)) ==
            if called && r.SendFailed? then HangUp(View(c), side)
            else Delivered(View(c), side, if called && r.Sent? then r.count else 0)
  {
    CloseView(c, side);
  }

  /** After recv and send. */
  lemma SocketIoView(c: Conn, e: Event)
    requires Inv(c) && Enabled(c, e) && e.Io?
    ensures View(SocketIo(c, e.side, e.readable, e.writable, e.recv, e.send)) ==
            if Fails(View(c), e) then HangUp(Moved(View(c), e), e.side) else Moved(View(c), e)
  {
    var (d, closed) := Receive(c, e.side, e.readable, e.recv);
    ReceiveCases(c, e);
    ReceiveView(c, e);
    OutputIsQueued(c, e.side);
    ReceiveKeepsCore(c, e.side, e.readable, e.recv);
    if !closed {
      TransmitView(d, e.side, e.writable, e.send);
    }
  }

  // ---------------------------------------------------------------- from request to server

  lemma ContactView(c: Conn, env: Env)
    requires c.client.Valid() && ClientOpen(c.state)
    ensures View(InitiateServerConnect(c, env)) == Contact(View(c), env)
  {
  }

  lemma RouteView(c: Conn, env: Env)
    requires BuffersValid(c) && c.state.Parsed?
    ensures var d := ResolveServerAddress(c, env);
            && d.client == c.client && (d.state.Resolved? <==> env.lookup.SockAddr?)
            && View(if d.state.Resolved? then InitiateServerConnect(d, env) else d) == Route(View(c), env)
  {
    if env.lookup.SockAddr? {
      var proxy, owned := env.lookup.useProxyHeader, env.lookup.callerFrees;
      TakenView(c, proxy, owned);
      ContactView(SocketAddressTaken(c, proxy, owned), env);
      ContactFrom(LookedUp(View(c), proxy, owned), Resolved, env);
    }
  }

  lemma TakenView(c: Conn, proxy: bool, owned: bool)
    ensures var d := SocketAddressTaken(c, proxy, owned);
            View(d) == LookedUp(View(c), proxy, owned).(state := Resolved) && d.client == c.client && d.state.Resolved?
  {
  }

  lemma ContactFrom(r: Relay, s: State, env: Env)
    ensures Contact(r.(state := s), env) == Contact(r, env)
  {
  }

  /** parse_client_request comes to the same verdict. */
  lemma JudgeView(c: Conn, env: Env)
    requires Core(c) && c.state.Accepted?
    ensures var d, v := ParseClientRequest(c, env), View(c);
            && BuffersValid(d)
            && View(d) == if v.fromClient == [] then v
                          else match Judge(v, env)
                            case Wait => Shown(v)
                            case Reject => Refuse(Shown(v), env)
                            case Serve => Shown(v).(state := Parsed)
  {
    PayloadIsClientInput(c);
    NothingForClientYet(c);
  }

  /** Where the request came from does not matter to where it goes. */
  lemma RouteFromParsed(r: Relay, env: Env)
    ensures Route(r.(state := Parsed), env) == Route(r, env)
  {
    match env.lookup
    case SockAddr(proxy, owned) =>
      LookedUpFrom(r, proxy, owned);
      ContactFrom(LookedUp(r, proxy, owned), Parsed, env);
    case HostName(proxy, owned) => LookedUpFrom(r, proxy, owned);
    case NoAddress =>
    case OtherAddress =>
  }

  lemma LookedUpFrom(r: Relay, proxy: bool, owned: bool)
    ensures LookedUp(r.(state := Parsed), proxy, owned) == LookedUp(r, proxy, owned).(state := Parsed)
  {
  }

  lemma DecideView(c: Conn, env: Env)
    requires Core(c) && c.state.Accepted?
    ensures View(Advance(c, Client, env)) == Decide(View(c), env)
  {
    var c1 := ParseClientRequest(c, env);
    JudgeView(c, env);
    RouteFromParsed(Shown(View(c)), env);
    if c1.state.Parsed? { RouteView(c1, env); }
  }

  // ---------------------------------------------------------------- the end of a callback

  lemma WatchersKeepView(c: Conn)
    ensures View(ReactivateWatchers(c)) == View(c)
  {
  }

  lemma CloseFlushedView(c: Conn)
    requires Core(c)
    ensures View(CloseFlushed(c)) == Flushed(View(c))
  {
    BuffersAreQueued(c);
  }

  lemma FinishView(c: Conn)
    requires Core(c) || Crashed(c)
    ensures View(Finish(c)) == Flushed(View(c))
  {
    if Core(c) {
      CloseFlushedView(c);
      WatchersKeepView(CloseFlushed(c));
    }
  }

  // ---------------------------------------------------------------- every callback

  lemma CallbackView(c: Conn, e: Event)
    requires Inv(c) && Enabled(c, e) && e.Io?
    ensures View(Next(c, e)) == Step(View(c), e)
  {
    var c1 := SocketIo(c, e.side, e.readable, e.writable, e.recv, e.send);
    CallbackStages(c, e.side, e.readable, e.writable, e.recv, e.send, e.env);
    SocketIoView(c, e);
    AdvancedView(c, e, c1);
    FinishView(Advance(c1, e.side, e.env));
  }

  /** The state specific part does something only to a connection that is still ACCEPTED. */
  lemma AdvancedView(c: Conn, e: Event, c1: Conn)
    requires Inv(c) && Enabled(c, e) && e.Io? && Core(c1) && !c1.state.Parsed? && !c1.state.Resolved?
    requires View(c1) == if Fails(View(c), e) then HangUp(Moved(View(c), e), e.side) else Moved(View(c), e)
    ensures View(Advance(c1, e.side, e.env)) ==
            if !Fails(View(c), e) && c.state.Accepted? then Decide(View(c1), e.env) else View(c1)
  {
    assert c1.state == View(c1).state;
    if c1.state.Accepted? {
      DecideView(c1, e.env);
    }
  }

  lemma AnswerView(c: Conn, answered: bool, env: Env)
    requires Inv(c) && Enabled(c, Dns(answered, env))
    ensures View(Next(c, Dns(answered, env))) == Step(View(c), Dns(answered, env))
  {
    ResolvCbSafe(c, answered, env);
    var idle := FreeQueryData(c.(state := Resolved));
    if answered { ContactView(idle, env); }
    WatchersKeepView(Answered(c, answered, env));
  }

  lemma ShutdownView(c: Conn)
    requires Inv(c) && !c.state.Closed?
    ensures View(CloseConnection(c)) == Step(View(c), Shutdown)
  {
    var c1 := if ServerOpen(c.state) then CloseServerSocket(c) else c;
    if ServerOpen(c.state) { CloseView(c, Server); CloseServerKeepsCore(c); }
    if ClientOpen(c1.state) { CloseView(c1, Client); }
  }

  /** Every callback is one step of the specification. */
  lemma StepRefines(c: Conn, e: Event)
    requires Inv(c) && Enabled(c, e)
    ensures View(Next(c, e)) == Step(View(c), e)
  {
    match e
    case Io(_, _, _, _, _, _) => CallbackView(c, e);
    case Dns(answered, env) => AnswerView(c, answered, env);
    case Shutdown => ShutdownView(c);
  }

  /** The runs of a connection are exactly those of the specification, and end as they do. */
  lemma {:induction false} RunRefines(c: Conn, es: seq<Event>)
    requires Sound(c)
    ensures Feasible(c, es) <==> CanRun(View(c), es)
    ensures Feasible(c, es) ==> View(Run(c, es)) == Steps(View(c), es)
    decreases |es|
  {
    if es != [] {
      EnabledExactly(c, es[0]);
      if Enabled(c, es[0]) {
        StepSafe(c, es[0]);
        StepRefines(c, es[0]);
        RunRefines(Next(c, es[0]), es[1..]);
      }
    }
  }

  /** What accept_connection hands to the specification. */
  function Begun(header: seq<byte>): Relay {
    Relay(Accepted, header, [], [], 0, 0, false, false, None, [], NoQuery, 0, 0)
  }

  /** From accept: which lists of events are runs, and how each of them ends. */
  lemma RunsExactly(peer: Peer, wantsHeader: bool, es: seq<Event>)
    requires peer.Valid()
    ensures var begun := Begun(if wantsHeader then Concat(HeaderParts(peer)) else []);
            && (Feasible(Start(peer, wantsHeader), es) <==> CanRun(begun, es))
            && (Feasible(Start(peer, wantsHeader), es) ==>
                  var c, r := Run(Start(peer, wantsHeader), es), Steps(begun, es);
                  View(c) == r && c.client.bytes == Queued(r, Server) && c.server.bytes == Queued(r, Client))
  {
    var start := Start(peer, wantsHeader);
    AcceptView(peer, wantsHeader);
    RunRefines(start, es);
    if Feasible(start, es) { SoundBuffers(Run(start, es)); }
  }

  lemma SoundBuffers(c: Conn)
    requires Sound(c)
    ensures Queued(View(c), Server) == c.client.bytes && Queued(View(c), Client) == c.server.bytes
  {
    BuffersAreQueued(c);
  }

  lemma AcceptView(peer: Peer, wantsHeader: bool)
    requires peer.Valid()
    ensures View(Start(peer, wantsHeader)) == Begun(if wantsHeader then Concat(HeaderParts(peer)) else [])
  {
    AcceptSafe(peer, wantsHeader);
    AcceptsPlainly(peer, wantsHeader);
  }

  lemma AcceptsPlainly(peer: Peer, wantsHeader: bool)
    requires peer.Valid()
    ensures var c := Start(peer, wantsHeader); c.state.Accepted? && !c.useProxyHeader && c.query.NoQuery?
  {
    if wantsHeader { PushKeepsRest(Fresh(), HeaderParts(peer)); }
  }

  // ---------------------------------------------------------------- what this says of single events

  /** An end of stream or an error on a socket closes that socket in the same callback. */
  lemma EndCloses(c: Conn, e: Event, side: Side)
    requires Inv(c) && Enabled(c, e) && ConnectionRuns.SocketFailed(c, e, side)
    ensures !Open(Next(c, e).state, side)
  {
    OutputIsQueued(c, side);
    StepRefines(c, e);
    FailsCloses(View(c), e);
  }

  lemma FailsCloses(r: Relay, e: Event)
    requires e.Io? && Fails(r, e)
    ensures !Open(Step(r, e).state, e.side)
  {
    var m := HangUp(Moved(r, e), e.side);
    assert !Open(m.state, e.side);
  }
}
