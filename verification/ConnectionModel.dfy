/**
 * One proxied connection of connection.c as a state machine. Every callback is a
 * function of the connection and of what the environment answers: how recv, send,
 * DNS, the backend lookup and connect turn out.
 */
module ConnectionModel {
  import opened Bits
  import opened Buffers
  import opened Text

  const CONNECTION_BUFFER_SIZE: nat := 4096
  const MAX_HEADER_LEN: nat := 116

  datatype State =
    | Accepted | Parsed | Resolving | Resolved | Connected
    | ServerClosed | ClientClosed | Closed

  datatype Side = Client | Server

  /** An ev_io watcher: whether it is started and the events it was set to. */
  datatype Watcher = Watcher(active: bool, read: bool, write: bool)

  /** An outstanding DNS query and whether its callback data owns the looked-up address. */
  datatype Query = NoQuery | Pending(ownsAddress: bool)

  /** A protocol parser and the message sent to a client that cannot be served. */
  datatype Protocol = Protocol(parse: seq<byte> -> int, abortMessage: seq<byte>) {
    predicate Valid() { 0 < |abortMessage| <= CONNECTION_BUFFER_SIZE }
  }

  /** Result of listener_lookup_server_address; the last is a wildcard or a pattern. */
  datatype Lookup =
    | NoAddress
    | HostName(useProxyHeader: bool, callerFrees: bool)
    | SockAddr(useProxyHeader: bool, callerFrees: bool)
    | OtherAddress

  /** socket() failed; a later call failed and the descriptor was closed; or success. */
  datatype Connect = SocketFailed | SetupFailed | ConnectStarted

  datatype Env = Env(protocol: Protocol, hasFallback: bool, lookup: Lookup, connect: Connect)

  /** What has passed through the sockets, and the PROXY header queued at accept. */
  datatype Traffic = Traffic(
    header: seq<byte>,
    clientIn: seq<byte>, clientOut: seq<byte>, serverIn: seq<byte>, serverOut: seq<byte>)

  /** Milestones, and the resources taken and released. */
  datatype History = History(
    connected: bool,
    aborted: bool, abortMessage: seq<byte>,
    payloads: seq<seq<byte>>,
    clientCloses: nat, serverOpens: nat, serverCloses: nat,
    addressesTaken: nat, addressesFreed: nat,
    fault: bool)

  datatype Conn = Conn(
    state: State,
    client: Queue, server: Queue,
    clientWatcher: Watcher, serverWatcher: Watcher,
    headerLen: nat, useProxyHeader: bool,
    query: Query,
    t: Traffic, h: History)

  predicate ClientOpen(s: State) {
    s.Accepted? || s.Parsed? || s.Resolving? || s.Resolved? || s.Connected? || s.ServerClosed?
  }

  predicate ServerOpen(s: State) {
    s.Connected? || s.ClientClosed?
  }

  /** Records a violated C assert or a read outside the storage. */
  function Check(c: Conn, ok: bool): Conn {
    if ok then c else c.(h := c.h.(fault := true))
  }

  // ---------------------------------------------------------------- closing

  function FreeQueryData(c: Conn): Conn {
    if c.query.Pending? && c.query.ownsAddress
    then c.(query := NoQuery, h := c.h.(addressesFreed := c.h.addressesFreed + 1))
    else c.(query := NoQuery)
  }

  /** A query in flight is cancelled; before a server is connected nothing else is open. */
  function CloseClientSocket(c0: Conn): Conn {
    var c1 := if c0.state.Resolving? then FreeQueryData(c0) else c0;
    var c := Check(c1, !c1.state.Closed? && !c1.state.ClientClosed?);
    c.(state := if ServerOpen(c.state) || c.state.Closed? then ClientClosed else Closed,
       clientWatcher := c.clientWatcher.(active := false),
       h := c.h.(clientCloses := c.h.clientCloses + 1))
  }

  function CloseServerSocket(c0: Conn): Conn {
    var c1 := Check(c0, !c0.state.Closed? && !c0.state.ServerClosed?);
    c1.(state := if c1.state.ClientClosed? then Closed else ServerClosed,
        serverWatcher := c1.serverWatcher.(active := false),
        h := c1.h.(serverCloses := c1.h.serverCloses + 1))
  }

  function CloseSocket(c: Conn, side: Side): (d: Conn)
    ensures d.client == c.client && d.server == c.server
  {
    if side.Client? then CloseClientSocket(c) else CloseServerSocket(c)
  }

  function CloseConnection(c: Conn): Conn {
    var c1 := if ServerOpen(c.state) then CloseServerSocket(c) else c;
    var c2 := Check(c1, !c1.state.Connected? && !c1.state.ClientClosed?);
    var c3 := if ClientOpen(c2.state) then CloseClientSocket(c2) else c2;
    Check(c3, c3.state.Closed?)
  }

  // ---------------------------------------------------------------- socket i/o

  function Input(c: Conn, side: Side): Queue { if side.Client? then c.client else c.server }
  function Output(c: Conn, side: Side): Queue { if side.Client? then c.server else c.client }
  function WatcherOf(c: Conn, side: Side): Watcher {
    if side.Client? then c.clientWatcher else c.serverWatcher
  }

  function StoreReceived(c: Conn, side: Side, r: RecvResult): (d: Conn)
    ensures Output(d, side) == Output(c, side)
    ensures BuffersValid(c) && RecvFits(c, side, r) ==> BuffersValid(d)
  {
    var got := if r.Received? then r.bytes else [];
    if side.Client?
    then c.(client := c.client.Recv(r), t := c.t.(clientIn := c.t.clientIn + got))
    else c.(server := c.server.Recv(r), t := c.t.(serverIn := c.t.serverIn + got))
  }

  /** recv; the flag says that the socket was closed and nothing may be sent. */
  function Receive(c: Conn, side: Side, readable: bool, r: RecvResult): (p: (Conn, bool))
    requires BuffersValid(c) && RecvFits(c, side, r)
    ensures BuffersValid(p.0) && Output(p.0, side) == Output(c, side)
  {
    if !readable || Input(c, side).Room() <= 0 then (c, false)
    else
      var stored := StoreReceived(c, side, r);
      if r.RecvFailed? || r.EndOfStream? then (CloseSocket(stored, side), true)
      else (stored, false)
  }

  function TakeSent(c: Conn, side: Side, n: nat): Conn
    requires Output(c, side).Valid() && n <= |Output(c, side).bytes|
  {
    var sent := Output(c, side).bytes[..n];
    if side.Client?
    then c.(server := c.server.Drop(n), t := c.t.(clientOut := c.t.clientOut + sent))
    else c.(client := c.client.Drop(n), t := c.t.(serverOut := c.t.serverOut + sent))
  }

  function Transmit(c: Conn, side: Side, writable: bool, r: SendResult): (t: Conn)
    requires BuffersValid(c) && SendFits(c, side, r)
    ensures BuffersValid(t)
  {
    if !writable || Output(c, side).bytes == [] then c
    else match r
      case Sent(n) => TakeSent(c, side, n)
      case SendTemporary => c
      case SendFailed => CloseSocket(c, side)
  }

  // ---------------------------------------------------------------- from request to server

  function Abort(c: Conn, p: Protocol): Conn {
    var c1 := Check(c, ClientOpen(c.state));
    c1.(server := c1.server.Push(p.abortMessage), state := ServerClosed,
        h := c1.h.(aborted := true, abortMessage := p.abortMessage))
  }

  /** What the parser's answer on the client's bytes leads to. */
  function DecideOn(c0: Conn, payload: seq<byte>, env: Env): Conn {
    var c := c0.(h := c0.h.(payloads := c0.h.payloads + [payload]));
    var result := env.protocol.parse(payload);
    if result == -1 && c.client.Room() > 0 then c
    else if result < 0 && !env.hasFallback then Abort(c, env.protocol)
    else c.(state := Parsed)
  }

  function ParseClientRequest(c0: Conn, env: Env): Conn
    requires c0.client.Valid()
  {
    var n := |c0.client.bytes|;
    var base := if c0.client.CoalesceKeeps() then c0.client.head else 0;
    var c1 := Check(c0, base + n <= c0.client.size).(client := c0.client.Coalesce());
    if n <= c1.headerLen then c1 else DecideOn(c1, c1.client.bytes[c1.headerLen..], env)
  }

  function TakeAddress(c: Conn, owned: bool): Conn {
    if owned then c.(h := c.h.(addressesTaken := c.h.addressesTaken + 1)) else c
  }

  function ResolveServerAddress(c: Conn, env: Env): Conn {
    match env.lookup
    case NoAddress => Abort(c, env.protocol)
    case HostName(proxy, owned) =>
      TakeAddress(c, owned).(useProxyHeader := proxy, query := Pending(owned), state := Resolving)
    case SockAddr(proxy, owned) => SocketAddressTaken(c, proxy, owned)
    case OtherAddress => Check(c, false)
  }

  function SocketAddressTaken(c: Conn, proxy: bool, owned: bool): Conn {
    var c1 := TakeAddress(c, owned).(useProxyHeader := proxy, state := Resolved);
    if owned then c1.(h := c1.h.(addressesFreed := c1.h.addressesFreed + 1)) else c1
  }

  /** A connection attempt is under way: an unwanted header is consumed, the server watched. */
  function StartServer(c: Conn): Conn
    requires c.client.Valid()
  {
    var unwanted := c.headerLen != 0 && !c.useProxyHeader;
    c.(client := if unwanted then c.client.Pop(c.headerLen) else c.client,
       serverWatcher := Watcher(true, false, true),
       state := Connected,
       h := c.h.(connected := true, serverOpens := c.h.serverOpens + 1))
  }

  function InitiateServerConnect(c: Conn, env: Env): Conn
    requires c.client.Valid()
  {
    match env.connect
    case SocketFailed => Abort(c, env.protocol)
    case SetupFailed => Abort(SocketDropped(c), env.protocol)
    case ConnectStarted => StartServer(c)
  }

  /** A socket that was opened and closed again. */
  function SocketDropped(c: Conn): Conn {
    c.(h := c.h.(serverOpens := c.h.serverOpens + 1, serverCloses := c.h.serverCloses + 1))
  }

  // ---------------------------------------------------------------- watchers

  function ReactivateWatcher(w: Watcher, input: Queue, output: Queue): Watcher {
    var read, write := input.Room() > 0, output.bytes != [];
    if !read && !write then w.(active := false) else Watcher(true, read, write)
  }

  predicate Watching(w: Watcher) { w.active && (w.read || w.write) }

  /** The asserts at the end of reactivate_watchers. */
  predicate WatchersConsistent(c: Conn) {
    && (ClientOpen(c.state) || !c.clientWatcher.active)
    && (ServerOpen(c.state) || !c.serverWatcher.active)
    && (Watching(c.clientWatcher) || Watching(c.serverWatcher) || c.state.Resolving?)
  }

  function WatchersSet(c: Conn): Conn {
    var cw := if ClientOpen(c.state) then ReactivateWatcher(c.clientWatcher, c.client, c.server)
              else c.clientWatcher;
    var sw := if ServerOpen(c.state) then ReactivateWatcher(c.serverWatcher, c.server, c.client)
              else c.serverWatcher;
    c.(clientWatcher := cw, serverWatcher := sw)
  }

  function ReactivateWatchers(c: Conn): Conn {
    Check(WatchersSet(c), WatchersConsistent(WatchersSet(c)))
  }

  // ---------------------------------------------------------------- callbacks

  /** What the kernel may answer: at most the free space in, at most the queued bytes out. */
  predicate RecvFits(c: Conn, side: Side, r: RecvResult) {
    r.Received? ==> 0 < |r.bytes| <= Input(c, side).Room()
  }

  predicate SendFits(c: Conn, side: Side, r: SendResult) {
    r.Sent? ==> r.count <= |Output(c, side).bytes|
  }

  predicate BuffersValid(c: Conn) {
    && c.client.Valid() && c.server.Valid()
    && c.client.size == CONNECTION_BUFFER_SIZE && c.server.size == CONNECTION_BUFFER_SIZE
  }

  /** recv, then send unless the socket was closed. */
  function SocketIo(c: Conn, side: Side, readable: bool, writable: bool,
                    rr: RecvResult, sr: SendResult): (r: Conn)
    requires BuffersValid(c) && RecvFits(c, side, rr) && SendFits(c, side, sr)
    ensures BuffersValid(r)
  {
    var (c1, closed) := Receive(c, side, readable, rr);
    Transmit(c1, side, writable && !closed, sr)
  }

  /** The state specific part of the client callback; several states may pass in one call. */
  function Advance(c: Conn, side: Side, env: Env): Conn
    requires BuffersValid(c)
  {
    var c1 := if side.Client? && c.state.Accepted? then ParseClientRequest(c, env) else c;
    var c2 := if side.Client? && c1.state.Parsed? then ResolveServerAddress(c1, env) else c1;
    if side.Client? && c2.state.Resolved? then InitiateServerConnect(c2, env) else c2
  }

  /** Close the surviving socket once its buffer is flushed. */
  function CloseFlushed(c: Conn): Conn {
    var c1 := if c.state.ServerClosed? && c.server.bytes == [] then CloseClientSocket(c) else c;
    if c1.state.ClientClosed? && c1.client.bytes == [] then CloseServerSocket(c1) else c1
  }

  function Settle(c: Conn): Conn {
    if c.state.Closed? then c else ReactivateWatchers(c)
  }

  /** The end of connection_cb, which a failed assert does not reach. */
  function Finish(c: Conn): Conn {
    if c.h.fault then c else Settle(CloseFlushed(c))
  }

  function ConnectionCb(c: Conn, side: Side, readable: bool, writable: bool,
                        rr: RecvResult, sr: SendResult, env: Env): Conn
    requires BuffersValid(c) && RecvFits(c, side, rr) && SendFits(c, side, sr)
  {
    Finish(Advance(SocketIo(c, side, readable, writable, rr, sr), side, env))
  }

  /** resolv_cb, followed by the release of its callback data. */
  function ResolvCb(c: Conn, answered: bool, env: Env): Conn
    requires BuffersValid(c)
  {
    if !c.state.Resolving? then FreeQueryData(c)
    else
      var c1 := if answered then InitiateServerConnect(c.(state := Resolved), env)
                else Abort(c, env.protocol);
      FreeQueryData(ReactivateWatchers(c1))
  }

  datatype Event =
    | Io(side: Side, readable: bool, writable: bool, recv: RecvResult, send: SendResult, env: Env)
    | Dns(answered: bool, env: Env)
    | Shutdown

  /**
   * Watchers fire only while active, the resolver only while a query is outstanding, and
   * nothing happens once an assert has failed.
   */
  predicate Enabled(c: Conn, e: Event) {
    && !c.h.fault
    && match e
       case Io(side, _, _, rr, sr, env) =>
         && !c.state.Closed? && WatcherOf(c, side).active
         && RecvFits(c, side, rr) && SendFits(c, side, sr) && env.protocol.Valid()
       case Dns(_, env) => c.query.Pending? && env.protocol.Valid()
       case Shutdown => !c.state.Closed?
  }

  function Next(c: Conn, e: Event): Conn
    requires BuffersValid(c) && Enabled(c, e)
  {
    match e
    case Io(side, readable, writable, rr, sr, env) => ConnectionCb(c, side, readable, writable, rr, sr, env)
    case Dns(answered, env) => ResolvCb(c, answered, env)
    case Shutdown => CloseConnection(c)
  }

  // ---------------------------------------------------------------- accept

  const EMPTY_QUEUE: Queue := Queue(CONNECTION_BUFFER_SIZE, 0, [], 0, 0)

  const NO_TRAFFIC: Traffic := Traffic([], [], [], [], [])
  const NO_HISTORY: History := History(false, false, [], [], 0, 0, 0, 0, 0, false)

  /** A connection right after accept, before any PROXY header is queued. */
  function Fresh(): Conn {
    Conn(Accepted, EMPTY_QUEUE, EMPTY_QUEUE, Watcher(true, true, false), Watcher(false, false, false),
         0, false, NoQuery, NO_TRAFFIC, NO_HISTORY)
  }

  /** Peer and local address as inet_ntop prints them, and the two ports. */
  datatype Peer =
    | V4(source: seq<byte>, local: seq<byte>, sourcePort: nat, localPort: nat)
    | V6(source: seq<byte>, local: seq<byte>, sourcePort: nat, localPort: nat)
    | OtherFamily
  {
    predicate Valid() {
      !OtherFamily? ==>
        && 0 < |source| <= 45 && 0 < |local| <= 45
        && sourcePort <= 65535 && localPort <= 65535
    }
  }

  /** The pieces insert_proxy_v1_header pushes, in order. */
  function HeaderParts(p: Peer): seq<seq<byte>> {
    [Ascii("PROXY ")]
    + (if p.OtherFamily? then [Ascii("UNKNOWN")]
       else [Ascii(if p.V4? then "TCP4 " else "TCP6 "), p.source, Ascii(" "), p.local,
             Ascii(" ") + Decimal(p.sourcePort), Ascii(" ") + Decimal(p.localPort)])
    + [Ascii("\r\n")]
  }

  function Accept(peer: Peer, wantsHeader: bool): Conn {
    if wantsHeader then PushParts(Fresh(), HeaderParts(peer)) else Fresh()
  }

  function PushPart(c: Conn, part: seq<byte>): Conn {
    var pushed := if c.client.Room() < |part| then 0 else |part|;
    c.(client := c.client.Push(part), headerLen := c.headerLen + pushed,
       t := c.t.(header := c.t.header + part))
  }

  function PushParts(c: Conn, parts: seq<seq<byte>>): Conn
    decreases |parts|
  {
    if parts == [] then c else PushParts(PushPart(c, parts[0]), parts[1..])
  }
}
