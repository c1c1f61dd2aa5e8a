/** The callbacks of connection.c over real ring buffers, proved to follow the model. */
module Connections {
  import opened Bits
  import opened Buffers
  import opened ConnectionModel
  import opened ConnectionProofs
  import opened ConnectionRuns

  /** Closing the client socket: the query goes first, then the watcher and the descriptor. */
  lemma CloseClientForm(v: Conn)
    requires !v.state.Closed? && !v.state.ClientClosed?
    ensures var idle := if v.state.Resolving? then FreeQueryData(v).(state := Parsed) else v;
            ConnectionModel.CloseClientSocket(v) ==
            idle.(clientWatcher := idle.clientWatcher.(active := false),
                  h := idle.h.(clientCloses := idle.h.clientCloses + 1),
                  state := if idle.state.Connected? then ClientClosed else Closed)
  {
  }

  lemma BufferSizeAccepted()
    ensures !NotPowerOf2(CONNECTION_BUFFER_SIZE)
  {
    assert Pow2(12) == CONNECTION_BUFFER_SIZE;
    PowerOf2Test(CONNECTION_BUFFER_SIZE);
  }

  class Connection {
    const client: Buffer
    const server: Buffer
    var state: State
    var clientWatcher: Watcher
    var serverWatcher: Watcher
    var headerLen: nat
    var useProxyHeader: bool
    var query: Query
    ghost var traffic: Traffic
    ghost var history: History

    ghost predicate Valid()
      reads this, client, server
    {
      && client != server && client.data != server.data
      && client.Valid() && server.Valid()
    }

    ghost function View(): Conn
      requires Valid()
      reads this, client, server, client.data, server.data
    {
      Conn(state, client.View(), server.View(), clientWatcher, serverWatcher,
           headerLen, useProxyHeader, query, traffic, history)
    }

    /** accept_connection, once accept and getsockname have succeeded. */
    constructor (peer: Peer, wantsHeader: bool)
      requires peer.Valid()
      ensures Valid() && fresh(client) && fresh(server) && fresh(client.data) && fresh(server.data)
      ensures View() == Start(peer, wantsHeader)
    {
      BufferSizeAccepted();
      client := new Buffer(CONNECTION_BUFFER_SIZE);
      server := new Buffer(CONNECTION_BUFFER_SIZE);
      state := Accepted;
      clientWatcher := Watcher(true, true, false);
      serverWatcher := Watcher(false, false, false);
      headerLen, useProxyHeader, query := 0, false, NoQuery;
      traffic, history := NO_TRAFFIC, NO_HISTORY;
      new;
      assert View() == Fresh();
      if wantsHeader {
        HeaderLength(peer);
        InsertProxyV1Header(peer);
      }
    }

    /** insert_proxy_v1_header: pushes the pieces and counts what was stored. */
    method InsertProxyV1Header(peer: Peer)
      requires Valid() && peer.Valid()
      requires forall i :: 0 <= i < |HeaderParts(peer)| ==> HeaderParts(peer)[i] != []
      modifies this`headerLen, this`traffic, client, client.data
      ensures Valid() && client.data == old(client.data)
      ensures View() == PushParts(old(View()), HeaderParts(peer))
    {
      var parts := HeaderParts(peer);
      for i := 0 to |parts|
        invariant Valid() && client.data == old(client.data)
        invariant PushParts(View(), parts[i..]) == PushParts(old(View()), parts)
      {
        assert parts[i..][0] == parts[i] && parts[i..][1..] == parts[i + 1..];
        PushHeaderPart(parts[i]);
      }
    }

    method PushHeaderPart(part: seq<byte>)
      requires Valid() && part != []
      modifies this`headerLen, this`traffic, client, client.data
      ensures Valid() && client.data == old(client.data)
      ensures View() == PushPart(old(View()), part)
    {
      ghost var v := View();
      PushWhole(v.client, part);
      var pushed, _ := client.Push(part, |part|);
      headerLen := headerLen + pushed;
      traffic := traffic.(header := traffic.header + part);
      assert server.View() == v.server;
    }

    method CloseClientSocket()
      requires Valid() && !state.Closed? && !state.ClientClosed?
      modifies this`state, this`clientWatcher, this`query, this`history
      ensures Valid() && View() == ConnectionModel.CloseClientSocket(old(View()))
    {
      CloseClientForm(View());
      if state.Resolving? {
        CancelQuery();
      }
      CloseClientDescriptor();
    }

    /** resolv_cancel when the client goes away. */
    method CancelQuery()
      requires Valid()
      modifies this`state, this`query, this`history
      ensures Valid() && View() == FreeQueryData(old(View())).(state := Parsed)
    {
      ReleaseData();
      state := Parsed;
    }

    /** free_resolv_cb_data, and no handle is kept. */
    method ReleaseData()
      requires Valid()
      modifies this`query, this`history
      ensures Valid() && View() == FreeQueryData(old(View()))
    {
      if query.Pending? && query.ownsAddress {
        history := history.(addressesFreed := history.addressesFreed + 1);
      }
      query := NoQuery;
    }

    /** close of the descriptor; the next state depends on the previous one. */
    method CloseClientDescriptor()
      requires Valid() && !state.Closed? && !state.ClientClosed? && !state.Resolving?
      modifies this`state, this`clientWatcher, this`history
      ensures Valid()
      ensures View() == old(View()).(
                          clientWatcher := old(clientWatcher).(active := false),
                          h := old(history).(clientCloses := old(history).clientCloses + 1),
                          state := if old(state).Connected? then ClientClosed else Closed)
    {
      ghost var v := View();
      clientWatcher := clientWatcher.(active := false);
      history := history.(clientCloses := history.clientCloses + 1);
      state := StateWithoutClient(state);
      assert client.View() == v.client && server.View() == v.server;
    }

    static method StateWithoutClient(s: State) returns (next: State)
      requires !s.Closed? && !s.ClientClosed?
      ensures next == if s.Connected? then ClientClosed else Closed
    {
      if s.ServerClosed? || s.Accepted? || s.Parsed? || s.Resolving? || s.Resolved? {
        next := Closed;
      } else {
        next := ClientClosed;
      }
    }

    method CloseServerSocket()
      requires Valid() && !state.Closed? && !state.ServerClosed?
      modifies this`state, this`serverWatcher, this`history
      ensures Valid() && View() == ConnectionModel.CloseServerSocket(old(View()))
    {
      serverWatcher := serverWatcher.(active := false);
      history := history.(serverCloses := history.serverCloses + 1);
      if state.ClientClosed? {
        state := Closed;
      } else {
        state := ServerClosed;
      }
    }

    method CloseSocket(side: Side)
      requires Valid() && Open(state, side)
      modifies this
      ensures Valid() && View() == ConnectionModel.CloseSocket(old(View()), side)
    {
      match side
      case Client => CloseClientSocket();
      case Server => CloseServerSocket();
    }

    /** close_connection: the asserts on the state in between and at the end. */
    method CloseConnection()
      requires Valid() && Inv(View()) && !state.Closed?
      modifies this
      ensures Valid() && state.Closed? && View() == ConnectionModel.CloseConnection(old(View()))
      ensures Inv(View())
    {
      CloseConnectionSafe(View());
      if ServerOpen(state) {
        CloseServerSocket();
      }
      assert state.Accepted? || state.Parsed? || state.Resolving? || state.Resolved?
             || state.ServerClosed? || state.Closed?;
      if ClientOpen(state) {
        CloseClientSocket();
      }
      assert state.Closed?;
    }

    method Abort(p: Protocol)
      requires Valid() && ClientOpen(state) && p.Valid()
      modifies this`state, this`history, server, server.data
      ensures Valid() && server.data == old(server.data)
      ensures View() == ConnectionModel.Abort(old(View()), p)
    {
      ghost var v := View();
      PushWhole(v.server, p.abortMessage);
      var pushed, _ := server.Push(p.abortMessage, |p.abortMessage|);
      history := history.(aborted := true, abortMessage := p.abortMessage);
      state := ServerClosed;
      assert client.View() == v.client;
    }

    method ParseClientRequest(env: Env)
      requires Valid() && Core(View()) && state.Accepted? && env.protocol.Valid()
      modifies this`state, this`history, client, client.data, server, server.data
      ensures Valid() && client.data == old(client.data) && server.data == old(server.data)
      ensures View() == ConnectionModel.ParseClientRequest(old(View()), env)
    {
      ghost var v := View();
      PayloadIsClientInput(v);
      var region := client.Coalesce();
      assert View() == v.(client := v.client.Coalesce());
      if region.len > headerLen {
        var payload := client.data[region.base + headerLen..region.base + region.len];
        assert payload == client.Contents()[headerLen..];
        DecideOn(payload, env);
      }
    }

    /** The rest of parse_client_request, on the bytes behind the header. */
    method DecideOn(payload: seq<byte>, env: Env)
      requires Valid() && state.Accepted? && env.protocol.Valid()
      modifies this`state, this`history, server, server.data
      ensures Valid() && server.data == old(server.data)
      ensures View() == ConnectionModel.DecideOn(old(View()), payload, env)
    {
      history := history.(payloads := history.payloads + [payload]);
      var result := env.protocol.parse(payload);
      if result < 0 {
        if result == -1 && client.Room() > 0 {
          return;
        }
        if !env.hasFallback {
          Abort(env.protocol);
          return;
        }
      }
      state := Parsed;
    }

    /** The result is false where assert(0) ends the process. */
    method ResolveServerAddress(env: Env) returns (ok: bool)
      requires Valid() && Core(View()) && state.Parsed? && env.protocol.Valid()
      modifies this`state, this`history, this`useProxyHeader, this`query, server, server.data
      ensures Valid() && server.data == old(server.data)
      ensures View() == ConnectionModel.ResolveServerAddress(old(View()), env)
      ensures ok <==> !env.lookup.OtherAddress?
    {
      ok := true;
      match env.lookup
      case NoAddress =>
        Abort(env.protocol);
      case HostName(proxy, owned) =>
        StartQuery(proxy, owned);
      case SockAddr(proxy, owned) =>
        TakeSocketAddress(proxy, owned);
      case OtherAddress =>
        ok := false;
        FailAssert();
    }

    /** assert(0): the process ends here. */
    method FailAssert()
      requires Valid()
      modifies this`history
      ensures Valid() && View() == Check(old(View()), false)
    {
      history := history.(fault := true);
    }

    /** A host name: the query takes the address over. */
    method StartQuery(proxy: bool, owned: bool)
      requires Valid()
      modifies this`state, this`history, this`useProxyHeader, this`query
      ensures Valid()
      ensures View() == TakeAddress(old(View()), owned).(
                          useProxyHeader := proxy, query := Pending(owned), state := Resolving)
    {
      if owned {
        history := history.(addressesTaken := history.addressesTaken + 1);
      }
      useProxyHeader := proxy;
      query := Pending(owned);
      state := Resolving;
    }

    /** A socket address: copied, and freed at once if it was allocated. */
    method TakeSocketAddress(proxy: bool, owned: bool)
      requires Valid()
      modifies this`state, this`history, this`useProxyHeader
      ensures Valid()
      ensures View() == SocketAddressTaken(old(View()), proxy, owned)
    {
      useProxyHeader := proxy;
      if owned {
        history := history.(addressesTaken := history.addressesTaken + 1,
                            addressesFreed := history.addressesFreed + 1);
      }
      state := Resolved;
    }

    method InitiateServerConnect(env: Env)
      requires Valid() && ClientOpen(state) && env.protocol.Valid()
      modifies this`state, this`history, this`serverWatcher, client, client.data, server, server.data
      ensures Valid() && client.data == old(client.data) && server.data == old(server.data)
      ensures View() == ConnectionModel.InitiateServerConnect(old(View()), env)
    {
      if env.connect.ConnectStarted? {
        StartServer();
      } else {
        if env.connect.SetupFailed? {
          DropNewSocket();
        }
        Abort(env.protocol);
      }
    }

    /** A socket that could not be set up is closed again. */
    method DropNewSocket()
      requires Valid()
      modifies this`history
      ensures Valid() && View() == SocketDropped(old(View()))
    {
      history := history.(serverOpens := history.serverOpens + 1, serverCloses := history.serverCloses + 1);
    }

    /** The end of initiate_server_connect, once connect has been started. */
    method StartServer()
      requires Valid()
      modifies this`state, this`history, this`serverWatcher, client
      ensures Valid() && client.data == old(client.data)
      ensures View() == ConnectionModel.StartServer(old(View()))
    {
      ghost var v := View();
      if headerLen != 0 && !useProxyHeader {
        var dropped := client.Pop(headerLen);
      }
      serverWatcher := Watcher(true, false, true);
      history := history.(connected := true, serverOpens := history.serverOpens + 1);
      state := Connected;
      assert server.View() == v.server;
    }

    /** reactivate_watcher for one side; start and stop are no-ops when nothing changes. */
    static method ReactivateWatcher(w: Watcher, input: Buffer, output: Buffer) returns (r: Watcher)
      requires input.Valid() && output.Valid()
      ensures r == ConnectionModel.ReactivateWatcher(w, input.View(), output.View())
    {
      var read, write := input.Room() > 0, output.len > 0;
      r := w;
      if w.active {
        if !read && !write {
          r := w.(active := false);
        } else if read != w.read || write != w.write {
          r := Watcher(true, read, write);
        }
      } else if read || write {
        r := Watcher(true, read, write);
      }
    }

    method ReactivateWatchers()
      requires Valid() && Core(View()) && CanProgress(View()) && !state.Closed?
      modifies this`clientWatcher, this`serverWatcher
      ensures Valid() && View() == ConnectionModel.ReactivateWatchers(old(View()))
    {
      ReactivateSafe(View());
      SetWatchers();
      assert ClientOpen(state) || !clientWatcher.active;
      assert ServerOpen(state) || !serverWatcher.active;
      assert Watching(clientWatcher) || Watching(serverWatcher) || state.Resolving?;
    }

    /** The watchers of the open sockets. */
    method SetWatchers()
      requires Valid()
      modifies this`clientWatcher, this`serverWatcher
      ensures Valid() && View() == WatchersSet(old(View()))
    {
      ghost var v := View();
      if ClientOpen(state) {
        clientWatcher := ReactivateWatcher(clientWatcher, client, server);
      }
      if ServerOpen(state) {
        serverWatcher := ReactivateWatcher(serverWatcher, server, client);
      }
      assert client.View() == v.client && server.View() == v.server;
    }

    /** The recv half of connection_cb; the result says that nothing may be sent any more. */
    method Receive(side: Side, readable: bool, r: RecvResult) returns (closed: bool)
      requires Valid() && Core(View()) && Open(state, side) && RecvFits(View(), side, r)
      modifies this, client, client.data, server, server.data
      ensures Valid() && client.data == old(client.data) && server.data == old(server.data)
      ensures (View(), closed) == ConnectionModel.Receive(old(View()), side, readable, r)
    {
      var input := if side.Client? then client else server;
      closed := false;
      if readable && input.Room() > 0 {
        var bytes := Store(side, r);
        if (bytes < 0 && !r.RecvTemporary?) || bytes == 0 {
          CloseSocket(side);
          closed := true;
        }
      }
    }

    /** recv into the input buffer of one side. */
    method Store(side: Side, r: RecvResult) returns (bytes: int)
      requires Valid() && RecvFits(View(), side, r)
      modifies this`traffic, client, client.data, server, server.data
      ensures Valid() && client.data == old(client.data) && server.data == old(server.data)
      ensures View() == StoreReceived(old(View()), side, r)
      ensures bytes == match r case Received(s) => |s| case EndOfStream => 0 case _ => -1
    {
      ghost var v := View();
      ghost var got := if r.Received? then r.bytes else [];
      if side.Client? {
        bytes := client.Recv(r);
        traffic := traffic.(clientIn := traffic.clientIn + got);
        assert server.View() == v.server;
      } else {
        bytes := server.Recv(r);
        traffic := traffic.(serverIn := traffic.serverIn + got);
        assert client.View() == v.client;
      }
    }

    /** The send half of connection_cb. */
    method Transmit(side: Side, writable: bool, r: SendResult)
      requires Valid() && BuffersValid(View()) && SendFits(View(), side, r)
      requires writable ==> Open(state, side)
      modifies this, client, server
      ensures Valid() && client.data == old(client.data) && server.data == old(server.data)
      ensures View() == ConnectionModel.Transmit(old(View()), side, writable, r)
    {
      ghost var v := View();
      var output := if side.Client? then server else client;
      if writable && output.len > 0 {
        var bytes := Send(side, r);
        if bytes < 0 && !r.SendTemporary? {
          CloseSocket(side);
        }
      }
    }

    method Send(side: Side, r: SendResult) returns (bytes: int)
      requires Valid() && SendFits(View(), side, r)
      modifies this`traffic, client, server
      ensures Valid() && client.data == old(client.data) && server.data == old(server.data)
      ensures View() == if r.Sent? then TakeSent(old(View()), side, r.count) else old(View())
      ensures bytes == if r.Sent? then r.count else -1
    {
      match side
      case Client => bytes := SendToClient(r);
      case Server => bytes := SendToServer(r);
    }

    method SendToClient(r: SendResult) returns (bytes: int)
      requires Valid() && SendFits(View(), Client, r)
      modifies this`traffic, server
      ensures Valid() && server.data == old(server.data)
      ensures View() == if r.Sent? then TakeSent(old(View()), Client, r.count) else old(View())
      ensures bytes == if r.Sent? then r.count else -1
    {
      ghost var v := View();
      var sent;
      bytes, sent := server.Send(r);
      assert client.View() == v.client && server.View() == v.server.Send(r);
      assert sent == [] ==> traffic.clientOut + sent == traffic.clientOut;
      traffic := traffic.(clientOut := traffic.clientOut + sent);
    }

    method SendToServer(r: SendResult) returns (bytes: int)
      requires Valid() && SendFits(View(), Server, r)
      modifies this`traffic, client
      ensures Valid() && client.data == old(client.data)
      ensures View() == if r.Sent? then TakeSent(old(View()), Server, r.count) else old(View())
      ensures bytes == if r.Sent? then r.count else -1
    {
      ghost var v := View();
      var sent;
      bytes, sent := client.Send(r);
      assert server.View() == v.server && client.View() == v.client.Send(r);
      assert sent == [] ==> traffic.serverOut + sent == traffic.serverOut;
      traffic := traffic.(serverOut := traffic.serverOut + sent);
    }

    method SocketIo(side: Side, readable: bool, writable: bool, rr: RecvResult, sr: SendResult)
      requires Valid() && Core(View()) && Open(state, side)
      requires RecvFits(View(), side, rr) && SendFits(View(), side, sr)
      modifies this, client, client.data, server, server.data
      ensures Valid() && client.data == old(client.data) && server.data == old(server.data)
      ensures View() == ConnectionModel.SocketIo(old(View()), side, readable, writable, rr, sr)
    {
      ghost var v := View();
      ReceiveKeepsCore(v, side, readable, rr);
      var closed := Receive(side, readable, rr);
      Transmit(side, writable && !closed, sr);
    }

    method Advance(side: Side, env: Env) returns (ok: bool)
      requires Valid() && Core(View()) && env.protocol.Valid()
      requires !state.Parsed? && !state.Resolved? && (side.Server? ==> !state.Accepted?)
      modifies this, client, client.data, server, server.data
      ensures Valid() && client.data == old(client.data) && server.data == old(server.data)
      ensures View() == ConnectionModel.Advance(old(View()), side, env)
      ensures ok <==> !history.fault
    {
      ok := true;
      AdvanceKeepsCore(View(), side, env);
      if side.Client? && state.Accepted? {
        ParseKeepsCore(View(), env);
        ParseClientRequest(env);
      }
      if side.Client? && state.Parsed? {
        ResolveKeepsCore(View(), env);
        ok := ResolveServerAddress(env);
      }
      if side.Client? && state.Resolved? {
        InitiateServerConnect(env);
      }
    }

    method CloseFlushed()
      requires Valid() && Core(View())
      modifies this
      ensures Valid() && View() == ConnectionModel.CloseFlushed(old(View()))
    {
      if state.ServerClosed? && server.len == 0 {
        CloseClientSocket();
      }
      if state.ClientClosed? && client.len == 0 {
        CloseServerSocket();
      }
    }

    /** connection_cb, called by libev on an active watcher of either socket. */
    method ConnectionCb(side: Side, readable: bool, writable: bool, rr: RecvResult, sr: SendResult, env: Env)
      requires Valid() && Inv(View()) && Enabled(View(), Io(side, readable, writable, rr, sr, env))
      modifies this, client, client.data, server, server.data
      ensures Valid() && client.data == old(client.data) && server.data == old(server.data)
      ensures View() == Next(old(View()), Io(side, readable, writable, rr, sr, env))
    {
      CallbackStages(View(), side, readable, writable, rr, sr, env);
      SocketIo(side, readable, writable, rr, sr);
      var ok := Advance(side, env);
      if ok {
        Finish();
      }
    }

    /** The end of connection_cb: close what is flushed, then free or watch again. */
    method Finish()
      requires Valid() && Core(View()) && (state.Accepted? ==> client.Room() > 0)
      requires !state.Parsed? && !state.Resolved?
      modifies this
      ensures Valid() && View() == ConnectionModel.Finish(old(View()))
    {
      CloseFlushedKeepsCore(View());
      CloseFlushed();
      if !state.Closed? {
        ReactivateWatchers();
      }
    }

    /** resolv_cb, called while the query is outstanding, and the release of its data. */
    method ResolvCb(answered: bool, env: Env)
      requires Valid() && Inv(View()) && Enabled(View(), Dns(answered, env))
      modifies this, client, client.data, server, server.data
      ensures Valid() && client.data == old(client.data) && server.data == old(server.data)
      ensures View() == Next(old(View()), Dns(answered, env))
    {
      ghost var v := View();
      ResolvCbSafe(v, answered, env);
      AnswerQuery(answered, env);
      ReactivateWatchers();
    }

    /** The body of resolv_cb up to the watchers; the callback data is released here. */
    method AnswerQuery(answered: bool, env: Env)
      requires Valid() && Core(View()) && state.Resolving? && env.protocol.Valid()
      modifies this, client, client.data, server, server.data
      ensures Valid() && client.data == old(client.data) && server.data == old(server.data)
      ensures View() == Answered(old(View()), answered, env)
    {
      ghost var v := View();
      if answered {
        state := Resolved;
        assert View() == v.(state := Resolved);
        InitiateServerConnect(env);
        ReleaseCommutesWithConnect(v.(state := Resolved), env);
      } else {
        Abort(env.protocol);
        ReleaseCommutesWithAbort(v, v.(state := Resolved), env.protocol);
      }
      ReleaseData();
    }

    /** One event, delivered to the callback it belongs to. */
    method Handle(e: Event)
      requires Valid() && Sound(View()) && Enabled(View(), e)
      modifies this, client, client.data, server, server.data
      ensures Valid() && client.data == old(client.data) && server.data == old(server.data)
      ensures View() == Next(old(View()), e)
      ensures if ReachesAssert(old(View()), e) then Crashed(View()) else Inv(View())
    {
      StepSafe(View(), e);
      match e
      case Io(side, readable, writable, rr, sr, env) => ConnectionCb(side, readable, writable, rr, sr, env);
      case Dns(answered, env) => ResolvCb(answered, env);
      case Shutdown => CloseConnection();
    }

    /** The event loop of one connection: a list of events runs as the model says. */
    method Dispatch(es: seq<Event>)
      requires Valid() && Sound(View()) && Feasible(View(), es)
      modifies this, client, client.data, server, server.data
      ensures Valid() && client.data == old(client.data) && server.data == old(server.data)
      ensures View() == Run(old(View()), es)
      decreases |es|
    {
      if es != [] {
        Handle(es[0]);
        Dispatch(es[1..]);
      }
    }
  }
}
