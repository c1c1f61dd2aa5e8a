# sniproxy: a verified model

sniproxy is a single-threaded, event-driven relay. It accepts a TCP connection, reads the
first bytes until it knows the host name in a TLS ClientHello or an HTTP request, looks that
name up in a table, connects to the backend and relays bytes both ways. Its configuration
can be reloaded while connections are running.

This project models the parts where a mistake is hard to see, and proves what they are for.

* **Connections** (`ConnectionModel`, `ConnectionProofs`, `ConnectionRuns`, `Connections`,
  `Relay`, `ProxyHeader`, `Protocols`, `QueryRuns`, `ServerLookup`). A connection is a state
  machine whose events are the callbacks of `src/connection.c`. The environment chooses what
  `recv` and `send` do, what the lookup and the resolver answer, and whether `connect` succeeds.
  Histories of bytes received and sent, of descriptors opened and closed and of lookup addresses
  taken and freed are part of the state, and a failed C `assert` or a read outside the buffer
  sets a fault flag. The invariant is proved for every step that does not fail an assert, and the
  theorems of `ConnectionRuns` hold for every run from accept, which a failed assert ends.
  `Relay` is a specification without buffers, watchers and intermediate states; the runs of a
  connection are exactly its runs and end as it says. `ServerLookup` is the way from a matched
  backend to the address a connection goes to. The class `Connections.Connection` has the mutable
  fields of the C struct over two real ring buffers, and every method is proved to do what the
  model does. `QueryRuns` joins a connection with the resolver query it waits for.
* **Ring buffer** (`Bits`, `Buffers`). The class `Buffers.Buffer` is `src/buffer.c` on an array:
  masks, one or two regions, copies. It is proved to behave as a byte queue.
* **Reload** (`ProxyModel`, `ProxyRefs`, `ProxyOps`, `ListenerMerge`, `TableReload`, `ProxyRuns`,
  `ReloadServes`, `Proxies`, `LinkedLists`). Listeners and tables live in an explicit store with
  reference counts. Using an object that is not there, or counting below zero, is a fault. The
  class `Proxies.Proxy` runs the operations of `src/table.c`, `src/listener.c` and `src/config.c`
  as loops over sequences that it updates; `LinkedLists` runs the same list loops on nodes with
  next pointers, spliced in place.
* **Lifetimes** (`StartUp`, `ListenerLifetime`, `BackendLifetime`, `TableLifetime`, `Accepting`,
  `LookupLifetime`). What start-up and a reload make of every listener and table, what it frees,
  which listeners accept, and how long the address of a pending lookup lives: the proxy, a
  connection and its query as one state machine.
* **Parsers, resolver, patterns, addresses** (`Outcomes`, `Tls`, `TlsProofs`, `TlsGrammar`,
  `Http`, `HttpProofs`, `HttpGrowth`, `Resolver`, `ResolvQueries`, `Pattern`, `Addresses`,
  `AddressProofs`).

`dafny verify dfyconfig.toml` checks everything.

## Where the code does not do what one would expect

The model follows the code. Each property that fails has an exact condition.

* `src/connection.h:43-44` has the comments of SERVER_CLOSED and CLIENT_CLOSED swapped: in the
  code SERVER_CLOSED means that the server socket is closed.
* `buffer_coalesce` tests its tail the wrong way round. The region it returns lies in the storage
  exactly when head + len <= size (`Buffers.Buffer.Coalesce`; `Buffers.WrappedQueue` is a queue
  where it does not). In every run the parser is reached with head 0, so the connection is safe
  (`ConnectionProofs.PayloadIsClientInput`). Moving the bytes also adds them to both byte
  counters.
* `buffer_push`, `buffer_peek` and `buffer_pop` take length 0 as "no limit"; a push of nothing
  fills the buffer, and reads past its source exactly when that has fewer bytes than there is
  room (`Buffers.Buffer.Push`; `Buffers.ShortPushOverreads` does it).
* One `assert` of `src/connection.c` can fail, the `assert(0)` of `resolve_server_address`. A
  lookup answers with a wildcard or pattern address exactly when a wildcard or pattern backend
  matched and the name, or the expansion, without its ports is "*" or contains a dollar sign
  (`ServerLookup.OtherAddressExactly`). In a run an assert fails exactly when an event asks for a
  lookup that ends so (`ConnectionRuns.NoStall`). A ClientHello that names "*", sent to a table
  with the backend "*:80", does it (`Protocols.TlsStarAsserts`).
* The second loop of `reload_tables` skips the node after each one it removes. Unused tables all
  disappear exactly when no two of them are neighbours after the first used one
  (`TableReload.ReloadDropsUnused`, with an example in `TableReload.UnusedMaySurvive`).
* When a configuration defines a table name twice, its last definition wins at start-up and its
  first one after a reload, so reading the same file again changes what the name serves exactly
  if the two differ (`StartUp.BootServes`, `StartUp.SameFileServes`).
* Of several listeners with one address, a reload keeps as many as the new configuration has,
  from the front (`ProxyRuns.ReloadKeepsMatched`).
* A pending lookup may use an address that belongs to a backend or to the listener's fallback,
  and a reload may free it while the query runs. It does so exactly when the listener whose
  fallback it is is matched with a new one, or when the backend's table is replaced by a new one
  of its name or does not survive. A table survives exactly when the removal loops leave it
  listed, or a listener with it either is no longer listed and has a connection, or stays listed
  under a name that no table has (`TableLifetime.TableSurvives`). All of this is told before the
  reload (`LookupLifetime.ReloadAndLookup`, `LookupLifetime.AddressAtAnswer`); reading the same
  file again during a query is enough (`LookupLifetime.AddressLost`).
* A listener whose set-up failed stays listed without a socket. No later reload opens it while it
  is kept (`Accepting.NeverAccepts`, with a run in `Accepting.FailedListenerStays`).
* `resolv_cancel` does not free answers already stored: they leak exactly when the query is
  cancelled after an answer with records (`Resolver.ResponsesReleased`, with an example in
  `Resolver.CancelledAnswerLeaks`).
* `resolv_query` may submit nothing and return NULL. No callback ever comes
  (`Resolver.NothingSubmitted`), the connection stays in RESOLVING, and leaving it passes NULL to
  `resolv_cancel`: exactly when some event started a lookup for which neither query was
  submitted, and RESOLVING was left (`QueryRuns.NoLateCallback`, with a run from accept in
  `QueryRuns.NothingSubmittedFaults`).
* The HTTP scanner subtracts 2 from an unsigned length. It reads outside its input exactly on
  fewer than two bytes (`HttpProofs.ParseIs`). Its answer on part of a request can be overturned
  by the rest; `HttpGrowth.FinalIffDecided` says exactly when it cannot.
* `new_address` copies text in brackets into a buffer of 262 bytes without a test. The write
  leaves the buffer exactly when the text reaches that branch and its first closing bracket is at
  index 263 or later; no recursive call does that (`AddressProofs.BufferSuffices`, with an
  example in `AddressProofs.LongBracketsOverflow`).
* A host called "unix" printed with a port reads back as a socket path (`AddressProofs.RoundTrip`
  says it is the only exception, `AddressProofs.UnixDoesNotReturn` reaches it).

## Model

| member | source | states |
|---|---|---|
| `ConnectionRuns.StreamExactness` | src/connection.c:241-308 | over every run from accept: before connect the client buffer is the header and all client bytes; after it, bytes sent to the server and queued for it are the header (if inserted, and the lookup that an event of the run led to says the server wants it) and all client bytes; bytes sent to the client and queued for it are all server bytes or exactly one abort message, that of the protocol of some event of the run |
| `Relay.RunsExactly` | src/connection.c:241-308 | from accept: which lists of events are runs, and how each ends, told by a specification of what came in, how much went out, and one transition for each event: state, header wish, abort message, texts shown to the parser, query, sockets opened, addresses taken; the buffers hold exactly what the specification says is still to be sent |
| `Relay.RunRefines` | src/connection.c:241-308 | the same from any state between callbacks |
| `Relay.StepRefines` | src/connection.c:241-308 | every callback is one step of the specification: which end of stream or error closes what, when a request is waited for, refused or served, what each lookup and each outcome of connect leads to, and when a half-closed pair closes |
| `Relay.EnabledExactly` | src/connection.c:310-363 | an event can happen if and only if its socket is open and has space or data, its query is outstanding, or the connection is not closed |
| `Relay.EndCloses` | src/connection.c:255-280 | an end of stream or an error on a socket closes that socket in the same callback |
| `ConnectionRuns.StepChooses` | src/connection.c:492-578 | whether the server wants the header is what the lookup of the event says, if the event leads to one that finds a server; no other event changes it |
| `ConnectionRuns.RunChooses` | src/connection.c:492-578 | over any run it is what the lookup of the run said |
| `ConnectionRuns.RequestWaits` | src/connection.c:530-561 | a first request that is looked up to a host name leaves the connection in RESOLVING, with the header wish and the ownership of the address as the lookup said |
| `ConnectionRuns.RunAborts` | src/connection.c:481-490 | the abort message of a run is that of the protocol with which some event of the run was handled; a second abort never replaces it |
| `ConnectionRuns.RunTraffic` | src/connection.c:255-280 | in a run the histories grow by exactly what recv handed over and what send accepted |
| `ConnectionRuns.NoStall` | src/connection.c:310-363 | in every run a C assert fails if and only if some event asks for a server address and gets one that is neither a host name nor a socket address; otherwise a closed socket is unwatched, an open one is watched for exactly the events its buffers allow, and something is awaited unless a DNS query is pending, which is so exactly in RESOLVING |
| `ConnectionRuns.FaultIsAssert` | src/connection.c:492-578 | from any state between callbacks, the fault flag is set in a run exactly by such an event, and by nothing else |
| `ConnectionRuns.RequestAsserts` | src/connection.c:574-577 | the first request of a connection, with such a lookup, fails the assert |
| `ConnectionRuns.ParserSeesClientBytes` | src/connection.c:434-447 | every text the request parser is shown in any run is an initial part of the client's own bytes, and the only fault of a run is the assert of resolve_server_address, so that every read is in bounds |
| `ConnectionRuns.SocketsClosedOnce` | src/connection.c:734-798 | a freed connection closed its client descriptor once, its server descriptor as often as it opened one (at most once), freed every lookup address it took, and has no active watcher |
| `ConnectionRuns.ShutdownCloses` | src/connection.c:168-176 | any live connection of any run that has not failed an assert can be shut down, which ends in CLOSED with the invariant kept |
| `ConnectionRuns.StatesAdvance` | src/connection.c:241-308 | every event keeps the state or moves it strictly up an acyclic order |
| `ConnectionRuns.DrainBeforeClose` | src/connection.c:255-295 | half-closed: the buffer of the surviving socket loses exactly what send accepts, and the connection closes only when that buffer is empty, when a recv or send that was called on that socket reported its end, or at shutdown |
| `ConnectionRuns.DrainBounded` | src/connection.c:268-280 | from a half-closed state at most as many successful sends follow as bytes are queued, in any run |
| `ConnectionRuns.AcceptSafe` | src/connection.c:102-163 | accepting establishes the invariant, with the whole header queued or none |
| `ConnectionRuns.HeaderLength` | src/connection.c:365-432 | the PROXY header is at most 116 bytes and no piece of it is empty, so every push succeeds |
| `ProxyHeader.HeaderRoundTrip` | src/connection.c:365-432 | an independent reader of the PROXY header recovers family, both addresses and both ports, and finds the payload right behind it |
| `ProxyHeader.ServerReadsPeer` | src/connection.c:717-726 | in every run that reached a server whose lookup wanted the header, what it was sent and what is queued reads as the client's address and then the client's bytes |
| `ProxyHeader.UnknownHeader` | src/connection.c:418-432 | the header of a peer of another family, byte by byte |
| `ProxyHeader.DecimalExamples` | src/connection.c:417-425 | ports are written in decimal, most significant digit first |
| `ConnectionProofs.StepSafe` | src/connection.c:241-308 | every callback that does not reach the assert of resolve_server_address keeps the invariant between callbacks; one that does stops in PARSED with the fault set and the streams exact |
| `ConnectionProofs.ConnectionCbSafe` | src/connection.c:241-308 | the same for connection_cb, including recv then send, parse, resolve and connect in one call |
| `ConnectionProofs.ResolvCbSafe` | src/connection.c:580-612 | resolv_cb keeps the invariant, for an answer and for a failure |
| `ConnectionProofs.CloseConnectionSafe` | src/connection.c:780-798 | close_connection meets its asserts from every live state and ends in CLOSED |
| `ConnectionProofs.ReactivateSafe` | src/connection.c:310-337 | a connection that can progress passes the asserts of reactivate_watchers and has its watchers set |
| `ConnectionProofs.PayloadIsClientInput` | src/connection.c:434-447 | whenever a request is parsed the client buffer starts at offset 0, coalescing is in bounds, and what follows the header is all client input |
| `ConnectionProofs.ParseKeepsCore` | src/connection.c:434-479 | parsing keeps the invariant; it leaves room to read more, a parsed request, or an abort message to flush |
| `ConnectionProofs.ConnectKeepsCore` | src/connection.c:621-729 | starting the server side, or failing to, keeps the streams exact: the header is dropped when the backend does not want it |
| `ConnectionProofs.CloseFlushedKeepsCore` | src/connection.c:291-295 | the close-after-flush step keeps the invariant and leaves data to flush in every half-closed state |
| `ConnectionProofs.AssertsExactly` | src/connection.c:734-778 | in which states the asserts of the two closing functions and of abort_connection fail |
| `ConnectionProofs.WatcherAssertsExactly` | src/connection.c:310-337 | when the asserts of reactivate_watchers fail: a closed socket is watched, or nothing is and no query is pending |
| `ConnectionProofs.ParseFaultExactly` | src/connection.c:434-447 | parsing reads outside the storage exactly when the queued bytes wrap round its end |
| `Protocols.TlsDecisionIsFinal` | src/connection.c:434-479 | whatever the TLS parser answered on the buffered bytes, other than "incomplete", is its answer on all the client sends in the run |
| `Protocols.HttpDecisionIsFinal` | src/connection.c:434-479 | the same for HTTP once the scan has decided on whole lines |
| `Protocols.TlsHostResolves` | src/listener.c:678-711 | any ClientHello for a valid host name, sent in one piece to a listener whose table matches a wildcard backend, leaves the connection waiting for that host, with the backend's header wish |
| `Protocols.TlsStarAsserts` | src/listener.c:678-711 | any ClientHello that names "*", sent in one piece to a listener whose table matches the backend "*:80", fails the assert, from accept on |
| `Protocols.AbortMessagesFit` | src/http.c:42-46 | both abort messages are nonempty and fit an empty buffer |
| `ServerLookup.OtherAddressExactly` | src/listener.c:619-727 | the lookup ends in an address that is neither a host name nor a socket address if and only if a wildcard backend matched and the name, or a pattern backend matched and its expansion, is a text of that kind |
| `ServerLookup.HostBackend` | src/listener.c:712-726 | a matched host name is returned with its own port, or as a copy with the listener's port if it has none, and with the backend's header wish |
| `ServerLookup.SocketBackend` | src/listener.c:712-726 | the same for a socket address; a Unix socket is copied |
| `ServerLookup.WildcardBackend` | src/listener.c:678-711 | a wildcard backend and a valid name that is no IPv4 text give the name in lower case as a host name, with the backend's or the listener's port, owned by the caller |
| `ServerLookup.PatternBackend` | src/listener.c:631-677 | a pattern backend gives the same for its text with every group filled in |
| `ServerLookup.ExpansionExactly` | src/listener.c:635-645 | a pattern has an expansion exactly if every group it refers to exists and the result is shorter than 1024 bytes |
| `ServerLookup.FallbackExactly` | src/listener.c:619-727 | the fallback is returned exactly when nothing matched, the name is missing, the pattern cannot be expanded, or the text is no address or a socket address; otherwise there is an address, with the backend's header wish |
| `ServerLookup.NoFallbackExactly` | src/listener.c:619-727 | without a fallback there is no address exactly in those cases |
| `ServerLookup.OtherExactly` | src/address.c:65-203 | a text parses to a wildcard or pattern if and only if, without the ports that are split off, it is "*", or contains a dollar sign and is no socket path |
| `ServerLookup.FromTextOther` | src/listener.c:642-677 | a new address made of a text has such a kind exactly when the text is of that kind, since setting the port keeps the kind and socket addresses are refused |
| `ServerLookup.StarAsserts` | src/listener.c:678-711 | the name "*" with the backend "*:80" fails the assert in a run from accept, whatever the fallback |
| `Connections.Connection.constructor` | src/connection.c:102-163 | the new object is the start of the model's runs, which satisfies the invariant |
| `Connections.Connection.InsertProxyV1Header` | src/connection.c:365-432 | pushes the pieces in order, counting what was stored, as the model does |
| `Connections.Connection.CloseClientSocket` | src/connection.c:734-758 | refines the model: cancels a pending query, closes, moves to CLOSED or CLIENT_CLOSED |
| `Connections.Connection.CloseServerSocket` | src/connection.c:763-778 | refines the model: closes, moves to CLOSED or SERVER_CLOSED |
| `Connections.Connection.CloseConnection` | src/connection.c:780-798 | refines the model from every live state |
| `Connections.Connection.Abort` | src/connection.c:481-490 | queues the abort message and moves to SERVER_CLOSED, as the model does |
| `Connections.Connection.ParseClientRequest` | src/connection.c:434-479 | coalesces, skips the header, parses, and branches as the model does; the region it reads is in bounds |
| `Connections.Connection.ResolveServerAddress` | src/connection.c:492-578 | refines the model for no address, a host name, a socket address, and the assert for any other kind |
| `Connections.Connection.InitiateServerConnect` | src/connection.c:621-729 | refines the model for success and for each kind of failure |
| `Connections.Connection.ReactivateWatcher` | src/connection.c:339-363 | the watcher ends up as the model says from what the two buffers hold |
| `Connections.Connection.ReactivateWatchers` | src/connection.c:310-337 | both watchers of the open sockets are set and both asserts hold |
| `Connections.Connection.Receive` | src/connection.c:255-267 | the receiving half of the callback refines the model |
| `Connections.Connection.Transmit` | src/connection.c:268-280 | the sending half of the callback refines the model |
| `Connections.Connection.ConnectionCb` | src/connection.c:241-308 | one callback on real ring buffers is one step of the model |
| `Connections.Connection.ResolvCb` | src/connection.c:580-612 | one resolver callback is one step of the model |
| `Connections.Connection.Handle` | src/connection.c:241-308 | any enabled event, handled in place, is the model's step, and keeps the invariant exactly when it does not reach the assert |
| `Connections.Connection.Dispatch` | src/connection.c:241-308 | a list of events handled in place ends in the model's run, so every theorem about runs holds of the object |
| `QueryRuns.NoLateCallback` | src/connection.c:530-612 | over every interleaving of socket events, answers, cancellation and shutdown: a query exists exactly while its connection is in RESOLVING, unless some event started a lookup for which neither family was both asked for and submitted; so none outlives a freed connection; NULL reaches resolv_cancel exactly when there was such an event and RESOLVING was left; the connection goes through a run of its own |
| `QueryRuns.LostIsNothingAsked` | src/resolv.c:155-203 | the handle of a run is NULL exactly when one of its events starts a lookup for which nothing is submitted |
| `QueryRuns.SystemAdvances` | src/connection.c:530-612 | the states of the connection never go back, whatever the resolver does; so RESOLVING is entered once |
| `QueryRuns.ConnectionRunsAlone` | src/connection.c:580-612 | whatever the resolver does, what the connection does is one of its runs, so the assumption that callbacks come only while a query is outstanding is met |
| `QueryRuns.AnswerFindsConnection` | src/connection.c:586-589 | an answer that arrives finds its connection in RESOLVING |
| `QueryRuns.NothingSubmittedFaults` | src/connection.c:744-747 | from accept: any request that is read in one piece and found to be for a host name, nothing submitted, and shutdown: NULL is passed to resolv_cancel |
| `QueryRuns.StepJoined` | src/connection.c:530-612 | every event keeps query and connection joined |
| `LookupLifetime.AddressAtAnswer` | src/connection.c:580-601 | from accept, any interleaving of reloads, accepts, closes, socket events and answers, a lookup that borrows an address of the listener's table or fallback, and again any interleaving: the listener exists, an outstanding query finds the connection waiting, and the address is still where it was if every event since the lookup spares it, and nowhere otherwise |
| `LookupLifetime.ReloadAndLookup` | src/config.c:287-307 | told before the reload: it frees a borrowed address exactly when it replaces the table of its backend, when that table does not survive, or when it matches the listener whose fallback it is; otherwise the owner still has it |
| `LookupLifetime.SameTableFrees` | src/table.c:180-188 | reading a file that has a table of the same name frees the backend a lookup points to |
| `LookupLifetime.AddressLost` | src/config.c:287-307 | from start-up with one listener and one table: accept, a lookup that borrows the backend's address, and the file read again; the query is outstanding and nothing has the address |
| `LookupLifetime.TableOfConnection` | src/listener.c:191-202 | the table of a connection's listener meets the condition to survive every reload that does not match the listener with a new one |
| `LookupLifetime.KeptExactly` | src/listener.c:106-161 | a listener is listed after a reload exactly when it ranks among as many of its address as the new configuration has |
| `LookupLifetime.StepBorrowed` | src/connection.c:530-561 | a connection borrows at most one address; each step keeps it if it spares it and frees it otherwise, and a freed one never comes back |
| `LookupLifetime.ProxyStepAndLookup` | src/listener.c:814-823 | the same for the events of the proxy: a reload by its condition, a close if it drops the last reference of the table, an accept never frees |
| `TableLifetime.TableSurvives` | src/table.c:149-190 | told before the reload: a table exists afterwards if and only if the removal loops leave it listed, or a listener with it either is not listed afterwards and has a connection, or is listed afterwards under a name that neither the file nor a remaining table has |
| `TableLifetime.BackendSurvives` | src/table.c:172-189 | a backend survives a reload exactly when its table survives and is not the running table of a name in the file; otherwise no table has it |
| `TableLifetime.DefinedExactly` | src/table.c:109-123 | a name is found after a reload if and only if the file or a table that the removal loops leave has it |
| `TableLifetime.CloseFreesTable` | src/listener.c:814-823 | closing a connection frees a table exactly when it drops the last reference of a listener that has the last reference of the table |
| `TableLifetime.AcceptsFreeNothing` | src/connection.c:102-163 | neither an accepted connection nor one that could not be set up frees a table |
| `BackendLifetime.FreedStays` | src/table.c:172-189 | a freed backend never comes back |
| `BackendLifetime.ReloadedContents` | src/table.c:149-190 | afterwards a table has its own contents, if it is not the target of a new one, or those of a new table, never another table's |
| `ListenerLifetime.ListedAfterReload` | src/listener.c:106-203 | the listeners listed after a reload are those of the file in order of address: the one at each place has the address, table name and settings of the file's listener at that place; its table is the one of that name, or the one it had if there is none; it has a socket exactly as before if it was there, and else exactly if the table was found and the socket could be made |
| `ListenerLifetime.UnlistedAfterReload` | src/listener.c:445-450 | a listener that exists and is not listed after a reload has a connection and keeps name, settings and table; if the reload took it off the list, its socket is closed |
| `ListenerLifetime.ReloadServesNewBackends` | src/config.c:287-307 | after a reload the listener at each place holds a live table with exactly the backends that the file defines first under the name the file gives it there |
| `Accepting.NeverAccepts` | src/listener.c:166-203 | a listener without a socket accepts no connection in any run that follows, whatever is reloaded |
| `Accepting.FailedListenerStays` | src/listener.c:493-610 | a listener whose socket could not be made, and the file read again when it could: one listener is listed and it has no socket |
| `Accepting.ReloadStaysShut` | src/listener.c:106-161 | a reload gives no socket to a listener that has none |
| `Bits.MaskIsModulo` | src/buffer.c:359-369 | masking with 2^k - 1 is taking the remainder by 2^k |
| `Bits.PowerOf2Test` | src/buffer.c:40-40 | the bit test accepts exactly the powers of two |
| `Bits.MaskIsWrap` | src/buffer.c:359-369 | for any accepted size the masked index is the index wrapped once round the ring |
| `Buffers.RegionsApart` | src/buffer.c:279-356 | regions for writing and for reading name distinct offsets, and writing touches no queued byte |
| `Buffers.AppendRing` | src/buffer.c:249-272 | bytes written round the ring from the tail on extend what is read from the head |
| `Buffers.DropRing` | src/buffer.c:364-369 | advancing the head drops exactly the oldest bytes |
| `Buffers.Buffer.constructor` | src/buffer.c:52-74 | an empty queue of the given power-of-two capacity |
| `Buffers.Buffer.SetupWriteIov` | src/buffer.c:279-319 | at most two nonempty regions in bounds that list the free ring positions in order, up to the limit, 0 meaning none |
| `Buffers.Buffer.SetupReadIov` | src/buffer.c:321-356 | at most two nonempty regions in bounds that list the positions of the oldest bytes in order |
| `Buffers.Buffer.AdvanceWritePosition` | src/buffer.c:358-362 | the queue becomes the first len + offset bytes of the ring from its head, that is, it grows by what was stored behind the tail |
| `Buffers.Buffer.AdvanceReadPosition` | src/buffer.c:364-369 | the queue loses its oldest bytes and nothing else |
| `Buffers.Buffer.Recv` | src/buffer.c:110-130 | received bytes are appended; end of stream and errors append nothing |
| `Buffers.Buffer.Send` | src/buffer.c:132-148 | a prefix of the queue is handed out and dropped; an error changes nothing |
| `Buffers.Buffer.Peek` | src/buffer.c:222-237 | a copy of the oldest bytes, up to the limit |
| `Buffers.Buffer.Pop` | src/buffer.c:239-247 | hands out and drops the oldest bytes, up to the limit |
| `Buffers.Buffer.Push` | src/buffer.c:249-272 | appends all n bytes if they fit and otherwise none; n = 0 fills the room, and reads past the source exactly when it has fewer bytes than there is room |
| `Buffers.ShortPushOverreads` | src/buffer.c:249-272 | a push with length 0 of fewer bytes than a new buffer holds reads past them |
| `Buffers.Buffer.Coalesce` | src/buffer.c:190-220 | keeps the queue; the region is in bounds if and only if head + len <= size, and is then the whole queue |
| `Buffers.WrappedQueue` | src/buffer.c:190-220 | three pushes and pops away from an empty buffer of four bytes, the region handed out leaves the storage |
| `Buffers.Buffer.Resize` | src/buffer.c:76-99 | the same bytes in the new capacity, or the error code and no change |
| `Buffers.ResizeExactly` | src/buffer.c:76-99 | a new capacity is taken if and only if it is a power of two of at most 2^30 that the queued bytes fit; otherwise nothing changes and the code says which of these failed |
| `Buffers.FilledFromEmpty` | src/buffer.c:110-116 | what comes into an empty buffer begins at offset 0 and does not wrap |
| `TlsProofs.RoundTrip` | src/tls.c:85-188 | for every ClientHello that fits its length fields, encoded per section 7.4.1.2 of RFC 5246, and whatever follows it, the parser returns what the message says |
| `TlsProofs.HostNameFound` | src/tls.c:190-255 | the first host_name of the first server_name extension is returned, wherever it sits and whatever precedes it |
| `TlsProofs.NoHostName` | src/tls.c:190-216 | an extension list without server_name gives -2 |
| `TlsProofs.Stable` | src/tls.c:96-133 | any answer other than -1 is the same on every extension of the bytes |
| `TlsProofs.IncompleteMeans` | src/tls.c:96-133 | -1 is answered exactly while the record header or the record is not complete |
| `TlsProofs.Sound` | src/tls.c:218-255 | a returned name lies in the record, behind name type 0 and its big-endian length |
| `TlsGrammar.RecordExactly` | src/tls.c:96-188 | on every complete record, well formed or not, the answer is exactly what the fields say: which field is cut off, that there are no extensions, or what the extension list says |
| `TlsGrammar.Prologue` | src/tls.c:96-133 | what is answered without looking into a record: too short, SSL 2.0, no handshake, version below 3, record not complete |
| `TlsGrammar.BodyHasReading` | src/tls.c:134-175 | every text behind the random is read in one way: session id, cipher suites, compression and the rest, or cut off in one of them |
| `TlsGrammar.BodyAnswer` | src/tls.c:134-188 | -5 exactly if cut off, else what the rest says |
| `TlsGrammar.ExtensionsHaveReading` | src/tls.c:190-216 | every text is a list of other extensions and then nothing, a server_name extension, or a torn one |
| `TlsGrammar.ExtensionsAnswer` | src/tls.c:190-216 | -2, what that extension says, or -5, accordingly; what follows the server_name extension is not looked at |
| `TlsGrammar.NamesHaveReading` | src/tls.c:218-255 | every text is a list of entries of other types and then nothing, a host name, or a torn entry; an empty entry that ends the list is torn |
| `TlsGrammar.NamesAnswer` | src/tls.c:218-255 | -2, that name, or -5, accordingly |
| `Outcomes.CutAtNul` | src/tls.c:236-245 | a name with a NUL is cut there and padded |
| `Tls.ParseTlsHeader` | src/tls.c:85-188 | the cursor loop computes the grammar's answer with every read in bounds |
| `Tls.ParseExtensions` | src/tls.c:190-216 | the loop computes the grammar's answer for an extension list |
| `Tls.ParseServerNameExtension` | src/tls.c:218-255 | the loop computes the grammar's answer for a server name list |
| `HttpProofs.CompleteRequest` | src/http.c:69-127 | for every complete header section the result is that of a line-by-line definition, in which a Host line begins with "host:" in any mixture of cases, and bytes after the blank line never matter |
| `HttpProofs.HostFound` | src/http.c:69-127 | the first later line that begins with "host:" in any mixture of cases gives its value without leading spaces and tabs and without one trailing colon-and-digits suffix |
| `HttpProofs.HostSpelled` | src/http.c:98-127 | the comparison accepts exactly H or h, O or o, S or s, T or t, and a colon |
| `HttpProofs.LineLengthIs` | src/http.c:146-151 | on any input the length of a line is the offset of the first byte that is a CR or has an LF behind it, and without one all bytes but the last |
| `HttpProofs.SkipLineIs` | src/http.c:129-144 | on any input the next line begins two bytes behind the first such offset, or the input ends there |
| `HttpProofs.StripSpec` | src/http.c:81-93 | a colon and digits at the end are removed |
| `HttpProofs.StripNothing` | src/http.c:81-93 | nothing is removed when no colon is followed by digits up to the end |
| `HttpProofs.TrimSpec` | src/http.c:108-127 | leading blanks are removed and nothing else |
| `HttpProofs.ParseIs` | src/http.c:69-153 | run with a cursor and a wrapping unsigned length, the parser reads outside the request if and only if it has fewer than two bytes, and otherwise gives the answer defined on suffixes |
| `HttpProofs.ScanInside` | src/http.c:98-153 | from two bytes on every read is inside and the length never wraps, because a line of nonzero length leaves two bytes for the next turn |
| `HttpProofs.ShortOverruns` | src/http.c:141-151 | on fewer than two bytes the length wraps and the next read is past the end |
| `HttpProofs.UnsignedSubtraction` | src/http.c:143-143 | the modelled subtraction is that of a 64-bit size_t |
| `HttpGrowth.FinalIffDecided` | src/http.c:98-153 | an answer other than "incomplete" holds for every continuation if and only if it was taken on lines that had ended |
| `HttpGrowth.CutHostLine` | src/http.c:98-127 | a Host line cut off by the end of input gives an answer that more bytes change |
| `HttpGrowth.CutAfterOneByte` | src/http.c:129-153 | one byte after a line end is taken for a blank line, and a Host line may still follow |
| `Http.ParseHttpHeader` | src/http.c:69-96 | on any input, the loops with the wrapping length compute the modelled result, a read outside included |
| `Http.GetHeader` | src/http.c:98-127 | on any input, the loop over lines computes the modelled scan |
| `Http.NextHeader` | src/http.c:129-153 | from any cursor, the two loops advance and measure as the model does, reading byte by byte in the order of the conditions |
| `Resolver.LifeCycle` | src/resolv.c:205-341 | over every interleaving of answers and cancellation: the client is called once if not cancelled and never otherwise, its data are freed once, and no completed handle is left to cancel |
| `Resolver.NothingSubmitted` | src/resolv.c:155-203 | a query is dead from the start exactly when no submission was made or succeeded; then its data are freed once, no event can follow and the client is never called |
| `Resolver.ResponsesReleased` | src/resolv.c:205-222 | stored answers of an ended query are all released if and only if it was not cancelled, or no answer with records arrived |
| `Resolver.CancelledAnswerLeaks` | src/resolv.c:205-222 | one A record, then cancellation: one answer stored, none released |
| `Resolver.StoresAnswers` | src/resolv.c:238-316 | a run stores something exactly when some answer has records |
| `Resolver.ChoiceIgnoresOrder` | src/resolv.c:343-369 | the choice over either order of answers is the first of the preferred family, else of the other, else none |
| `Resolver.AnswerIndependentOfArrival` | src/resolv.c:238-341 | in every mode and every uncancelled run the client gets that best address once, whichever answer came first |
| `Resolver.RunsExactly` | src/resolv.c:155-222 | the runs of a query are exactly these: each family that the mode asks for and that could be submitted is answered once, in either order, or what is left is cancelled |
| `Resolver.BothAnswered` | src/resolv.c:179-203 | in both "first" modes, with both submitted, for all answers and in both orders, the client is called once with the best address |
| `Resolver.OnlyA` | src/resolv.c:238-276 | when only the A query was asked, the client gets its first record, or none |
| `Resolver.OnlyAAAA` | src/resolv.c:278-316 | when only the AAAA query was asked, the same |
| `ResolvQueries.ResolvQuery.constructor` | src/resolv.c:155-203 | submits by mode, giving the model's starting query |
| `ResolvQueries.ResolvQuery.ResolvCancel` | src/resolv.c:205-222 | cancels what is pending and frees the data once, as the model does |
| `ResolvQueries.ResolvQuery.DnsQueryV4Cb` | src/resolv.c:238-276 | the copy loop and the join refine the model |
| `ResolvQueries.ResolvQuery.DnsQueryV6Cb` | src/resolv.c:278-316 | the copy loop and the join refine the model |
| `ResolvQueries.ResolvQuery.ProcessClientCallback` | src/resolv.c:321-341 | calls the client with the chosen address and releases the answers |
| `ResolvQueries.ResolvQuery.ChooseFamilyFirst` | src/resolv.c:343-361 | the scan finds the first answer of the family, else the first answer |
| `ResolvQueries.ResolvQuery.AllQueriesAreNull` | src/resolv.c:398-406 | true exactly when neither query is pending |
| `Pattern.ApplyPattern` | src/backend.c:145-182 | succeeds if and only if every referenced group exists and the expansion is shorter than the capacity; then writes the expansion and a terminator; never writes past the capacity |
| `Pattern.ExpandRendered` | src/backend.c:145-182 | for every list of literal pieces and group references, expanding its pattern text substitutes the groups, and fails exactly when one is missing |
| `Addresses.TotalOrder` | src/address.c:246-277 | address_compare is a total order, 0 only for equal type, data and port, with NULL included |
| `Addresses.CompareOrder` | src/address.c:246-277 | an address comes first exactly by its type (host name, socket address, wildcard, pattern), then by its bytes, a text before a longer one it begins, then by its port |
| `Addresses.CheckHostName` | src/address.c:492-525 | the label loop computes the recursive definition of a valid name |
| `Addresses.HostNameGrammar` | src/address.c:492-525 | a name is valid if and only if it is spelled by labels of 1 to 63 letters, digits, underscores or inner hyphens (given as byte ranges) joined by dots, at most 255 bytes, with an optional final dot |
| `Addresses.LowerInPlace` | src/address.c:194-196 | the loop lower-cases the array |
| `AddressProofs.RoundTrip` | src/address.c:65-203 | a parsed host name, wildcard or pattern, printed and parsed again, is itself, if and only if it is not "unix" with a port |
| `AddressProofs.RoundTripComparesEqual` | src/address.c:246-277 | and then compares equal |
| `AddressProofs.UnixDoesNotReturn` | src/address.c:93-99 | "UNIX" with any port parses to the host name "unix" with that port, and does not come back |
| `AddressProofs.BufferSuffices` | src/address.c:162-180 | a write leaves the local buffer exactly when the text reaches the bracket branch with its first closing bracket at index 263 or later; otherwise the call returns the specified address |
| `AddressProofs.LongBracketsOverflow` | src/address.c:164-172 | 262 letters in brackets are such a text |
| `AddressProofs.Origin` | src/address.c:65-203 | every parsed host name, wildcard or pattern comes from a text without port by setting a port of at most 65535 |
| `AddressProofs.ParsedWithPort` | src/address.c:403-432 | a text followed by a colon and a port parses as that text with the port set |
| `AddressProofs.HostNameParses` | src/address.c:182-200 | a valid name that is no IPv4 text parses to a host name in lower case |
| `AddressProofs.LowerCaseSpelled` | src/address.c:194-196 | lower case changes A to Z into a to z and nothing else |
| `AddressProofs.Ip4Parses` | src/address.c:153-160 | an IPv4 text parses to its socket address |
| `AddressProofs.Ip4WithPort` | src/address.c:108-126 | with a port behind it, to that socket address with the port |
| `AddressProofs.Ip6Parses` | src/address.c:72-84 | an IPv6 text, and the same in brackets, parse to its socket address |
| `AddressProofs.Ip6WithPort` | src/address.c:108-126 | in brackets with a port behind it, to that socket address with the port |
| `AddressProofs.UnclosedBracket` | src/address.c:162-180 | an IPv6 text, or part of one, behind an opening bracket that is not closed is no address |
| `AddressProofs.UnixParses` | src/address.c:86-105 | "unix:" and a path of fewer than 103 bytes parse to a socket address, a longer one to nothing |
| `ListenerMerge.MergeResult` | src/listener.c:106-161 | from any point of the walk the loop ends, completes the merged list, and keeps both lists sorted and every count exact, although it inserts into the list it walks |
| `ListenerMerge.MergeAddresses` | src/listener.c:106-161 | the merged list has exactly the addresses of the new configuration |
| `ListenerMerge.MatchedKept` | src/listener.c:106-161 | an existing listener is in the merged list if and only if it ranks, among the existing ones of its address, within the number the new configuration has of it |
| `ListenerMerge.WalkAdd` | src/listener.c:422-443 | add_listener inserts exactly where the walk stands and the walk goes on behind it |
| `ListenerMerge.WalkUpdate` | src/listener.c:166-203 | updating a matched listener keeps order and counts |
| `ListenerMerge.WalkRemove` | src/listener.c:445-450 | removing a running listener keeps order and counts |
| `TableReload.ReloadTablesResult` | src/table.c:149-190 | the new list is used up; every new name serves exactly the new backends, through the table object that already ran under that name |
| `TableReload.UsedTableStays` | src/table.c:149-190 | a running table whose name is in the new configuration is never dropped |
| `TableReload.ReloadDropsUnused` | src/table.c:149-190 | the running list ends up with only names of the new configuration if and only if, from the first used table on, no two neighbours are unused |
| `TableReload.UnusedGoneExactly` | src/table.c:153-170 | the same on the lists that the two removal loops work on |
| `TableReload.UnusedMaySurvive` | src/table.c:161-170 | three tables of which the first is used: the third survives |
| `TableReload.ReloadTablesCounted` | src/table.c:149-190 | every count is exact after reload_tables |
| `TableReload.NewBackendsUnique` | src/table.c:172-189 | with unique names, the backends a name gets are those of its one table in the new configuration |
| `ReloadServes.NameServesFile` | src/config.c:287-307 | after a reload every name the file defines looks up to a live table with exactly the backends of its first definition |
| `ReloadServes.InstallKeepsTables` | src/listener.c:106-161 | what follows reload_tables changes no lookup and no table's content |
| `ProxyRuns.CountsExact` | src/listener.c:802-829 | over every interleaving of accepts, closes and reloads from start-up: a listener's count is its list memberships plus connections, a table's is its list memberships plus holders, an object exists exactly while its count is positive, nothing underflows, and every connection reaches a live listener and table |
| `ProxyRuns.ReloadInAnyRun` | src/config.c:287-307 | a reload at any point of any run leaves the list sorted with exactly the new configuration's addresses |
| `ProxyRuns.ReloadInstalls` | src/config.c:287-307 | a reload keeps the invariant and the connections and installs exactly the new addresses |
| `ProxyRuns.ReloadKeepsMatched` | src/config.c:287-307 | a running listener keeps its place and identity in a reload if and only if it ranks, among the running ones of its address, within the number the new configuration has of it |
| `ProxyRuns.NoLeakAtShutdown` | src/config.c:268-285 | after any run the process can be shut down, which frees every listener and table, without a fault |
| `ProxyRuns.StepGood` | src/connection.c:897-907 | every event of the process keeps sorted lists and exact counts |
| `ProxyRuns.BootGood` | src/listener.c:91-104 | start-up establishes sorted lists and exact counts, with the configured addresses |
| `StartUp.BootListed` | src/listener.c:91-104 | after start-up the listeners are those of the file in order of address, each with its table name, settings and the table of that name, and with a socket exactly if the table was found and the socket could be made |
| `StartUp.BootServes` | src/table.c:86-123 | after start-up a name looks up to the backends of its last definition in the file, and to nothing if the file does not define it |
| `StartUp.SameFileServes` | src/config.c:287-307 | reading the same file again changes what a name serves exactly if its first and last definitions differ |
| `ProxyRuns.LoadListenersSorted` | src/config.c:379-398 | reading a configuration builds a sorted list with its addresses |
| `ProxyRefs.TableGetCounted` | src/table.c:232-236 | taking a reference keeps every count exact |
| `ProxyRefs.TablePutCounted` | src/table.c:221-230 | dropping a reference keeps every count exact and frees exactly at zero |
| `ProxyRefs.ListenerGetCounted` | src/listener.c:825-829 | taking a reference keeps every count exact |
| `ProxyRefs.ListenerPutCounted` | src/listener.c:814-823 | dropping a reference keeps every count exact, freeing at zero and then dropping the table |
| `ProxyModel.MissingIsFault` | src/listener.c:802-829 | using a listener or table that is not in the store, or dropping a reference at count 0, is a fault |
| `ProxyOps.UpdateCounted` | src/listener.c:166-203 | listener_update keeps every count exact |
| `ProxyOps.PutGetCommute` | src/listener.c:191-201 | putting the old table before getting the new one is safe, even when they are the same, because the new one is listed |
| `ProxyOps.InstallTableCounted` | src/table.c:172-189 | installing a new table keeps every count exact |
| `ProxyOps.MergeAddCounted` | src/listener.c:123-140 | the added case keeps every count exact |
| `ProxyOps.RemoveRunningCounted` | src/listener.c:445-450 | removing a listener keeps every count exact |
| `Proxies.Proxy.ReloadTables` | src/table.c:149-190 | the three loops, over sequences, refine the model |
| `Proxies.Proxy.DropUnusedFollowing` | src/table.c:161-170 | the second loop, over a sequence with an index, refines the model |
| `Proxies.Proxy.InstallNewTables` | src/table.c:172-189 | the third loop, over sequences, refines the model |
| `Proxies.Proxy.TableLookup` | src/table.c:109-123 | the scan finds the first table of that name |
| `Proxies.Proxy.TableRefPut` | src/table.c:221-230 | refines the model |
| `Proxies.Proxy.ListenerRefPut` | src/listener.c:814-823 | refines the model, the table of a freed listener included |
| `Proxies.Proxy.InitListener` | src/listener.c:493-610 | the table part refines the model |
| `Proxies.Proxy.ListenerUpdate` | src/listener.c:166-203 | moves name, settings and table into the existing listener, as the model does |
| `Proxies.Proxy.InsertPosition` | src/listener.c:422-443 | finds the place before the first larger address |
| `Proxies.Proxy.ListenersReload` | src/listener.c:106-161 | the merge loop, over sequences with two indices, ends with the model's merged world |
| `Proxies.Proxy.ReloadConfig` | src/config.c:287-307 | load, tables, listeners, free: in this order, as the model does, and lists stay sorted and counts exact |
| `Proxies.Proxy.AcceptConnection` | src/connection.c:102-109 | a connection takes a reference on its listener, and lists stay sorted and counts exact |
| `Proxies.Proxy.CloseConnection` | src/connection.c:897-907 | a freed connection drops its reference, and lists stay sorted and counts exact |
| `LinkedLists.MergeLists` | src/listener.c:106-161 | on nodes with next pointers, the walk that moves nodes into the list it walks, passes or unlinks them, ends with exactly the merged list |
| `LinkedLists.MoveNode` | src/listener.c:123-140 | a node leaves one list and enters the other where the walk stands; both stay well linked and apart |
| `LinkedLists.SList.AddSorted` | src/listener.c:422-443 | the node goes before the first larger address, splicing pointers only |
| `LinkedLists.SList.Remove` | src/listener.c:445-450 | the node is searched from the head and unlinked; the rest of the list is as it was |
| `LinkedLists.SList.HasName` | src/table.c:109-123 | the walk finds a table of that name exactly if the list has one |
| `LinkedLists.SList.DropUnusedFollowing` | src/table.c:161-170 | the second loop on nodes, with a lookup in the new list at each, leaves exactly the list of the model, with the skipped ones |
| `LinkedLists.ReloadNodes` | src/table.c:149-190 | the three loops on nodes, with their lookups in the new list, leave exactly the running list of the model's reload_tables and empty the new one |
| `TableReload.ReloadedList` | src/table.c:149-190 | the model's running list after reload_tables, from the two lists alone |

## Left out

- Sockets, libev, udns, pcre, `inet_pton`/`inet_ntop`, `strtod` and `malloc` are choices of the environment or functions with a small contract; allocation is assumed to succeed.
- Of accept_connection, the getsockname failure path and the NEW state are not modelled; a failed accept is an event of the reload model only.
- LinkedLists.MergeLists: is about the lists alone; counts, tables and settings are those of Proxies.Proxy.ListenersReload.
- Socket options, bind retries and the kinds of socket failure in init_listener and initiate_server_connect are one success-or-failure choice each.
- In RESOLVING the connection model alone assumes that resolv_query returned a handle; `QueryRuns` drops the assumption and says what happens without one.
- Only the resolver built with libudns is modelled; the other build rejects every query.
- Buffers.Buffer.Push: after a read past the source nothing is promised of the buffer.
- Buffers.Buffer.Recv: buffer_read and buffer_write, the same code over plain descriptors, are not modelled separately; the timestamps of the last transfer are left out.
- ProxyHeader.HeaderRoundTrip: assumes that inet_ntop writes no blanks.
- HttpProofs.CompleteRequest: is about header sections without stray CR, LF or NUL in a line; for all other input the method and the exact condition of HttpGrowth apply.
- AddressProofs.RoundTrip: does not cover socket addresses, whose text is made and read by the C library, and takes an ample buffer for printing.
- AddressProofs.BufferSuffices: after a write past the local buffer nothing is promised of new_address.
- LookupLifetime.AddressAtAnswer: follows one connection at a time, and takes the objects of a configuration that is read to be new; what a callback reads from a freed address is not modelled.
- TlsProofs.RoundTrip: the return codes for a NULL argument and for a failed allocation are not modelled.
- Whether table.use_proxy_header agrees with its backends across reloads: the stream theorems start from whether the header was inserted.
- A configuration that fails to parse half-way is modelled as no reload; freeing its parts repeats the steps already modelled.
- Size limits of `size_t` and of the byte counters: integers are unbounded.
- lookup_backend: which backend of a table matches, and with which groups, is a choice; from there on `ServerLookup` follows the code. The connection model takes any lookup outcome.
- ServerLookup.OtherAddressExactly: takes the fallback to be a host name or a socket address, the only kinds the configuration admits; a name that overruns the buffer of new_address has no outcome.
- StartUp.BootListed: init_listeners ends the process if a listener cannot be set up; the model goes on with that listener without a socket, which covers more.
- After a failed assert the process is gone: a connection has no further event.
- src/binder.c, src/sniproxy.c, src/logger.c, src/cfg_parser.c, src/cfg_tokenizer.c and all printing of configuration or connections: plumbing that would add only easy members.
