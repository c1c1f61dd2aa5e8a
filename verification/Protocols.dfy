/** The parsers as the connection uses them, and what their answers mean for a whole run. */
module Protocols {
  import opened Bits
  import opened ConnectionModel
  import opened ConnectionRuns
  import opened Options
  import Addresses
  import Outcomes
  import Tls
  import TlsProofs
  import Http
  import HttpProofs
  import HttpGrowth
  import ServerLookup

  /** The int that parse_tls_header returns. */
  function TlsCode(data: seq<byte>): int {
    match Tls.Parse(data)
    case Code(c) => c
    case Name(h) => |h|
  }

  const TLS_PROTOCOL: Protocol := Protocol(TlsCode, Tls.TLS_ALERT)

  /** Both abort messages are nonempty and fit an empty buffer, as abort_connection needs. */
  lemma AbortMessagesFit()
    ensures TLS_PROTOCOL.Valid() && 0 < |Http.HTTP_503| <= CONNECTION_BUFFER_SIZE
  {
  }

  /**
   * The name a connection was routed by stays the name of its request: whatever the TLS
   * parser answered on the bytes buffered so far, other than "incomplete", is its answer on
   * everything the client sends in the course of the run.
   */
  lemma TlsDecisionIsFinal(peer: Peer, wantsHeader: bool, es: seq<Event>, seen: seq<byte>)
    requires peer.Valid() && Feasible(Start(peer, wantsHeader), es)
    requires seen in Run(Start(peer, wantsHeader), es).h.payloads && Tls.Parse(seen) != Outcomes.INCOMPLETE
    ensures Tls.Parse(Supplied(es, Client)) == Tls.Parse(seen)
  {
    ParserSeesClientBytes(peer, wantsHeader, es);
    FinalOnExtension(seen, Supplied(es, Client));
  }

  lemma FinalOnExtension(seen: seq<byte>, all: seq<byte>)
    requires seen <= all && Tls.Parse(seen) != Outcomes.INCOMPLETE
    ensures Tls.Parse(all) == Tls.Parse(seen)
  {
    assert all == seen + all[|seen|..];
    TlsProofs.Stable(seen, all[|seen|..]);
  }

  /**
   * For HTTP the same holds from the moment the scan has decided on whole lines; earlier
   * answers are exactly those that more bytes can overturn (HttpGrowth.FinalIffDecided).
   */
  lemma HttpDecisionIsFinal(peer: Peer, wantsHeader: bool, es: seq<Event>, seen: seq<byte>)
    requires peer.Valid() && Feasible(Start(peer, wantsHeader), es)
    requires seen in Run(Start(peer, wantsHeader), es).h.payloads && |seen| >= 2 && HttpGrowth.Decided(seen)
    ensures Http.Parse(Supplied(es, Client)) == Http.Parse(seen)
  {
    ParserSeesClientBytes(peer, wantsHeader, es);
    HttpFinalOnExtension(seen, Supplied(es, Client));
  }

  lemma HttpFinalOnExtension(seen: seq<byte>, all: seq<byte>)
    requires seen <= all && |seen| >= 2 && HttpGrowth.Decided(seen)
    ensures Http.Parse(all) == Http.Parse(seen)
  {
    assert all == seen + all[|seen|..];
    HttpGrowth.DecidedIsFinal(seen, all[|seen|..]);
    HttpProofs.ParseIs(seen);
    HttpProofs.ParseIs(all);
  }

  /**
   * A ClientHello for a host, sent to a table with a wildcard backend: the connection waits
   * for the host's address, and the backend's wish for the PROXY header is remembered.
   */
  lemma TlsHostResolves(libc: Addresses.Libc, l: ServerLookup.Fallback, peer: Peer, h: TlsProofs.Hello,
                        host: seq<byte>, m: ServerLookup.Match, env: Env)
    requires libc.Ok() && peer.Valid() && m.Match? && m.address.kind.Wildcard? && m.address.data == []
    requires Addresses.ValidHostName(host) && libc.pton4(host).None? && host != [] && 0 !in host
    requires TlsProofs.Fits(h) && |TlsProofs.Encode(h)| <= CONNECTION_BUFFER_SIZE
    requires h.extensions.Present? && h.extensions.list == [TlsProofs.Sni([TlsProofs.ServerName(0, host)])]
    requires env.protocol == TLS_PROTOCOL && env.lookup == LookupOf(ServerLookup.LookupServer(libc, m, Some(host), l))
    ensures var start, es := Start(peer, false), [Request(TlsProofs.Encode(h), env)];
            && Feasible(start, es) && HeaderWanted(start, es) == Some(m.useProxyHeader)
            && Run(start, es).state.Resolving? && Run(start, es).query == Pending(true)
  {
    NamesHost(h, host);
    ServerLookup.WildcardBackend(libc, m.address.port, m.groups, m.useProxyHeader, host, l);
    RequestWaits(peer, TlsProofs.Encode(h), env);
  }

  lemma NamesHost(h: TlsProofs.Hello, host: seq<byte>)
    requires TlsProofs.Fits(h) && host != [] && 0 !in host
    requires h.extensions.Present? && h.extensions.list == [TlsProofs.Sni([TlsProofs.ServerName(0, host)])]
    ensures TLS_PROTOCOL.parse(TlsProofs.Encode(h)) == |host|
  {
    TlsProofs.HostNameFound(h, 0, 0, []);
    assert TlsProofs.Encode(h) + [] == TlsProofs.Encode(h);
  }

  /**
   * A ClientHello that names "*", sent to a table with the backend "*:80", ends the
   * process, whatever the listener's fallback.
   */
  lemma TlsStarAsserts(libc: Addresses.Libc, l: ServerLookup.Fallback, peer: Peer, h: TlsProofs.Hello, env: Env)
    requires libc.Ok() && l.Valid() && peer.Valid()
    requires TlsProofs.Fits(h) && |TlsProofs.Encode(h)| <= CONNECTION_BUFFER_SIZE
    requires h.extensions.Present? && h.extensions.list == [TlsProofs.Sni([TlsProofs.ServerName(0, Addresses.STAR)])]
    requires env.protocol == TLS_PROTOCOL
    requires env.lookup == LookupOf(ServerLookup.LookupServer(libc, ServerLookup.ANY_NAME, Some(Addresses.STAR), l))
    ensures var start, es := Start(peer, false), [Request(TlsProofs.Encode(h), env)];
            Feasible(start, es) && Run(start, es).h.fault
  {
    NamesHost(h, Addresses.STAR);
    ServerLookup.StarAsserts(libc, l, peer, TlsProofs.Encode(h), env);
  }

  function LookupOf(r: ServerLookup.Result): Lookup { if r.Found? then ServerLookup.AsLookup(r) else NoAddress }
}
