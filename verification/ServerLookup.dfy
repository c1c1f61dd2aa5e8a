/**
 * listener_lookup_server_address of listener.c: from what the table matched to the address
 * a connection goes to, and exactly when that is an address it cannot use.
 */
module ServerLookup {
  import opened Bits
  import opened Text
  import opened Options
  import opened Addresses
  import opened AddressProofs
  import opened ConnectionRuns
  import C = ConnectionModel
  import P = Pattern

  /** What the table has for a name: the address of the first backend that matches. */
  datatype Match = NoMatch | Match(address: Addr, groups: seq<seq<byte>>, useProxyHeader: bool)

  /** What a lookup uses of a listener; configuration admits no other fallback. */
  datatype Fallback = Fallback(port: nat, address: Option<Addr>, useProxyHeader: bool) {
    predicate Valid() { address.Some? ==> address.value.kind.SockAddr? || address.value.kind.HostName? }
  }

  /** A struct LookupResult, or new_address wrote past its buffer. */
  datatype Result =
    | Found(address: Option<Addr>, callerFrees: bool, useProxyHeader: bool)
    | Overflow

  function UseFallback(l: Fallback): Result { Found(l.address, false, l.useProxyHeader) }

  /** A Unix socket has no port, whatever was set. */
  function AddressPort(a: Addr): nat {
    if a.kind.SockAddr? && UNIX <= a.data then 0 else a.port
  }

  /** A new address out of a text the client had a part in; socket addresses are refused. */
  function FromText(libc: Libc, text: seq<byte>, m: Match, l: Fallback): Result
    requires m.Match?
  {
    match CallNewAddress(libc, text)
    case OutsideBuffer => Overflow
    case Returned(None) => UseFallback(l)
    case Returned(Some(a)) =>
      if a.kind.SockAddr? then UseFallback(l)
      else
        var port := if AddressPort(m.address) != 0 then AddressPort(m.address) else l.port;
        Found(Some(SetPort(libc, a, port)), true, m.useProxyHeader)
  }

  /** The text a pattern backend stands for, if it fits the buffer. */
  function Expansion(m: Match): Option<seq<byte>>
    requires m.Match?
  {
    if P.Fits(m.address.data, m.groups, P.MAX_EXPANSION) then P.Expand(m.address.data, m.groups) else None
  }

  /** listener_lookup_server_address; a request without a name has none here either. */
  function LookupServer(libc: Libc, m: Match, name: Option<seq<byte>>, l: Fallback): Result {
    if m.NoMatch? then UseFallback(l)
    else match m.address.kind
      case Pattern => if Expansion(m).None? then UseFallback(l) else FromText(libc, Expansion(m).value, m, l)
      case Wildcard => if name.None? then UseFallback(l) else FromText(libc, name.value, m, l)
      case _ =>
        if AddressPort(m.address) == 0 then Found(Some(SetPort(libc, m.address, l.port)), true, m.useProxyHeader)
        else Found(Some(m.address), false, m.useProxyHeader)
  }

  /** How resolve_server_address tells the results apart. */
  function AsLookup(r: Result): C.Lookup
    requires r.Found?
  {
    if r.address.None? then C.NoAddress
    else match r.address.value.kind
      case HostName => C.HostName(r.useProxyHeader, r.callerFrees)
      case SockAddr => C.SockAddr(r.useProxyHeader, r.callerFrees)
      case _ => C.OtherAddress
  }

  // ---------------------------------------------------------------- which address it is

  /** A host name backend comes back as it is, or as a copy with the listener's port. */
  lemma HostBackend(libc: Libc, host: seq<byte>, port: nat, groups: seq<seq<byte>>, proxy: bool,
                    name: Option<seq<byte>>, l: Fallback)
    ensures LookupServer(libc, Match(Addr(HostName, host, port), groups, proxy), name, l) ==
            Found(Some(Addr(HostName, host, if port == 0 then l.port else port)), port == 0, proxy)
  {
  }

  /** So does a socket address with a port; one without, or a Unix socket, is copied. */
  lemma SocketBackend(libc: Libc, sa: seq<byte>, port: nat, groups: seq<seq<byte>>, proxy: bool,
                      name: Option<seq<byte>>, l: Fallback)
    requires libc.Ok()
    ensures LookupServer(libc, Match(Addr(SockAddr, sa, port), groups, proxy), name, l) ==
            if UNIX <= sa then Found(Some(Addr(SockAddr, sa, l.port)), true, proxy)
            else if port == 0 then Found(Some(Addr(SockAddr, libc.withPort(sa, l.port), l.port)), true, proxy)
            else Found(Some(Addr(SockAddr, sa, port)), false, proxy)
  {
  }

  /** The text that a wildcard or pattern backend makes an address of. */
  function TextOf(m: Match, name: Option<seq<byte>>): Option<seq<byte>>
    requires m.Match?
  {
    if m.address.kind.Wildcard? then name else Expansion(m)
  }

  lemma HostText(libc: Libc, text: seq<byte>, m: Match, l: Fallback)
    requires libc.Ok() && m.Match? && !m.address.kind.SockAddr? && ValidHostName(text) && libc.pton4(text).None?
    ensures FromText(libc, text, m, l) ==
            Found(Some(Addr(HostName, LowerCase(text), if m.address.port == 0 then l.port else m.address.port)),
                  true, m.useProxyHeader)
  {
    HostNameParses(libc, text);
    HostBytes(text);
    NotWildcardNorPattern(text);
    BufferSuffices(libc, text);
  }

  /** A wildcard backend stands for the name asked for, in lower case. */
  lemma WildcardBackend(libc: Libc, port: nat, groups: seq<seq<byte>>, proxy: bool, name: seq<byte>, l: Fallback)
    requires libc.Ok() && ValidHostName(name) && libc.pton4(name).None?
    ensures LookupServer(libc, Match(Addr(Wildcard, [], port), groups, proxy), Some(name), l) ==
            Found(Some(Addr(HostName, LowerCase(name), if port == 0 then l.port else port)), true, proxy)
  {
    HostText(libc, name, Match(Addr(Wildcard, [], port), groups, proxy), l);
  }

  /** A pattern backend stands for its text with every group filled in. */
  lemma PatternBackend(libc: Libc, tokens: seq<P.Token>, port: nat, groups: seq<seq<byte>>, proxy: bool,
                       name: Option<seq<byte>>, l: Fallback)
    requires libc.Ok() && (forall i :: 0 <= i < |tokens| ==> P.ValidToken(tokens[i])) && P.Resolvable(tokens, groups)
    requires ValidHostName(P.Meaning(tokens, groups)) && libc.pton4(P.Meaning(tokens, groups)).None?
    ensures var host := LowerCase(P.Meaning(tokens, groups));
            LookupServer(libc, Match(Addr(Pattern, P.Render(tokens), port), groups, proxy), name, l) ==
            Found(Some(Addr(HostName, host, if port == 0 then l.port else port)), true, proxy)
  {
    var m := Match(Addr(Pattern, P.Render(tokens), port), groups, proxy);
    ExpansionExactly(tokens, port, groups, proxy);
    PatternUsesText(libc, m, name, l);
    HostText(libc, P.Meaning(tokens, groups), m, l);
  }

  lemma PatternUsesText(libc: Libc, m: Match, name: Option<seq<byte>>, l: Fallback)
    requires m.Match? && m.address.kind.Pattern? && Expansion(m).Some?
    ensures LookupServer(libc, m, name, l) == FromText(libc, Expansion(m).value, m, l)
  {
  }

  /** An expansion is there exactly if all groups are, and it is shorter than 1024 bytes. */
  lemma ExpansionExactly(tokens: seq<P.Token>, port: nat, groups: seq<seq<byte>>, proxy: bool)
    requires forall i :: 0 <= i < |tokens| ==> P.ValidToken(tokens[i])
    ensures Expansion(Match(Addr(Pattern, P.Render(tokens), port), groups, proxy)) ==
            if P.Resolvable(tokens, groups) && |P.Meaning(tokens, groups)| < 1024
            then Some(P.Meaning(tokens, groups)) else None
  {
    P.ExpandRendered(tokens, groups);
  }

  predicate NoHost(a: Option<Addr>) { a.None? || a.value.kind.SockAddr? }

  /**
   * Nothing matched; or a wildcard or pattern backend did, and there is no name, the
   * pattern cannot be expanded, or the text is no address or a socket address.
   */
  predicate FallsBack(libc: Libc, m: Match, name: Option<seq<byte>>) {
    || m.NoMatch?
    || (&& (m.address.kind.Wildcard? || m.address.kind.Pattern?)
        && (TextOf(m, name).None? || NoHost(NewAddress(libc, TextOf(m, name).value))))
  }

  /** The text overruns the buffer of new_address. */
  predicate Overruns(libc: Libc, m: Match, name: Option<seq<byte>>) {
    && m.Match? && (m.address.kind.Wildcard? || m.address.kind.Pattern?)
    && TextOf(m, name).Some? && CallNewAddress(libc, TextOf(m, name).value) == OutsideBuffer
  }

  /**
   * The fallback is used exactly then: a listener without one has no address to offer. In
   * all other cases there is an address, and whether the header is wanted is the backend's
   * to say.
   */
  lemma FallbackExactly(libc: Libc, m: Match, name: Option<seq<byte>>, l: Fallback)
    ensures var r := LookupServer(libc, m, name, l);
            && (r.Overflow? <==> Overruns(libc, m, name))
            && (!Overruns(libc, m, name) ==>
                  if FallsBack(libc, m, name) then r == Found(l.address, false, l.useProxyHeader)
                  else r.address.Some? && r.useProxyHeader == m.useProxyHeader)
  {
    if m.Match? && (m.address.kind.Wildcard? || m.address.kind.Pattern?) && TextOf(m, name).Some? {
      BufferSuffices(libc, TextOf(m, name).value);
    }
  }

  lemma NoFallbackExactly(libc: Libc, m: Match, name: Option<seq<byte>>, l: Fallback)
    requires l.address.None? && !Overruns(libc, m, name)
    ensures LookupServer(libc, m, name, l).address.None? <==> FallsBack(libc, m, name)
  {
    FallbackExactly(libc, m, name, l);
  }

  // ---------------------------------------------------------------- texts that parse to a wildcard or pattern

  predicate IsOther(a: Option<Addr>) { a.Some? && (a.value.kind.Wildcard? || a.value.kind.Pattern?) }

  /** The text without the ports that new_address splits off, one after the other. */
  function WithoutPorts(libc: Libc, s: seq<byte>): seq<byte>
    decreases |s|
  {
    if libc.pton6(s).Some? || UNIX <= s || !HasPort(libc, s) then s
    else WithoutPorts(libc, s[..LastIndexOf(s, COLON)])
  }

  /** What is left is "*" (42), or has a dollar sign (36) in it and is no socket path. */
  predicate NamesOther(libc: Libc, s: seq<byte>) {
    var base := WithoutPorts(libc, s);
    base == [42] || (36 in base && !(UNIX <= base))
  }

  /** A text none of whose end is a port. */
  lemma OtherWhole(libc: Libc, s: seq<byte>)
    requires libc.Ok() && (libc.pton6(s).Some? || UNIX <= s || !HasPort(libc, s))
    ensures IsOther(NewAddress(libc, s)) <==> s == STAR || (DOLLAR in s && !(UNIX <= s))
  {
    StarParses(libc);
  }

  lemma OtherPrefix(libc: Libc, s: seq<byte>)
    requires libc.pton6(s).None? && !(UNIX <= s) && HasPort(libc, s)
    ensures IsOther(NewAddress(libc, s)) <==> IsOther(NewAddress(libc, s[..LastIndexOf(s, COLON)]))
  {
  }

  lemma {:induction false} OtherExactly(libc: Libc, s: seq<byte>)
    requires libc.Ok()
    ensures IsOther(NewAddress(libc, s)) <==> NamesOther(libc, s)
    decreases |s|
  {
    if libc.pton6(s).None? && !(UNIX <= s) && HasPort(libc, s) {
      OtherExactly(libc, s[..LastIndexOf(s, COLON)]);
      OtherPrefix(libc, s);
      assert WithoutPorts(libc, s) == WithoutPorts(libc, s[..LastIndexOf(s, COLON)]);
    } else {
      assert WithoutPorts(libc, s) == s;
      OtherWhole(libc, s);
    }
  }

  lemma StarIsWhole(libc: Libc)
    requires libc.Ok()
    ensures Whole(libc, STAR) && DOLLAR !in STAR
  {
    assert COLON !in STAR;
    NoColon(libc, STAR);
  }

  lemma StarParses(libc: Libc)
    requires libc.Ok()
    ensures NewAddress(libc, STAR) == Some(Addr(Wildcard, [], 0)) && WithoutPorts(libc, STAR) == STAR
  {
    StarIsWhole(libc);
    assert WholeAddress(libc, STAR) == Some(Addr(Wildcard, [], 0));
  }

  lemma OtherCall(libc: Libc, s: seq<byte>)
    requires libc.Ok()
    ensures (CallNewAddress(libc, s).Returned? && IsOther(CallNewAddress(libc, s).address)) <==> NamesOther(libc, s)
  {
    BufferSuffices(libc, s);
    OtherExactly(libc, s);
    if CallNewAddress(libc, s) == OutsideBuffer { assert WithoutPorts(libc, s) == s; }
  }

  lemma FromTextOther(libc: Libc, text: seq<byte>, m: Match, l: Fallback)
    requires libc.Ok() && l.Valid() && m.Match?
    ensures var r := FromText(libc, text, m, l);
            r.Found? && AsLookup(r) == C.OtherAddress <==> NamesOther(libc, text)
  {
    OtherCall(libc, text);
  }

  /**
   * A lookup ends in an address that is neither a host name nor a socket address exactly
   * when a wildcard or pattern backend matched, and the name, or the expansion, is a text
   * that without its ports is "*" or has a dollar sign in it.
   */
  lemma OtherAddressExactly(libc: Libc, m: Match, name: Option<seq<byte>>, l: Fallback)
    requires libc.Ok() && l.Valid()
    ensures var r := LookupServer(libc, m, name, l);
            r.Found? && AsLookup(r) == C.OtherAddress <==>
            && m.Match?
            && (|| (m.address.kind.Wildcard? && name.Some? && NamesOther(libc, name.value))
                || (m.address.kind.Pattern? && Expansion(m).Some? && NamesOther(libc, Expansion(m).value)))
  {
    if m.Match? {
      if m.address.kind.Wildcard? && name.Some? { FromTextOther(libc, name.value, m, l); }
      if m.address.kind.Pattern? && Expansion(m).Some? { FromTextOther(libc, Expansion(m).value, m, l); }
    }
  }

  /** The backend "*:80", as in a table that sends every name to itself. */
  const ANY_NAME: Match := Match(Addr(Wildcard, [], 80), [[]], false)

  /** A client that asks such a table for the name "*" ends the process. */
  lemma StarAsserts(libc: Libc, l: Fallback, peer: C.Peer, bytes: seq<byte>, env: C.Env)
    requires libc.Ok() && l.Valid() && peer.Valid() && Acceptable(bytes, env)
    requires LookupServer(libc, ANY_NAME, Some(STAR), l).Found? ==>
               env.lookup == AsLookup(LookupServer(libc, ANY_NAME, Some(STAR), l))
    ensures Feasible(Start(peer, false), [Request(bytes, env)])
    ensures Run(Start(peer, false), [Request(bytes, env)]).h.fault
  {
    StarParses(libc);
    OtherAddressExactly(libc, ANY_NAME, Some(STAR), l);
    RequestAsserts(peer, bytes, env);
  }
}
