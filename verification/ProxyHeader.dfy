/** The PROXY protocol header as the server behind the proxy reads it (version 1, text form). */
module ProxyHeader {
  import opened Bits
  import opened Options
  import opened Text
  import opened ConnectionModel
  import opened ConnectionRuns

  const SPACE: byte := 32

  /** What precedes the first stop byte, and what follows it. */
  function Token(s: seq<byte>, stop: byte): Option<(seq<byte>, seq<byte>)> {
    if s == [] then None
    else if s[0] == stop then Some(([], s[1..]))
    else
      match Token(s[1..], stop)
      case None => None
      case Some((word, rest)) => Some(([s[0]] + word, rest))
  }

  lemma {:induction false} TokenOf(word: seq<byte>, stop: byte, rest: seq<byte>)
    requires stop !in word
    ensures Token(word + ([stop] + rest), stop) == Some((word, rest))
  {
    var s := word + ([stop] + rest);
    if word == [] {
      assert s == [stop] + rest && s[1..] == rest;
    } else {
      assert s[1..] == word[1..] + ([stop] + rest);
      TokenOf(word[1..], stop, rest);
      assert [s[0]] + word[1..] == word;
    }
  }

  function Port(s: seq<byte>): Option<nat> {
    if s != [] && AllDigits(s) then Some(Number(s)) else None
  }

  /** Four words, the last one ended by CR LF. */
  function ReadAddresses(s: seq<byte>, v4: bool): Option<(Peer, seq<byte>)> {
    match Token(s, SPACE)
    case None => None
    case Some((source, s1)) =>
      match Token(s1, SPACE)
      case None => None
      case Some((local, s2)) => ReadPorts(s2, v4, source, local)
  }

  function ReadPorts(s: seq<byte>, v4: bool, source: seq<byte>, local: seq<byte>): Option<(Peer, seq<byte>)> {
    match Token(s, SPACE)
    case None => None
    case Some((sourcePort, s1)) =>
      match Token(s1, CR)
      case None => None
      case Some((localPort, s2)) =>
        if s2 == [] || s2[0] != LF || Port(sourcePort).None? || Port(localPort).None? then None
        else
          var a, b := Port(sourcePort).value, Port(localPort).value;
          Some((if v4 then V4(source, local, a, b) else V6(source, local, a, b), s2[1..]))
  }

  /** Reads a header off the front of a stream. */
  function ReadHeader(s: seq<byte>): Option<(Peer, seq<byte>)> {
    if !(Ascii("PROXY ") <= s) then None
    else ReadFamily(s[6..])
  }

  function ReadFamily(s: seq<byte>): Option<(Peer, seq<byte>)> {
    if Ascii("UNKNOWN\r\n") <= s then Some((OtherFamily, s[9..]))
    else if Ascii("TCP4 ") <= s then ReadAddresses(s[5..], true)
    else if Ascii("TCP6 ") <= s then ReadAddresses(s[5..], false)
    else None
  }

  /** inet_ntop writes no blanks. */
  predicate NoBlanks(p: Peer) {
    !p.OtherFamily? ==> SPACE !in p.source && SPACE !in p.local
  }

  function PortText(p: Peer, rest: seq<byte>): seq<byte>
    requires !p.OtherFamily?
  {
    Decimal(p.sourcePort) + ([SPACE] + (Decimal(p.localPort) + ([CR] + ([LF] + rest))))
  }

  lemma PortsRead(p: Peer, rest: seq<byte>)
    requires !p.OtherFamily?
    ensures ReadPorts(PortText(p, rest), p.V4?, p.source, p.local) == Some((p, rest))
  {
    TokenOf(Decimal(p.sourcePort), SPACE, Decimal(p.localPort) + ([CR] + ([LF] + rest)));
    TokenOf(Decimal(p.localPort), CR, [LF] + rest);
    NumberOfDecimal(p.sourcePort);
    NumberOfDecimal(p.localPort);
  }

  lemma AddressesRead(p: Peer, rest: seq<byte>)
    requires !p.OtherFamily? && NoBlanks(p)
    ensures ReadAddresses(p.source + ([SPACE] + (p.local + ([SPACE] + PortText(p, rest)))), p.V4?) == Some((p, rest))
  {
    TokenOf(p.source, SPACE, p.local + ([SPACE] + PortText(p, rest)));
    TokenOf(p.local, SPACE, PortText(p, rest));
    PortsRead(p, rest);
  }

  lemma FamilyRead(p: Peer, s: seq<byte>)
    requires !p.OtherFamily?
    ensures ReadFamily(Ascii(if p.V4? then "TCP4 " else "TCP6 ") + s) == ReadAddresses(s, p.V4?)
  {
    var family := Ascii(if p.V4? then "TCP4 " else "TCP6 ");
    var all := family + s;
    assert family[0] == 84 && Ascii("UNKNOWN\r\n")[0] == 85 && all[0] == 84;
    assert family[3] == (if p.V4? then 52 else 54) && all[3] == family[3] && Ascii("TCP4 ")[3] == 52;
    assert family <= all && all[5..] == s;
  }

  lemma UnknownRead(rest: seq<byte>)
    ensures ReadFamily(Ascii("UNKNOWN\r\n") + rest) == Some((OtherFamily, rest))
  {
    var all := Ascii("UNKNOWN\r\n") + rest;
    assert Ascii("UNKNOWN\r\n") <= all && all[9..] == rest;
  }

  lemma ConcatCons(head: seq<byte>, parts: seq<seq<byte>>, rest: seq<byte>)
    ensures Concat([head] + parts) + rest == head + (Concat(parts) + rest)
  {
    assert ([head] + parts)[1..] == parts;
  }

  /** The pieces after "PROXY ", followed by whatever comes next, as one text. */
  lemma PartsSpelled(p: Peer, rest: seq<byte>)
    requires !p.OtherFamily?
    ensures Concat(HeaderParts(p)) + rest ==
            Ascii("PROXY ") + (Ascii(if p.V4? then "TCP4 " else "TCP6 ") +
            (p.source + ([SPACE] + (p.local + ([SPACE] + PortText(p, rest))))))
  {
    var family := Ascii(if p.V4? then "TCP4 " else "TCP6 ");
    var space := Ascii(" ");
    var a, b, end := space + Decimal(p.sourcePort), space + Decimal(p.localPort), Ascii("\r\n");
    assert space == [SPACE] && end == [CR, LF];
    assert HeaderParts(p) ==
           [Ascii("PROXY ")] + ([family] + ([p.source] + ([space] + ([p.local] + ([a] + ([b] + ([end] + [])))))));
    ConcatCons(end, [], rest);
    ConcatCons(b, [end] + [], rest);
    ConcatCons(a, [b] + ([end] + []), rest);
    ConcatCons(p.local, [a] + ([b] + ([end] + [])), rest);
    ConcatCons(space, [p.local] + ([a] + ([b] + ([end] + []))), rest);
    ConcatCons(p.source, [space] + ([p.local] + ([a] + ([b] + ([end] + [])))), rest);
    ConcatCons(family, [p.source] + ([space] + ([p.local] + ([a] + ([b] + ([end] + []))))), rest);
    ConcatCons(Ascii("PROXY "), [family] + ([p.source] + ([space] + ([p.local] + ([a] + ([b] + ([end] + [])))))), rest);
    PortsSpelled(p, a, b, end, rest);
  }

  lemma PortsSpelled(p: Peer, a: seq<byte>, b: seq<byte>, end: seq<byte>, rest: seq<byte>)
    requires !p.OtherFamily?
    requires a == [SPACE] + Decimal(p.sourcePort) && b == [SPACE] + Decimal(p.localPort) && end == [CR, LF]
    ensures a + (b + (end + (Concat([]) + rest))) == [SPACE] + PortText(p, rest)
  {
    assert Concat([]) + rest == rest;
    assert end + rest == [CR] + ([LF] + rest);
    assert b + (end + rest) == [SPACE] + (Decimal(p.localPort) + (end + rest));
  }

  /** The header round trip: a reader recovers the peer and finds the payload right behind. */
  lemma HeaderRoundTrip(p: Peer, rest: seq<byte>)
    requires NoBlanks(p)
    ensures ReadHeader(Concat(HeaderParts(p)) + rest) == Some((p, rest))
  {
    var proxy := Ascii("PROXY ");
    if p.OtherFamily? {
      assert Ascii("UNKNOWN") + Ascii("\r\n") == Ascii("UNKNOWN\r\n");
      var unknown, end := Ascii("UNKNOWN"), Ascii("\r\n");
      assert HeaderParts(p) == [proxy] + ([unknown] + ([end] + []));
      ConcatCons(end, [], rest);
      ConcatCons(unknown, [end] + [], rest);
      ConcatCons(proxy, [unknown] + ([end] + []), rest);
      assert unknown + (end + (Concat([]) + rest)) == Ascii("UNKNOWN\r\n") + rest;
      AfterProxy(Ascii("UNKNOWN\r\n") + rest);
      UnknownRead(rest);
    } else {
      var s := p.source + ([SPACE] + (p.local + ([SPACE] + PortText(p, rest))));
      PartsSpelled(p, rest);
      AfterProxy(Ascii(if p.V4? then "TCP4 " else "TCP6 ") + s);
      FamilyRead(p, s);
      AddressesRead(p, rest);
    }
  }

  lemma AfterProxy(s: seq<byte>)
    ensures ReadHeader(Ascii("PROXY ") + s) == ReadFamily(s)
  {
    var all := Ascii("PROXY ") + s;
    assert Ascii("PROXY ") <= all && all[6..] == s;
  }

  /**
   * In every run that reached a backend which wants the header, what the server was sent
   * and what is still queued for it reads as the client's address and then its bytes.
   */
  lemma ServerReadsPeer(peer: Peer, es: seq<Event>)
    requires peer.Valid() && NoBlanks(peer) && Feasible(Start(peer, true), es)
    requires Run(Start(peer, true), es).h.connected && HeaderWanted(Start(peer, true), es) == Some(true)
    ensures var c := Run(Start(peer, true), es);
            ReadHeader(c.t.serverOut + c.client.bytes) == Some((peer, Supplied(es, Client)))
  {
    StreamExactness(peer, true, es);
    HeaderRoundTrip(peer, Supplied(es, Client));
  }

  /** The shortest header, byte by byte: "PROXY UNKNOWN" and CR LF. */
  lemma UnknownHeader()
    ensures Concat(HeaderParts(OtherFamily)) == [80, 82, 79, 88, 89, 32, 85, 78, 75, 78, 79, 87, 78, 13, 10]
  {
    var proxy, unknown, end := Ascii("PROXY "), Ascii("UNKNOWN"), Ascii("\r\n");
    assert proxy == [80, 82, 79, 88, 89, 32];
    assert unknown == [85, 78, 75, 78, 79, 87, 78];
    assert end == [13, 10];
    var parts: seq<seq<byte>> := HeaderParts(OtherFamily);
    assert parts == [proxy, unknown, end] && parts[1..] == [unknown, end] && parts[1..][1..] == [end];
    assert |parts[1..][1..][1..]| == 0;
  }

  /** Ports are written in decimal, most significant digit first. */
  lemma DecimalExamples()
    ensures Decimal(443) == [52, 52, 51] && Decimal(56324) == [53, 54, 51, 50, 52]
  {
    assert Decimal(44) == [52, 52];
    assert Decimal(56) == [53, 54];
    assert Decimal(563) == [53, 54, 51];
    assert Decimal(5632) == [53, 54, 51, 50];
  }
}
