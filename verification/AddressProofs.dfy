/** Printing an address and parsing it back. */
module AddressProofs {
  import opened Bits
  import opened Text
  import opened Options
  import opened Addresses

  /** "unix", the one host name whose printed form with a port is a Unix socket path. */
  const UNIX_NAME: seq<byte> := [117, 110, 105, 120]

  // ---------------------------------------------------------------- bytes of host names

  lemma {:induction false} HostBytes(s: seq<byte>)
    requires LabelsOk(s)
    ensures forall i :: 0 <= i < |s| ==> LabelByte(s[i]) || s[i] == DOT
  {
    if s != [] {
      var n := IndexOf(s, DOT);
      if n < |s| {
        HostBytes(s[n + 1..]);
        assert s == s[..n] + [DOT] + s[n + 1..];
      } else {
        assert s[..n] == s;
      }
    }
  }

  lemma {:induction false} IndexOfLower(s: seq<byte>)
    ensures IndexOf(LowerCase(s), DOT) == IndexOf(s, DOT)
  {
    if s != [] && s[0] != DOT {
      IndexOfLower(s[1..]);
      assert LowerCase(s)[1..] == LowerCase(s[1..]);
    }
  }

  lemma LowerLabel(l: seq<byte>)
    requires ValidLabel(l)
    ensures ValidLabel(LowerCase(l))
  {
    forall i | 0 <= i < |l|
      ensures LabelByte(LowerCase(l)[i])
    {
      assert LabelByte(l[i]);
    }
  }

  lemma {:induction false} LowerKeepsLabels(s: seq<byte>)
    requires LabelsOk(s)
    ensures LabelsOk(LowerCase(s))
  {
    if s != [] {
      var n := IndexOf(s, DOT);
      var t := LowerCase(s);
      IndexOfLower(s);
      LowerLabel(s[..n]);
      assert t[..n] == LowerCase(s[..n]);
      if n < |s| {
        LowerKeepsLabels(s[n + 1..]);
        assert t[n + 1..] == LowerCase(s[n + 1..]);
      }
    }
  }

  lemma LowerKeepsValid(s: seq<byte>)
    requires ValidHostName(s)
    ensures ValidHostName(LowerCase(s)) && LowerCase(LowerCase(s)) == LowerCase(s)
  {
    LowerKeepsLabels(s);
  }

  /** Text of digits and dots has no upper case form. */
  lemma DigitsAreLower(s: seq<byte>)
    requires forall i :: 0 <= i < |s| ==> IsDigit(LowerCase(s)[i]) || LowerCase(s)[i] == DOT
    ensures LowerCase(s) == s
  {
    forall i | 0 <= i < |s|
      ensures LowerCase(s)[i] == s[i]
    {
      assert IsDigit(LowerCase(s)[i]) || LowerCase(s)[i] == DOT;
    }
  }

  // ---------------------------------------------------------------- the local buffer

  /** Text that no branch before the one for brackets takes. */
  predicate ReachesBrackets(libc: Libc, s: seq<byte>) {
    && libc.pton6(s).None? && !(UNIX <= s) && !HasPort(libc, s)
    && DOLLAR !in s && s != STAR && libc.pton4(s).None?
  }

  /**
   * A write leaves ip_buf exactly when the text reaches the bracket branch, begins with a
   * bracket, and has its first closing one at index 263 or later; a text split
   * off before a port is too short for that. Otherwise the call returns NewAddress.
   */
  lemma {:induction false} BufferSuffices(libc: Libc, s: seq<byte>)
    ensures CallNewAddress(libc, s) == OutsideBuffer <==>
            && ReachesBrackets(libc, s)
            && s != [] && s[0] == OPEN && 263 <= IndexOf(s, CLOSE) < |s|
    ensures CallNewAddress(libc, s) != OutsideBuffer ==> CallNewAddress(libc, s) == Returned(NewAddress(libc, s))
    decreases |s|
  {
    if libc.pton6(s).None? && !(UNIX <= s) && HasPort(libc, s) {
      BufferSuffices(libc, s[..LastIndexOf(s, COLON)]);
    }
  }

  /** A bracket, 262 letters, a bracket. */
  const LONG_BRACKETS: seq<byte> := [91] + seq(262, _ => 120) + [93]

  lemma LongBracketsOverflow(libc: Libc)
    requires libc.Ok()
    ensures CallNewAddress(libc, LONG_BRACKETS) == OutsideBuffer
  {
    var s := LONG_BRACKETS;
    assert forall i :: 0 < i < |s| - 1 ==> s[i] == 120;
    assert s[0] == OPEN && s[|s| - 1] == CLOSE;
    assert COLON !in s && DOLLAR !in s;
    NoColon(libc, s);
    assert IndexOf(s, CLOSE) == |s| - 1;
    BufferSuffices(libc, s);
  }

  // ---------------------------------------------------------------- where an address came from

  /** Text that is parsed without splitting off a port. */
  predicate Whole(libc: Libc, s: seq<byte>) {
    libc.pton6(s).None? && !(UNIX <= s) && !HasPort(libc, s)
  }

  /** Every parsed address that is not a socket address is some whole text, plus a port. */
  lemma {:induction false} Origin(libc: Libc, s: seq<byte>) returns (base: seq<byte>)
    requires NewAddress(libc, s).Some? && !NewAddress(libc, s).value.kind.SockAddr?
    ensures var a := NewAddress(libc, s).value;
            && Whole(libc, base) && NewAddress(libc, base) == Some(a.(port := 0))
            && a.port <= 65535 && |base| <= |s| && (a.port != 0 ==> |base| < ADDRESS_BUFFER_SIZE)
    decreases |s|
  {
    if HasPort(libc, s) {
      var p := LastIndexOf(s, COLON);
      base := Origin(libc, s[..p]);
    } else {
      base := s;
    }
  }

  /** A valid name that is not an IPv4 address is taken whole, as a host name. */
  lemma HostNameParses(libc: Libc, s: seq<byte>)
    requires libc.Ok() && ValidHostName(s) && libc.pton4(s).None?
    ensures NewAddress(libc, s) == Some(Addr(HostName, LowerCase(s), 0)) && Whole(libc, s) && COLON !in s
  {
    HostBytes(s);
    NotWildcardNorPattern(s);
    NoColon(libc, s);
    assert Bracketed(s) == [];
    NoColon(libc, []);
  }

  /** A host name is parsed back from its stored form. */
  lemma HostNameStable(libc: Libc, base: seq<byte>, d: seq<byte>)
    requires libc.Ok() && Whole(libc, base) && NewAddress(libc, base) == Some(Addr(HostName, d, 0))
    ensures NewAddress(libc, d) == Some(Addr(HostName, d, 0)) && COLON !in d
  {
    WholeHost(libc, base, d);
    LowerKeepsValid(base);
    NotIp4Either(libc, base);
    HostNameParses(libc, d);
  }

  lemma WholeHost(libc: Libc, base: seq<byte>, d: seq<byte>)
    requires Whole(libc, base) && NewAddress(libc, base) == Some(Addr(HostName, d, 0))
    ensures ValidHostName(base) && d == LowerCase(base) && libc.pton4(base).None?
  {
    assert WholeAddress(libc, base) == Some(Addr(HostName, d, 0));
  }

  lemma NotIp4Either(libc: Libc, base: seq<byte>)
    requires libc.Ok() && libc.pton4(base).None?
    ensures libc.pton4(LowerCase(base)).None?
  {
    if libc.pton4(LowerCase(base)).Some? {
      DigitsAreLower(base);
      assert false;
    }
  }

  lemma NotWildcardNorPattern(d: seq<byte>)
    requires d != [] && forall i :: 0 <= i < |d| ==> LabelByte(d[i]) || d[i] == DOT
    ensures DOLLAR !in d && COLON !in d && d != STAR && d[0] != OPEN
  {
    assert STAR[0] == 42 && (LabelByte(d[0]) || d[0] == DOT);
  }

  lemma NoColon(libc: Libc, d: seq<byte>)
    requires libc.Ok() && COLON !in d
    ensures libc.pton6(d).None? && !(UNIX <= d) && !HasPort(libc, d)
  {
    var i := LastIndexOf(d, COLON);
    assert i == -1;
    assert UNIX[4] == COLON;
  }

  // ---------------------------------------------------------------- adding a port

  lemma PortIsLast(d: seq<byte>, digits: seq<byte>)
    requires AllDigits(digits)
    ensures LastIndexOf(d + [COLON] + digits, COLON) == |d|
    ensures COLON !in d ==> IndexOf(d + [COLON] + digits, COLON) == |d|
  {
    var t := d + [COLON] + digits;
    assert t[|d|] == COLON;
    forall k | |d| < k < |t|
      ensures t[k] != COLON
    {
      assert t[k] == digits[k - |d| - 1] && IsDigit(digits[k - |d| - 1]);
    }
    assert forall k :: 0 <= k < |d| ==> t[k] == d[k];
  }

  lemma NotUnix(d: seq<byte>, rest: seq<byte>)
    requires !(UNIX <= d) && d != UNIX_NAME
    ensures !(UNIX <= d + [COLON] + rest)
  {
    var t := d + [COLON] + rest;
    if |d| >= 5 {
      assert t[..5] == d[..5];
    } else if |d| == 4 {
      assert t[..4] == d && UNIX[..4] == UNIX_NAME;
    } else {
      assert t[|d|] == COLON && UNIX[|d|] != COLON;
    }
  }

  lemma ParsedWithPort(libc: Libc, d: seq<byte>, port: nat)
    requires libc.Ok() && Whole(libc, d) && |d| < ADDRESS_BUFFER_SIZE && 0 < port <= 65535
    requires (COLON !in d || DOLLAR in d) && d != UNIX_NAME
    ensures NewAddress(libc, d + [COLON] + Decimal(port)) ==
            match NewAddress(libc, d) case None => None case Some(a) => Some(SetPort(libc, a, port))
  {
    var t := d + [COLON] + Decimal(port);
    PortIsLast(d, Decimal(port));
    NotUnix(d, Decimal(port));
    assert t[|d| + 1..] == Decimal(port) && t[..|d|] == d;
    assert libc.pton6(t).None? by {
      if DOLLAR in d { assert DOLLAR in t; }
    }
    assert HasPort(libc, t);
  }

  /** What an address is printed from, before the port. */
  function Stem(a: Addr): seq<byte> { if a.kind.Wildcard? then STAR else a.data }

  lemma WholeKinds(libc: Libc, base: seq<byte>, a: Addr)
    requires Whole(libc, base) && NewAddress(libc, base) == Some(a) && !a.kind.SockAddr?
    ensures a.port == 0
    ensures a.kind.Wildcard? ==> base == STAR
    ensures a.kind.Pattern? ==> base == a.data && DOLLAR in base
  {
  }

  /** The printed stem is itself whole text for the address without its port. */
  lemma StemIsWhole(libc: Libc, base: seq<byte>, a: Addr)
    requires libc.Ok() && Whole(libc, base) && NewAddress(libc, base) == Some(a) && !a.kind.SockAddr?
    ensures var d := Stem(a);
            && NewAddress(libc, d) == Some(a) && Whole(libc, d) && |d| == |base|
            && (if a.kind.Pattern? then DOLLAR in d else COLON !in d)
  {
    WholeKinds(libc, base, a);
    if a.kind.HostName? {
      HostNameStable(libc, base, a.data);
      NoColon(libc, a.data);
    }
  }

  lemma StemParses(libc: Libc, s: seq<byte>, a: Addr)
    requires libc.Ok() && NewAddress(libc, s) == Some(a) && !a.kind.SockAddr?
    ensures var d := Stem(a);
            && NewAddress(libc, d) == Some(a.(port := 0)) && Whole(libc, d)
            && (if a.kind.Pattern? then DOLLAR in d else COLON !in d)
            && a.port <= 65535 && (a.port != 0 ==> |d| < ADDRESS_BUFFER_SIZE)
  {
    var base := Origin(libc, s);
    StemIsWhole(libc, base, a.(port := 0));
    assert Stem(a) == Stem(a.(port := 0));
  }

  lemma PrintedWithPort(libc: Libc, a: Addr)
    requires libc.Ok() && !a.kind.SockAddr? && 0 < a.port <= 65535 && |Stem(a)| < ADDRESS_BUFFER_SIZE
    requires Whole(libc, Stem(a)) && NewAddress(libc, Stem(a)) == Some(a.(port := 0))
    requires if a.kind.Pattern? then DOLLAR in Stem(a) else COLON !in Stem(a)
    ensures NewAddress(libc, Display(a)) == Some(a) <==> Stem(a) != UNIX_NAME
  {
    var d := Stem(a);
    assert Display(a) == d + [COLON] + Decimal(a.port);
    if d != UNIX_NAME {
      ParsedWithPort(libc, d, a.port);
    } else {
      UnixPath(libc, a.port);
    }
  }

  /**
   * Parsing the printed form of any host name, wildcard or pattern address that new_address
   * can produce gives the same address back, except for the host name "unix" with a port.
   */
  lemma RoundTrip(libc: Libc, s: seq<byte>, a: Addr)
    requires libc.Ok() && NewAddress(libc, s) == Some(a) && !a.kind.SockAddr?
    ensures NewAddress(libc, Display(a)) == Some(a) <==>
            !(a.kind.HostName? && a.data == UNIX_NAME && a.port != 0)
  {
    StemParses(libc, s, a);
    if a.port == 0 {
      assert Display(a) == Stem(a);
    } else {
      PrintedWithPort(libc, a);
      assert DOLLAR !in UNIX_NAME && STAR != UNIX_NAME;
    }
  }

  lemma UnixPath(libc: Libc, port: nat)
    requires libc.Ok() && 0 < port <= 65535
    ensures var r := NewAddress(libc, UNIX_NAME + [COLON] + Decimal(port));
            r.None? || r.value.kind.SockAddr?
  {
    var t := UNIX_NAME + [COLON] + Decimal(port);
    assert UNIX <= t;
  }

  /** "UNIX", which is stored in lower case. */
  const UPPER_UNIX: seq<byte> := [85, 78, 73, 88]

  lemma UpperUnixValid()
    ensures ValidHostName(UPPER_UNIX) && LowerCase(UPPER_UNIX) == UNIX_NAME
  {
    var s := UPPER_UNIX;
    IndexIs(s, 4);
    assert s[..4] == s && ValidLabel(s);
  }

  lemma UnixHost(libc: Libc, s: seq<byte>, port: nat)
    requires libc.Ok() && 0 < port <= 65535
    requires ValidHostName(s) && libc.pton4(s).None? && LowerCase(s) == UNIX_NAME && s != UNIX_NAME
    ensures NewAddress(libc, s + [COLON] + Decimal(port)) == Some(Addr(HostName, UNIX_NAME, port))
  {
    HostNameParses(libc, s);
    assert |s| == |UNIX_NAME|;
    ParsedWithPort(libc, s, port);
  }

  /** The exception is reached: such a host name can be configured, and does not come back. */
  lemma UnixDoesNotReturn(libc: Libc, port: nat)
    requires libc.Ok() && 0 < port <= 65535
    ensures var a := Addr(HostName, UNIX_NAME, port);
            && NewAddress(libc, UPPER_UNIX + [COLON] + Decimal(port)) == Some(a)
            && NewAddress(libc, Display(a)) != Some(a)
  {
    UpperUnixValid();
    assert libc.pton4(UPPER_UNIX).None? by { assert !(IsDigit(UPPER_UNIX[0]) || UPPER_UNIX[0] == DOT); }
    UnixHost(libc, UPPER_UNIX, port);
    RoundTrip(libc, UPPER_UNIX + [COLON] + Decimal(port), Addr(HostName, UNIX_NAME, port));
  }

  /** An accepted address prints to text that compares equal once parsed. */
  lemma RoundTripComparesEqual(libc: Libc, s: seq<byte>, a: Addr)
    requires libc.Ok() && NewAddress(libc, s) == Some(a) && !a.kind.SockAddr?
    requires !(a.kind.HostName? && a.data == UNIX_NAME && a.port != 0)
    ensures CompareMaybe(NewAddress(libc, Display(a)), Some(a)) == 0
  {
    RoundTrip(libc, s, a);
    CompareZero(a, a);
  }

  // ---------------------------------------------------------------- texts of socket addresses

  /** An IPv4 text is a socket address. */
  lemma Ip4Parses(libc: Libc, s: seq<byte>)
    requires libc.Ok() && libc.pton4(s).Some?
    ensures NewAddress(libc, s) == Some(Addr(SockAddr, libc.pton4(s).value, 0))
    ensures Whole(libc, s) && COLON !in s && |s| <= 15
  {
    assert COLON !in s && DOLLAR !in s && STAR[0] == 42 && 42 !in s;
    NoColon(libc, s);
  }

  lemma Ip4WithPort(libc: Libc, s: seq<byte>, port: nat)
    requires libc.Ok() && libc.pton4(s).Some? && 0 < port <= 65535
    ensures NewAddress(libc, s + [58] + Decimal(port)) ==
            Some(Addr(SockAddr, libc.withPort(libc.pton4(s).value, port), port))
  {
    Ip4Parses(libc, s);
    assert UNIX_NAME[0] == 117 && (s == [] || s[0] != 117);
    ParsedWithPort(libc, s, port);
  }

  /** An IPv6 text in brackets (91 and 93), and the text itself, are the same socket address. */
  lemma Ip6Parses(libc: Libc, t: seq<byte>)
    requires libc.Ok() && libc.pton6(t).Some?
    ensures NewAddress(libc, t) == Some(Addr(SockAddr, libc.pton6(t).value, 0))
    ensures NewAddress(libc, [91] + t + [93]) == Some(Addr(SockAddr, libc.pton6(t).value, 0))
  {
    var s := [OPEN] + t + [CLOSE];
    BracketsReached(libc, s, t);
    ClosesAt(s, t);
    assert Bracketed(s) == t;
  }

  /** No branch before the one for brackets takes such a text. */
  lemma BracketsReached(libc: Libc, s: seq<byte>, t: seq<byte>)
    requires libc.Ok() && Ip6Bytes(t) && s == [OPEN] + t + [CLOSE]
    ensures ReachesBrackets(libc, s)
  {
    assert s[0] == OPEN && s[|s| - 1] == CLOSE && UNIX[0] == 117 && STAR[0] == 42;
    assert DOLLAR !in s by {
      assert forall i :: 0 <= i < |t| ==> t[i] != DOLLAR && s[i + 1] == t[i];
    }
    NotNumeric(libc, s);
    assert libc.pton4(s).None? by { assert !IsDigit(s[0]) && s[0] != DOT; }
    NotIp6(libc, s);
  }

  lemma NotIp6(libc: Libc, s: seq<byte>)
    requires libc.Ok() && s != [] && (s[0] == OPEN || s[0] == UNIX[0])
    ensures libc.pton6(s).None?
  {
    assert !Ip6Bytes(s);
  }

  lemma ClosesAt(s: seq<byte>, t: seq<byte>)
    requires s == [OPEN] + t + [CLOSE] && forall i :: 0 <= i < |t| ==> t[i] != CLOSE
    ensures IndexOf(s, CLOSE) == |t| + 1
  {
    assert s[|t| + 1] == CLOSE;
  }

  /** What ends in a closing bracket has no port. */
  lemma NotNumeric(libc: Libc, s: seq<byte>)
    requires libc.Ok() && s != [] && s[|s| - 1] == CLOSE
    ensures !HasPort(libc, s)
  {
    var p := LastIndexOf(s, COLON);
    if 0 <= p && p + 1 < |s| {
      var tail := s[p + 1..];
      assert tail[|tail| - 1] == CLOSE;
    }
  }

  /** Without the closing bracket such a text is no address. */
  lemma {:induction false} UnclosedBracket(libc: Libc, t: seq<byte>)
    requires libc.Ok() && Ip6Bytes(t)
    ensures NewAddress(libc, [91] + t) == None
    decreases |t|
  {
    var s := [91] + t;
    assert s[0] == OPEN && UNIX[0] == 117 && STAR[0] == 42;
    NotIp6(libc, s);
    if HasPort(libc, s) {
      var p := LastIndexOf(s, COLON);
      assert s[..p] == [91] + t[..p - 1];
      UnclosedBracket(libc, t[..p - 1]);
    } else {
      UnclosedWhole(libc, s, t);
    }
  }

  lemma UnclosedWhole(libc: Libc, s: seq<byte>, t: seq<byte>)
    requires libc.Ok() && Ip6Bytes(t) && s == [91] + t
    ensures WholeAddress(libc, s) == None
  {
    assert forall i :: 0 <= i < |t| ==> t[i] != CLOSE && t[i] != DOLLAR && s[i + 1] == t[i];
    assert s[0] == OPEN && STAR[0] == 42 && CLOSE !in s && DOLLAR !in s;
    assert libc.pton4(s).None? by { assert !IsDigit(s[0]) && s[0] != DOT; }
    assert Bracketed(s) == [];
    NoColon(libc, []);
    BracketIsNoHost(s);
  }

  lemma BracketIsNoHost(s: seq<byte>)
    requires s != [] && s[0] == OPEN
    ensures !ValidHostName(s)
  {
    if LabelsOk(s) { HostBytes(s); }
  }

  lemma Ip6WithPort(libc: Libc, t: seq<byte>, port: nat)
    requires libc.Ok() && libc.pton6(t).Some? && port <= 65535
    ensures NewAddress(libc, [91] + t + [93] + [58] + Decimal(port)) ==
            Some(Addr(SockAddr, libc.withPort(libc.pton6(t).value, port), port))
  {
    var d := [OPEN] + t + [CLOSE];
    var s := d + [COLON] + Decimal(port);
    Ip6Parses(libc, t);
    PortIsLast(d, Decimal(port));
    assert s[..|d|] == d && s[|d| + 1..] == Decimal(port);
    assert s[0] == OPEN && UNIX[0] == 117;
    NotIp6(libc, s);
  }

  /** A socket path, which must fit 108 bytes with its terminator. */
  lemma UnixParses(libc: Libc, path: seq<byte>)
    requires libc.Ok()
    ensures NewAddress(libc, UNIX + path) ==
            if |path| < 103 then Some(Addr(SockAddr, UNIX + path, 0)) else None
  {
    var s := UNIX + path;
    assert UNIX <= s && s[0] == UNIX[0];
    NotIp6(libc, s);
  }

  /** Stored names differ from the text only in letters A to Z, which become a to z. */
  lemma LowerCaseSpelled(s: seq<byte>, i: nat)
    requires i < |s|
    ensures LowerCase(s)[i] == if 'A' as int <= s[i] <= 'Z' as int then s[i] - 'A' as int + 'a' as int else s[i]
  {
  }
}
