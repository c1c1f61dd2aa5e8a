/** The TLS parser against an encoder of ClientHello records, and on growing input. */
module TlsProofs {
  import opened Bits
  import opened Outcomes
  import opened Tls

  /** An entry of the server name list of section 3 of RFC 6066; host_name is kind 0. */
  datatype ServerName = ServerName(kind: byte, name: seq<byte>)

  datatype Extension = Sni(names: seq<ServerName>) | Other(kind: nat, body: seq<byte>)

  datatype ExtensionField = Absent | Present(list: seq<Extension>)

  /** A ClientHello of section 7.4.1.2 of RFC 5246, in one record. */
  datatype Hello = Hello(
    major: byte, minor: byte,
    version: seq<byte>, random: seq<byte>,
    sessionId: seq<byte>, ciphers: seq<byte>, compression: seq<byte>,
    extensions: ExtensionField)

  // ---------------------------------------------------------------- encoding

  function Put8(n: nat): (s: seq<byte>)
    requires n < 256
  {
    [n]
  }

  function Put16(n: nat): (s: seq<byte>)
    requires n < 65536
    ensures |s| == 2 && Big16(s, 0) == n
  {
    [n / 256, n % 256]
  }

  function EncodeNames(names: seq<ServerName>): seq<byte>
    requires forall n :: n in names ==> |n.name| < 65536
  {
    if names == [] then []
    else [names[0].kind] + Put16(|names[0].name|) + names[0].name + EncodeNames(names[1..])
  }

  predicate ExtensionFits(e: Extension) {
    match e
    case Sni(names) =>
      (forall n :: n in names ==> |n.name| < 65536) && 2 + |EncodeNames(names)| < 65536
    case Other(kind, body) => 0 < kind < 65536 && |body| < 65536
  }

  function EncodeExtension(e: Extension): seq<byte>
    requires ExtensionFits(e)
  {
    match e
    case Sni(names) =>
      var list := EncodeNames(names);
      Put16(0) + Put16(2 + |list|) + (Put16(|list|) + list)
    case Other(kind, body) => Put16(kind) + Put16(|body|) + body
  }

  function EncodeExtensions(es: seq<Extension>): seq<byte>
    requires forall e :: e in es ==> ExtensionFits(e)
  {
    if es == [] then [] else EncodeExtension(es[0]) + EncodeExtensions(es[1..])
  }

  predicate FieldFits(f: ExtensionField) {
    f.Present? ==> (forall e :: e in f.list ==> ExtensionFits(e)) && |EncodeExtensions(f.list)| < 65536
  }

  function EncodeField(f: ExtensionField): seq<byte>
    requires FieldFits(f)
  {
    match f
    case Absent => []
    case Present(list) => var body := EncodeExtensions(list); Put16(|body|) + body
  }

  predicate VectorsFit(h: Hello) {
    && |h.version| == 2 && |h.random| == 32
    && |h.sessionId| < 256 && |h.ciphers| < 65536 && |h.compression| < 256
    && FieldFits(h.extensions)
  }

  function EncodeVectors(h: Hello): seq<byte>
    requires VectorsFit(h)
  {
    Put8(|h.sessionId|) + h.sessionId
    + (Put16(|h.ciphers|) + h.ciphers + (Put8(|h.compression|) + h.compression + EncodeField(h.extensions)))
  }

  /** Handshake type, 24-bit length, client version, random. */
  function EncodeFixed(h: Hello): (s: seq<byte>)
    requires VectorsFit(h) && |EncodeVectors(h)| + 34 < 65536
    ensures |s| == 38 && s[0] == CLIENT_HELLO
  {
    [CLIENT_HELLO, 0] + Put16(|EncodeVectors(h)| + 34) + h.version + h.random
  }

  predicate Fits(h: Hello) {
    h.major >= 3 && VectorsFit(h) && |EncodeVectors(h)| + 38 < 65536
  }

  function Encode(h: Hello): (s: seq<byte>)
    requires Fits(h)
    ensures |s| == 43 + |EncodeVectors(h)|
  {
    [HANDSHAKE, h.major, h.minor] + Put16(|EncodeVectors(h)| + 38) + EncodeFixed(h) + EncodeVectors(h)
  }

  // ---------------------------------------------------------------- what should be found

  /** The first host name of a list. An empty entry that ends the list is not accepted. */
  function FirstHost(names: seq<ServerName>): Outcome {
    if names == [] then NO_NAME
    else if |names| == 1 && names[0].name == [] then INVALID
    else if names[0].kind == 0 then Name(StrNCpy(names[0].name))
    else FirstHost(names[1..])
  }

  function FirstSni(es: seq<Extension>): Outcome {
    if es == [] then NO_NAME else if es[0].Sni? then FirstHost(es[0].names) else FirstSni(es[1..])
  }

  function Expected(h: Hello): Outcome {
    match h.extensions
    case Absent => if h.major == 3 && h.minor == 0 then NO_NAME else INVALID
    case Present(list) => FirstSni(list)
  }

  // ---------------------------------------------------------------- round trip

  lemma {:induction false} NamesRoundTrip(names: seq<ServerName>)
    requires forall n :: n in names ==> |n.name| < 65536
    ensures ServerNames(EncodeNames(names)) == FirstHost(names)
    ensures names != [] ==> |EncodeNames(names)| >= 3
  {
    if names != [] {
      var n, rest := names[0], EncodeNames(names[1..]);
      NamesRoundTrip(names[1..]);
      var s := EncodeNames(names);
      assert s == [n.kind] + Put16(|n.name|) + n.name + rest;
      assert Big16(s, 1) == |n.name| by { assert s[1..3] == Put16(|n.name|); }
      assert s[3..3 + |n.name|] == n.name && s[3 + |n.name|..] == rest;
    }
  }

  lemma ExtensionHead(e: Extension, rest: seq<byte>)
    requires ExtensionFits(e)
    ensures var s := EncodeExtension(e) + rest;
            var n := |EncodeExtension(e)| - 4;
            && |s| >= 4 && n >= 0 && Big16(s, 2) == n && s[4 + n..] == rest
            && (s[0] == 0 && s[1] == 0 <==> e.Sni?)
            && s[4..4 + n] == EncodeExtension(e)[4..]
  {
    var x := EncodeExtension(e);
    var n := |x| - 4;
    var kind := if e.Sni? then 0 else e.kind;
    assert x[..2] == Put16(kind) && x[2..4] == Put16(n);
    assert (x + rest)[..2] == Put16(kind) && (x + rest)[2..4] == Put16(n);
  }

  lemma {:induction false} ExtensionsRoundTrip(es: seq<Extension>)
    requires forall e :: e in es ==> ExtensionFits(e)
    ensures Extensions(EncodeExtensions(es)) == FirstSni(es)
  {
    if es != [] {
      var e, rest := es[0], EncodeExtensions(es[1..]);
      ExtensionHead(e, rest);
      ExtensionsRoundTrip(es[1..]);
      if e.Sni? {
        var list := EncodeNames(e.names);
        NamesRoundTrip(e.names);
        assert EncodeExtension(e)[4..] == Put16(|list|) + list;
        assert (Put16(|list|) + list)[2..] == list;
      }
    }
  }

  lemma FieldRoundTrip(f: ExtensionField, ssl3: bool)
    requires FieldFits(f)
    ensures ExtensionBlock(EncodeField(f), ssl3) ==
            match f case Absent => (if ssl3 then NO_NAME else INVALID) case Present(list) => FirstSni(list)
  {
    if f.Present? {
      var body := EncodeExtensions(f.list);
      ExtensionsRoundTrip(f.list);
      var s := EncodeField(f);
      assert s[..2] == Put16(|body|) && Big16(s, 0) == |body| && s[2..2 + |body|] == body;
    }
  }

  lemma VectorsRoundTrip(h: Hello)
    requires VectorsFit(h)
    ensures SessionId(EncodeVectors(h), h.major == 3 && h.minor == 0) == Expected(h)
  {
    var ssl3 := h.major == 3 && h.minor == 0;
    var f := EncodeField(h.extensions);
    var c := Put8(|h.compression|) + h.compression + f;
    FieldRoundTrip(h.extensions, ssl3);
    SkipVector8(h.compression, f);
    SkipVector16(h.ciphers, c);
    SkipVector8(h.sessionId, Put16(|h.ciphers|) + h.ciphers + c);
  }

  lemma SkipVector8(v: seq<byte>, rest: seq<byte>)
    requires |v| < 256
    ensures var s := Put8(|v|) + v + rest;
            |s| >= 1 + |v| && s[0] == |v| && s[1 + |v|..] == rest
  {
  }

  lemma SkipVector16(v: seq<byte>, rest: seq<byte>)
    requires |v| < 65536
    ensures var s := Put16(|v|) + v + rest;
            |s| >= 2 + |v| && Big16(s, 0) == |v| && s[2 + |v|..] == rest
  {
    var s := Put16(|v|) + v + rest;
    assert s[..2] == Put16(|v|);
  }

  /**
   * For every ClientHello record, whatever follows it, the parser reports the first entry
   * of kind host_name in the first server_name extension.
   */
  lemma RoundTrip(h: Hello, following: seq<byte>)
    requires Fits(h)
    ensures Parse(Encode(h) + following) == Expected(h)
  {
    var e, v := Encode(h), EncodeVectors(h);
    var data := e + following;
    assert e == [HANDSHAKE, h.major, h.minor] + Put16(|v| + 38) + EncodeFixed(h) + v;
    assert data[3..5] == Put16(|v| + 38);
    assert Big16(data, 3) == |v| + 38;
    assert data[..5 + Big16(data, 3)] == e;
    assert e[43..] == v && e[5] == EncodeFixed(h)[0];
    VectorsRoundTrip(h);
  }

  lemma {:induction false} FirstSniAt(es: seq<Extension>, i: nat)
    requires i < |es| && es[i].Sni? && forall k :: 0 <= k < i ==> es[k].Other?
    ensures FirstSni(es) == FirstHost(es[i].names)
  {
    if i > 0 { FirstSniAt(es[1..], i - 1); }
  }

  lemma {:induction false} FirstHostAt(names: seq<ServerName>, j: nat)
    requires j < |names| && names[j].kind == 0 && names[j].name != []
    requires forall k :: 0 <= k < j ==> names[k].kind != 0
    ensures FirstHost(names) == Name(StrNCpy(names[j].name))
  {
    if j > 0 { FirstHostAt(names[1..], j - 1); }
  }

  lemma {:induction false} NoSni(es: seq<Extension>)
    requires forall k :: 0 <= k < |es| ==> es[k].Other?
    ensures FirstSni(es) == NO_NAME
  {
    if es != [] { NoSni(es[1..]); }
  }

  /** The promise to callers: the requested host name, wherever it sits in the record. */
  lemma HostNameFound(h: Hello, i: nat, j: nat, following: seq<byte>)
    requires Fits(h) && h.extensions.Present?
    requires i < |h.extensions.list| && h.extensions.list[i].Sni?
    requires forall k :: 0 <= k < i ==> h.extensions.list[k].Other?
    requires var names := h.extensions.list[i].names;
             && j < |names| && names[j].kind == 0 && names[j].name != [] && 0 !in names[j].name
             && forall k :: 0 <= k < j ==> names[k].kind != 0
    ensures Parse(Encode(h) + following) == Name(h.extensions.list[i].names[j].name)
  {
    RoundTrip(h, following);
    FirstSniAt(h.extensions.list, i);
    FirstHostAt(h.extensions.list[i].names, j);
  }

  lemma NoHostName(h: Hello, following: seq<byte>)
    requires Fits(h) && h.extensions.Present?
    requires forall k :: 0 <= k < |h.extensions.list| ==> h.extensions.list[k].Other?
    ensures Parse(Encode(h) + following) == NO_NAME
  {
    RoundTrip(h, following);
    NoSni(h.extensions.list);
  }

  // ---------------------------------------------------------------- growing input

  /** Once the parser has decided, more bytes do not change its answer. */
  lemma Stable(data: seq<byte>, more: seq<byte>)
    requires Parse(data) != INCOMPLETE
    ensures Parse(data + more) == Parse(data)
  {
    var all := data + more;
    if |data| >= TLS_HEADER_LEN {
      assert all[0] == data[0] && all[1] == data[1] && all[2] == data[2];
      assert Big16(all, 3) == Big16(data, 3);
      var n := TLS_HEADER_LEN + Big16(data, 3);
      if |data| >= n {
        assert all[..n] == data[..n];
      }
    }
  }

  /** "Incomplete" means that bytes of the record header or body are still missing. */
  lemma IncompleteMeans(data: seq<byte>)
    ensures Parse(data) == INCOMPLETE <==>
            || |data| < TLS_HEADER_LEN
            || (&& !(data[0] >= 128 && data[2] == 1) && data[0] == HANDSHAKE && data[1] >= 3
                && |data| < TLS_HEADER_LEN + Big16(data, 3))
  {
    if |data| >= TLS_HEADER_LEN && |data| >= TLS_HEADER_LEN + Big16(data, 3) {
      RecordDecides(data[..TLS_HEADER_LEN + Big16(data, 3)]);
    }
  }

  lemma RecordDecides(rec: seq<byte>)
    requires |rec| >= TLS_HEADER_LEN
    ensures Record(rec) != INCOMPLETE
  {
    if |rec| >= 43 { VectorsDecide(rec[43..], rec[1] == 3 && rec[2] == 0); }
  }

  lemma VectorsDecide(s: seq<byte>, ssl3: bool)
    ensures SessionId(s, ssl3) != INCOMPLETE
  {
    if |s| >= 1 && 1 + s[0] <= |s| {
      var d := s[1 + s[0]..];
      if |d| >= 2 && 2 + Big16(d, 0) <= |d| { CompressionDecides(d[2 + Big16(d, 0)..], ssl3); }
    }
  }

  lemma CompressionDecides(c: seq<byte>, ssl3: bool)
    ensures Compression(c, ssl3) != INCOMPLETE
  {
    if |c| >= 1 && 1 + c[0] <= |c| {
      var f := c[1 + c[0]..];
      if |f| >= 2 && 2 + Big16(f, 0) <= |f| { ExtensionsDecide(f[2..2 + Big16(f, 0)]); }
    }
  }

  lemma {:induction false} NamesDecide(s: seq<byte>)
    ensures ServerNames(s) != INCOMPLETE
  {
    if |s| > 3 && 3 + Big16(s, 1) <= |s| { NamesDecide(s[3 + Big16(s, 1)..]); }
  }

  lemma {:induction false} ExtensionsDecide(s: seq<byte>)
    ensures Extensions(s) != INCOMPLETE
  {
    if |s| >= 4 && 4 + Big16(s, 2) <= |s| {
      var body := s[4..4 + Big16(s, 2)];
      if |body| >= 2 { NamesDecide(body[2..]); }
      ExtensionsDecide(s[4 + Big16(s, 2)..]);
    }
  }

  // ---------------------------------------------------------------- soundness

  /** At p the bytes spell an entry of kind 0 with the given name. */
  predicate NamedAt(s: seq<byte>, p: nat, name: seq<byte>) {
    && p + 3 + |name| <= |s| && s[p] == 0 && Big16(s, p + 1) == |name|
    && s[p + 3..p + 3 + |name|] == name
  }

  lemma Shift(s: seq<byte>, from: nat, to: nat, p: nat, name: seq<byte>)
    requires from <= to <= |s| && NamedAt(s[from..to], p, name)
    ensures NamedAt(s, from + p, name)
  {
    SliceOfSlice(s, from, to, p + 3, p + 3 + |name|);
  }

  lemma SliceOfSlice(s: seq<byte>, from: nat, to: nat, a: nat, b: nat)
    requires from <= to <= |s| && a <= b <= to - from
    ensures s[from..to][a..b] == s[from + a..from + b]
  {
    var t := s[from..to];
    forall i | 0 <= i < b - a
      ensures t[a..b][i] == s[from + a..from + b][i]
    {
      assert t[a + i] == s[from + (a + i)];
    }
  }

  lemma ShiftTail(s: seq<byte>, k: nat, p: nat, name: seq<byte>)
    requires k <= |s| && NamedAt(s[k..], p, name)
    ensures NamedAt(s, k + p, name)
  {
    WholeTail(s, k);
    Shift(s, k, |s|, p, name);
  }

  lemma {:induction false} NamesSound(s: seq<byte>) returns (p: nat, name: seq<byte>)
    requires ServerNames(s).Name?
    ensures ServerNames(s) == Name(StrNCpy(name)) && NamedAt(s, p, name)
  {
    var n := Big16(s, 1);
    if s[0] == 0 {
      p, name := 0, s[3..3 + n];
    } else {
      var q;
      q, name := NamesSound(s[3 + n..]);
      p := 3 + n + q;
      ShiftTail(s, 3 + n, q, name);
    }
  }

  lemma SniSound(s: seq<byte>, n: nat) returns (p: nat, name: seq<byte>)
    requires 4 + n <= |s| && ServerNameExtension(s[4..4 + n]).Name?
    ensures ServerNameExtension(s[4..4 + n]) == Name(StrNCpy(name)) && NamedAt(s, p, name)
  {
    var q;
    q, name := NamesSound(s[4..4 + n][2..]);
    ShiftTail(s[4..4 + n], 2, q, name);
    Shift(s, 4, 4 + n, 2 + q, name);
    p := 6 + q;
  }

  lemma {:induction false} ExtensionsSound(s: seq<byte>) returns (p: nat, name: seq<byte>)
    requires Extensions(s).Name?
    ensures Extensions(s) == Name(StrNCpy(name)) && NamedAt(s, p, name)
  {
    var n := Big16(s, 2);
    if s[0] == 0 && s[1] == 0 {
      p, name := SniSound(s, n);
    } else {
      var q;
      q, name := ExtensionsSound(s[4 + n..]);
      p := 4 + n + q;
      ShiftTail(s, 4 + n, q, name);
    }
  }

  lemma WholeTail(s: seq<byte>, k: nat)
    requires k <= |s|
    ensures s[k..] == s[k..|s|]
  {
  }

  lemma BlockSound(s: seq<byte>, ssl3: bool) returns (p: nat, name: seq<byte>)
    requires ExtensionBlock(s, ssl3).Name?
    ensures ExtensionBlock(s, ssl3) == Name(StrNCpy(name)) && NamedAt(s, p, name)
  {
    var n, q := Big16(s, 0), 0;
    q, name := ExtensionsSound(s[2..2 + n]);
    p := 2 + q;
    Shift(s, 2, 2 + n, q, name);
  }

  lemma CompressionSound(s: seq<byte>, ssl3: bool) returns (p: nat, name: seq<byte>)
    requires Compression(s, ssl3).Name?
    ensures Compression(s, ssl3) == Name(StrNCpy(name)) && NamedAt(s, p, name)
  {
    var k, q := 1 + s[0] as nat, 0;
    q, name := BlockSound(s[k..], ssl3);
    p := k + q;
    ShiftTail(s, k, q, name);
  }

  lemma CiphersSound(s: seq<byte>, ssl3: bool) returns (p: nat, name: seq<byte>)
    requires CipherSuites(s, ssl3).Name?
    ensures CipherSuites(s, ssl3) == Name(StrNCpy(name)) && NamedAt(s, p, name)
  {
    var n, q := Big16(s, 0), 0;
    q, name := CompressionSound(s[2 + n..], ssl3);
    p := 2 + n + q;
    ShiftTail(s, 2 + n, q, name);
  }

  lemma SessionSound(s: seq<byte>, ssl3: bool) returns (p: nat, name: seq<byte>)
    requires SessionId(s, ssl3).Name?
    ensures SessionId(s, ssl3) == Name(StrNCpy(name)) && NamedAt(s, p, name)
  {
    var k, q := 1 + s[0] as nat, 0;
    q, name := CiphersSound(s[k..], ssl3);
    p := k + q;
    ShiftTail(s, k, q, name);
  }

  lemma RecordSound(rec: seq<byte>) returns (p: nat, name: seq<byte>)
    requires |rec| >= TLS_HEADER_LEN && Record(rec).Name?
    ensures Record(rec) == Name(StrNCpy(name)) && NamedAt(rec, p, name)
  {
    var q;
    q, name := SessionSound(rec[43..], rec[1] == 3 && rec[2] == 0);
    p := 43 + q;
    ShiftTail(rec, 43, q, name);
  }

  lemma ShiftHead(data: seq<byte>, n: nat, p: nat, name: seq<byte>)
    requires n <= |data| && NamedAt(data[..n], p, name)
    ensures NamedAt(data, p, name)
  {
    assert data[..n] == data[0..n];
    Shift(data, 0, n, p, name);
  }

  /** A reported name is really in the record, behind its type and its length. */
  lemma Sound(data: seq<byte>) returns (p: nat, name: seq<byte>)
    requires Parse(data).Name?
    ensures Parse(data) == Name(StrNCpy(name)) && NamedAt(data, p, name)
    ensures p + 3 + |name| <= TLS_HEADER_LEN + Big16(data, 3) <= |data|
  {
    var n := TLS_HEADER_LEN + Big16(data, 3);
    p, name := RecordSound(data[..n]);
    ShiftHead(data, n, p, name);
  }
}
