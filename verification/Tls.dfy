/** The TLS request parser of tls.c. */
module Tls {
  import opened Bits
  import opened Outcomes

  const TLS_HEADER_LEN: nat := 5
  const HANDSHAKE: byte := 0x16
  const CLIENT_HELLO: byte := 0x01

  /** The alert sent to a client that cannot be served. */
  const TLS_ALERT: seq<byte> := [0x15, 0x03, 0x01, 0x00, 0x02, 0x02, 0x28]

  function Big16(s: seq<byte>, at: nat): (n: nat)
    requires at + 2 <= |s|
    ensures n < 65536
  {
    (s[at] as int) * 256 + (s[at + 1] as int)
  }

  // ---------------------------------------------------------------- the grammar

  /** The entries of a server name list. */
  function ServerNames(s: seq<byte>): Outcome {
    if |s| <= 3 then (if s == [] then NO_NAME else INVALID)
    else
      var n := Big16(s, 1);
      if 3 + n > |s| then INVALID
      else if s[0] == 0 then Name(StrNCpy(s[3..3 + n]))
      else ServerNames(s[3 + n..])
  }

  /** The body of a server_name extension: a list length, which is not checked, and the list. */
  function ServerNameExtension(s: seq<byte>): Outcome {
    if |s| < 2 then INVALID else ServerNames(s[2..])
  }

  /** A list of extensions. */
  function Extensions(s: seq<byte>): Outcome {
    if |s| < 4 then (if s == [] then NO_NAME else INVALID)
    else
      var n := Big16(s, 2);
      if 4 + n > |s| then INVALID
      else if s[0] == 0 && s[1] == 0 then ServerNameExtension(s[4..4 + n])
      else Extensions(s[4 + n..])
  }

  function ExtensionBlock(s: seq<byte>, ssl3: bool): Outcome {
    if s == [] && ssl3 then NO_NAME
    else if |s| < 2 || 2 + Big16(s, 0) > |s| then INVALID
    else Extensions(s[2..2 + Big16(s, 0)])
  }

  function Compression(s: seq<byte>, ssl3: bool): Outcome {
    if |s| < 1 || 1 + s[0] > |s| then INVALID else ExtensionBlock(s[1 + s[0]..], ssl3)
  }

  function CipherSuites(s: seq<byte>, ssl3: bool): Outcome {
    if |s| < 2 || 2 + Big16(s, 0) > |s| then INVALID else Compression(s[2 + Big16(s, 0)..], ssl3)
  }

  function SessionId(s: seq<byte>, ssl3: bool): Outcome {
    if |s| < 1 || 1 + s[0] > |s| then INVALID else CipherSuites(s[1 + s[0]..], ssl3)
  }

  /** A whole record, header included. */
  function Record(rec: seq<byte>): Outcome
    requires |rec| >= TLS_HEADER_LEN
  {
    if |rec| < 6 || rec[5] != CLIENT_HELLO || |rec| < 43 then INVALID
    else SessionId(rec[43..], rec[1] == 3 && rec[2] == 0)
  }

  /** What parse_tls_header returns on the bytes received so far. */
  function Parse(data: seq<byte>): Outcome {
    if |data| < TLS_HEADER_LEN then INCOMPLETE
    else if data[0] >= 128 && data[2] == 1 then NO_NAME
    else if data[0] != HANDSHAKE then INVALID
    else if data[1] < 3 then NO_NAME
    else
      var n := TLS_HEADER_LEN + Big16(data, 3);
      if |data| < n then INCOMPLETE else Record(data[..n])
  }

  // ---------------------------------------------------------------- the parser

  lemma TailSlice(s: seq<byte>, from: nat, a: nat, b: nat)
    requires a <= b <= |s| - from && from <= |s|
    ensures s[from..][a..b] == s[from + a..from + b]
  {
  }

  /** One entry of a server name list, seen from the cursor. */
  lemma NamesFrom(s: seq<byte>, at: nat, n: nat)
    requires at + 3 < |s| && n == Big16(s, at + 1)
    ensures ServerNames(s[at..]) ==
            if at + 3 + n > |s| then INVALID
            else if s[at] == 0 then Name(StrNCpy(s[at + 3..at + 3 + n]))
            else ServerNames(s[at + 3 + n..])
  {
    if at + 3 + n <= |s| {
      TailSlice(s, at, 3, 3 + n);
      assert s[at..][3 + n..] == s[at + 3 + n..];
    }
  }

  /** One extension, seen from the cursor. */
  lemma ExtensionsFrom(s: seq<byte>, at: nat, n: nat)
    requires at + 4 <= |s| && n == Big16(s, at + 2)
    ensures Extensions(s[at..]) ==
            if at + 4 + n > |s| then INVALID
            else if s[at] == 0 && s[at + 1] == 0 then ServerNameExtension(s[at + 4..at + 4 + n])
            else Extensions(s[at + 4 + n..])
  {
    if at + 4 + n <= |s| {
      TailSlice(s, at, 4, 4 + n);
      assert s[at..][4 + n..] == s[at + 4 + n..];
    }
  }

  /** parse_server_name_extension. */
  method ParseServerNameExtension(data: seq<byte>) returns (r: Outcome)
    ensures r == ServerNameExtension(data)
  {
    var pos := 2;
    while pos + 3 < |data|
      invariant 2 <= pos
      invariant |data| >= 2 ==> pos <= |data| && ServerNameExtension(data) == ServerNames(data[pos..])
    {
      var n := (data[pos + 1] as int) * 256 + (data[pos + 2] as int);
      NamesFrom(data, pos, n);
      if pos + 3 + n > |data| {
        return INVALID;
      }
      if data[pos] == 0 {
        return Name(StrNCpy(data[pos + 3..pos + 3 + n]));
      }
      pos := pos + 3 + n;
    }
    if pos != |data| {
      return INVALID;
    }
    r := NO_NAME;
  }

  /** parse_extensions. */
  method ParseExtensions(data: seq<byte>) returns (r: Outcome)
    ensures r == Extensions(data)
  {
    var pos := 0;
    while pos + 4 <= |data|
      invariant 0 <= pos
      invariant Extensions(data) == if pos <= |data| then Extensions(data[pos..]) else INVALID
    {
      var n := (data[pos + 2] as int) * 256 + (data[pos + 3] as int);
      ExtensionsFrom(data, pos, n);
      if data[pos] == 0 && data[pos + 1] == 0 {
        if pos + 4 + n > |data| {
          return INVALID;
        }
        r := ParseServerNameExtension(data[pos + 4..pos + 4 + n]);
        return;
      }
      pos := pos + 4 + n;
    }
    if pos != |data| {
      return INVALID;
    }
    r := NO_NAME;
  }

  /** parse_tls_header: fixed checks, then a cursor over the length-prefixed fields. */
  method ParseTlsHeader(received: seq<byte>) returns (r: Outcome)
    ensures r == Parse(received)
  {
    var pos := TLS_HEADER_LEN;
    if |received| < TLS_HEADER_LEN {
      return INCOMPLETE;
    }
    if received[0] >= 128 && received[2] == 1 {
      return NO_NAME;
    }
    if received[0] != HANDSHAKE {
      return INVALID;
    }
    var major, minor := received[1], received[2];
    if major < 3 {
      return NO_NAME;
    }
    var len := (received[3] as int) * 256 + (received[4] as int) + TLS_HEADER_LEN;
    if |received| < len {
      return INCOMPLETE;
    }
    var data := received[..len];
    r := ParseHello(data, major, minor);
  }

  /** The part of parse_tls_header that walks one complete record. */
  method ParseHello(data: seq<byte>, major: byte, minor: byte) returns (r: Outcome)
    requires |data| >= TLS_HEADER_LEN && major == data[1] && minor == data[2]
    ensures r == Record(data)
  {
    var pos := TLS_HEADER_LEN;
    ghost var ssl3 := major == 3 && minor == 0;
    if pos + 1 > |data| {
      return INVALID;
    }
    if data[pos] != CLIENT_HELLO {
      return INVALID;
    }
    pos := pos + 38;
    if pos + 1 > |data| {
      return INVALID;
    }
    var len: nat := data[pos];
    SessionFrom(data, pos, ssl3);
    pos := pos + 1 + len;
    if pos + 2 > |data| {
      return INVALID;
    }
    r := ParseFromCiphers(data, pos, major, minor);
  }

  /** The session id, seen from the cursor. */
  lemma SessionFrom(s: seq<byte>, at: nat, ssl3: bool)
    requires at < |s|
    ensures var next := at + 1 + s[at] as nat;
            SessionId(s[at..], ssl3) == if next + 2 > |s| then INVALID else CipherSuites(s[next..], ssl3)
  {
    var next := at + 1 + s[at] as nat;
    if next <= |s| {
      assert s[at..][1 + s[at] as nat..] == s[next..];
    }
  }

  method ParseFromCiphers(data: seq<byte>, start: nat, major: byte, minor: byte) returns (r: Outcome)
    requires start + 2 <= |data|
    ensures r == CipherSuites(data[start..], major == 3 && minor == 0)
  {
    var pos := start;
    ghost var ssl3 := major == 3 && minor == 0;
    var len := (data[pos] as int) * 256 + (data[pos + 1] as int);
    ghost var s := data[pos..];
    assert Big16(s, 0) == len;
    pos := pos + 2 + len;
    if pos + 1 > |data| {
      return INVALID;
    }
    assert s[2 + len..] == data[pos..];
    r := ParseFromCompression(data, pos, major, minor);
  }

  method ParseFromCompression(data: seq<byte>, start: nat, major: byte, minor: byte) returns (r: Outcome)
    requires start + 1 <= |data|
    ensures r == Compression(data[start..], major == 3 && minor == 0)
  {
    var pos := start;
    var len: nat := data[pos];
    ghost var s := data[pos..];
    pos := pos + 1 + len;
    if pos == |data| && major == 3 && minor == 0 {
      return NO_NAME;
    }
    if pos + 2 > |data| {
      return INVALID;
    }
    assert s[1 + len..] == data[pos..];
    s := data[pos..];
    len := (data[pos] as int) * 256 + (data[pos + 1] as int);
    assert Big16(s, 0) == len;
    pos := pos + 2;
    if pos + len > |data| {
      return INVALID;
    }
    assert s[2..2 + len] == data[pos..pos + len];
    r := ParseExtensions(data[pos..pos + len]);
  }
}
