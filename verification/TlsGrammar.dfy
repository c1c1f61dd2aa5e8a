/**
 * The TLS parser on every complete record, well formed or not: each list of
 * length-prefixed fields has a reading, and the answer is what the reading says.
 */
module TlsGrammar {
  import opened Bits
  import opened Text
  import opened Outcomes
  import opened Tls
  import opened TlsProofs

  // ---------------------------------------------------------------- server names

  /** How a list goes on after entries of other types: not at all, with a host name, or torn off. */
  datatype NameEnd = NoMore | Host(name: seq<byte>, junk: seq<byte>) | TornName(tail: seq<byte>)

  predicate OtherNames(names: seq<ServerName>) {
    forall i :: 0 <= i < |names| ==> names[i].kind != 0 && |names[i].name| < 65536
  }

  /** Too short for an entry with a byte behind its length, or for the name announced. */
  predicate NameTorn(s: seq<byte>) { s != [] && (|s| <= 3 || 3 + Big16(s, 1) > |s|) }

  predicate GoodNameEnd(names: seq<ServerName>, end: NameEnd) {
    match end
    case NoMore => names == [] || names[|names| - 1].name != []
    case Host(name, junk) => |name| < 65536 && name + junk != []
    case TornName(tail) => NameTorn(tail)
  }

  function NameEndText(end: NameEnd): seq<byte>
    requires end.Host? ==> |end.name| < 65536
  {
    match end
    case NoMore => []
    case Host(name, junk) => [0] + Put16(|name|) + name + junk
    case TornName(tail) => tail
  }

  /** The list is these entries and this end. */
  predicate NamesRead(s: seq<byte>, names: seq<ServerName>, end: NameEnd) {
    OtherNames(names) && GoodNameEnd(names, end) && s == EncodeNames(names) + NameEndText(end)
  }

  lemma {:induction false} NamesHaveReading(s: seq<byte>) returns (names: seq<ServerName>, end: NameEnd)
    ensures NamesRead(s, names, end)
  {
    names := [];
    if s == [] {
      end := NoMore;
    } else if NameTorn(s) {
      end := TornName(s);
    } else {
      var n := Big16(s, 1);
      NameSplit(s, n);
      if s[0] == 0 {
        end := Host(s[3..3 + n], s[3 + n..]);
      } else {
        names, end := NamesHaveReading(s[3 + n..]);
        NameBefore(s, n, names, end);
        names := [ServerName(s[0], s[3..3 + n])] + names;
      }
    }
  }

  lemma NameSplit(s: seq<byte>, n: nat)
    requires |s| > 3 && n == Big16(s, 1) && 3 + n <= |s|
    ensures s == [s[0]] + Put16(n) + s[3..3 + n] + s[3 + n..] && s[3..3 + n] + s[3 + n..] != []
  {
    BigIsPut(s, 1);
    assert s == s[..1] + s[1..3] + s[3..3 + n] + s[3 + n..];
  }

  lemma BigIsPut(s: seq<byte>, at: nat)
    requires at + 2 <= |s|
    ensures s[at..at + 2] == Put16(Big16(s, at))
  {
  }

  function Entry(x: ServerName): seq<byte>
    requires |x.name| < 65536
  {
    [x.kind] + Put16(|x.name|) + x.name
  }

  lemma NamesUnfold(names: seq<ServerName>, tail: seq<byte>)
    requires names != [] && OtherNames(names)
    ensures EncodeNames(names) + tail == Entry(names[0]) + (EncodeNames(names[1..]) + tail)
  {
    Reassociate(Entry(names[0]), EncodeNames(names[1..]), tail);
  }

  lemma NameBefore(s: seq<byte>, n: nat, names: seq<ServerName>, end: NameEnd)
    requires |s| > 3 && n == Big16(s, 1) && 3 + n <= |s| && s[0] != 0 && NamesRead(s[3 + n..], names, end)
    ensures NamesRead(s, [ServerName(s[0], s[3..3 + n])] + names, end)
  {
    var first := ServerName(s[0], s[3..3 + n]);
    var all := [first] + names;
    NameSplit(s, n);
    assert s == Entry(first) + s[3 + n..];
    assert all[1..] == names && OtherNames(all);
    NamesUnfold(all, NameEndText(end));
    if names != [] { assert all[|all| - 1] == names[|names| - 1]; }
  }

  /** What the parser sees of an entry at the front of a list. */
  lemma EntryAt(x: ServerName, rest: seq<byte>)
    requires |x.name| < 65536
    ensures var s := Entry(x) + rest;
            && |s| == 3 + |x.name| + |rest| && s[0] == x.kind && Big16(s, 1) == |x.name|
            && s[3..3 + |x.name|] == x.name && s[3 + |x.name|..] == rest
  {
    var s := Entry(x) + rest;
    assert s[1..3] == Put16(|x.name|);
    BigIsPut(s, 1);
  }

  /** The answer is what the reading says. */
  lemma {:induction false} NamesAnswer(s: seq<byte>, names: seq<ServerName>, end: NameEnd)
    requires NamesRead(s, names, end)
    ensures ServerNames(s) ==
            match end case NoMore => NO_NAME case Host(name, _) => Name(StrNCpy(name)) case TornName(_) => INVALID
    decreases |names|
  {
    if names != [] {
      var x, rest := names[0], EncodeNames(names[1..]) + NameEndText(end);
      NamesUnfold(names, NameEndText(end));
      EntryAt(x, rest);
      RestRead(names, end);
      NamesAnswer(rest, names[1..], end);
    } else if end.Host? {
      assert s == Entry(ServerName(0, end.name)) + end.junk;
      EntryAt(ServerName(0, end.name), end.junk);
    }
  }

  /** The entries behind the first one; an entry that ends the list has a name. */
  lemma RestRead(names: seq<ServerName>, end: NameEnd)
    requires names != [] && OtherNames(names) && GoodNameEnd(names, end)
    ensures var rest := EncodeNames(names[1..]) + NameEndText(end);
            NamesRead(rest, names[1..], end) && names[0].name + rest != []
  {
    if |names| > 1 {
      assert names[1..][|names| - 2] == names[|names| - 1];
      assert |EncodeNames(names[1..])| > 0;
    }
  }

  // ---------------------------------------------------------------- extensions

  /** How a list goes on after other extensions: not at all, with a server_name extension, or torn off. */
  datatype ExtensionEnd = NoneLeft | SniHere(body: seq<byte>, junk: seq<byte>) | TornExtension(tail: seq<byte>)

  predicate Others(es: seq<Extension>) {
    forall i :: 0 <= i < |es| ==> es[i].Other? && ExtensionFits(es[i])
  }

  predicate ExtensionTorn(s: seq<byte>) { s != [] && (|s| < 4 || 4 + Big16(s, 2) > |s|) }

  predicate GoodExtensionEnd(end: ExtensionEnd) {
    match end
    case NoneLeft => true
    case SniHere(body, _) => |body| < 65536
    case TornExtension(tail) => ExtensionTorn(tail)
  }

  function Framed(kind: nat, body: seq<byte>): (s: seq<byte>)
    requires kind < 65536 && |body| < 65536
  {
    Put16(kind) + Put16(|body|) + body
  }

  function ExtensionEndText(end: ExtensionEnd): seq<byte>
    requires end.SniHere? ==> |end.body| < 65536
  {
    match end
    case NoneLeft => []
    case SniHere(body, junk) => Framed(0, body) + junk
    case TornExtension(tail) => tail
  }

  predicate ExtensionsRead(s: seq<byte>, es: seq<Extension>, end: ExtensionEnd) {
    Others(es) && GoodExtensionEnd(end) && s == EncodeExtensions(es) + ExtensionEndText(end)
  }

  lemma ExtensionsUnfold(es: seq<Extension>, tail: seq<byte>)
    requires es != [] && Others(es)
    ensures EncodeExtensions(es) + tail ==
            Framed(es[0].kind, es[0].body) + (EncodeExtensions(es[1..]) + tail)
  {
    Reassociate(Framed(es[0].kind, es[0].body), EncodeExtensions(es[1..]), tail);
  }

  /** What the parser sees of an extension at the front of a list. */
  lemma FramedAt(kind: nat, body: seq<byte>, rest: seq<byte>)
    requires kind < 65536 && |body| < 65536
    ensures var s := Framed(kind, body) + rest;
            && |s| == 4 + |body| + |rest| && Big16(s, 0) == kind && Big16(s, 2) == |body|
            && s[4..4 + |body|] == body && s[4 + |body|..] == rest
            && (s[0] == 0 && s[1] == 0 <==> kind == 0)
  {
    var s := Framed(kind, body) + rest;
    assert s[0..2] == Put16(kind) && s[2..4] == Put16(|body|);
    BigIsPut(s, 0);
    BigIsPut(s, 2);
  }

  lemma FrameSplit(s: seq<byte>, n: nat)
    requires |s| >= 4 && n == Big16(s, 2) && 4 + n <= |s|
    ensures s == Framed(Big16(s, 0), s[4..4 + n]) + s[4 + n..]
  {
    BigIsPut(s, 0);
    BigIsPut(s, 2);
    assert s == s[0..2] + s[2..4] + s[4..4 + n] + s[4 + n..];
  }

  lemma {:induction false} ExtensionsHaveReading(s: seq<byte>) returns (es: seq<Extension>, end: ExtensionEnd)
    ensures ExtensionsRead(s, es, end)
  {
    es := [];
    if s == [] {
      end := NoneLeft;
    } else if ExtensionTorn(s) {
      end := TornExtension(s);
    } else {
      var n, kind := Big16(s, 2), Big16(s, 0);
      FrameSplit(s, n);
      if kind == 0 {
        end := SniHere(s[4..4 + n], s[4 + n..]);
      } else {
        es, end := ExtensionsHaveReading(s[4 + n..]);
        var all := [Other(kind, s[4..4 + n])] + es;
        assert all[1..] == es;
        ExtensionsUnfold(all, ExtensionEndText(end));
        es := all;
      }
    }
  }

  lemma {:induction false} ExtensionsAnswer(s: seq<byte>, es: seq<Extension>, end: ExtensionEnd)
    requires ExtensionsRead(s, es, end)
    ensures Extensions(s) ==
            match end
            case NoneLeft => NO_NAME
            case SniHere(body, _) => ServerNameExtension(body)
            case TornExtension(_) => INVALID
    decreases |es|
  {
    if es != [] {
      var rest := EncodeExtensions(es[1..]) + ExtensionEndText(end);
      ExtensionsUnfold(es, ExtensionEndText(end));
      FramedAt(es[0].kind, es[0].body, rest);
      ExtensionsAnswer(rest, es[1..], end);
    } else if end.SniHere? {
      assert s == Framed(0, end.body) + end.junk;
      FramedAt(0, end.body, end.junk);
    } else {
      assert s == ExtensionEndText(end);
    }
  }

  // ---------------------------------------------------------------- vectors

  /** A field with a length of one byte, or of two, does not fit. */
  predicate Torn8(s: seq<byte>) { s == [] || 1 + s[0] > |s| }
  predicate Torn16(s: seq<byte>) { |s| < 2 || 2 + Big16(s, 0) > |s| }

  function Vector8(v: seq<byte>): seq<byte>
    requires |v| < 256
  {
    Put8(|v|) + v
  }

  function Vector16(v: seq<byte>): seq<byte>
    requires |v| < 65536
  {
    Put16(|v|) + v
  }

  lemma Vector8At(v: seq<byte>, rest: seq<byte>)
    requires |v| < 256
    ensures var s := Vector8(v) + rest; !Torn8(s) && s[0] == |v| && s[1 + |v|..] == rest
  {
  }

  lemma Vector16At(v: seq<byte>, rest: seq<byte>)
    requires |v| < 65536
    ensures var s := Vector16(v) + rest;
            !Torn16(s) && Big16(s, 0) == |v| && s[2..2 + |v|] == v && s[2 + |v|..] == rest
  {
    var s := Vector16(v) + rest;
    assert s[0..2] == Put16(|v|);
    BigIsPut(s, 0);
  }

  /** The body of a ClientHello behind its random, as far as it goes. */
  datatype Body =
    | NoSession(tail: seq<byte>)
    | NoCiphers(session: seq<byte>, tail: seq<byte>)
    | NoCompression(session: seq<byte>, ciphers: seq<byte>, tail: seq<byte>)
    | Body(session: seq<byte>, ciphers: seq<byte>, compression: seq<byte>, rest: seq<byte>)

  predicate BodyRead(s: seq<byte>, b: Body) {
    match b
    case NoSession(tail) => s == tail && Torn8(tail)
    case NoCiphers(session, tail) => |session| < 256 && s == Vector8(session) + tail && Torn16(tail)
    case NoCompression(session, ciphers, tail) =>
      |session| < 256 && |ciphers| < 65536 && s == Vector8(session) + (Vector16(ciphers) + tail) && Torn8(tail)
    case Body(session, ciphers, compression, rest) =>
      && |session| < 256 && |ciphers| < 65536 && |compression| < 256
      && s == Vector8(session) + (Vector16(ciphers) + (Vector8(compression) + rest))
  }

  lemma Split8(s: seq<byte>) returns (v: seq<byte>, rest: seq<byte>)
    requires !Torn8(s)
    ensures |v| < 256 && s == Vector8(v) + rest
  {
    var n: nat := s[0];
    v, rest := s[1..1 + n], s[1 + n..];
    assert s == [s[0]] + v + rest;
  }

  lemma Split16(s: seq<byte>) returns (v: seq<byte>, rest: seq<byte>)
    requires !Torn16(s)
    ensures |v| < 65536 && s == Vector16(v) + rest
  {
    var n := Big16(s, 0);
    BigIsPut(s, 0);
    v, rest := s[2..2 + n], s[2 + n..];
    assert s == s[0..2] + v + rest;
  }

  lemma BodyHasReading(s: seq<byte>) returns (b: Body)
    ensures BodyRead(s, b)
  {
    if Torn8(s) {
      return NoSession(s);
    }
    var session, s1 := Split8(s);
    if Torn16(s1) {
      return NoCiphers(session, s1);
    }
    var ciphers, s2 := Split16(s1);
    if Torn8(s2) {
      return NoCompression(session, ciphers, s2);
    }
    var compression, rest := Split8(s2);
    b := Body(session, ciphers, compression, rest);
  }

  lemma BodyAnswer(s: seq<byte>, ssl3: bool, b: Body)
    requires BodyRead(s, b)
    ensures SessionId(s, ssl3) == if b.Body? then ExtensionBlock(b.rest, ssl3) else INVALID
  {
    match b
    case NoSession(_) =>
    case NoCiphers(session, tail) => SessionSkips(session, tail, ssl3);
    case NoCompression(session, ciphers, tail) =>
      SessionSkips(session, Vector16(ciphers) + tail, ssl3);
      CiphersSkip(ciphers, tail, ssl3);
    case Body(session, ciphers, compression, rest) =>
      SessionSkips(session, Vector16(ciphers) + (Vector8(compression) + rest), ssl3);
      CiphersSkip(ciphers, Vector8(compression) + rest, ssl3);
      Vector8At(compression, rest);
  }

  lemma SessionSkips(v: seq<byte>, rest: seq<byte>, ssl3: bool)
    requires |v| < 256
    ensures SessionId(Vector8(v) + rest, ssl3) == CipherSuites(rest, ssl3)
  {
    Vector8At(v, rest);
  }

  lemma CiphersSkip(v: seq<byte>, rest: seq<byte>, ssl3: bool)
    requires |v| < 65536
    ensures CipherSuites(Vector16(v) + rest, ssl3) == Compression(rest, ssl3)
  {
    Vector16At(v, rest);
  }

  // ---------------------------------------------------------------- the whole record

  /** A complete record with all that the parser looks at before the session id. */
  predicate IsHello(rec: seq<byte>) { |rec| >= 43 && rec[5] == 1 }

  /** What a body says: no name in SSL 3.0 without extensions, else what the extension list says. */
  ghost predicate Says(b: Body, ssl3: bool, answer: Outcome) {
    if !b.Body? then answer == Code(-5)
    else if b.rest == [] then answer == if ssl3 then Code(-2) else Code(-5)
    else if Torn16(b.rest) then answer == Code(-5)
    else
      exists list, junk, es, end ::
        && |list| < 65536 && b.rest == Vector16(list) + junk && ExtensionsRead(list, es, end)
        && SaysList(end, answer)
  }

  ghost predicate SaysList(end: ExtensionEnd, answer: Outcome) {
    match end
    case NoneLeft => answer == Code(-2)
    case TornExtension(_) => answer == Code(-5)
    case SniHere(body, _) =>
      if |body| < 2 then answer == Code(-5)
      else exists names, nameEnd :: NamesRead(body[2..], names, nameEnd) && SaysName(nameEnd, answer)
  }

  predicate SaysName(end: NameEnd, answer: Outcome) {
    match end
    case NoMore => answer == Code(-2)
    case Host(name, _) => answer == Name(StrNCpy(name))
    case TornName(_) => answer == Code(-5)
  }

  lemma ListSays(list: seq<byte>, es: seq<Extension>, end: ExtensionEnd, answer: Outcome)
    requires ExtensionsRead(list, es, end)
    ensures SaysList(end, answer) <==> Extensions(list) == answer
  {
    ExtensionsAnswer(list, es, end);
    if end.SniHere? && |end.body| >= 2 {
      var names, nameEnd := NamesHaveReading(end.body[2..]);
      NamesAnswer(end.body[2..], names, nameEnd);
      forall names', end' | NamesRead(end.body[2..], names', end')
        ensures SaysName(end', answer) <==> ServerNames(end.body[2..]) == answer
      {
        NamesAnswer(end.body[2..], names', end');
      }
    }
  }

  lemma BodySays(b: Body, ssl3: bool, s: seq<byte>, answer: Outcome)
    requires BodyRead(s, b)
    ensures Says(b, ssl3, answer) <==> SessionId(s, ssl3) == answer
  {
    BodyAnswer(s, ssl3, b);
    if b.Body? && b.rest != [] && !Torn16(b.rest) {
      var list, junk := Split16(b.rest);
      var es, end := ExtensionsHaveReading(list);
      Vector16At(list, junk);
      ListSays(list, es, end, answer);
      forall list', junk', es', end' |
        |list'| < 65536 && b.rest == Vector16(list') + junk' && ExtensionsRead(list', es', end')
        ensures SaysList(end', answer) <==> Extensions(list) == answer
      {
        Vector16At(list', junk');
        ListSays(list', es', end', answer);
      }
    }
  }

  /** The record header announces the bytes behind it. */
  function RecordEnd(data: seq<byte>): nat
    requires |data| >= 5
  {
    5 + (data[3] as int) * 256 + (data[4] as int)
  }

  /** What is answered without looking into a record. */
  lemma Prologue(data: seq<byte>)
    ensures |data| < 5 ==> Parse(data) == Code(-1)
    ensures |data| >= 5 && data[0] >= 0x80 && data[2] == 1 ==> Parse(data) == Code(-2)
    ensures |data| >= 5 && data[0] != 0x16 && !(data[0] >= 0x80 && data[2] == 1) ==> Parse(data) == Code(-5)
    ensures |data| >= 5 && data[0] == 0x16 && data[1] < 3 ==> Parse(data) == Code(-2)
    ensures |data| >= 5 && data[0] == 0x16 && data[1] >= 3 && |data| < RecordEnd(data) ==>
              Parse(data) == Code(-1)
  {
  }

  lemma RecordParsed(data: seq<byte>)
    requires |data| >= 5 && data[0] == 0x16 && data[1] >= 3 && RecordEnd(data) <= |data|
    ensures Parse(data) == Record(data[..RecordEnd(data)])
  {
  }

  lemma HelloIs(rec: seq<byte>)
    requires |rec| >= 5
    ensures Record(rec) == if IsHello(rec) then SessionId(rec[43..], rec[1] == 3 && rec[2] == 0) else Code(-5)
  {
  }

  /** The answer on a complete record, well formed or not, is exactly what its fields say. */
  lemma RecordExactly(data: seq<byte>, b: Body, answer: Outcome)
    requires |data| >= 5 && data[0] == 0x16 && data[1] >= 3 && RecordEnd(data) <= |data|
    requires var rec := data[..RecordEnd(data)]; IsHello(rec) ==> BodyRead(rec[43..], b)
    ensures var rec := data[..RecordEnd(data)];
            Parse(data) == answer <==>
            if IsHello(rec) then Says(b, data[1] == 3 && data[2] == 0, answer) else answer == Code(-5)
  {
    var rec := data[..RecordEnd(data)];
    RecordParsed(data);
    HelloIs(rec);
    assert rec[1] == data[1] && rec[2] == data[2];
    if IsHello(rec) { BodySays(b, data[1] == 3 && data[2] == 0, rec[43..], answer); }
  }
}
