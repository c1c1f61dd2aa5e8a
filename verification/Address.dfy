/** Addresses of address.c: ordering, parsing and printing. Text is bytes without NUL. */
module Addresses {
  import opened Bits
  import opened Text
  import opened Options

  datatype Kind = HostName | SockAddr | Wildcard | Pattern

  datatype Addr = Addr(kind: Kind, data: seq<byte>, port: nat)

  const ADDRESS_BUFFER_SIZE: nat := 262
  const UNIX_PATH_SIZE: nat := 108
  const DOT: byte := 46
  const DASH: byte := 45
  const OPEN: byte := 91
  const CLOSE: byte := 93
  /** "*" */
  const STAR: seq<byte> := [42]
  /** "unix:" */
  const UNIX: seq<byte> := [117, 110, 105, 120, 58]

  // ---------------------------------------------------------------- ordering

  function KindRank(k: Kind): nat {
    match k case HostName => 0 case SockAddr => 1 case Wildcard => 2 case Pattern => 3
  }

  /** memcmp over the shorter length, then the lengths. */
  function CompareBytes(a: seq<byte>, b: seq<byte>): int {
    if a == [] && b == [] then 0
    else if a == [] then -1
    else if b == [] then 1
    else if a[0] != b[0] then a[0] - b[0]
    else CompareBytes(a[1..], b[1..])
  }

  /** address_compare on two addresses that are not NULL. */
  function Compare(a: Addr, b: Addr): int {
    if KindRank(a.kind) < KindRank(b.kind) then -1
    else if KindRank(a.kind) > KindRank(b.kind) then 1
    else
      var c := CompareBytes(a.data, b.data);
      if c != 0 then c else if a.port < b.port then -1 else if a.port > b.port then 1 else 0
  }

  /** address_compare, which also orders NULL before everything. */
  function CompareMaybe(a: Option<Addr>, b: Option<Addr>): int {
    match (a, b)
    case (None, None) => 0
    case (None, Some(_)) => -1
    case (Some(_), None) => 1
    case (Some(x), Some(y)) => Compare(x, y)
  }

  lemma {:induction false} BytesZero(a: seq<byte>, b: seq<byte>)
    ensures CompareBytes(a, b) == 0 <==> a == b
  {
    if a != [] && b != [] {
      BytesZero(a[1..], b[1..]);
      assert a == [a[0]] + a[1..] && b == [b[0]] + b[1..];
    }
  }

  lemma {:induction false} BytesFlip(a: seq<byte>, b: seq<byte>)
    ensures CompareBytes(a, b) < 0 <==> CompareBytes(b, a) > 0
  {
    if a != [] && b != [] { BytesFlip(a[1..], b[1..]); }
  }

  lemma {:induction false} BytesChain(a: seq<byte>, b: seq<byte>, c: seq<byte>)
    requires CompareBytes(a, b) <= 0 && CompareBytes(b, c) <= 0
    ensures CompareBytes(a, c) <= 0
    ensures CompareBytes(a, b) < 0 || CompareBytes(b, c) < 0 ==> CompareBytes(a, c) < 0
  {
    if a != [] && b != [] && c != [] && a[0] == b[0] == c[0] {
      BytesChain(a[1..], b[1..], c[1..]);
    }
  }

  /** Equality in the order is equality of type, data and port. */
  lemma CompareZero(a: Addr, b: Addr)
    ensures Compare(a, b) == 0 <==> a == b
  {
    BytesZero(a.data, b.data);
  }

  lemma CompareFlip(a: Addr, b: Addr)
    ensures Compare(a, b) < 0 <==> Compare(b, a) > 0
  {
    BytesFlip(a.data, b.data);
    BytesFlip(b.data, a.data);
  }

  lemma CompareChain(a: Addr, b: Addr, c: Addr)
    requires Compare(a, b) <= 0 && Compare(b, c) <= 0
    ensures Compare(a, c) <= 0
    ensures Compare(a, b) < 0 || Compare(b, c) < 0 ==> Compare(a, c) < 0
  {
    if a.kind == b.kind == c.kind {
      BytesZero(a.data, b.data);
      BytesZero(b.data, c.data);
      if CompareBytes(a.data, b.data) <= 0 && CompareBytes(b.data, c.data) <= 0 {
        BytesChain(a.data, b.data, c.data);
      }
    }
  }

  /** address_compare is a total order on optional addresses. */
  lemma TotalOrder(a: Option<Addr>, b: Option<Addr>, c: Option<Addr>)
    ensures CompareMaybe(a, b) == 0 <==> a == b
    ensures CompareMaybe(a, b) < 0 <==> CompareMaybe(b, a) > 0
    ensures CompareMaybe(a, b) <= 0 && CompareMaybe(b, c) <= 0 ==> CompareMaybe(a, c) <= 0
  {
    if a.Some? && b.Some? {
      CompareZero(a.value, b.value);
      CompareFlip(a.value, b.value);
      if c.Some? && Compare(a.value, b.value) <= 0 && Compare(b.value, c.value) <= 0 {
        CompareChain(a.value, b.value, c.value);
      }
    }
  }

  /** a is a proper initial part of b, or has the smaller byte where they first differ. */
  ghost predicate Precedes(a: seq<byte>, b: seq<byte>) {
    exists i: nat :: i <= |a| && i < |b| && a[..i] == b[..i] && (i == |a| || a[i] < b[i])
  }

  lemma {:induction false} BytesOrder(a: seq<byte>, b: seq<byte>)
    ensures CompareBytes(a, b) < 0 <==> Precedes(a, b)
  {
    if a == [] && b != [] {
      assert a[..0] == b[..0];
    } else if a != [] && b != [] {
      BytesOrder(a[1..], b[1..]);
      if Precedes(a, b) {
        var i: nat :| i <= |a| && i < |b| && a[..i] == b[..i] && (i == |a| || a[i] < b[i]);
        if i > 0 {
          assert a[..i][0] == b[..i][0] && a[1..][..i - 1] == a[..i][1..] && b[1..][..i - 1] == b[..i][1..];
        }
      }
      if a[0] == b[0] && Precedes(a[1..], b[1..]) {
        PrecedesLonger(a, b);
      }
      if a[0] < b[0] { assert a[..0] == b[..0]; }
    }
  }

  lemma PrecedesLonger(a: seq<byte>, b: seq<byte>)
    requires a != [] && b != [] && a[0] == b[0] && Precedes(a[1..], b[1..])
    ensures Precedes(a, b)
  {
    var x, y := a[1..], b[1..];
    var i: nat :| i <= |x| && i < |y| && x[..i] == y[..i] && (i == |x| || x[i] < y[i]);
    assert a[..i + 1] == [a[0]] + x[..i] && b[..i + 1] == [b[0]] + y[..i];
  }

  predicate EarlierKind(a: Kind, b: Kind) {
    || (a.HostName? && !b.HostName?)
    || (a.SockAddr? && (b.Wildcard? || b.Pattern?))
    || (a.Wildcard? && b.Pattern?)
  }

  /**
   * The order itself: host names, socket addresses, wildcards, patterns; within a type by
   * the bytes, a shorter text before a longer one it begins; then by the port.
   */
  lemma CompareOrder(a: Addr, b: Addr)
    ensures Compare(a, b) < 0 <==>
            || EarlierKind(a.kind, b.kind)
            || (a.kind == b.kind && (Precedes(a.data, b.data) || (a.data == b.data && a.port < b.port)))
  {
    BytesOrder(a.data, b.data);
    BytesZero(a.data, b.data);
    if a.data == b.data { BytesZero(b.data, a.data); }
  }

  // ---------------------------------------------------------------- host names

  predicate LabelByte(b: byte) {
    b == DASH || IsDigit(b) || 65 <= b <= 90 || b == 95 || 97 <= b <= 122
  }

  predicate ValidLabel(l: seq<byte>) {
    && 1 <= |l| <= 63
    && l[0] != DASH && l[|l| - 1] != DASH
    && forall i :: 0 <= i < |l| ==> LabelByte(l[i])
  }

  /** Offset of the first occurrence of b, or the length. */
  function IndexOf(s: seq<byte>, b: byte): (i: nat)
    ensures i <= |s| && b !in s[..i] && (i < |s| ==> s[i] == b)
  {
    if s == [] || s[0] == b then 0
    else
      var i := 1 + IndexOf(s[1..], b);
      assert s[..i] == [s[0]] + s[1..][..i - 1];
      i
  }

  /** The label loop of valid_hostname, on the text that is left. */
  predicate LabelsOk(s: seq<byte>) {
    s == [] ||
    (var n := IndexOf(s, DOT);
     ValidLabel(s[..n]) && (n == |s| || LabelsOk(s[n + 1..])))
  }

  predicate ValidHostName(s: seq<byte>) {
    1 <= |s| <= 255 && s[0] != DOT && LabelsOk(s)
  }

  lemma {:induction false} IndexIs(s: seq<byte>, n: nat)
    requires n <= |s| && DOT !in s[..n] && (n < |s| ==> s[n] == DOT)
    ensures IndexOf(s, DOT) == n
  {
    if n > 0 {
      assert s[..n][0] == s[0] && s[1..][..n - 1] == s[..n][1..];
      IndexIs(s[1..], n - 1);
    }
  }

  /** strchr for the end of the label at the cursor. */
  method LabelLength(s: seq<byte>, cur: nat) returns (n: nat)
    requires cur <= |s|
    ensures cur + n <= |s| && DOT !in s[cur..cur + n] && (cur + n < |s| ==> s[cur + n] == DOT)
  {
    n := 0;
    while cur + n < |s| && s[cur + n] != DOT
      invariant cur + n <= |s| && DOT !in s[cur..cur + n]
    {
      n := n + 1;
    }
  }

  /** What is left behind the cursor is fine; past the end nothing is left. */
  predicate OkFrom(s: seq<byte>, cur: nat) {
    cur > |s| || LabelsOk(s[cur..])
  }

  /** The label at the cursor, and what is behind it. */
  lemma LabelsFrom(s: seq<byte>, cur: nat, n: nat)
    requires cur < |s| && cur + n <= |s| && DOT !in s[cur..cur + n] && (cur + n < |s| ==> s[cur + n] == DOT)
    ensures OkFrom(s, cur) <==> ValidLabel(s[cur..cur + n]) && OkFrom(s, cur + n + 1)
  {
    var rest := s[cur..];
    assert rest[..n] == s[cur..cur + n];
    IndexIs(rest, n);
    if n < |rest| { assert rest[n + 1..] == s[cur + n + 1..]; }
  }

  /** valid_hostname: a cursor over the labels. */
  method CheckHostName(s: seq<byte>) returns (ok: bool)
    ensures ok == ValidHostName(s)
  {
    if |s| < 1 || |s| > 255 {
      return false;
    }
    if s[0] == DOT {
      return false;
    }
    assert s[0..] == s;
    ok := CheckLabels(s);
  }

  method CheckLabels(s: seq<byte>) returns (ok: bool)
    ensures ok == OkFrom(s, 0)
  {
    var cur := 0;
    while cur < |s|
      invariant 0 <= cur <= |s| + 1
      invariant OkFrom(s, cur) == OkFrom(s, 0)
    {
      var labelLen := LabelLength(s, cur);
      LabelsFrom(s, cur, labelLen);
      var valid := CheckLabel(s[cur..cur + labelLen]);
      if !valid {
        return false;
      }
      cur := cur + labelLen + 1;
    }
    ok := true;
  }

  /** One label: its length, its first and last byte, and all its bytes. */
  method CheckLabel(l: seq<byte>) returns (ok: bool)
    ensures ok == ValidLabel(l)
  {
    if |l| > 63 || |l| < 1 {
      return false;
    }
    if l[0] == DASH || l[|l| - 1] == DASH {
      return false;
    }
    ok := ValidSpan(l);
  }

  /** strspn over the permitted bytes reaches the end. */
  method ValidSpan(l: seq<byte>) returns (ok: bool)
    ensures ok <==> forall i :: 0 <= i < |l| ==> LabelByte(l[i])
  {
    for k := 0 to |l|
      invariant forall i :: 0 <= i < k ==> LabelByte(l[i])
    {
      if !LabelByte(l[k]) {
        return false;
      }
    }
    ok := true;
  }

  /** Labels separated by dots. */
  function Join(labels: seq<seq<byte>>): seq<byte> {
    if labels == [] then []
    else if |labels| == 1 then labels[0]
    else labels[0] + [46] + Join(labels[1..])
  }

  /** Hyphen, digits, upper case letters, underscore, lower case letters. */
  predicate NameByte(b: byte) {
    b == 45 || 48 <= b <= 57 || 65 <= b <= 90 || b == 95 || 97 <= b <= 122
  }

  /** 1 to 63 such bytes, no hyphen at either end. */
  predicate Label(l: seq<byte>) {
    1 <= |l| <= 63 && l[0] != 45 && l[|l| - 1] != 45 && forall i :: 0 <= i < |l| ==> NameByte(l[i])
  }

  lemma LabelIsValid(l: seq<byte>)
    ensures ValidLabel(l) <==> Label(l)
  {
    assert forall b: byte :: LabelByte(b) <==> NameByte(b);
  }

  /** The grammar: labels joined by dots (46), an optional final dot, at most 255 bytes. */
  ghost predicate Spells(s: seq<byte>, labels: seq<seq<byte>>) {
    && labels != [] && |s| <= 255
    && (forall i :: 0 <= i < |labels| ==> Label(labels[i]))
    && (s == Join(labels) || s == Join(labels) + [46])
  }

  lemma {:induction false} SplitLabels(s: seq<byte>) returns (labels: seq<seq<byte>>)
    requires s != [] && |s| <= 255 && LabelsOk(s)
    ensures Spells(s, labels)
  {
    var n := IndexOf(s, DOT);
    var first := s[..n];
    LabelIsValid(first);
    if n == |s| {
      labels := [first];
    } else if n + 1 == |s| {
      labels := [first];
      assert s == first + [DOT];
    } else {
      var rest := s[n + 1..];
      var more := SplitLabels(rest);
      labels := [first] + more;
      assert labels[1..] == more;
      assert s == first + [DOT] + rest;
      assert first + [DOT] + (Join(more) + [DOT]) == (first + [DOT] + Join(more)) + [DOT];
    }
  }

  lemma IndexOfDot(first: seq<byte>, rest: seq<byte>)
    requires ValidLabel(first)
    ensures IndexOf(first, DOT) == |first|
    ensures IndexOf(first + [DOT] + rest, DOT) == |first|
  {
    var s := first + [DOT] + rest;
    assert s[|first|] == DOT;
    forall i | 0 <= i < |first|
      ensures s[i] != DOT && first[i] != DOT
    {
      assert LabelByte(first[i]);
    }
  }

  lemma {:induction false} JoinedLabelsOk(labels: seq<seq<byte>>, dot: bool)
    requires labels != [] && forall i :: 0 <= i < |labels| ==> ValidLabel(labels[i])
    ensures var s := Join(labels) + if dot then [DOT] else [];
            s != [] && s[0] != DOT && LabelsOk(s)
  {
    var tail := if dot then [DOT] else [];
    var s := Join(labels) + tail;
    if |labels| == 1 {
      IndexOfDot(labels[0], []);
      if dot {
        assert s == labels[0] + [DOT] + [];
        assert s[..|labels[0]|] == labels[0] && s[|labels[0]| + 1..] == [];
      } else {
        assert s == labels[0] && s[..|s|] == s;
      }
    } else {
      var rest := Join(labels[1..]) + tail;
      JoinedLabelsOk(labels[1..], dot);
      IndexOfDot(labels[0], rest);
      assert s == labels[0] + [DOT] + rest;
      assert s[..|labels[0]|] == labels[0] && s[|labels[0]| + 1..] == rest;
    }
  }

  /** valid_hostname accepts exactly the grammar. */
  lemma HostNameGrammar(s: seq<byte>)
    ensures ValidHostName(s) <==> exists labels :: Spells(s, labels)
  {
    if ValidHostName(s) {
      var labels := SplitLabels(s);
    }
    forall labels | Spells(s, labels)
      ensures ValidHostName(s)
    {
      forall i | 0 <= i < |labels|
        ensures ValidLabel(labels[i])
      {
        LabelIsValid(labels[i]);
      }
      JoinedLabelsOk(labels, s != Join(labels));
      assert Join(labels) + [] == Join(labels);
    }
  }

  // ---------------------------------------------------------------- parsing

  /**
   * The C library behind new_address: inet_pton for both families (giving the socket
   * address bytes), strtod's idea of a number, atoi, and storing a port in a socket address.
   */
  datatype Libc = Libc(
    pton6: seq<byte> -> Option<seq<byte>>,
    pton4: seq<byte> -> Option<seq<byte>>,
    numeric: seq<byte> -> bool,
    atoi: seq<byte> -> int,
    withPort: (seq<byte>, nat) -> seq<byte>)
  {
    ghost predicate Ok() {
      && (forall s :: pton6(s).Some? ==> Ip6Bytes(s) && LastIndexOf(s, COLON) > IndexOf(s, COLON))
      && (forall s :: pton4(s).Some? ==>
            |s| <= 15 && forall i :: 0 <= i < |s| ==> IsDigit(s[i]) || s[i] == DOT)
      && !numeric([]) && (forall s :: numeric(s) ==> CLOSE !in s)
      && (forall n: nat :: n <= 65535 ==> numeric(Decimal(n)) && atoi(Decimal(n)) == n)
      && (forall d, n :: UNIX <= d ==> withPort(d, n) == d)
    }
  }

  /** At most 45 digits, letters a to f of either case, colons and dots. */
  predicate Ip6Bytes(s: seq<byte>) {
    && |s| <= 45
    && forall i :: 0 <= i < |s| ==>
         IsDigit(s[i]) || 65 <= s[i] <= 70 || 97 <= s[i] <= 102 || s[i] == COLON || s[i] == DOT
  }

  /** Offset of the last occurrence of b, or -1 (strrchr). */
  function LastIndexOf(s: seq<byte>, b: byte): (i: int)
    ensures -1 <= i < |s| && (i >= 0 ==> s[i] == b)
    ensures forall k :: i < k < |s| ==> s[k] != b
  {
    if s == [] then -1
    else if s[|s| - 1] == b then |s| - 1
    else LastIndexOf(s[..|s| - 1], b)
  }

  function LowerCase(s: seq<byte>): (r: seq<byte>)
    ensures |r| == |s|
  {
    seq(|s|, i requires 0 <= i < |s| => Lower(s[i]))
  }

  /** The loop that stores a host name in lower case. */
  method LowerInPlace(data: array<byte>)
    modifies data
    ensures data[..] == LowerCase(old(data[..]))
  {
    for i := 0 to data.Length
      invariant forall k :: 0 <= k < i ==> data[k] == Lower(old(data[k]))
      invariant forall k :: i <= k < data.Length ==> data[k] == old(data[k])
    {
      data[i] := Lower(data[i]);
    }
  }

  function SetPort(libc: Libc, a: Addr, port: nat): Addr {
    if a.kind.SockAddr? then a.(data := libc.withPort(a.data, port), port := port) else a.(port := port)
  }

  /** Whether the text ends in a port that new_address splits off. */
  predicate HasPort(libc: Libc, s: seq<byte>) {
    var p := LastIndexOf(s, COLON);
    p >= 0 && libc.numeric(s[p + 1..]) && p < ADDRESS_BUFFER_SIZE && 0 <= libc.atoi(s[p + 1..]) <= 65535
  }

  /** The text between a leading bracket and the first closing one, else nothing. */
  function Bracketed(s: seq<byte>): seq<byte> {
    if s != [] && s[0] == OPEN && IndexOf(s, CLOSE) < |s| then s[1..IndexOf(s, CLOSE)] else []
  }

  /** What new_address returns, as long as its local buffer is large enough. */
  function NewAddress(libc: Libc, s: seq<byte>): Option<Addr>
    decreases |s|
  {
    if libc.pton6(s).Some? then Some(Addr(SockAddr, libc.pton6(s).value, 0))
    else if UNIX <= s then
      if |s| >= UNIX_PATH_SIZE then None else Some(Addr(SockAddr, s, 0))
    else if HasPort(libc, s) then
      var p := LastIndexOf(s, COLON);
      match NewAddress(libc, s[..p])
      case None => None
      case Some(a) => Some(SetPort(libc, a, libc.atoi(s[p + 1..])))
    else WholeAddress(libc, s)
  }

  /** What new_address makes of a text with no port to split off. */
  function WholeAddress(libc: Libc, s: seq<byte>): Option<Addr> {
    if DOLLAR in s then Some(Addr(Pattern, s, 0))
    else if s == STAR then Some(Addr(Wildcard, [], 0))
    else if libc.pton4(s).Some? then Some(Addr(SockAddr, libc.pton4(s).value, 0))
    else if libc.pton6(Bracketed(s)).Some? then Some(Addr(SockAddr, libc.pton6(Bracketed(s)).value, 0))
    else if ValidHostName(s) then Some(Addr(HostName, LowerCase(s), 0))
    else None
  }

  /** The outcome of a call: a returned address or NULL, or a write past the local buffer. */
  datatype Call = Returned(address: Option<Addr>) | OutsideBuffer

  /** The bytes of ip_buf that the bracket branch writes: the text and its terminator. */
  function BracketWrites(s: seq<byte>): nat {
    if s != [] && s[0] == OPEN && IndexOf(s, CLOSE) < |s| then IndexOf(s, CLOSE) else 0
  }

  /**
   * new_address with its writes: the text before a port is copied only if it fits, the
   * text in brackets whatever its length.
   */
  function CallNewAddress(libc: Libc, s: seq<byte>): Call
    decreases |s|
  {
    if libc.pton6(s).Some? then Returned(Some(Addr(SockAddr, libc.pton6(s).value, 0)))
    else if UNIX <= s then
      Returned(if |s| >= UNIX_PATH_SIZE then None else Some(Addr(SockAddr, s, 0)))
    else if HasPort(libc, s) then
      var p := LastIndexOf(s, COLON);
      match CallNewAddress(libc, s[..p])
      case Returned(Some(a)) => Returned(Some(SetPort(libc, a, libc.atoi(s[p + 1..]))))
      case other => other
    else if DOLLAR !in s && s != STAR && libc.pton4(s).None? && BracketWrites(s) > ADDRESS_BUFFER_SIZE
    then OutsideBuffer
    else Returned(WholeAddress(libc, s))
  }

  /** display_address for addresses that are not socket addresses. */
  function Display(a: Addr): seq<byte> {
    (if a.kind.Wildcard? then STAR else a.data)
    + (if a.port != 0 then [COLON] + Decimal(a.port) else [])
  }
}
