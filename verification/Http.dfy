/** The HTTP request parser of http.c. */
module Http {
  import opened Bits
  import opened Options
  import opened Outcomes
  import opened Text

  /** The response sent to a client that cannot be served. */
  const HTTP_503: seq<byte> :=
    Ascii("HTTP/1.1 503 Service Temporarily Unavailable\r\n"
          + "Content-Type: text/html\r\nConnection: close\r\n\r\nBackend not available")

  /** "Host:" */
  const HOST: seq<byte> := [72, 111, 115, 116, 58]

  predicate IsBlank(b: byte) { b == 32 || b == 9 }

  /** strncasecmp of the five bytes of "Host:" with the beginning of a line. */
  predicate StartsWithHost(line: seq<byte>) {
    |line| >= 5 && forall i :: 0 <= i < 5 ==> Lower(line[i]) == Lower(HOST[i])
  }

  function TrimBlanks(s: seq<byte>): seq<byte> {
    if s != [] && IsBlank(s[0]) then TrimBlanks(s[1..]) else s
  }

  /** Drop one trailing colon with the digits behind it. */
  function StripPort(s: seq<byte>): seq<byte> {
    StripPortFrom(s, |s|)
  }

  function StripPortFrom(s: seq<byte>, i: nat): seq<byte>
    requires i <= |s|
  {
    if i == 0 then s
    else if s[i - 1] == COLON then s[..i - 1]
    else if !IsDigit(s[i - 1]) then s
    else StripPortFrom(s, i - 1)
  }

  // ---------------------------------------------------------------- the scan as C runs it

  /** How many values a size_t has. */
  const SIZE_T: nat := 0x1_0000_0000_0000_0000

  /** The data pointer as an offset into the request, and the unsigned length that is left. */
  datatype Cursor = Cursor(pos: nat, left: nat)

  /** *len -= 2 on a size_t, which wraps below zero. */
  function MinusTwo(left: nat): nat { if left >= 2 then left - 2 else left + SIZE_T - 2 }

  /**
   * First loop of next_header: to the end of the current line. Each byte is read in the
   * order of the conditions; None is a read outside the request.
   */
  function Walk(data: seq<byte>, c: Cursor): (r: Option<Cursor>)
    ensures r.Some? ==> c.pos <= r.value.pos
    decreases c.left
  {
    if c.left <= 2 then Some(c)
    else if c.pos >= |data| then None
    else if data[c.pos] == CR then Some(c)
    else if c.pos + 1 >= |data| then None
    else if data[c.pos + 1] == LF then Some(c)
    else Walk(data, Cursor(c.pos + 1, c.left - 1))
  }

  /** Second loop of next_header: the length of the line at the cursor, n bytes of it seen. */
  function Measure(data: seq<byte>, c: Cursor, n: nat): (r: Option<nat>)
    ensures r.Some? ==> n <= r.value && (n < r.value ==> c.pos + r.value < |data|)
    decreases |data| - (c.pos + n)
  {
    if c.left <= n + 1 then Some(n)
    else if c.pos + n >= |data| then None
    else if data[c.pos + n] == CR then Some(n)
    else if c.pos + n + 1 >= |data| then None
    else if data[c.pos + n + 1] == LF then Some(n)
    else Measure(data, c, n + 1)
  }

  /** next_header: past the line end, and the length of the line there. */
  function NextLine(data: seq<byte>, c: Cursor): (r: Option<(Cursor, nat)>)
    ensures r.Some? ==> c.pos < r.value.0.pos && (r.value.1 > 0 ==> r.value.0.pos + r.value.1 < |data|)
  {
    match Walk(data, c)
    case None => None
    case Some(end) =>
      var at := Cursor(end.pos + 2, MinusTwo(end.left));
      match Measure(data, at, 0)
      case None => None
      case Some(n) => Some((at, n))
  }

  /** Result of the parser, or a read outside the request. */
  datatype Result = Done(outcome: Outcome) | Overrun

  /** get_header for "Host:". */
  function Scan(data: seq<byte>, c: Cursor): Result
    decreases |data| - c.pos
  {
    match NextLine(data, c)
    case None => Overrun
    case Some((at, n)) =>
      if n == 0 then Done(if at.left == 0 then INCOMPLETE else NO_NAME)
      else if n > 5 && StartsWithHost(data[at.pos..])
      then Done(Name(StrNCpy(TrimBlanks(data[at.pos + 5..at.pos + n]))))
      else Scan(data, at)
  }

  /** parse_http_header: the Host value without its port. */
  function Parse(data: seq<byte>): Result {
    match Scan(data, Cursor(0, |data|))
    case Done(Name(v)) => Done(Name(StripPort(v)))
    case r => r
  }

  // ---------------------------------------------------------------- the scan on what is left

  /** A line ends where its first byte is CR or the byte after it is LF. */
  predicate EndsHere(d: seq<byte>)
    requires |d| >= 2
  {
    d[0] == CR || d[1] == LF
  }

  /** Walk to the end of the current line and step over the two bytes there. */
  function SkipLine(d: seq<byte>): (r: seq<byte>)
    requires |d| >= 2
    ensures |r| <= |d| - 2
  {
    if |d| > 2 && !EndsHere(d) then SkipLine(d[1..]) else d[2..]
  }

  /** The length of the line that begins here; the last byte available is never counted. */
  function LineLength(d: seq<byte>): (n: nat)
    ensures n > 0 ==> n + 1 <= |d|
  {
    if |d| > 1 && !EndsHere(d) then 1 + LineLength(d[1..]) else 0
  }

  /** What get_header finds, told on suffixes of the request. */
  function GetHost(d: seq<byte>): Outcome
    requires |d| >= 2
    decreases |d|
  {
    var rest := SkipLine(d);
    var n := LineLength(rest);
    if n == 0 then (if rest == [] then INCOMPLETE else NO_NAME)
    else if n > 5 && StartsWithHost(rest) then Name(StrNCpy(TrimBlanks(rest[5..n])))
    else GetHost(rest)
  }

  function Answer(d: seq<byte>): Outcome
    requires |d| >= 2
  {
    match GetHost(d)
    case Name(v) => Name(StripPort(v))
    case code => code
  }

  // ---------------------------------------------------------------- the parser

  /** next_header: advances the cursor to the next line and measures it. */
  method NextHeader(data: seq<byte>, start: Cursor) returns (r: Option<(Cursor, nat)>)
    ensures r == NextLine(data, start)
  {
    var end := WalkToLineEnd(data, start);
    if end.None? {
      return None;
    }
    var at := Cursor(end.value.pos + 2, MinusTwo(end.value.left));
    var n := MeasureLine(data, at);
    if n.None? {
      return None;
    }
    r := Some((at, n.value));
  }

  method WalkToLineEnd(data: seq<byte>, start: Cursor) returns (r: Option<Cursor>)
    ensures r == Walk(data, start)
  {
    var pos: nat, left: nat := start.pos, start.left;
    while left > 2
      invariant Walk(data, Cursor(pos, left)) == Walk(data, start)
    {
      if pos >= |data| {
        return None;
      }
      if data[pos] == CR {
        break;
      }
      if pos + 1 >= |data| {
        return None;
      }
      if data[pos + 1] == LF {
        break;
      }
      pos, left := pos + 1, left - 1;
    }
    r := Some(Cursor(pos, left));
  }

  method MeasureLine(data: seq<byte>, at: Cursor) returns (r: Option<nat>)
    ensures r == Measure(data, at, 0)
  {
    var n := 0;
    while at.left > n + 1
      invariant Measure(data, at, n) == Measure(data, at, 0)
      decreases |data| - (at.pos + n)
    {
      if at.pos + n >= |data| {
        return None;
      }
      if data[at.pos + n] == CR {
        break;
      }
      if at.pos + n + 1 >= |data| {
        return None;
      }
      if data[at.pos + n + 1] == LF {
        break;
      }
      n := n + 1;
    }
    r := Some(n);
  }

  /** get_header. */
  method GetHeader(data: seq<byte>) returns (r: Result)
    ensures r == Scan(data, Cursor(0, |data|))
  {
    var at := Cursor(0, |data|);
    while true
      invariant Scan(data, at) == Scan(data, Cursor(0, |data|))
      decreases |data| - at.pos
    {
      var line := NextHeader(data, at);
      if line.None? {
        return Overrun;
      }
      var n := line.value.1;
      at := line.value.0;
      if n == 0 {
        return Done(if at.left == 0 then INCOMPLETE else NO_NAME);
      }
      if n > 5 && StartsWithHost(data[at.pos..]) {
        var value := EatBlanks(data, at.pos, n);
        return Done(Name(StrNCpy(value)));
      }
    }
  }

  /** The blanks behind "Host:" are skipped. */
  method EatBlanks(data: seq<byte>, pos: nat, n: nat) returns (value: seq<byte>)
    requires n > 5 && pos + n <= |data|
    ensures value == TrimBlanks(data[pos + 5..pos + n])
  {
    var line, headerLen := data[pos..pos + n], 5;
    assert line[5..] == data[pos + 5..pos + n];
    while headerLen < |line| && IsBlank(line[headerLen])
      invariant 5 <= headerLen <= |line|
      invariant TrimBlanks(line[headerLen..]) == TrimBlanks(line[5..])
    {
      assert line[headerLen..][1..] == line[headerLen + 1..];
      headerLen := headerLen + 1;
    }
    value := line[headerLen..];
  }

  /** parse_http_header. */
  method ParseHttpHeader(data: seq<byte>) returns (r: Result)
    ensures r == Parse(data)
  {
    r := GetHeader(data);
    if r.Overrun? || r.outcome.Code? {
      return;
    }
    var host := r.outcome.host;
    var i := |host|;
    while i > 0
      invariant 0 <= i <= |host|
      invariant StripPortFrom(host, i) == StripPort(host)
      invariant r == Done(Name(host))
    {
      if host[i - 1] == COLON {
        return Done(Name(host[..i - 1]));
      } else if !IsDigit(host[i - 1]) {
        break;
      }
      i := i - 1;
    }
  }
}
