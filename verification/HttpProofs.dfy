/** The HTTP parser on requests whose header section (sections 3 and 5.4 of RFC 7230) is complete. */
module HttpProofs {
  import opened Bits
  import opened Text
  import opened Options
  import opened Outcomes
  import opened Http

  const CRLF: seq<byte> := [CR, LF]

  /** No bare CR, LF or NUL. */
  predicate Clean(line: seq<byte>) {
    forall i :: 0 <= i < |line| ==> line[i] != CR && line[i] != LF && line[i] != 0
  }

  function Section(lines: seq<seq<byte>>): seq<byte> {
    if lines == [] then CRLF else lines[0] + CRLF + Section(lines[1..])
  }

  /** A request line, header lines, a blank line. */
  predicate WellFormed(lines: seq<seq<byte>>) {
    && |lines| >= 1
    && (forall i :: 0 <= i < |lines| ==> Clean(lines[i]))
    && (forall i :: 1 <= i < |lines| ==> lines[i] != [])
  }

  /** "host:" in any mixture of cases. */
  predicate SaysHost(line: seq<byte>) {
    && |line| >= 5
    && line[0] in {'H' as int, 'h' as int} && line[1] in {'O' as int, 'o' as int}
    && line[2] in {'S' as int, 's' as int} && line[3] in {'T' as int, 't' as int}
    && line[4] == ':' as int
  }

  /** strncasecmp finds exactly that. */
  lemma HostSpelled(line: seq<byte>)
    ensures StartsWithHost(line) <==> SaysHost(line)
  {
    assert Lower(HOST[0]) == 104 && Lower(HOST[1]) == 111 && Lower(HOST[2]) == 115 && Lower(HOST[3]) == 116;
    assert HOST[4] == 58;
    if StartsWithHost(line) {
      assert Lower(line[0]) == 104 && Lower(line[1]) == 111 && Lower(line[2]) == 115;
      assert Lower(line[3]) == 116 && Lower(line[4]) == 58;
    }
  }

  predicate IsHostLine(line: seq<byte>) { |line| > 5 && SaysHost(line) }

  /** A space or a tab. */
  predicate Blank(b: byte) { b == ' ' as int || b == '\t' as int }

  /** The value of the first Host line. */
  function HostOf(headers: seq<seq<byte>>): Outcome {
    if headers == [] then NO_NAME
    else if IsHostLine(headers[0]) then Name(StripPort(TrimBlanks(headers[0][5..])))
    else HostOf(headers[1..])
  }

  // ---------------------------------------------------------------- the scan stays inside

  /** MinusTwo is subtraction modulo the range of size_t. */
  lemma UnsignedSubtraction(left: nat)
    requires left < SIZE_T
    ensures MinusTwo(left) == (left - 2) % SIZE_T
  {
    if left < 2 { assert (left - 2) + SIZE_T == (left - 2) % SIZE_T; }
  }

  /** With two bytes left the first loop stays inside and ends two bytes before the next line. */
  lemma {:induction false} WalkInside(data: seq<byte>, pos: nat)
    requires pos + 2 <= |data|
    ensures var r := Walk(data, Cursor(pos, |data| - pos));
            && r.Some? && r.value.pos + 2 <= |data| && r.value.left == |data| - r.value.pos
            && data[r.value.pos + 2..] == SkipLine(data[pos..])
    decreases |data| - pos
  {
    var d := data[pos..];
    if |d| > 2 && !EndsHere(d) {
      WalkInside(data, pos + 1);
      assert d[1..] == data[pos + 1..];
    } else {
      assert d[2..] == data[pos + 2..];
    }
  }

  lemma {:induction false} MeasureInside(data: seq<byte>, pos: nat, n: nat)
    requires pos + n <= |data|
    ensures Measure(data, Cursor(pos, |data| - pos), n) == Some(n + LineLength(data[pos + n..]))
    decreases |data| - n
  {
    var d := data[pos + n..];
    if |d| > 1 && !EndsHere(d) {
      MeasureInside(data, pos, n + 1);
      assert d[1..] == data[pos + n + 1..];
    }
  }

  lemma NextInside(data: seq<byte>, pos: nat) returns (at: nat)
    requires pos + 2 <= |data|
    ensures pos + 2 <= at <= |data| && data[at..] == SkipLine(data[pos..])
    ensures NextLine(data, Cursor(pos, |data| - pos)) == Some((Cursor(at, |data| - at), LineLength(data[at..])))
  {
    WalkInside(data, pos);
    at := Walk(data, Cursor(pos, |data| - pos)).value.pos + 2;
    MeasureInside(data, at, 0);
    assert data[at + 0..] == data[at..];
  }

  /** A line of nonzero length leaves two bytes for the next turn, so the length never wraps. */
  lemma {:induction false} ScanInside(data: seq<byte>, pos: nat)
    requires pos + 2 <= |data|
    ensures Scan(data, Cursor(pos, |data| - pos)) == Done(GetHost(data[pos..]))
    decreases |data| - pos
  {
    var at := NextInside(data, pos);
    var n := LineLength(data[at..]);
    if n != 0 {
      assert n > 5 ==> data[at..][5..n] == data[at + 5..at + n];
      if !(n > 5 && StartsWithHost(data[at..])) { ScanInside(data, at); }
    }
  }

  /** On fewer than two bytes the length wraps, and the next byte is read past the end. */
  lemma ShortOverruns(data: seq<byte>)
    requires |data| < 2
    ensures Scan(data, Cursor(0, |data|)) == Overrun
  {
    assert Walk(data, Cursor(0, |data|)) == Some(Cursor(0, |data|));
    assert MinusTwo(|data|) > 1;
    assert Measure(data, Cursor(2, MinusTwo(|data|)), 0) == None;
  }

  /** The parser leaves its input exactly on fewer than two bytes; otherwise it answers as specified. */
  lemma ParseIs(data: seq<byte>)
    ensures Http.Parse(data) == Overrun <==> |data| < 2
    ensures |data| >= 2 ==> Http.Parse(data) == Done(Answer(data))
  {
    if |data| < 2 {
      ShortOverruns(data);
    } else {
      ScanInside(data, 0);
      assert data[0..] == data;
    }
  }

  // ---------------------------------------------------------------- lines

  /** A line ends at i: a CR there, or an LF behind it. */
  predicate EndAt(d: seq<byte>, i: nat) {
    i + 1 < |d| && (d[i] == '\r' as int || d[i + 1] == '\n' as int)
  }

  /** The length of a line is the offset of its first end; without one all but the last byte count. */
  lemma {:induction false} LineLengthIs(d: seq<byte>)
    ensures forall i :: 0 <= i < LineLength(d) ==> !EndAt(d, i)
    ensures EndAt(d, LineLength(d)) || LineLength(d) == if d == [] then 0 else |d| - 1
  {
    if |d| > 1 && !EndsHere(d) {
      LineLengthIs(d[1..]);
      forall i | 0 <= i < LineLength(d)
        ensures !EndAt(d, i)
      {
        if i > 0 { assert !EndAt(d[1..], i - 1); }
      }
      assert EndAt(d[1..], LineLength(d) - 1) ==> EndAt(d, LineLength(d));
    }
  }

  /** The next line begins two bytes behind the first end, or the input ends there. */
  lemma {:induction false} SkipLineIs(d: seq<byte>) returns (i: nat)
    requires |d| >= 2
    ensures i + 2 <= |d| && SkipLine(d) == d[i + 2..]
    ensures forall k :: 0 <= k < i ==> !EndAt(d, k)
    ensures i + 2 == |d| || EndAt(d, i)
  {
    if |d| > 2 && !EndsHere(d) {
      var j := SkipLineIs(d[1..]);
      i := j + 1;
      assert d[1..][j + 2..] == d[i + 2..];
      forall k | 0 <= k < i
        ensures !EndAt(d, k)
      {
        if k > 0 { assert !EndAt(d[1..], k - 1); }
      }
      assert EndAt(d[1..], j) ==> EndAt(d, i);
    } else {
      i := 0;
    }
  }

  lemma {:induction false} SkipCleanLine(line: seq<byte>, rest: seq<byte>)
    requires Clean(line)
    ensures SkipLine(line + CRLF + rest) == rest
  {
    var d := line + CRLF + rest;
    if line == [] {
      assert d[2..] == rest;
    } else {
      SkipCleanLine(line[1..], rest);
      assert d[1..] == line[1..] + CRLF + rest;
    }
  }

  lemma {:induction false} CleanLineLength(line: seq<byte>, rest: seq<byte>)
    requires Clean(line)
    ensures LineLength(line + CRLF + rest) == |line|
  {
    var d := line + CRLF + rest;
    if line != [] {
      CleanLineLength(line[1..], rest);
      assert d[1..] == line[1..] + CRLF + rest;
    }
  }

  lemma {:induction false} TrimKeepsClean(s: seq<byte>)
    requires Clean(s)
    ensures Clean(TrimBlanks(s)) && StrNCpy(TrimBlanks(s)) == TrimBlanks(s)
  {
    if s != [] && IsBlank(s[0]) { TrimKeepsClean(s[1..]); }
  }

  /** One step of the scan: from the beginning of a line to the line after it. */
  lemma {:induction false} ScanFrom(line: seq<byte>, headers: seq<seq<byte>>, body: seq<byte>)
    requires WellFormed([line] + headers)
    ensures var d := line + CRLF + Section(headers) + body;
            match HostOf(headers)
            case Name(h) => exists v :: GetHost(d) == Name(v) && h == StripPort(v)
            case Code(c) => GetHost(d) == Code(c)
    decreases |headers|
  {
    var rest := Section(headers) + body;
    var d := line + CRLF + Section(headers) + body;
    assert d == line + CRLF + rest;
    assert ([line] + headers)[0] == line;
    SkipCleanLine(line, rest);
    if headers == [] {
      assert rest == [] + CRLF + body;
      CleanLineLength([], body);
    } else {
      var next := headers[0];
      assert ([line] + headers)[1] == next;
      var after := Section(headers[1..]) + body;
      assert rest == next + CRLF + after;
      CleanLineLength(next, after);
      HostPrefix(next, CRLF + after);
      HostSpelled(next);
      assert rest == next + (CRLF + after);
      if IsHostLine(next) {
        assert rest[5..|next|] == next[5..];
        TrimKeepsClean(next[5..]);
        assert GetHost(d) == Name(TrimBlanks(next[5..]));
      } else {
        assert [next] + headers[1..] == headers;
        forall i | 0 <= i < |headers|
          ensures Clean(headers[i]) && headers[i] != []
        {
          assert headers[i] == ([line] + headers)[i + 1];
        }
        ScanFrom(next, headers[1..], body);
        assert rest == next + CRLF + Section(headers[1..]) + body;
        assert GetHost(d) == GetHost(rest);
      }
    }
  }

  lemma HostPrefix(line: seq<byte>, more: seq<byte>)
    ensures |line| > 5 ==> (StartsWithHost(line + more) <==> StartsWithHost(line))
  {
  }

  /**
   * For every request with a complete header section the parser finds the first Host
   * line, whatever follows the blank line; without one it reports that there is none.
   */
  lemma CompleteRequest(lines: seq<seq<byte>>, body: seq<byte>)
    requires WellFormed(lines)
    ensures Http.Parse(Section(lines) + body) == Done(HostOf(lines[1..]))
  {
    var d := Section(lines) + body;
    assert [lines[0]] + lines[1..] == lines;
    ScanFrom(lines[0], lines[1..], body);
    ParseIs(d);
    assert d == lines[0] + CRLF + Section(lines[1..]) + body;
  }

  // ---------------------------------------------------------------- what trimming and stripping mean

  /** TrimBlanks removes exactly the leading blanks. */
  lemma {:induction false} TrimSpec(blanks: seq<byte>, value: seq<byte>)
    requires forall i :: 0 <= i < |blanks| ==> Blank(blanks[i])
    requires value == [] || !Blank(value[0])
    ensures TrimBlanks(blanks + value) == value
  {
    if blanks == [] {
      assert blanks + value == value;
    } else {
      TrimSpec(blanks[1..], value);
      assert (blanks + value)[1..] == blanks[1..] + value;
    }
  }

  lemma {:induction false} StripDigits(host: seq<byte>, digits: seq<byte>, i: nat)
    requires AllDigits(digits) && |host| + 1 <= i <= |host| + 1 + |digits|
    ensures StripPortFrom(host + [COLON] + digits, i) == host
    decreases i
  {
    var s := host + [COLON] + digits;
    if i == |host| + 1 {
      assert s[i - 1] == COLON && s[..i - 1] == host;
    } else {
      assert s[i - 1] == digits[i - 1 - |host| - 1];
      StripDigits(host, digits, i - 1);
    }
  }

  /** A colon followed only by digits is removed. */
  lemma StripSpec(host: seq<byte>, digits: seq<byte>)
    requires AllDigits(digits)
    ensures StripPort(host + [COLON] + digits) == host
  {
    StripDigits(host, digits, |host| + 1 + |digits|);
  }

  /** Text without such a suffix is left alone. */
  lemma {:induction false} StripNothing(s: seq<byte>, i: nat)
    requires i <= |s| && AllDigits(s[i..])
    requires forall k :: 0 <= k < |s| && s[k] == COLON ==> !AllDigits(s[k + 1..])
    ensures StripPortFrom(s, i) == s
    decreases i
  {
    if i > 0 && s[i - 1] == COLON {
      assert false;
    } else if i > 0 && IsDigit(s[i - 1]) {
      assert s[i - 1..] == [s[i - 1]] + s[i..];
      StripNothing(s, i - 1);
    }
  }

  lemma {:induction false} HostOfFirst(headers: seq<seq<byte>>, k: nat)
    requires k < |headers| && IsHostLine(headers[k])
    requires forall i :: 0 <= i < k ==> !IsHostLine(headers[i])
    ensures HostOf(headers) == Name(StripPort(TrimBlanks(headers[k][5..])))
  {
    if k > 0 { HostOfFirst(headers[1..], k - 1); }
  }

  /** Host: blanks host [":" digits] - the host comes back, with or without a port. */
  lemma HostFound(lines: seq<seq<byte>>, k: nat, name: seq<byte>, blanks: seq<byte>,
                  host: seq<byte>, port: seq<byte>, body: seq<byte>)
    requires WellFormed(lines) && 1 <= k < |lines|
    requires forall i :: 1 <= i < k ==> !IsHostLine(lines[i])
    requires SaysHost(name) && |name| == 5 && lines[k] == name + (blanks + (host + port)) && |lines[k]| > 5
    requires forall i :: 0 <= i < |blanks| ==> Blank(blanks[i])
    requires host + port == [] || !Blank((host + port)[0])
    requires || (port != [] && port[0] == COLON && AllDigits(port[1..]))
             || (port == [] && forall i :: 0 <= i < |host| && host[i] == COLON ==> !AllDigits(host[i + 1..]))
    ensures Http.Parse(Section(lines) + body) == Done(Name(host))
  {
    CompleteRequest(lines, body);
    HostOfFirst(lines[1..], k - 1);
    assert lines[k][5..] == blanks + (host + port);
    TrimSpec(blanks, host + port);
    if port != [] {
      assert host + port == host + [COLON] + port[1..];
      StripSpec(host, port[1..]);
    } else {
      assert host + port == host;
      StripNothing(host, |host|);
    }
  }
}
