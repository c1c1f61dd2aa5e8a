/**
 * The HTTP parser on a growing request. Unlike the TLS parser it may decide too early:
 * the theorem below says on exactly which inputs its decision is final.
 */
module HttpGrowth {
  import opened Bits
  import opened Outcomes
  import opened Text
  import opened Http
  import HttpProofs

  /** The measured line really ended: a CR follows it, or two more bytes were seen. */
  predicate LineClosed(d: seq<byte>) {
    var n := LineLength(d);
    n < |d| && (d[n] == CR || |d| - n > 1)
  }

  /** Every line the scan looked at, up to the one it stopped on, had ended. */
  predicate Decided(d: seq<byte>)
    requires |d| >= 2
    decreases |d|
  {
    var rest := SkipLine(d);
    var n := LineLength(rest);
    LineClosed(rest) && (n == 0 || (n > 5 && StartsWithHost(rest)) || Decided(rest))
  }

  lemma {:induction false} SkipExtends(d: seq<byte>, more: seq<byte>)
    requires |d| >= 2 && SkipLine(d) != []
    ensures SkipLine(d + more) == SkipLine(d) + more
  {
    var e := d + more;
    if |d| > 2 && !EndsHere(d) {
      SkipExtends(d[1..], more);
      assert e[1..] == d[1..] + more;
    } else {
      assert e[2..] == d[2..] + more;
    }
  }

  lemma {:induction false} LengthExtends(d: seq<byte>, more: seq<byte>)
    requires LineClosed(d)
    ensures LineLength(d + more) == LineLength(d)
  {
    var e := d + more;
    if |d| > 1 && !EndsHere(d) {
      LengthExtends(d[1..], more);
      assert e[1..] == d[1..] + more;
    }
  }

  /** A decision taken on ended lines is final. */
  lemma {:induction false} DecidedIsFinal(d: seq<byte>, more: seq<byte>)
    requires |d| >= 2 && Decided(d)
    ensures GetHost(d + more) == GetHost(d)
    decreases |d|
  {
    var rest := SkipLine(d);
    var n := LineLength(rest);
    SkipExtends(d, more);
    LengthExtends(rest, more);
    PrefixSame(rest, more, n);
    if n != 0 && !(n > 5 && StartsWithHost(rest)) {
      DecidedIsFinal(rest, more);
    }
  }

  lemma PrefixSame(rest: seq<byte>, more: seq<byte>, n: nat)
    requires n <= |rest|
    ensures (rest + more)[..n] == rest[..n]
    ensures n > 5 ==> (rest + more)[5..n] == rest[5..n]
    ensures n > 5 ==> (StartsWithHost(rest + more) <==> StartsWithHost(rest))
  {
  }

  // ---------------------------------------------------------------- undecided input

  /** The scan stops on a line it has not seen the end of. */
  lemma {:induction false} TailIncomplete(d: seq<byte>)
    requires |d| >= 2 && LineLength(d) == |d| - 1
    ensures SkipLine(d) == []
  {
    if |d| > 2 {
      TailIncomplete(d[1..]);
    }
  }

  const FILLER: byte := 120

  function Fill(k: nat): (s: seq<byte>)
    ensures |s| == k && forall i :: 0 <= i < k ==> s[i] == FILLER
  {
    seq(k, _ => FILLER)
  }

  /** k filler bytes and a line end. */
  function Padding(k: nat): seq<byte> { Fill(k) + [CR, LF] }

  lemma {:induction false} FillLength(k: nat)
    ensures LineLength(Padding(k)) == k
  {
    var p := Padding(k);
    if k > 0 {
      FillLength(k - 1);
      assert p[1..] == Padding(k - 1);
    }
  }

  /** An unfinished line goes on into the padding. */
  lemma {:induction false} OpenLineGrows(d: seq<byte>, k: nat)
    requires d != [] && !LineClosed(d) && k > 0
    ensures LineLength(d + Padding(k)) == |d| + k
  {
    var e := d + Padding(k);
    if |d| == 1 {
      FillLength(k);
      assert e[1..] == Padding(k);
    } else {
      OpenLineGrows(d[1..], k);
      assert e[1..] == d[1..] + Padding(k);
    }
  }

  lemma {:induction false} TrimLength(s: seq<byte>, k: nat)
    requires k > 0
    ensures |TrimBlanks(s + Fill(k))| >= k
    ensures var t := TrimBlanks(s + Fill(k)); t[|t| - 1] == FILLER
  {
    var e := s + Fill(k);
    if s == [] {
      assert e == Fill(k);
    } else if IsBlank(s[0]) {
      TrimLength(s[1..], k);
      assert e[1..] == s[1..] + Fill(k);
    }
  }

  lemma {:induction false} StripShorter(s: seq<byte>, i: nat)
    requires i <= |s|
    ensures |StripPortFrom(s, i)| <= |s|
  {
    if i > 0 { StripShorter(s, i - 1); }
  }

  lemma {:induction false} TrimShorter(s: seq<byte>)
    ensures |TrimBlanks(s)| <= |s|
  {
    if s != [] && IsBlank(s[0]) { TrimShorter(s[1..]); }
  }

  lemma HostStep(d: seq<byte>, rest: seq<byte>, value: seq<byte>)
    requires |d| >= 2 && rest == SkipLine(d) && LineLength(rest) > 5 && StartsWithHost(rest)
    requires value == rest[5..LineLength(rest)]
    ensures GetHost(d) == Name(StrNCpy(TrimBlanks(value)))
  {
  }

  lemma CutHostValue(d: seq<byte>, rest: seq<byte>)
    requires |d| >= 2 && rest == SkipLine(d) && !LineClosed(rest)
    requires LineLength(rest) > 5 && StartsWithHost(rest)
    ensures GetHost(d + Padding(|rest|)) == Name(StrNCpy(TrimBlanks(rest[5..] + Fill(|rest|))))
  {
    var k := |rest|;
    var more := Padding(k);
    SkipExtends(d, more);
    OpenLineGrows(rest, k);
    PrefixSame(rest, more, k);
    FilledValue(rest, k);
    HostStep(d + more, rest + more, rest[5..] + Fill(k));
  }

  lemma FilledValue(rest: seq<byte>, k: nat)
    requires |rest| == k > 5
    ensures (rest + Padding(k))[5..k + k] == rest[5..] + Fill(k)
  {
    assert rest + Padding(k) == rest[..5] + (rest[5..] + Fill(k)) + [CR, LF];
  }

  lemma LongerValue(value: seq<byte>, grown: seq<byte>)
    requires |value| < |grown| && grown[|grown| - 1] == FILLER
    ensures StripPort(StrNCpy(value)) != StripPort(StrNCpy(grown))
  {
    StripShorter(StrNCpy(value), |value|);
    assert StripPort(StrNCpy(grown)) == StrNCpy(grown);
  }

  lemma GrowsPast(value: seq<byte>, s: seq<byte>, k: nat)
    requires |value| < k
    ensures StripPort(StrNCpy(TrimBlanks(value))) != StripPort(StrNCpy(TrimBlanks(s + Fill(k))))
  {
    TrimShorter(value);
    TrimLength(s, k);
    LongerValue(TrimBlanks(value), TrimBlanks(s + Fill(k)));
  }

  /** A Host line cut off by the end of the input gets longer with more input. */
  lemma CutHostLine(d: seq<byte>, rest: seq<byte>)
    requires |d| >= 2 && rest == SkipLine(d) && !LineClosed(rest)
    requires LineLength(rest) > 5 && StartsWithHost(rest)
    ensures Http.Parse(d + Padding(|rest|)) != Http.Parse(d)
  {
    var value := rest[5..LineLength(rest)];
    HostStep(d, rest, value);
    CutHostValue(d, rest);
    GrowsPast(value, rest[5..], |rest|);
    HttpProofs.ParseIs(d);
    HttpProofs.ParseIs(d + Padding(|rest|));
  }

  const HOST_LINE: seq<byte> := [72, 111, 115, 116, 58, 120]
  const LATE_HOST: seq<byte> := [CR, LF] + HOST_LINE + [CR, LF]

  lemma LateHostFound(d: seq<byte>)
    requires |d| >= 2 && SkipLine(d) == HOST_LINE + [CR, LF]
    ensures GetHost(d).Name?
  {
    HostLineLength();
    var rest := HOST_LINE + [CR, LF];
    HostStep(d, rest, rest[5..6]);
  }

  lemma HostLineLength()
    ensures LineLength(HOST_LINE + [CR, LF]) == 6 && StartsWithHost(HOST_LINE + [CR, LF])
  {
    assert HOST_LINE + [CR, LF] == HOST_LINE + HttpProofs.CRLF + [];
    HttpProofs.CleanLineLength(HOST_LINE, []);
  }

  /** A single byte after the last line end is taken for a blank line, wrongly. */
  lemma CutAfterOneByte(d: seq<byte>, rest: seq<byte>)
    requires |d| >= 2 && rest == SkipLine(d) && |rest| == 1 && rest[0] != CR
    ensures Http.Parse(d) == Done(NO_NAME) && GetHost(d + LATE_HOST).Name?
  {
    var grown := rest + LATE_HOST;
    SkipExtends(d, LATE_HOST);
    LateHostLines();
    assert grown[1..] == LATE_HOST;
    assert LineLength(grown) == 1 + LineLength(LATE_HOST) == 1;
    assert SkipLine(grown) == SkipLine(LATE_HOST) == HOST_LINE + [CR, LF];
    LateHostFound(grown);
    HttpProofs.ParseIs(d);
  }

  /** LATE_HOST is an empty line end and then a Host line. */
  lemma LateHostLines()
    ensures SkipLine(LATE_HOST) == HOST_LINE + [CR, LF] && LineLength(LATE_HOST) == 0
  {
    var line := HOST_LINE + [CR, LF];
    assert LATE_HOST == [CR, LF] + line;
    assert ([CR, LF] + line)[2..] == line;
  }

  /** An early decision on an unfinished line can be overturned by what follows. */
  lemma {:induction false} UndecidedChanges(d: seq<byte>) returns (more: seq<byte>)
    requires |d| >= 2 && !Decided(d) && GetHost(d) != INCOMPLETE
    ensures Http.Parse(d + more) != Http.Parse(d)
    decreases |d|
  {
    var rest := SkipLine(d);
    var n := LineLength(rest);
    if LineClosed(rest) {
      more := UndecidedChanges(rest);
      SkipExtends(d, more);
      LengthExtends(rest, more);
      PrefixSame(rest, more, n);
      assert GetHost(d + more) == GetHost(rest + more);
      SameAnswers(d, rest, more);
    } else {
      OpenMeansLast(rest);
      if n == 0 {
        CutAfterOneByte(d, rest);
        more := LATE_HOST;
        HttpProofs.ParseIs(d + more);
      } else if n > 5 && StartsWithHost(rest) {
        CutHostLine(d, rest);
        more := Padding(|rest|);
      } else {
        TailIncomplete(rest);
        assert false;
      }
    }
  }

  lemma SameAnswers(d: seq<byte>, rest: seq<byte>, more: seq<byte>)
    requires |d| >= 2 && |rest| >= 2 && GetHost(d) == GetHost(rest) && GetHost(d + more) == GetHost(rest + more)
    ensures Http.Parse(d) == Http.Parse(rest) && Http.Parse(d + more) == Http.Parse(rest + more)
  {
    HttpProofs.ParseIs(d);
    HttpProofs.ParseIs(rest);
    HttpProofs.ParseIs(d + more);
    HttpProofs.ParseIs(rest + more);
  }

  lemma {:induction false} OpenMeansLast(d: seq<byte>)
    requires !LineClosed(d) && d != []
    ensures LineLength(d) == |d| - 1 && d[|d| - 1] != CR
  {
    if |d| > 1 && !EndsHere(d) { OpenMeansLast(d[1..]); }
  }

  /** An answer other than "incomplete" is final exactly when every line consulted had ended. */
  lemma FinalIffDecided(d: seq<byte>)
    requires |d| >= 2 && GetHost(d) != INCOMPLETE
    ensures (forall more :: Http.Parse(d + more) == Http.Parse(d)) <==> Decided(d)
  {
    if Decided(d) {
      forall more
        ensures Http.Parse(d + more) == Http.Parse(d)
      {
        DecidedIsFinal(d, more);
        HttpProofs.ParseIs(d);
        HttpProofs.ParseIs(d + more);
      }
    } else {
      var more := UndecidedChanges(d);
    }
  }
}
