/** Pattern expansion for backend addresses: apply_pattern of backend.c. */
module Pattern {
  import opened Bits
  import opened Text
  import opened Options

  const MAX_EXPANSION: nat := 1024

  // ---------------------------------------------------------------- substitution

  /** The text a pattern stands for; None when it refers to a group that did not take part. */
  function Expand(pattern: seq<byte>, groups: seq<seq<byte>>): Option<seq<byte>> {
    if pattern == [] then Some([])
    else if pattern[0] == DOLLAR && |pattern| > 1 then
      if IsDigit(pattern[1]) then
        var n := pattern[1] - 48;
        if n >= |groups| then None else Prepend(groups[n], Expand(pattern[2..], groups))
      else Prepend([pattern[1]], Expand(pattern[2..], groups))
    else Prepend([pattern[0]], Expand(pattern[1..], groups))
  }

  function Prepend(s: seq<byte>, rest: Option<seq<byte>>): Option<seq<byte>> {
    if rest.None? then None else Some(s + rest.value)
  }

  /** The expansion exists and leaves room for the terminator. */
  predicate Fits(pattern: seq<byte>, groups: seq<seq<byte>>, room: nat) {
    Expand(pattern, groups).Some? && |Expand(pattern, groups).value| < room
  }

  // ---------------------------------------------------------------- the loop

  /** pcre_copy_substring: copies a group and a terminator, or fails and copies nothing. */
  method CopySubstring(groups: seq<seq<byte>>, n: nat, dst: array<byte>, at: nat, room: nat) returns (ret: int)
    requires at + room <= dst.Length
    modifies dst
    ensures ret >= 0 <==> n < |groups| && |groups[n]| < room
    ensures ret >= 0 ==> ret == |groups[n]| && dst[at..at + ret] == groups[n]
    ensures ret < 0 ==> dst[..] == old(dst[..])
    ensures forall k :: 0 <= k < dst.Length && !(at <= k < at + room) ==> dst[k] == old(dst[k])
  {
    if n >= |groups| {
      return -7;
    }
    var g := groups[n];
    if room < |g| + 1 {
      return -6;
    }
    for i := 0 to |g|
      invariant dst[at..at + i] == g[..i]
      invariant forall k :: 0 <= k < dst.Length && !(at <= k < at + room) ==> dst[k] == old(dst[k])
    {
      dst[at + i] := g[i];
    }
    dst[at + |g|] := 0;
    assert dst[at..at + |g|] == g;
    ret := |g|;
  }

  /**
   * apply_pattern: succeeds exactly when every group exists and the expansion is shorter
   * than the capacity; then the expansion and a terminator are written. Nothing at or
   * beyond the capacity is touched on any input.
   */
  method ApplyPattern(pattern: seq<byte>, groups: seq<seq<byte>>, dst: array<byte>, resultLen: nat)
    returns (ok: bool)
    requires resultLen <= dst.Length
    modifies dst
    ensures ok <==> Fits(pattern, groups, if resultLen > MAX_EXPANSION then MAX_EXPANSION else resultLen)
    ensures ok ==> var e := Expand(pattern, groups).value;
                   |e| < dst.Length && dst[..|e|] == e && dst[|e|] == 0
    ensures forall k :: MAX_EXPANSION <= k < dst.Length ==> dst[k] == old(dst[k])
    ensures forall k :: resultLen <= k < dst.Length ==> dst[k] == old(dst[k])
  {
    var capacity := if resultLen > MAX_EXPANSION then MAX_EXPANSION else resultLen;
    var length, src, at := capacity, 0, 0;
    ghost var done: seq<byte> := [];
    assert pattern[0..] == pattern;
    PrependNothing(Expand(pattern, groups));
    while length > 0 && src < |pattern|
      invariant src <= |pattern| && 0 <= at <= capacity && at + length == capacity && at == |done|
      invariant dst[..at] == done
      invariant Expand(pattern, groups) == Prepend(done, Expand(pattern[src..], groups))
      invariant forall k :: capacity <= k < dst.Length ==> dst[k] == old(dst[k])
      decreases |pattern| - src
    {
      ghost var rest := pattern[src..];
      var piece: seq<byte>;
      if pattern[src] == DOLLAR && src + 1 < |pattern| {
        assert rest[2..] == pattern[src + 2..];
        if IsDigit(pattern[src + 1]) {
          var n := pattern[src + 1] - 48;
          var ret := CopySubstring(groups, n, dst, at, length);
          if ret < 0 {
            TooLong(pattern, groups, done, rest, n, capacity);
            return false;
          }
          piece := groups[n];
        } else {
          dst[at] := pattern[src + 1];
          piece := [pattern[src + 1]];
        }
        src := src + 2;
      } else {
        assert rest[1..] == pattern[src + 1..];
        dst[at] := pattern[src];
        piece := [pattern[src]];
        src := src + 1;
      }
      PrependTwice(done, piece, Expand(pattern[src..], groups));
      at, length, done := at + |piece|, length - |piece|, done + piece;
      assert dst[..at] == done;
    }
    if length > 0 {
      assert pattern[src..] == [];
      assert done + [] == done;
      dst[at] := 0;
      return true;
    }
    ok := false;
  }

  lemma PrependNothing(rest: Option<seq<byte>>)
    ensures Prepend([], rest) == rest
  {
    if rest.Some? { assert [] + rest.value == rest.value; }
  }

  lemma PrependTwice(a: seq<byte>, b: seq<byte>, rest: Option<seq<byte>>)
    ensures Prepend(a, Prepend(b, rest)) == Prepend(a + b, rest)
  {
    if rest.Some? { assert a + (b + rest.value) == (a + b) + rest.value; }
  }

  lemma TooLong(pattern: seq<byte>, groups: seq<seq<byte>>, done: seq<byte>, rest: seq<byte>, n: nat, capacity: nat)
    requires |rest| > 1 && rest[0] == DOLLAR && IsDigit(rest[1]) && n == rest[1] - 48
    requires Expand(pattern, groups) == Prepend(done, Expand(rest, groups))
    requires n >= |groups| || |done| + |groups[n]| >= capacity
    ensures !Fits(pattern, groups, capacity)
  {
  }

  // ---------------------------------------------------------------- what patterns mean

  /** The pieces a pattern can be written from; 36 is the dollar sign. */
  datatype Token = Plain(b: byte) | Escaped(b: byte) | Group(n: nat)

  predicate ValidToken(t: Token) {
    match t
    case Plain(b) => b != 36
    case Escaped(b) => !IsDigit(b)
    case Group(n) => n < 10
  }

  function RenderOne(t: Token): seq<byte>
    requires ValidToken(t)
  {
    match t
    case Plain(b) => [b]
    case Escaped(b) => [36, b]
    case Group(n) => var digit: byte := 48 + n; [36, digit]
  }

  function Render(ts: seq<Token>): seq<byte>
    requires forall i :: 0 <= i < |ts| ==> ValidToken(ts[i])
  {
    if ts == [] then [] else RenderOne(ts[0]) + Render(ts[1..])
  }

  /** Every group referred to took part in the match. */
  predicate Resolvable(ts: seq<Token>, groups: seq<seq<byte>>) {
    forall i :: 0 <= i < |ts| ==> ts[i].Group? ==> ts[i].n < |groups|
  }

  /** Each piece replaced by what it stands for. */
  function Meaning(ts: seq<Token>, groups: seq<seq<byte>>): seq<byte>
    requires Resolvable(ts, groups)
  {
    if ts == [] then []
    else (if ts[0].Group? then groups[ts[0].n] else [ts[0].b]) + Meaning(ts[1..], groups)
  }

  /** Expansion substitutes every piece of a written pattern and nothing else. */
  lemma {:induction false} ExpandRendered(ts: seq<Token>, groups: seq<seq<byte>>)
    requires forall i :: 0 <= i < |ts| ==> ValidToken(ts[i])
    ensures Expand(Render(ts), groups) ==
            if Resolvable(ts, groups) then Some(Meaning(ts, groups)) else None
  {
    if ts != [] {
      var p, one, rest := Render(ts), RenderOne(ts[0]), Render(ts[1..]);
      ExpandRendered(ts[1..], groups);
      assert p[|one|..] == rest && p[..|one|] == one;
      assert Resolvable(ts, groups) <==>
             (ts[0].Group? ==> ts[0].n < |groups|) && Resolvable(ts[1..], groups) by {
        assert ts == [ts[0]] + ts[1..];
      }
    }
  }
}
