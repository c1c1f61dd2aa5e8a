/** What the request parsers of tls.c and http.c hand back. */
module Outcomes {
  import opened Bits

  /** A negative return code, or the host name copied out for the caller. */
  datatype Outcome = Code(code: int) | Name(host: seq<byte>)

  const INCOMPLETE: Outcome := Code(-1)
  const NO_NAME: Outcome := Code(-2)
  const INVALID: Outcome := Code(-5)

  /** strncpy: bytes up to the first NUL, then NULs. */
  function StrNCpy(s: seq<byte>): (r: seq<byte>)
    ensures |r| == |s|
    ensures 0 !in s ==> r == s
  {
    seq(|s|, i requires 0 <= i < |s| => if 0 in s[..i] then 0 else s[i])
  }

  /** A name is cut at its first NUL and padded to its length. */
  lemma CutAtNul(name: seq<byte>, rest: seq<byte>)
    requires 0 !in name
    ensures StrNCpy(name + [0] + rest) == name + seq(1 + |rest|, _ => 0)
  {
    var s := name + [0] + rest;
    forall i | 0 <= i < |s|
      ensures StrNCpy(s)[i] == (name + seq(1 + |rest|, _ => 0))[i]
    {
      if i <= |name| {
        assert s[..i] == name[..i];
      } else {
        assert s[..i][|name|] == 0;
      }
    }
  }
}
