/** C strings as byte sequences, and decimal numerals as printf writes them. */
module Text {
  import opened Bits

  function Ascii(s: string): (r: seq<byte>)
    ensures |r| == |s|
  {
    seq(|s|, i requires 0 <= i < |s| => (s[i] as int) % 256)
  }

  lemma Reassociate(a: seq<byte>, b: seq<byte>, c: seq<byte>)
    ensures a + (b + c) == (a + b) + c
    ensures c == [] ==> b + c == b
  {
  }

  const CR: byte := 13
  const LF: byte := 10
  const COLON: byte := 58
  const DOLLAR: byte := 36

  /** tolower. */
  function Lower(b: byte): byte { if 65 <= b <= 90 then b + 32 else b }

  predicate IsDigit(b: byte) { 48 <= b <= 57 }

  predicate AllDigits(s: seq<byte>) {
    forall i :: 0 <= i < |s| ==> IsDigit(s[i])
  }

  /** printf("%u"). */
  function Decimal(n: nat): (s: seq<byte>)
    ensures |s| > 0 && AllDigits(s)
  {
    if n < 10 then [48 + n] else Decimal(n / 10) + [48 + n % 10]
  }

  /** atoi on a digit string. */
  function Number(s: seq<byte>): (n: nat)
    requires AllDigits(s)
  {
    if s == [] then 0 else 10 * Number(s[..|s| - 1]) + (s[|s| - 1] - 48)
  }

  lemma {:induction false} NumberOfDecimal(n: nat)
    ensures Number(Decimal(n)) == n
  {
    if n >= 10 {
      NumberOfDecimal(n / 10);
      var s := Decimal(n);
      assert s[..|s| - 1] == Decimal(n / 10);
    }
  }

  lemma DecimalOfPort(n: nat)
    requires n <= 65535
    ensures |Decimal(n)| <= 5
  {
    DecimalLength(n, 5);
  }

  lemma {:induction false} DecimalLength(n: nat, k: nat)
    requires 0 < k <= 5 && n < [1, 10, 100, 1000, 10000, 100000][k]
    ensures |Decimal(n)| <= k
  {
    if n >= 10 {
      DecimalLength(n / 10, k - 1);
    }
  }
}
