/** `uuid::Uuid`: a 128-bit identifier, ordered as its big-endian bytes (that is, as a number). */
module Ids {

  const UUID_BOUND: int := 0x1_0000_0000_0000_0000_0000_0000_0000_0000

  newtype Uuid = x: int | 0 <= x < 0x1_0000_0000_0000_0000_0000_0000_0000_0000

  function HexDigit(d: nat): (c: char)
    requires d < 16
    ensures ('0' <= c <= '9') || ('a' <= c <= 'f')
  {
    if d < 10 then ('0' as int + d) as char else ('a' as int + d - 10) as char
  }

  /** The lowest `n` hexadecimal digits of `x`, most significant first. */
  function Hex(x: nat, n: nat): (r: string)
    ensures |r| == n
  {
    if n == 0 then [] else Hex(x / 16, n - 1) + [HexDigit(x % 16)]
  }

  function Pow16(n: nat): (p: nat)
    ensures p > 0
  {
    if n == 0 then 1 else 16 * Pow16(n - 1)
  }

  lemma HexDigitInjective(a: nat, b: nat)
    requires a < 16 && b < 16 && HexDigit(a) == HexDigit(b)
    ensures a == b
  {
  }

  /** Distinct numbers below 16^n have distinct n-digit spellings. */
  lemma {:induction false} HexInjective(x: nat, y: nat, n: nat)
    requires x < Pow16(n) && y < Pow16(n) && Hex(x, n) == Hex(y, n)
    ensures x == y
  {
    if n > 0 {
      var hx, hy := Hex(x, n), Hex(y, n);
      assert hx[n - 1] == HexDigit(x % 16) && hy[n - 1] == HexDigit(y % 16);
      HexDigitInjective(x % 16, y % 16);
      assert hx[..n - 1] == Hex(x / 16, n - 1) && hy[..n - 1] == Hex(y / 16, n - 1);
      HexInjective(x / 16, y / 16, n - 1);
    }
  }

  lemma {:induction false} Pow16Add(a: nat, b: nat)
    ensures Pow16(a + b) == Pow16(a) * Pow16(b)
  {
    if a > 0 { Pow16Add(a - 1, b); }
  }

  lemma Pow16Of32()
    ensures Pow16(32) == UUID_BOUND
  {
    assert Pow16(2) == 256;
    Pow16Add(2, 2);
    Pow16Add(4, 4);
    Pow16Add(8, 8);
    Pow16Add(16, 16);
  }

  /** `Display for Uuid`: the hyphenated lower-case form, 8-4-4-4-12 digits. */
  function Hyphenated(u: Uuid): (r: string)
    ensures |r| == 36 && r[8] == '-' && r[13] == '-' && r[18] == '-' && r[23] == '-'
  {
    var h := Hex(u as nat, 32);
    h[..8] + "-" + h[8..12] + "-" + h[12..16] + "-" + h[16..20] + "-" + h[20..]
  }

  /** Two ids with the same text are the same id. */
  lemma HyphenatedInjective(u: Uuid, v: Uuid)
    requires Hyphenated(u) == Hyphenated(v)
    ensures u == v
  {
    var hu, hv := Hex(u as nat, 32), Hex(v as nat, 32);
    var su, sv := Hyphenated(u), Hyphenated(v);
    forall i | 0 <= i < 32 ensures hu[i] == hv[i] {
      var j := if i < 8 then i else if i < 12 then i + 1 else if i < 16 then i + 2
               else if i < 20 then i + 3 else i + 4;
      assert su[j] == hu[i] && sv[j] == hv[i];
    }
    assert hu == hv;
    Pow16Of32();
    HexInjective(u as nat, v as nat, 32);
  }
}
