/**
 Bytes and big-endian words.
 */
module Bytes {
  type byte = x: int | 0 <= x < 256

  type bytes = seq<byte>

  /** The bytes of a text without special characters. */
  function Ascii(s: string): bytes {
    seq(|s|, i requires 0 <= i < |s| => s[i] as int % 256)
  }

  const TWO_8: nat := 0x100
  const TWO_16: nat := 0x1_0000
  const TWO_32: nat := 0x1_0000_0000
  const TWO_63: nat := 0x8000_0000_0000_0000
  const TWO_64: nat := 0x1_0000_0000_0000_0000

  /** Values that n bytes can hold. */
  function Span(n: nat): nat {
    if n == 0 then 1 else 256 * Span(n - 1)
  }

  lemma Spans()
    ensures Span(1) == TWO_8 && Span(2) == TWO_16 && Span(4) == TWO_32 && Span(8) == TWO_64
  {
    assert Span(2) == 256 * Span(1);
    assert Span(4) == 256 * (256 * Span(2));
    assert Span(8) == 256 * (256 * (256 * (256 * Span(4))));
  }

  /** The n low-order bytes of v, most significant first. */
  function Big(v: nat, n: nat): (s: bytes)
    ensures |s| == n
  {
    if n == 0 then [] else Big(v / 256, n - 1) + [v % 256]
  }

  function FromBig(s: bytes): nat {
    if s == [] then 0 else 256 * FromBig(s[..|s| - 1]) + s[|s| - 1]
  }

  lemma {:induction false} BigRoundTrip(v: nat, n: nat)
    requires v < Span(n)
    ensures FromBig(Big(v, n)) == v
  {
    if n != 0 {
      BigRoundTrip(v / 256, n - 1);
      assert Big(v, n)[..n - 1] == Big(v / 256, n - 1);
    }
  }

  lemma {:induction false} FromBigBound(s: bytes)
    ensures FromBig(s) < Span(|s|)
  {
    if s != [] {
      FromBigBound(s[..|s| - 1]);
    }
  }

  lemma {:induction false} FromBigRoundTrip(s: bytes)
    ensures Big(FromBig(s), |s|) == s
  {
    if s != [] {
      FromBigRoundTrip(s[..|s| - 1]);
    }
  }
}
