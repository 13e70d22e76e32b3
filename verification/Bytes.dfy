/** Octets, and the little-endian fields that every wire and storage layout uses. */
module Bytes {
  type byte = x: int | 0 <= x < 256

  const U16_MAX := 0xFFFF
  const U32_MAX := 0xFFFF_FFFF
  const U64_MAX := 0xFFFF_FFFF_FFFF_FFFF

  type u16 = x: int | 0 <= x <= U16_MAX
  type u32 = x: int | 0 <= x <= U32_MAX
  type u64 = x: int | 0 <= x <= U64_MAX

  /** A 32-bit counter after `n`. */
  function Next(n: u32): u32
  {
    if n == U32_MAX then 0 else n + 1
  }

  function Pow256(n: nat): (p: nat)
    ensures p >= 1
  {
    if n == 0 then 1 else 256 * Pow256(n - 1)
  }

  /** The low `n` octets of `v`, least significant first; higher octets are dropped,
      as the C stores through `uint8_t` casts drop them. */
  function Le(v: nat, n: nat): (s: seq<byte>)
    ensures |s| == n
  {
    if n == 0 then [] else [v % 256] + Le(v / 256, n - 1)
  }

  function LeValue(s: seq<byte>): nat
  {
    if s == [] then 0 else s[0] + 256 * LeValue(s[1..])
  }

  /** Reading back an `n`-octet field gives the stored value modulo 256^n. */
  lemma {:induction false} LeRoundTrip(v: nat, n: nat)
    requires v < Pow256(n)
    ensures LeValue(Le(v, n)) == v
  {
    if n > 0 {
      assert v / 256 < Pow256(n - 1);
      LeRoundTrip(v / 256, n - 1);
      assert Le(v, n)[1..] == Le(v / 256, n - 1);
    }
  }

  lemma {:induction false} LeBound(s: seq<byte>)
    ensures LeValue(s) < Pow256(|s|)
  {
    if s != [] {
      LeBound(s[1..]);
    }
  }

  /** Writing back what was read gives the same octets. */
  lemma {:induction false} LeOfValue(s: seq<byte>)
    ensures Le(LeValue(s), |s|) == s
  {
    if s != [] {
      LeOfValue(s[1..]);
      assert LeValue(s) / 256 == LeValue(s[1..]) && LeValue(s) % 256 == s[0];
    }
  }

  lemma LeRoundTrip2(v: u16)
    ensures LeValue(Le(v, 2)) == v
  {
    assert Pow256(2) == 0x1_0000;
    LeRoundTrip(v, 2);
  }

  lemma LeRoundTrip4(v: u32)
    ensures LeValue(Le(v, 4)) == v
  {
    assert Pow256(4) == 256 * (256 * (256 * (256 * Pow256(0))));
    LeRoundTrip(v, 4);
  }

  lemma LeRoundTrip8(v: u64)
    ensures LeValue(Le(v, 8)) == v
  {
    assert Pow256(4) == 256 * (256 * (256 * (256 * Pow256(0))));
    assert Pow256(8) == 256 * (256 * (256 * (256 * Pow256(4))));
    LeRoundTrip(v, 8);
  }

  /** Two equal-length fields with the same value hold the same octets. */
  lemma {:induction false} LeInjective(a: seq<byte>, b: seq<byte>)
    requires |a| == |b| && LeValue(a) == LeValue(b)
    ensures a == b
  {
    if a != [] {
      assert a[0] == LeValue(a) % 256 == b[0];
      LeInjective(a[1..], b[1..]);
      assert a == [a[0]] + a[1..] && b == [b[0]] + b[1..];
    }
  }
}
