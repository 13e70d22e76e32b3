/** CRC32C (Castagnoli): reflected polynomial 0x82F63B78, initial value and final xor
    0xFFFFFFFF.  The lookup table is computed here instead of being listed. */
module Crc32c {
  import opened Bytes

  const POLYNOMIAL := 0x82F6_3B78

  function Pow2(n: nat): (p: nat)
    ensures p >= 1
  {
    if n == 0 then 1 else 2 * Pow2(n - 1)
  }

  /** Bitwise exclusive or of the low `n` bits of `a` and `b`. */
  function Xor(a: nat, b: nat, n: nat): (r: nat)
    ensures r < Pow2(n)
  {
    if n == 0 then 0
    else (a % 2 + b % 2) % 2 + 2 * Xor(a / 2, b / 2, n - 1)
  }

  lemma Pow2Of32()
    ensures Pow2(32) == U32_MAX + 1
  {
    assert Pow2(8) == 256;
    assert Pow2(16) == 256 * Pow2(8);
    assert Pow2(24) == 256 * Pow2(16);
    assert Pow2(32) == 256 * Pow2(24);
  }

  function Xor32(a: u32, b: u32): u32
  {
    Pow2Of32();
    Xor(a, b, 32)
  }

  function TableRounds(c: u32, rounds: nat): u32
    decreases rounds
  {
    if rounds == 0 then c
    else TableRounds(if c % 2 == 1 then Xor32(c / 2, POLYNOMIAL) else c / 2, rounds - 1)
  }

  function Update(c: u32, b: byte): u32
  {
    Xor32(TableRounds(Xor32(c % 256, b) % 256, 8), c / 256)
  }

  function Fold(c: u32, data: seq<byte>): u32
    decreases |data|
  {
    if data == [] then c else Fold(Update(c, data[0]), data[1..])
  }

  function Crc(data: seq<byte>): u32
  {
    Xor32(Fold(U32_MAX, data), U32_MAX)
  }

  /** One more octet: what a streaming loop does at each step. */
  lemma {:induction false} FoldSnoc(c: u32, data: seq<byte>, b: byte)
    ensures Fold(c, data + [b]) == Update(Fold(c, data), b)
    decreases |data|
  {
    if data == [] {
      assert data + [b] == [b];
      assert [b][1..] == [];
    } else {
      assert (data + [b])[1..] == data[1..] + [b];
      FoldSnoc(Update(c, data[0]), data[1..], b);
    }
  }

  lemma {:induction false} FoldConcat(c: u32, a: seq<byte>, b: seq<byte>)
    ensures Fold(c, a + b) == Fold(Fold(c, a), b)
    decreases |a|
  {
    if a == [] {
      assert a + b == b;
    } else {
      assert (a + b)[1..] == a[1..] + b;
      FoldConcat(Update(c, a[0]), a[1..], b);
    }
  }
}
