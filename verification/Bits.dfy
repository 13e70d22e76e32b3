/** Single bits of unsigned numbers. */
module Bits {
  import opened Crc32c

  /** `(v >> i) & 1`. */
  predicate Bit(v: nat, i: nat)
    decreases i
  {
    if i == 0 then v % 2 == 1 else Bit(v / 2, i - 1)
  }

  /** An `n`-bit number is determined by its bits. */
  lemma {:induction false} BitsDetermine(a: nat, b: nat, n: nat)
    requires a < Pow2(n) && b < Pow2(n)
    requires forall i: nat :: i < n ==> Bit(a, i) == Bit(b, i)
    ensures a == b
  {
    if n > 0 {
      assert Bit(a, 0) == Bit(b, 0);
      forall i: nat | i < n - 1
        ensures Bit(a / 2, i) == Bit(b / 2, i)
      {
        assert Bit(a, i + 1) == Bit(b, i + 1);
      }
      BitsDetermine(a / 2, b / 2, n - 1);
    }
  }

  /** `a & b` of the low `n` bits. */
  function And(a: nat, b: nat, n: nat): (r: nat)
    ensures r < Pow2(n)
  {
    if n == 0 then 0 else (if a % 2 == 1 && b % 2 == 1 then 1 else 0) + 2 * And(a / 2, b / 2, n - 1)
  }

  /** Every one of the low `n` bits of `b` is a bit of `a`. */
  predicate Within(b: nat, a: nat, n: nat)
  {
    forall i: nat :: i < n && Bit(b, i) ==> Bit(a, i)
  }

  lemma WithinHalf(b: nat, a: nat, n: nat)
    requires n > 0
    ensures Within(b, a, n) <==> (b % 2 == 1 ==> a % 2 == 1) && Within(b / 2, a / 2, n - 1)
  {
    if Within(b, a, n) {
      assert Bit(b, 0) ==> Bit(a, 0);
      forall i: nat | i < n - 1 && Bit(b / 2, i)
        ensures Bit(a / 2, i)
      {
        assert Bit(b, i + 1);
      }
    }
    if (b % 2 == 1 ==> a % 2 == 1) && Within(b / 2, a / 2, n - 1) {
      forall i: nat | i < n && Bit(b, i)
        ensures Bit(a, i)
      {
        if i > 0 {
          assert Bit(b / 2, i - 1);
        }
      }
    }
  }

  /** `(a & b) == b` says that the bits of `b` are within those of `a`. */
  lemma {:induction false} AndWithin(a: nat, b: nat, n: nat)
    requires b < Pow2(n)
    ensures And(a, b, n) == b <==> Within(b, a, n)
  {
    if n > 0 {
      AndWithin(a / 2, b / 2, n - 1);
      WithinHalf(b, a, n);
    }
  }
}
