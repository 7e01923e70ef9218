/** Bitwise operations on unsigned machine words, written out on natural numbers. */
module Bits {

  const U32: nat := 0x1_0000_0000
  const U64: nat := 0x1_0000_0000_0000_0000

  function And(x: nat, y: nat): nat
    decreases x
  {
    if x == 0 || y == 0 then 0
    else 2 * And(x / 2, y / 2) + (if x % 2 == 1 && y % 2 == 1 then 1 else 0)
  }

  function Or(x: nat, y: nat): nat
    decreases x
  {
    if x == 0 then y else if y == 0 then x
    else 2 * Or(x / 2, y / 2) + (if x % 2 == 1 || y % 2 == 1 then 1 else 0)
  }

  /** `~x` on a 32-bit word. */
  function Not32(x: nat): nat
    requires x < U32
  {
    U32 - 1 - x
  }

  /** `~x` on a 64-bit word. */
  function Not64(x: nat): nat
    requires x < U64
  {
    U64 - 1 - x
  }

  // One unfolding of each operation, valid for zero operands too.
  lemma AndStep(x: nat, y: nat)
    ensures And(x, y) == 2 * And(x / 2, y / 2) + (if x % 2 == 1 && y % 2 == 1 then 1 else 0)
  {
  }

  lemma OrStep(x: nat, y: nat)
    ensures Or(x, y) == 2 * Or(x / 2, y / 2) + (if x % 2 == 1 || y % 2 == 1 then 1 else 0)
  {
  }

  function Pow2(k: nat): (p: nat)
    ensures p > 0
  {
    if k == 0 then 1 else 2 * Pow2(k - 1)
  }

  /** Masking with the `w - k` high bits of a `w`-bit word rounds down to a multiple of 2^k. */
  lemma {:induction false} AndHighMask(x: nat, w: nat, k: nat)
    requires k <= w && x < Pow2(w)
    ensures Pow2(k) <= Pow2(w)
    ensures And(x, Pow2(w) - Pow2(k)) == x - x % Pow2(k)
  {
    if w == 0 {
    } else if k == 0 {
      AndAllOnes(x, w);
      assert x % 1 == 0;
    } else {
      AndHighMask(x / 2, w - 1, k - 1);
      var p := Pow2(k - 1);
      HalfMod(x, p);
      if k == w {
        assert x % Pow2(w) == x;
      }
    }
  }

  lemma {:induction false} AndAllOnes(x: nat, w: nat)
    requires x < Pow2(w)
    ensures And(x, Pow2(w) - 1) == x
  {
    if w != 0 && x != 0 {
      AndAllOnes(x / 2, w - 1);
      assert (Pow2(w) - 1) / 2 == Pow2(w - 1) - 1;
    }
  }

  lemma HalfMod(x: nat, p: nat)
    requires p > 0
    ensures x % (2 * p) == 2 * ((x / 2) % p) + x % 2
  {
    var q, r := (x / 2) / p, (x / 2) % p;
    assert x == (2 * p) * q + (2 * r + x % 2);
    ModUnique(x, 2 * p, q, 2 * r + x % 2);
  }

  lemma ModUnique(x: int, m: nat, q: int, r: nat)
    requires r < m && x == m * q + r
    ensures x % m == r && x / m == q
  {
    var d := x / m - q;
    assert m * d + x % m == r;
    assert d > 0 ==> m * d >= m;
    assert d < 0 ==> m * d <= -(m as int);
  }
}
