/** 32-bit words as integers, with the wrap-around written out. Bitwise
  * operations work bit by bit, so that nothing here leaves the integers.
  */
module Words {

  const MODULUS := 0x1_0000_0000

  type Word = x: int | 0 <= x < MODULUS

  function Plus(x: Word, y: Word): Word { (x + y) % MODULUS }

  function Minus(x: Word, y: Word): Word { (x - y) % MODULUS }

  lemma PlusThenMinus(x: Word, y: Word)
    ensures Minus(Plus(x, y), y) == x && Plus(Minus(x, y), y) == x
    ensures Plus(x, y) == Plus(y, x)
  {
  }

  /** Four words added in either order. */
  lemma SumReversed(x: Word, y: Word, z: Word, t: Word)
    ensures Plus(Plus(Plus(x, y), z), t) == Plus(Plus(Plus(t, z), y), x)
  {
    PlusWraps(x + y, z);
    PlusWraps(x + y + z, t);
    PlusWraps(t + z, y);
    PlusWraps(t + z + y, x);
  }

  lemma PlusWraps(x: int, y: Word)
    ensures Plus(x % MODULUS, y) == (x + y) % MODULUS
  {
  }

  function Pow2(k: nat): (p: nat)
    ensures p > 0
  {
    if k == 0 then 1 else 2 * Pow2(k - 1)
  }

  function BitXor(x: nat, y: nat): nat
    decreases x + y
  {
    if x == 0 && y == 0 then 0 else (x + y) % 2 + 2 * BitXor(x / 2, y / 2)
  }

  function BitAnd(x: nat, y: nat): nat
    decreases x
  {
    if x == 0 then 0 else (x % 2) * (y % 2) + 2 * BitAnd(x / 2, y / 2)
  }

  lemma {:induction false} BitwiseFits(x: nat, y: nat, k: nat)
    requires x < Pow2(k) && y < Pow2(k)
    ensures BitXor(x, y) < Pow2(k) && BitAnd(x, y) < Pow2(k)
  {
    if k > 0 {
      BitwiseFits(x / 2, y / 2, k - 1);
    }
  }

  lemma ModulusIsPow2()
    ensures Pow2(32) == MODULUS
  {
    assert Pow2(8) == 256;
    assert Pow2(16) == 256 * Pow2(8);
    assert Pow2(24) == 256 * Pow2(16);
  }

  function Xor(x: Word, y: Word): Word {
    ModulusIsPow2();
    BitwiseFits(x, y, 32);
    BitXor(x, y)
  }

  function And(x: Word, y: Word): Word {
    ModulusIsPow2();
    BitwiseFits(x, y, 32);
    BitAnd(x, y)
  }

  function Not(x: Word): Word { MODULUS - 1 - x }

  lemma {:induction false} Grows(q: nat, p: nat)
    requires p > 0
    ensures q <= q * p
  {
    if p > 1 {
      Grows(q, p - 1);
    }
  }

  lemma QuotientFits(x: int, p: int)
    requires 0 <= x && p > 0
    ensures 0 <= x / p <= x
  {
    Grows(x / p, p);
    assert (x / p) * p <= x;
  }

  function ShiftRight(x: Word, n: nat): Word {
    QuotientFits(x, Pow2(n));
    x / Pow2(n)
  }

  /** The bits shifted out come back in at the top. */
  function RotateRight(x: Word, n: nat): Word
    requires n <= 32
  {
    RotationFits(x, n);
    x / Pow2(n) + (x % Pow2(n)) * Pow2(32 - n)
  }

  lemma {:induction false} Pow2Splits(n: nat, k: nat)
    requires n <= k
    ensures Pow2(n) * Pow2(k - n) == Pow2(k)
  {
    if n > 0 {
      Pow2Splits(n - 1, k - 1);
    }
  }

  lemma RotationFits(x: Word, n: nat)
    requires n <= 32
    ensures 0 <= x / Pow2(n) + (x % Pow2(n)) * Pow2(32 - n) < MODULUS
  {
    Pow2Splits(n, 32);
    ModulusIsPow2();
    HalvesFit(x, Pow2(n), Pow2(32 - n));
  }

  lemma HalvesFit(x: Word, p: int, q: int)
    requires p > 0 && q > 0 && p * q == MODULUS
    ensures 0 <= x / p + (x % p) * q < MODULUS
  {
    assert x / p < q by {
      assert (x / p) * p <= x < q * p;
    }
    assert (p - 1 - x % p) * q >= 0;
    assert (p - 1) * q == MODULUS - q;
  }
}
