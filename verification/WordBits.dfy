/** The word operations bit by bit. With `BitsDetermine` these laws say
  * everything about them.
  */
module WordBits {
  import opened Words

  predicate Bit(x: nat, i: nat) {
    x / Pow2(i) % 2 == 1
  }

  lemma Steps(a: int, b: int, d: int)
    requires a < b && d > 0
    ensures a * d + d <= b * d
  {
    assert (b - a - 1) * d >= 0;
  }

  /** A number has one quotient and one remainder. */
  lemma OneQuotient(d: int, q: int, r: int, k: int, t: int)
    requires 0 <= r < d && 0 <= t < d && q * d + r == k * d + t
    ensures q == k && r == t
  {
    if q < k { Steps(q, k, d); }
    if k < q { Steps(k, q, d); }
  }

  lemma Quotient(x: nat, d: int, q: int, r: int)
    requires 0 <= r < d && x == q * d + r
    ensures x / d == q && x % d == r
  {
    OneQuotient(d, q, r, x / d, x % d);
  }

  lemma HalfThenDivide(x: nat, p: int)
    requires p > 0
    ensures x / 2 / p == x / (2 * p)
  {
    var (q, r) := (x / 2 / p, x / 2 % p);
    assert x / 2 == q * p + r;
    Quotient(x, 2 * p, q, 2 * r + x % 2);
  }

  /** A bit above the lowest is a bit of the half. */
  lemma HalfBit(x: nat, i: nat)
    requires i > 0
    ensures Bit(x, i) <==> Bit(x / 2, i - 1)
  {
    HalfThenDivide(x, Pow2(i - 1));
  }

  lemma LowestBit(x: nat)
    ensures Bit(x, 0) <==> x % 2 == 1
  {
    assert Pow2(0) == 1;
  }

  lemma {:induction false} NoHighBits(x: nat, k: nat, i: nat)
    requires x < Pow2(k) && k <= i
    ensures !Bit(x, i)
    decreases k
  {
    if k == 0 {
      assert 0 / Pow2(i) == 0;
    } else {
      HalfBit(x, i);
      NoHighBits(x / 2, k - 1, i - 1);
    }
  }

  /** Numbers of `k` bits with the same bits are the same. */
  lemma {:induction false} BitsDetermine(x: nat, y: nat, k: nat)
    requires x < Pow2(k) && y < Pow2(k)
    requires forall i | 0 <= i < k :: Bit(x, i) <==> Bit(y, i)
    ensures x == y
  {
    if k > 0 {
      LowestBit(x);
      LowestBit(y);
      forall i | 0 <= i < k - 1 ensures Bit(x / 2, i) <==> Bit(y / 2, i) {
        HalfBit(x, i + 1);
        HalfBit(y, i + 1);
      }
      BitsDetermine(x / 2, y / 2, k - 1);
      assert Bit(x, 0) <==> Bit(y, 0);
    }
  }

  // ---- and, or-exclusive, not ----

  lemma XorHalves(x: nat, y: nat)
    ensures BitXor(x, y) % 2 == (x + y) % 2 && BitXor(x, y) / 2 == BitXor(x / 2, y / 2)
  {
    if x == 0 && y == 0 {
      assert BitXor(0, 0) == 0;
    } else {
      LowAndRest((x + y) % 2, BitXor(x / 2, y / 2));
    }
  }

  lemma LowAndRest(low: nat, rest: nat)
    requires low < 2
    ensures (low + 2 * rest) % 2 == low && (low + 2 * rest) / 2 == rest
  {
  }

  lemma OddSum(x: nat, y: nat)
    ensures (x + y) % 2 == 1 <==> (x % 2 == 1) != (y % 2 == 1)
  {
  }

  lemma {:induction false} XorBit(x: nat, y: nat, i: nat)
    ensures Bit(BitXor(x, y), i) <==> Bit(x, i) != Bit(y, i)
    decreases i
  {
    XorHalves(x, y);
    if i == 0 {
      LowestBit(x);
      LowestBit(y);
      LowestBit(BitXor(x, y));
      OddSum(x, y);
    } else {
      HalfBit(x, i);
      HalfBit(y, i);
      HalfBit(BitXor(x, y), i);
      XorBit(x / 2, y / 2, i - 1);
    }
  }

  lemma AndHalves(x: nat, y: nat)
    ensures BitAnd(x, y) % 2 == (if x % 2 == 1 && y % 2 == 1 then 1 else 0) && BitAnd(x, y) / 2 == BitAnd(x / 2, y / 2)
  {
    ParityOfProduct(x, y);
    if x == 0 {
      assert BitAnd(0, y / 2) == 0;
    } else {
      LowAndRest(if x % 2 == 1 && y % 2 == 1 then 1 else 0, BitAnd(x / 2, y / 2));
    }
  }

  lemma {:induction false} AndBit(x: nat, y: nat, i: nat)
    ensures Bit(BitAnd(x, y), i) <==> Bit(x, i) && Bit(y, i)
    decreases i
  {
    AndHalves(x, y);
    if i == 0 {
      LowestBit(x);
      LowestBit(y);
      LowestBit(BitAnd(x, y));
    } else {
      HalfBit(x, i);
      HalfBit(y, i);
      HalfBit(BitAnd(x, y), i);
      AndBit(x / 2, y / 2, i - 1);
    }
  }

  lemma ParityOfProduct(x: nat, y: nat)
    ensures (x % 2) * (y % 2) == if x % 2 == 1 && y % 2 == 1 then 1 else 0
  {
    if x % 2 == 0 { assert (x % 2) * (y % 2) == 0; } else { assert (x % 2) * (y % 2) == y % 2; }
  }

  lemma {:induction false} ComplementBit(x: nat, k: nat, i: nat)
    requires x < Pow2(k) && i < k
    ensures Bit(Pow2(k) - 1 - x, i) <==> !Bit(x, i)
    decreases k
  {
    var y := Pow2(k) - 1 - x;
    assert y / 2 == Pow2(k - 1) - 1 - x / 2;
    LowestBit(x);
    LowestBit(y);
    if i > 0 {
      HalfBit(x, i);
      HalfBit(y, i);
      ComplementBit(x / 2, k - 1, i - 1);
    }
  }

  // ---- shifts and rotations ----

  /** A number in two parts: the low `m` bits and the rest. */
  lemma {:induction false} JoinedBit(low: nat, high: nat, m: nat, i: nat)
    requires low < Pow2(m)
    ensures low + high * Pow2(m) >= 0
    ensures Bit(low + high * Pow2(m), i) <==> if i < m then Bit(low, i) else Bit(high, i - m)
    decreases m
  {
    assert high * Pow2(m) >= 0;
    if m > 0 {
      var x := low + high * Pow2(m);
      assert high * Pow2(m) == 2 * (high * Pow2(m - 1));
      assert x / 2 == low / 2 + high * Pow2(m - 1) && x % 2 == low % 2;
      LowestBit(x);
      LowestBit(low);
      if i > 0 {
        HalfBit(x, i);
        HalfBit(low, i);
        JoinedBit(low / 2, high, m - 1, i - 1);
      }
    }
  }

  lemma Parts(x: nat, p: int)
    requires p > 0
    ensures 0 <= x / p && 0 <= x % p < p && x == x % p + x / p * p
  {
    QuotientFits(x, p);
  }

  lemma SplitBit(x: nat, n: nat, i: nat)
    ensures 0 <= x / Pow2(n) && 0 <= x % Pow2(n) < Pow2(n)
    ensures Bit(x / Pow2(n), i) <==> Bit(x, i + n)
    ensures i < n ==> (Bit(x % Pow2(n), i) <==> Bit(x, i))
  {
    Parts(x, Pow2(n));
    JoinedBit(x % Pow2(n), x / Pow2(n), n, i + n);
    JoinedBit(x % Pow2(n), x / Pow2(n), n, i);
  }

  lemma Below(x: int, p: int, q: int, k: int, r: int)
    requires p > 0 && x == k * p + r && 0 <= r && x < q * p
    ensures k < q
  {
    if q < k { Steps(q, k, p); }
  }

  lemma QuotientIsBelow(x: nat, p: int, q: int, all: int)
    requires p > 0 && p * q == all && x < all
    ensures 0 <= x / p < q
  {
    QuotientFits(x, p);
    Below(x, p, q, x / p, x % p);
  }

  lemma QuotientBelow(x: Word, n: nat)
    requires n <= 32
    ensures 0 <= x / Pow2(n) < Pow2(32 - n)
  {
    Pow2Splits(n, 32);
    ModulusIsPow2();
    QuotientIsBelow(x, Pow2(n), Pow2(32 - n), Pow2(32));
  }

  // ---- the operations on words ----

  lemma WordXorBit(x: Word, y: Word, i: nat)
    ensures Bit(Xor(x, y), i) <==> Bit(x, i) != Bit(y, i)
  {
    XorBit(x, y, i);
  }

  lemma WordAndBit(x: Word, y: Word, i: nat)
    ensures Bit(And(x, y), i) <==> Bit(x, i) && Bit(y, i)
  {
    AndBit(x, y, i);
  }

  lemma NotBit(x: Word, i: nat)
    requires i < 32
    ensures Bit(Not(x), i) <==> !Bit(x, i)
  {
    ModulusIsPow2();
    ComplementBit(x, 32, i);
  }

  /** Shifting right fills with zeros from the top. */
  lemma ShiftRightBit(x: Word, n: nat, i: nat)
    ensures Bit(ShiftRight(x, n), i) <==> i + n < 32 && Bit(x, i + n)
  {
    SplitBit(x, n, i);
    ModulusIsPow2();
    if i + n >= 32 {
      NoHighBits(x, 32, i + n);
    }
  }

  lemma RotatedBit(high: nat, low: nat, x: Word, n: nat, i: nat)
    requires n <= 32 && i < 32 && high == x / Pow2(n) && low == x % Pow2(n) && high < Pow2(32 - n)
    ensures high + low * Pow2(32 - n) >= 0
    ensures Bit(high + low * Pow2(32 - n), i) <==> if i + n < 32 then Bit(x, i + n) else Bit(x, i + n - 32)
  {
    JoinedBit(high, low, 32 - n, i);
    if i + n < 32 {
      SplitBit(x, n, i);
    } else {
      SplitBit(x, n, i + n - 32);
    }
  }

  /** Rotating right moves every bit `n` places down, around the end. */
  lemma RotateRightBit(x: Word, n: nat, i: nat)
    requires n <= 32 && i < 32
    ensures Bit(RotateRight(x, n), i) <==> Bit(x, (i + n) % 32)
  {
    QuotientBelow(x, n);
    RotatedBit(x / Pow2(n), x % Pow2(n), x, n, i);
    Around(i + n);
  }

  lemma Around(k: nat)
    requires k < 64
    ensures k % 32 == if k < 32 then k else k - 32
  {
  }
}
