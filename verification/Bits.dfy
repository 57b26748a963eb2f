/** 64-bit masks as numbers: their bits, and the operators on them. */
module Bits {
  const WIDTH: nat := 64
  const LIMIT: nat := 0x1_0000_0000_0000_0000
  const ALL_ONES: Mask := 0xFFFF_FFFF_FFFF_FFFF

  type Mask = m: int | 0 <= m < LIMIT

  predicate Bit(m: nat, i: nat) {
    if i == 0 then m % 2 == 1 else Bit(m / 2, i - 1)
  }

  /** No bit of m is at n or above. */
  predicate Fits(m: nat, n: nat) {
    if n == 0 then m == 0 else Fits(m / 2, n - 1)
  }

  /** 1 << k */
  function Pow2(k: nat): nat {
    if k == 0 then 1 else 2 * Pow2(k - 1)
  }

  /** a | b */
  function Or(a: nat, b: nat): nat {
    if a == 0 then b
    else 2 * Or(a / 2, b / 2) + (if a % 2 == 1 || b % 2 == 1 then 1 else 0)
  }

  /** m >> k */
  function Shr(m: nat, k: nat): nat {
    if k == 0 then m else Shr(m / 2, k - 1)
  }

  function Double(m: nat, k: nat): nat {
    if k == 0 then m else 2 * Double(m, k - 1)
  }

  /** The lowest n bits. */
  function Low(m: nat, n: nat): nat {
    if n == 0 then 0 else 2 * Low(m / 2, n - 1) + m % 2
  }

  /** m << k, what leaves the 64 bits being lost */
  function Shl(m: nat, k: nat): nat {
    Low(Double(m, k), WIDTH)
  }

  // ------------------------------------------------------------------ the bits of each

  lemma {:induction false} NoBits(i: nat)
    ensures !Bit(0, i)
  {
    if i > 0 {
      NoBits(i - 1);
    }
  }

  lemma {:induction false} OrBits(a: nat, b: nat, i: nat)
    ensures Bit(Or(a, b), i) <==> Bit(a, i) || Bit(b, i)
  {
    if a == 0 {
      NoBits(i);
    } else if i > 0 {
      OrBits(a / 2, b / 2, i - 1);
    }
  }

  lemma {:induction false} ShrBits(m: nat, k: nat, i: nat)
    ensures Bit(Shr(m, k), i) <==> Bit(m, i + k)
  {
    if k > 0 {
      ShrBits(m / 2, k - 1, i);
    }
  }

  lemma {:induction false} PowBits(k: nat, i: nat)
    ensures Bit(Pow2(k), i) <==> i == k
  {
    if k == 0 {
      if i > 0 {
        NoBits(i - 1);
      }
    } else if i > 0 {
      PowBits(k - 1, i - 1);
    }
  }

  lemma {:induction false} DoubleBits(m: nat, k: nat, i: nat)
    ensures Bit(Double(m, k), i) <==> i >= k && Bit(m, i - k)
  {
    if k > 0 && i > 0 {
      DoubleBits(m, k - 1, i - 1);
    }
  }

  lemma {:induction false} LowBits(m: nat, n: nat, i: nat)
    ensures Bit(Low(m, n), i) <==> i < n && Bit(m, i)
  {
    if n == 0 {
      NoBits(i);
    } else if i > 0 {
      LowBits(m / 2, n - 1, i - 1);
    }
  }

  lemma ShlBits(m: nat, k: nat, i: nat)
    ensures Bit(Shl(m, k), i) <==> k <= i < WIDTH && Bit(m, i - k)
  {
    LowBits(Double(m, k), WIDTH, i);
    DoubleBits(m, k, i);
  }

  /** Numbers with the same bits are the same. */
  lemma {:induction false} SameBits(a: nat, b: nat)
    requires forall i: nat :: Bit(a, i) <==> Bit(b, i)
    ensures a == b
  {
    assert Bit(a, 0) <==> Bit(b, 0);
    if a > 0 || b > 0 {
      forall i: nat
        ensures Bit(a / 2, i) <==> Bit(b / 2, i)
      {
        assert Bit(a, i + 1) <==> Bit(b, i + 1);
      }
      SameBits(a / 2, b / 2);
    }
  }

  // ------------------------------------------------------------------ staying within 64 bits

  lemma {:induction false} FitsBits(m: nat, n: nat, i: nat)
    requires Fits(m, n) && i >= n
    ensures !Bit(m, i)
  {
    if n == 0 {
      NoBits(i);
    } else {
      FitsBits(m / 2, n - 1, i - 1);
    }
  }

  lemma {:induction false} FitsIsBound(m: nat, n: nat)
    ensures Fits(m, n) <==> m < Pow2(n)
  {
    if n > 0 {
      FitsIsBound(m / 2, n - 1);
    }
  }

  lemma PowEight(k: nat)
    ensures Pow2(k + 8) == 0x100 * Pow2(k)
  {
    assert Pow2(k + 8) == 4 * Pow2(k + 6);
    assert Pow2(k + 6) == 4 * Pow2(k + 4);
    assert Pow2(k + 4) == 4 * Pow2(k + 2);
  }

  lemma LimitIsPow()
    ensures Pow2(WIDTH) == LIMIT
  {
    PowEight(0);
    PowEight(8);
    PowEight(16);
    PowEight(24);
    PowEight(32);
    PowEight(40);
    PowEight(48);
    PowEight(56);
  }

  lemma IsMask(m: nat)
    ensures Fits(m, WIDTH) <==> m < LIMIT
  {
    FitsIsBound(m, WIDTH);
    LimitIsPow();
  }

  lemma MaskBits(m: Mask, i: nat)
    requires i >= WIDTH
    ensures !Bit(m, i)
  {
    IsMask(m);
    FitsBits(m, WIDTH, i);
  }

  lemma {:induction false} OrFits(a: nat, b: nat, n: nat)
    requires Fits(a, n) && Fits(b, n)
    ensures Fits(Or(a, b), n)
  {
    if n > 0 && a > 0 {
      OrFits(a / 2, b / 2, n - 1);
    }
  }

  lemma {:induction false} PowFits(k: nat, n: nat)
    requires k < n
    ensures Fits(Pow2(k), n)
  {
    if k == 0 {
      ZeroFits(n - 1);
    } else {
      PowFits(k - 1, n - 1);
    }
  }

  lemma {:induction false} ZeroFits(n: nat)
    ensures Fits(0, n)
  {
    if n > 0 {
      ZeroFits(n - 1);
    }
  }

  lemma {:induction false} LowFits(m: nat, n: nat)
    ensures Fits(Low(m, n), n)
  {
    if n > 0 {
      LowFits(m / 2, n - 1);
    }
  }

  lemma AllOnesBits(i: nat)
    requires i < WIDTH
    ensures Bit(ALL_ONES, i)
  {
    LimitIsPow();
    OnesBits(ALL_ONES, WIDTH, i);
  }

  lemma {:induction false} OnesBits(m: nat, n: nat, i: nat)
    requires m == Pow2(n) - 1 && i < n
    ensures Bit(m, i)
  {
    var half := Pow2(n - 1);
    assert m == 2 * (half - 1) + 1;
    if i > 0 {
      OnesBits(half - 1, n - 1, i - 1);
    }
  }
}
