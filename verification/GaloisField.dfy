/** Arithmetic of GF(256) modulo the QR polynomial 0x11D, and the exp/log tables the encoder builds.

    A natural number stands for the polynomial over GF(2) whose coefficients are its binary digits,
    so `Xor` is polynomial addition at every width and `2 * p` is multiplication by the variable. */
module GaloisField {

  type Byte = b: nat | b < 256

  /** The primitive polynomial x^8 + x^4 + x^3 + x^2 + 1. */
  const MODULUS: nat := 0x11D

  function Pow2(n: nat): (p: nat)
    ensures p > 0
  {
    if n == 0 then 1 else 2 * Pow2(n - 1)
  }

  // ----- addition of polynomials over GF(2) -----

  function Xor(a: nat, b: nat): nat
    decreases a + b
  {
    if a == 0 && b == 0 then 0 else 2 * Xor(a / 2, b / 2) + (if a % 2 == b % 2 then 0 else 1)
  }

  lemma {:induction false} XorZero(a: nat)
    ensures Xor(a, 0) == a && Xor(0, a) == a
  {
    if a != 0 { XorZero(a / 2); }
  }

  lemma {:induction false} XorSelf(a: nat)
    ensures Xor(a, a) == 0
  {
    if a != 0 { XorSelf(a / 2); }
  }

  lemma {:induction false} XorComm(a: nat, b: nat)
    ensures Xor(a, b) == Xor(b, a)
    decreases a + b
  {
    if a != 0 || b != 0 { XorComm(a / 2, b / 2); }
  }

  lemma XorHalves(a: nat, b: nat)
    ensures Xor(a, b) / 2 == Xor(a / 2, b / 2)
    ensures Xor(a, b) % 2 == 0 <==> a % 2 == b % 2
  {
  }

  lemma SameHalves(x: nat, y: nat)
    requires x / 2 == y / 2 && x % 2 == y % 2
    ensures x == y
  {
  }

  lemma {:induction false} XorAssoc(a: nat, b: nat, c: nat)
    ensures Xor(Xor(a, b), c) == Xor(a, Xor(b, c))
    decreases a + b + c
  {
    if a != 0 || b != 0 || c != 0 {
      var ab, bc := Xor(a, b), Xor(b, c);
      XorHalves(a, b); XorHalves(b, c); XorHalves(ab, c); XorHalves(a, bc);
      hide *;
      XorAssoc(a / 2, b / 2, c / 2);
      SameHalves(Xor(ab, c), Xor(a, bc));
    }
  }

  lemma XorCancel(a: nat, b: nat)
    ensures Xor(Xor(a, b), b) == a && Xor(b, Xor(b, a)) == a
  {
    XorAssoc(a, b, b); XorAssoc(b, b, a);
    XorSelf(b); XorZero(a);
  }

  lemma XorOfBits(a: nat, b: nat)
    requires a < 2 && b < 2
    ensures Xor(a, b) == if a == b then 0 else 1
  {
    XorSelf(a); XorZero(a); XorZero(b);
  }

  lemma XorDouble(a: nat, b: nat)
    ensures Xor(2 * a, 2 * b) == 2 * Xor(a, b)
    ensures Xor(2 * a, 2 * b + 1) == 2 * Xor(a, b) + 1
  {
  }

  /** (a + b) + (c + d) == (a + c) + (b + d) */
  lemma XorShuffle(a: nat, b: nat, c: nat, d: nat)
    ensures Xor(Xor(a, b), Xor(c, d)) == Xor(Xor(a, c), Xor(b, d))
  {
    XorAssoc(a, b, Xor(c, d)); XorAssoc(b, c, d); XorComm(b, c);
    XorAssoc(c, b, d); XorAssoc(a, c, Xor(b, d));
  }

  lemma XorIsZero(a: nat, b: nat)
    ensures Xor(a, b) == 0 <==> a == b
  {
    XorSelf(a);
    if Xor(a, b) == 0 { XorCancel(a, b); XorZero(b); }
  }

  /** The top bit of a sum is set exactly when it is set in one of the two terms. */
  lemma {:induction false} XorTopBit(a: nat, b: nat, n: nat)
    requires a < Pow2(n + 1) && b < Pow2(n + 1)
    ensures Xor(a, b) < Pow2(n + 1)
    ensures Xor(a, b) >= Pow2(n) <==> (a >= Pow2(n)) != (b >= Pow2(n))
  {
    if n == 0 {
      assert Pow2(1) == 2;
      XorZero(a); XorZero(b); XorSelf(a);
    } else {
      XorTopBit(a / 2, b / 2, n - 1);
    }
  }

  lemma XorByte(a: Byte, b: Byte)
    ensures Xor(a, b) < 256
  {
    assert Pow2(8) == 256;
    XorTopBit(a, b, 7);
  }

  function Add(a: Byte, b: Byte): Byte
  {
    XorByte(a, b);
    Xor(a, b)
  }

  // ----- multiplication by the variable, as the table loop does it -----

  function TimesX(a: Byte): Byte
  {
    if 2 * a >= 256 then
      assert Xor(2 * a, MODULUS) < 256 by {
        assert Pow2(8) == 256 && Pow2(9) == 512;
        XorTopBit(2 * a, MODULUS, 8);
      }
      Xor(2 * a, MODULUS)
    else 2 * a
  }

  lemma TimesXAdd(a: Byte, b: Byte)
    ensures TimesX(Add(a, b)) == Add(TimesX(a), TimesX(b))
  {
    var m := MODULUS;
    assert 2 * Xor(a, b) == Xor(2 * a, 2 * b);
    assert Pow2(7) == 128 && Pow2(8) == 256;
    XorTopBit(a, b, 7);
    XorAssoc(2 * a, 2 * b, m); XorAssoc(2 * a, m, 2 * b); XorComm(2 * b, m);
    XorShuffle(2 * a, m, 2 * b, m);
    XorSelf(m); XorZero(Xor(2 * a, 2 * b));
  }

  lemma TimesXNonzero(a: Byte)
    ensures TimesX(a) == 0 <==> a == 0
  {
    if 2 * a >= 256 { XorIsZero(2 * a, MODULUS); }
  }

  lemma TimesXInjective(a: Byte, b: Byte)
    ensures TimesX(a) == TimesX(b) <==> a == b
  {
    TimesXAdd(a, b);
    XorIsZero(TimesX(a), TimesX(b)); XorIsZero(a, b);
    TimesXNonzero(Add(a, b));
  }

  /** A byte is its low bit plus the variable times the rest. */
  lemma SplitByte(a: Byte)
    ensures a == Add(a % 2, TimesX(a / 2))
  {
    assert Xor(a % 2, 2 * (a / 2)) == 2 * Xor(0, a / 2) + a % 2;
    XorZero(a / 2);
  }

  // ----- the field product -----

  /** Shift-and-add product, reducing modulo MODULUS after every shift. The second factor may have any width. */
  function Mul(a: Byte, b: nat): Byte
    decreases b
  {
    if b == 0 then 0 else Add(if b % 2 == 1 then a else 0, Mul(TimesX(a), b / 2))
  }

  lemma {:induction false} MulZero(b: nat)
    ensures Mul(0, b) == 0
  {
    if b != 0 { MulZero(b / 2); }
  }

  lemma {:induction false} MulAddLeft(a: Byte, a': Byte, b: nat)
    ensures Mul(Add(a, a'), b) == Add(Mul(a, b), Mul(a', b))
    decreases b
  {
    if b != 0 {
      TimesXAdd(a, a');
      MulAddLeft(TimesX(a), TimesX(a'), b / 2);
      XorShuffle(if b % 2 == 1 then a else 0, Mul(TimesX(a), b / 2), if b % 2 == 1 then a'
        else 0, Mul(TimesX(a'), b / 2));
    }
  }

  lemma {:induction false} MulAddRight(a: Byte, b: nat, b': nat)
    ensures Mul(a, Xor(b, b')) == Add(Mul(a, b), Mul(a, b'))
    decreases b + b'
  {
    if b == 0 || b' == 0 {
      XorZero(b); XorZero(b'); XorZero(Mul(a, b)); XorZero(Mul(a, b'));
    } else {
      MulAddRight(TimesX(a), b / 2, b' / 2);
      MulStep(a, b); MulStep(a, b'); MulStep(a, Xor(b, b'));
      XorHalves(b, b');
      LowTermAdd(a, b, b');
      hide Xor, Mul, LowTerm, TimesX;
      XorShuffle(LowTerm(a, b), Mul(TimesX(a), b / 2), LowTerm(a, b'), Mul(TimesX(a), b' / 2));
    }
  }

  lemma LowTermAdd(a: Byte, b: nat, b': nat)
    ensures LowTerm(a, Xor(b, b')) == Add(LowTerm(a, b), LowTerm(a, b'))
  {
    XorHalves(b, b');
    hide Xor;
    XorSelf(a); XorZero(a); XorSelf(0);
  }

  function LowTerm(a: Byte, b: nat): Byte
  {
    if b % 2 == 1 then a else 0
  }

  lemma MulStep(a: Byte, b: nat)
    ensures Mul(a, b) == Add(LowTerm(a, b), Mul(TimesX(a), b / 2))
  {
    if b == 0 { XorZero(0); }
  }

  lemma {:induction false} MulTimesXLeft(a: Byte, b: nat)
    ensures Mul(TimesX(a), b) == TimesX(Mul(a, b))
    decreases b
  {
    if b != 0 {
      MulTimesXLeft(TimesX(a), b / 2);
      TimesXAdd(if b % 2 == 1 then a else 0, Mul(TimesX(a), b / 2));
    }
  }

  /** What annihilates 1 annihilates every byte. */
  lemma {:induction false} MulAnnihilates(a: Byte, m: nat)
    requires Mul(1, m) == 0
    ensures Mul(a, m) == 0
    decreases a
  {
    if a == 0 {
      MulZero(m);
    } else if a > 1 {
      MulAnnihilates(a / 2, m); MulAnnihilates(a % 2, m);
      SplitByte(a);
      MulAddLeft(a % 2, TimesX(a / 2), m);
      MulTimesXLeft(a / 2, m);
      XorZero(0);
    }
  }

  lemma MulModulus(a: Byte)
    ensures Mul(a, MODULUS) == 0
  {
    MulEvenStep(128, 1); MulEvenStep(64, 2); MulEvenStep(32, 4); MulOddStep(16, 8); MulOddStep(8, 17);
    MulOddStep(4, 35); MulEvenStep(2, 71); MulOddStep(1, 142); MulOne(29);
    hide Mul;
    assert Xor(256, 285) == 29 && Xor(16, 29) == 13 && Xor(8, 13) == 5 && Xor(4, 5) == 1 && Xor(1, 1) == 0;
    MulAnnihilates(a, MODULUS);
  }

  lemma MulEvenStep(a: Byte, b: nat)
    ensures Mul(a, 2 * b) == Mul(TimesX(a), b)
  {
    MulStep(a, 2 * b); XorZero(Mul(TimesX(a), b));
  }

  lemma MulOddStep(a: Byte, b: nat)
    ensures Mul(a, 2 * b + 1) == Add(a, Mul(TimesX(a), b))
  {
  }

  lemma MulTimesXRight(a: Byte, b: Byte)
    ensures Mul(a, TimesX(b)) == TimesX(Mul(a, b))
  {
    MulTimesXLeft(a, b);
    if b != 0 {
      assert Mul(a, 2 * b) == Add(0, Mul(TimesX(a), b));
      XorZero(Mul(TimesX(a), b));
    }
    if 2 * b >= 256 {
      MulAddRight(a, 2 * b, MODULUS);
      MulModulus(a);
      XorZero(Mul(a, 2 * b));
    }
  }

  lemma {:induction false} MulOne(a: Byte)
    ensures Mul(a, 1) == a && Mul(1, a) == a
  {
    XorZero(a);
    assert Mul(a, 1) == Add(a, Mul(TimesX(a), 0));
    if a != 0 {
      MulOne(a / 2);
      MulTimesXLeft(1, a / 2);
      SplitByte(a);
    }
  }

  lemma {:induction false} MulComm(a: Byte, b: Byte)
    ensures Mul(a, b) == Mul(b, a)
    decreases b
  {
    if b == 0 {
      MulZero(a);
    } else {
      MulComm(a, b / 2);
      MulTimesXLeft(a, b / 2);
      SplitByte(b);
      MulAddLeft(b % 2, TimesX(b / 2), a);
      MulTimesXLeft(b / 2, a);
      MulOne(a); MulZero(a);
    }
  }

  lemma {:induction false} MulAssoc(a: Byte, b: Byte, c: Byte)
    ensures Mul(Mul(a, b), c) == Mul(a, Mul(b, c))
    decreases c
  {
    if c != 0 {
      var low := if c % 2 == 1 then b else 0;
      MulAssoc(a, b, c / 2);
      MulTimesXLeft(Mul(a, b), c / 2);
      MulTimesXLeft(b, c / 2);
      MulTimesXRight(a, Mul(b, c / 2));
      MulAddRight(a, low, TimesX(Mul(b, c / 2)));
    }
  }

  // ----- the reference definition: carry-less product, then remainder modulo 0x11D -----

  /** Product of polynomials over GF(2), with no reduction. */
  function CarrylessMul(a: nat, b: nat): nat
    decreases b
  {
    if b == 0 then 0 else Xor(if b % 2 == 1 then a else 0, CarrylessMul(2 * a, b / 2))
  }

  /** Remainder modulo MODULUS by long division, one dividend bit at a time. */
  function Reduce(p: nat): Byte
  {
    if p < 256 then p else Add(TimesX(Reduce(p / 2)), p % 2)
  }

  lemma {:induction false} ReduceDouble(p: nat)
    ensures Reduce(2 * p) == TimesX(Reduce(p))
  {
    XorZero(TimesX(Reduce(p)));
    hide Xor;
    if p < 128 {
      assert Reduce(p) == p && Reduce(2 * p) == 2 * p;
    } else {
      assert (2 * p) / 2 == p && (2 * p) % 2 == 0;
      hide TimesX;
    }
  }

  lemma ReduceStep(p: nat)
    ensures Reduce(p) == Add(TimesX(Reduce(p / 2)), p % 2)
  {
    if p < 256 { SplitByte(p); XorComm(p % 2, TimesX(p / 2)); }
  }

  lemma {:induction false} ReduceAdd(p: nat, q: nat)
    ensures Reduce(Xor(p, q)) == Add(Reduce(p), Reduce(q))
    decreases p + q
  {
    if p < 256 && q < 256 {
      XorByte(p, q);
    } else {
      var p2, q2 := p / 2, q / 2;
      ReduceAdd(p2, q2);
      ReduceStep(p); ReduceStep(q); ReduceStep(Xor(p, q));
      XorHalves(p, q);
      TimesXAdd(Reduce(p2), Reduce(q2));
      XorShuffle(TimesX(Reduce(p2)), p % 2, TimesX(Reduce(q2)), q % 2);
      XorBit(p, q);
    }
  }

  lemma XorBit(p: nat, q: nat)
    ensures Xor(p % 2, q % 2) == Xor(p, q) % 2
  {
    XorHalves(p, q);
    XorOfBits(p % 2, q % 2);
  }

  /** The remainder differs from the dividend by a multiple of x^8 + x^4 + x^3 + x^2 + 1. */
  lemma {:induction false} ReduceQuotient(p: nat) returns (q: nat)
    ensures p == Xor(Reduce(p), CarrylessMul(0x11D, q))
  {
    if p < 256 {
      q := 0; XorZero(p);
    } else {
      var q' := ReduceQuotient(p / 2);
      q := QuotientStep(p, Reduce(p / 2), q');
    }
  }

  /** One step of the long division: bring down the next bit, subtract the modulus if the byte overflows. */
  lemma QuotientStep(p: nat, r: Byte, q': nat) returns (q: nat)
    requires p / 2 == Xor(r, CarrylessMul(MODULUS, q'))
    ensures p == Xor(Add(TimesX(r), p % 2), CarrylessMul(MODULUS, q))
  {
    var m, b, r2 := CarrylessMul(MODULUS, q'), p % 2, 2 * r;
    assert p == Xor(Xor(r2, b), 2 * m) by {
      XorDouble(p / 2, 0); XorDouble(r, m); XorZero(p / 2);
      XorAssoc(r2, 2 * m, b); XorComm(2 * m, b); XorAssoc(r2, b, 2 * m);
    }
    CarrylessEven(MODULUS, q');
    q := if r2 < 256 then 2 * q' else 2 * q' + 1;
    if r2 >= 256 {
      assert CarrylessMul(MODULUS, q) == Xor(MODULUS, 2 * m) by { CarrylessDouble(MODULUS, q'); }
      hide *;
      XorShuffle(TimesX(r), b, MODULUS, 2 * m);
      XorCancel(r2, MODULUS);
      assert TimesX(r) == Xor(r2, MODULUS);
      XorAssoc(r2, b, 2 * m);
    }
  }

  lemma {:induction false} CarrylessDouble(a: nat, b: nat)
    ensures CarrylessMul(2 * a, b) == 2 * CarrylessMul(a, b)
    decreases b
  {
    if b != 0 {
      CarrylessDouble(2 * a, b / 2);
      XorDouble(if b % 2 == 1 then a else 0, CarrylessMul(2 * a, b / 2));
    }
  }

  lemma CarrylessEven(a: nat, b: nat)
    ensures CarrylessMul(a, 2 * b) == 2 * CarrylessMul(a, b)
  {
    CarrylessDouble(a, b);
    XorZero(CarrylessMul(2 * a, b));
  }

  /** The field product is carry-less multiplication modulo 0x11D. */
  lemma {:induction false} MulIsCarrylessModulo(a: nat, b: nat)
    ensures Mul(Reduce(a), b) == Reduce(CarrylessMul(a, b))
    decreases b
  {
    if b != 0 {
      MulIsCarrylessModulo(2 * a, b / 2);
      ReduceDouble(a);
      ReduceAdd(if b % 2 == 1 then a else 0, CarrylessMul(2 * a, b / 2));
    }
  }
}
