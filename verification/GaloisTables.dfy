/** The exponent and logarithm tables of GF(256), and the table-driven product. */
module GaloisTables {
  import opened GaloisField

  /** The n-th power of the generator 2. */
  function Alpha(n: nat): Byte
  {
    if n == 0 then 1 else TimesX(Alpha(n - 1))
  }

  lemma {:induction false} AlphaAdd(m: nat, n: nat)
    ensures Mul(Alpha(m), Alpha(n)) == Alpha(m + n)
    decreases n
  {
    if n == 0 {
      MulOne(Alpha(m));
    } else {
      AlphaAdd(m, n - 1);
      MulTimesXRight(Alpha(m), Alpha(n - 1));
    }
  }

  lemma {:induction false} AlphaNonzero(n: nat)
    ensures Alpha(n) != 0
  {
    if n > 0 {
      AlphaNonzero(n - 1);
      TimesXNonzero(Alpha(n - 1));
    }
  }

  /** `TimesX` without exclusive-or: adding 0x11D to 2 * a drops bit 8, sets the low bit and flips bits 2 to 4. */
  function Doubled(a: int): int
  {
    if a < 128 then 2 * a else 2 * a - 227 - 8 * (a / 2 % 8)
  }

  lemma XorOdd(b: nat, q: nat)
    ensures Xor(b, 2 * q + 1) == 2 * Xor(b / 2, q) + 1 - b % 2
  {
  }

  lemma TimesXValue(a: Byte)
    ensures TimesX(a) == Doubled(a)
  {
    if a >= 128 {
      var b := a / 2;
      assert Xor(2 * a, 285) == 2 * Xor(a, 142) + 1 by { XorDouble(a, 142); }
      assert Xor(a, 142) == 2 * Xor(b, 71) + a % 2;
      FlipThreeBits(b);
    }
  }

  lemma FlipThreeBits(b: nat)
    requires 64 <= b < 128
    ensures Xor(b, 71) == b - 57 - 2 * (b % 8)
  {
    var b2, b4, b8 := b / 2, b / 2 / 2, b / 2 / 2 / 2;
    XorOdd(b, 35); XorOdd(b2, 17); XorOdd(b4, 8); XorEight(b8);
    hide *;
    assert b == 2 * b2 + b % 2 && b2 == 2 * b4 + b2 % 2 && b4 == 2 * b8 + b4 % 2;
    assert b % 8 == 4 * (b4 % 2) + 2 * (b2 % 2) + b % 2;
  }

  lemma XorEight(h: nat)
    requires 8 <= h < 16
    ensures Xor(h, 8) == h - 8
  {
    XorHalves(h, 8); XorHalves(h / 2, 4); XorHalves(h / 2 / 2, 2); XorSelf(1);
    hide Xor;
    assert h / 2 / 2 / 2 == 1;
  }

  lemma Next(n: nat, x: Byte)
    requires Alpha(n) == x
    ensures Alpha(n + 1) == Doubled(x)
  {
    TimesXValue(x);
  }

  lemma AlphaUpTo15()
    ensures Alpha(15) == 38
  {
    assert Alpha(0) == 1;
    hide TimesX, Xor, Alpha;
    Next(0, 1); Next(1, 2); Next(2, 4); Next(3, 8); Next(4, 16); Next(5, 32); Next(6, 64); Next(7, 128);
    Next(8, 29); Next(9, 58); Next(10, 116); Next(11, 232); Next(12, 205); Next(13, 135); Next(14, 19);
  }

  lemma AlphaUpTo25()
    ensures Alpha(25) == 3
  {
    AlphaUpTo15();
    hide TimesX, Xor, Alpha;
    Next(15, 38); Next(16, 76); Next(17, 152); Next(18, 45); Next(19, 90); Next(20, 180); Next(21, 117);
    Next(22, 234); Next(23, 201); Next(24, 143);
  }

  /** The 25th power is 3, so multiplying by 3 moves 25 powers at once. */
  lemma AlphaUpTo125()
    ensures Alpha(25) == 3 && Alpha(50) == 5 && Alpha(75) == 15 && Alpha(125) == 51
  {
    AlphaUpTo25();
    assert Xor(3, 6) == 5 && Xor(5, 10) == 15 && Xor(15, 30) == 17 && Xor(17, 34) == 51;
    hide TimesX, Xor, Alpha;
    Plus25(25, 3); Plus25(50, 5); Plus25(75, 15); Plus25(100, 17);
  }

  lemma XorStep(a: nat, b: nat)
    ensures Xor(a, b) == 2 * Xor(a / 2, b / 2) + if a % 2 == b % 2 then 0 else 1
  {
  }

  lemma SumsFrom51()
    ensures Xor(51, 102) == 85 && Xor(85, 170) == 255
  {
    XorZero(0);
    hide Xor;
    XorStep(51, 102); XorStep(25, 51); XorStep(12, 25); XorStep(6, 12); XorStep(3, 6); XorStep(1, 3);
    XorStep(0, 1); XorStep(85, 170); XorStep(42, 85); XorStep(21, 42); XorStep(10, 21); XorStep(5, 10);
    XorStep(2, 5); XorStep(1, 2);
  }

  lemma SumsFrom255()
    ensures Xor(255, 227) == 28 && Xor(28, 56) == 36 && Xor(36, 72) == 108
  {
    XorZero(0);
    hide Xor;
    XorStep(255, 227); XorStep(127, 113); XorStep(63, 56); XorStep(31, 28); XorStep(15, 14); XorStep(7, 7);
    XorStep(3, 3); XorStep(1, 1); XorStep(28, 56); XorStep(14, 28); XorStep(7, 14); XorStep(3, 7);
    XorStep(1, 3); XorStep(0, 1); XorStep(36, 72); XorStep(18, 36); XorStep(9, 18); XorStep(4, 9);
    XorStep(2, 4); XorStep(1, 2);
  }

  lemma AlphaUpTo250()
    ensures Alpha(250) == 108
  {
    AlphaUpTo125();
    SumsFrom51();
    SumsFrom255();
    hide TimesX, Xor, Alpha;
    Plus25(125, 51); Plus25(150, 85); Plus25(175, 255); Plus25(200, 28); Plus25(225, 36);
  }

  /** The powers that decide the order of 2. */
  lemma AlphaValues()
    ensures Alpha(15) == 38 && Alpha(51) == 10 && Alpha(85) == 214 && Alpha(255) == 1
  {
    hide TimesX, Xor, Alpha;
    AlphaUpTo15(); AlphaUpTo125(); AlphaUpTo250();
    Next(50, 5);
    Next(75, 15); Next(76, 30); Next(77, 60); Next(78, 120); Next(79, 240); Next(80, 253); Next(81, 231);
    Next(82, 211); Next(83, 187); Next(84, 107);
    Next(250, 108); Next(251, 216); Next(252, 173); Next(253, 71); Next(254, 142);
  }

  lemma Plus25(n: nat, x: Byte)
    requires Alpha(25) == 3 && Alpha(n) == x && 0 <= Doubled(x)
    ensures Alpha(n + 25) == Xor(x, Doubled(x))
  {
    AlphaAdd(n, 25);
    MulOddStep(x, 1); MulOne(TimesX(x));
    TimesXValue(x);
  }

  lemma MulPredecessor(d: nat, k: nat)
    requires k > 0
    ensures d * k == d * (k - 1) + d
  {
  }

  lemma {:induction false} AlphaPeriod(d: nat, k: nat)
    requires Alpha(d) == 1
    ensures Alpha(d * k) == 1
    decreases k
  {
    if k > 0 {
      AlphaPeriod(d, k - 1);
      AlphaAdd(d * (k - 1), d); MulOne(1);
      MulPredecessor(d, k);
    } else {
      assert d * k == 0;
    }
  }

  lemma DivMod(n: nat, d: nat)
    requires d > 0
    ensures d * (n / d) + n % d == n
  {
  }

  lemma AlphaSplit(d: nat, q: nat, r: nat)
    requires Alpha(d) == 1
    ensures Alpha(d * q + r) == Alpha(r)
  {
    hide *;
    AlphaPeriod(d, q);
    AlphaAdd(d * q, r); MulOne(Alpha(r));
  }

  lemma AlphaModulo(n: nat, d: nat)
    requires d > 0 && Alpha(d) == 1
    ensures Alpha(n) == Alpha(n % d)
  {
    hide *;
    var q, r := n / d, n % d;
    assert d * q + r == n by { DivMod(n, d); }
    AlphaSplit(d, q, r);
  }

  lemma SmallFactor(p: nat, q: nat)
    requires p * q == 255 && p <= 15
    ensures (p, q) in {(1, 255), (3, 85), (5, 51), (15, 17)}
  {
    assert p != 0;
    assert p == 1 || p == 2 || p == 3 || p == 4 || p == 5 || p == 6 || p == 7 || p == 8 || p == 9 || p == 10
      || p == 11 || p == 12 || p == 13 || p == 14 || p == 15;
  }

  lemma ProperDivisor(d: nat)
    requires 0 < d < 255 && 255 % d == 0
    ensures 15 % d == 0 || 51 % d == 0 || 85 % d == 0
  {
    var k := 255 / d;
    DivMod(255, d);
    if d <= 15 {
      SmallFactor(d, k);
    } else {
      LargeCofactor(d, k);
      SmallFactor(k, d);
    }
  }

  lemma LargeCofactor(d: nat, k: nat)
    requires d * k == 255 && d > 15
    ensures k <= 15
  {
    assert k >= 16 ==> d * k >= 16 * k;
  }

  /** 2 generates the whole multiplicative group: no smaller power than the 255th is 1. */
  lemma {:induction false} AlphaOrder(d: nat)
    requires 0 < d < 255
    ensures Alpha(d) != 1
  {
    if Alpha(d) == 1 {
      AlphaValues();
      if 255 % d != 0 {
        AlphaModulo(255, d);
        AlphaOrder(255 % d);
      } else {
        ProperDivisor(d);
        AlphaModulo(15, d); AlphaModulo(51, d); AlphaModulo(85, d);
      }
    }
  }

  lemma {:induction false} AlphaInjective(i: nat, j: nat)
    requires i < j < 255
    ensures Alpha(i) != Alpha(j)
  {
    if i == 0 {
      AlphaOrder(j);
    } else {
      AlphaInjective(i - 1, j - 1);
      TimesXInjective(Alpha(i - 1), Alpha(j - 1));
    }
  }

  // ----- every nonzero byte is a power of 2 -----

  function FirstBytes(n: nat): (bytes: set<nat>)
    ensures |bytes| == n
    ensures forall a :: a in bytes <==> 0 < a <= n
  {
    if n == 0 then {} else FirstBytes(n - 1) + {n}
  }

  function PowersBelow(n: nat): set<Byte>
  {
    set i | 0 <= i < n :: Alpha(i)
  }

  lemma {:induction false} PowersDistinct(n: nat)
    requires n <= 255
    ensures |PowersBelow(n)| == n
  {
    if n > 0 {
      PowersDistinct(n - 1);
      forall i | 0 <= i < n - 1 ensures Alpha(i) != Alpha(n - 1) { AlphaInjective(i, n - 1); }
      assert PowersBelow(n) == PowersBelow(n - 1) + {Alpha(n - 1)};
    }
  }

  lemma SubsetOfSameSize<T>(small: set<T>, big: set<T>)
    requires small <= big && |small| == |big|
    ensures small == big
  {
    assert |big - small| == |big| - |small|;
  }

  /** Every nonzero byte has a logarithm below 255. */
  lemma LogExists(a: Byte) returns (i: nat)
    requires a != 0
    ensures i < 255 && Alpha(i) == a
  {
    PowersDistinct(255);
    forall i | 0 <= i < 255 ensures Alpha(i) in FirstBytes(255) { AlphaNonzero(i); }
    SubsetOfSameSize<nat>(PowersBelow(255), FirstBytes(255));
    assert a in PowersBelow(255);
    i :| 0 <= i < 255 && Alpha(i) == a;
  }

  lemma MulNonzero(a: Byte, b: Byte)
    ensures Mul(a, b) == 0 <==> a == 0 || b == 0
  {
    if a == 0 || b == 0 {
      MulZero(b);
    } else {
      var i := LogExists(a);
      var j := LogExists(b);
      AlphaAdd(i, j);
      AlphaNonzero(i + j);
    }
  }

  lemma PowersBefore(i: nat)
    requires i < 255
    ensures forall k :: 0 <= k < i ==> Alpha(k) != Alpha(i)
  {
    forall k | 0 <= k < i ensures Alpha(k) != Alpha(i) { AlphaInjective(k, i); }
  }

  lemma AlphaWraps(n: nat)
    ensures Alpha(n + 255) == Alpha(n)
  {
    AlphaValues(); AlphaAdd(n, 255); MulOne(Alpha(n));
  }

  // ----- the tables in memory -----

  class Tables {
    const exp: array<Byte>
    const log: array<Byte>

    ghost predicate Valid()
      reads exp, log
    {
      && exp.Length == 512 && log.Length == 256
      && (forall i :: 0 <= i < 512 ==> exp[i] == Alpha(i))
      && (forall a :: 1 <= a < 256 ==> log[a] < 255 && Alpha(log[a]) == a)
    }

    constructor ()
      ensures Valid()
      ensures forall k :: 0 <= k < 255 ==> log[Alpha(k)] == k
    {
      exp := new Byte[512](_ => 0);
      log := new Byte[256](_ => 0);
      new;
      FillCycle();
      forall a | 1 <= a < 256 ensures log[a] < 255 && Alpha(log[a]) == a { var k := LogExists(a); }
      WrapAround();
    }

    /** The first loop of the initialisation: one full cycle of powers and their logarithms. */
    method FillCycle()
      requires exp.Length == 512 && log.Length == 256
      modifies exp, log
      ensures forall k :: 0 <= k < 255 ==> exp[k] == Alpha(k)
      ensures forall k :: 0 <= k < 255 ==> log[Alpha(k)] == k
    {
      var x: nat, i := 1, 0;
      while i < 255
        invariant 0 <= i <= 255 && x == Alpha(i)
        invariant forall k :: 0 <= k < i ==> exp[k] == Alpha(k)
        invariant forall k :: 0 <= k < i ==> log[Alpha(k)] == k
      {
        PowersBefore(i);
        exp[i] := x;
        log[x] := i;
        x := 2 * x;
        if x >= 256 { x := Xor(x, 0x11D); }
        i := i + 1;
      }
    }

    /** The second loop: the cycle again, so that sums of two logarithms need no reduction. */
    method WrapAround()
      requires exp.Length == 512 && exp != log
      requires forall k :: 0 <= k < 255 ==> exp[k] == Alpha(k)
      modifies exp
      ensures forall k :: 0 <= k < 512 ==> exp[k] == Alpha(k)
    {
      hide Alpha;
      var i := 255;
      while i < 512
        invariant 255 <= i <= 512
        invariant forall k :: 0 <= k < i ==> exp[k] == Alpha(k)
      {
        AlphaWraps(i - 255);
        exp[i] := exp[i - 255];
        i := i + 1;
      }
    }

    /** The table-driven product is the field product. */
    function Product(a: Byte, b: Byte): (r: Byte)
      reads exp, log
      requires Valid()
      ensures r == Mul(a, b)
    {
      MulZero(b);
      if a == 0 || b == 0 then 0
      else
        AlphaAdd(log[a], log[b]);
        exp[log[a] as nat + log[b]]
    }
  }
}
