/** The 15-bit format word: error-correction level L and a mask number under a BCH(15,5) code. */
module QrFormat {
  import opened GaloisField
  import opened QrCodewords

  /** The BCH generator x^10 + x^8 + x^5 + x^4 + x^2 + x + 1, and the fixed pattern added to every format word. */
  const BCH: nat := 0x537
  const PATTERN: nat := 0x5412

  /** One step of the division: shift, and subtract the generator if bit 10 is set. */
  function BchStep(rem: nat): nat
    requires rem < 1024
  {
    Xor(2 * rem, if rem >= 512 then BCH else 0)
  }

  /** The remainder register after i further steps. */
  function BchSteps(rem: nat, i: nat): (r: nat)
    requires rem < 1024
    ensures r < 1024
    decreases i
  {
    if i == 0 then rem else
      BchStepBound(rem);
      BchSteps(BchStep(rem), i - 1)
  }

  lemma BchStepBound(rem: nat)
    requires rem < 1024
    ensures BchStep(rem) < 1024
  {
    assert Pow2(10) == 1024 && Pow2(11) == 2048;
    XorTopBit(2 * rem, if rem >= 512 then BCH else 0, 10);
  }

  /** Level L (indicator 01) and the mask number, followed by ten check bits. */
  function BchWord(mask: nat): (w: nat)
    requires mask < 8
    ensures w < 32768
  {
    (8 + mask) * 1024 + BchSteps(8 + mask, 10)
  }

  function FormatWord(mask: nat): (w: nat)
    requires mask < 8
    ensures w < 32768
  {
    assert Pow2(14) == 16384 && Pow2(15) == 32768;
    XorTopBit(BchWord(mask), PATTERN, 14);
    Xor(BchWord(mask), PATTERN)
  }

  /** The bits in drawing order: bit i of the word is drawn as format bit i. */
  function FormatBits(mask: nat): (bits: seq<bool>)
    requires mask < 8
    ensures |bits| == 15
  {
    seq(15, i requires 0 <= i < 15 => BitAt(FormatWord(mask), i))
  }

  function Shifted(data: nat, i: nat): nat
    decreases i
  {
    if i == 0 then data else Shifted(2 * data, i - 1)
  }

  /** Every step keeps the dividend, shifted along, congruent to the register modulo the generator. */
  lemma {:induction false} BchDivides(data: nat, i: nat, rem: nat, q: nat) returns (q': nat)
    requires rem < 1024 && data == Xor(rem, CarrylessMul(BCH, q))
    ensures Shifted(data, i) == Xor(BchSteps(rem, i), CarrylessMul(BCH, q'))
    decreases i
  {
    if i == 0 {
      q' := q;
    } else {
      var next := if rem >= 512 then 2 * q + 1 else 2 * q;
      Subtracted(rem, q, next);
      BchStepBound(rem);
      q' := BchDivides(2 * data, i - 1, BchStep(rem), next);
    }
  }

  lemma Subtracted(rem: nat, q: nat, next: nat)
    requires rem < 1024 && next == if rem >= 512 then 2 * q + 1 else 2 * q
    ensures 2 * Xor(rem, CarrylessMul(BCH, q)) == Xor(BchStep(rem), CarrylessMul(BCH, next))
  {
    hide *;
    var m := CarrylessMul(BCH, q);
    StepIs(rem);
    XorDouble(rem, m);
    Multiples(q);
    if rem < 512 {
      XorZero(2 * rem);
    } else {
      XorAssoc(2 * rem, BCH, Xor(BCH, 2 * m));
      XorCancel(2 * m, BCH);
    }
  }

  lemma Multiples(q: nat)
    ensures CarrylessMul(BCH, 2 * q) == 2 * CarrylessMul(BCH, q)
    ensures CarrylessMul(BCH, 2 * q + 1) == Xor(BCH, 2 * CarrylessMul(BCH, q))
  {
    CarrylessEven(BCH, q);
    CarrylessDouble(BCH, q);
    hide Xor;
  }

  lemma StepIs(rem: nat)
    requires rem < 1024
    ensures BchStep(rem) == Xor(2 * rem, if rem >= 512 then BCH else 0)
  {
    hide Xor;
  }

  lemma {:induction false} XorLowBits(high: nat, low: nat, n: nat)
    requires low < Pow2(n)
    ensures Xor(high * Pow2(n), low) == high * Pow2(n) + low
  {
    if n == 0 {
      assert Pow2(0) == 1 && low == 0;
      XorZero(high);
    } else {
      var h := high * Pow2(n - 1);
      assert high * Pow2(n) == 2 * h;
      XorLowBits(high, low / 2, n - 1);
      XorHalves(2 * h, low);
      hide Xor, Pow2;
    }
  }

  /** Taking the fixed pattern off leaves a multiple of the BCH generator whose top five bits name level L and the
      mask. */
  lemma FormatWordNamesMask(mask: nat) returns (q: nat)
    requires mask < 8
    ensures Xor(FormatWord(mask), 0x5412) == CarrylessMul(0x537, q)
    ensures Xor(FormatWord(mask), 0x5412) / 1024 == 8 + mask
  {
    assert PATTERN == 0x5412 && BCH == 0x537;
    hide *;
    var data := 8 + mask;
    q := BchFromData(data);
    assert BchWord(mask) == data * 1024 + BchSteps(data, 10) by { BchWordValue(mask); }
    assert BchWord(mask) == CarrylessMul(BCH, q) by {
      CheckBitsComplete(data, BchSteps(data, 10), CarrylessMul(BCH, q));
    }
    assert Xor(FormatWord(mask), PATTERN) == BchWord(mask) by { BchWordValue(mask); XorCancel(BchWord(mask), PATTERN); }
  }

  lemma BchWordValue(mask: nat)
    requires mask < 8
    ensures BchWord(mask) == (8 + mask) * 1024 + BchSteps(8 + mask, 10)
    ensures FormatWord(mask) == Xor(BchWord(mask), PATTERN)
  {
    hide Xor, BchSteps;
  }

  lemma BchFromData(data: nat) returns (q: nat)
    requires data < 1024
    ensures Shifted(data, 10) == Xor(BchSteps(data, 10), CarrylessMul(BCH, q))
  {
    assert CarrylessMul(BCH, 0) == 0;
    hide Xor, BchSteps, Shifted, CarrylessMul;
    XorZero(data);
    q := BchDivides(data, 10, data, 0);
  }

  lemma CheckBitsComplete(data: nat, rem: nat, multiple: nat)
    requires rem < 1024 && Shifted(data, 10) == Xor(rem, multiple)
    ensures data * 1024 + rem == multiple
  {
    assert Pow2(10) == 1024 && Shifted(data, 10) == data * 1024;
    hide *;
    XorLowBits(data, rem, 10);
    XorComm(data * 1024, rem);
    XorCancel(multiple, rem);
  }

  /** The loop of the drawing routine, on 32-bit words that never exceed 15 bits. */
  method ComputeFormatWord(mask: nat) returns (bits: nat)
    requires mask < 8
    ensures bits == FormatWord(mask)
  {
    hide Xor, BchSteps;
    var data: nat := 1 * 8 + mask;
    var rem := ComputeBch(data);
    bits := Xor(data * 1024 + rem, 0x5412);
    assert bits == FormatWord(mask);
    bits := bits % 0x8000;
  }

  method ComputeBch(data: nat) returns (rem: nat)
    requires data < 32
    ensures rem == BchSteps(data, 10)
  {
    rem := data;
    var i := 0;
    hide Xor, BchStep;
    while i < 10
      invariant 0 <= i <= 10
      invariant rem < 1024
      invariant BchSteps(rem, 10 - i) == BchSteps(data, 10)
    {
      BchStepBound(rem);
      StepAsProduct(rem);
      rem := Xor(2 * rem, rem / 512 * 0x537);
      i := i + 1;
    }
  }

  lemma StepAsProduct(rem: nat)
    requires rem < 1024
    ensures BchStep(rem) == Xor(2 * rem, rem / 512 * BCH)
  {
  }
}
