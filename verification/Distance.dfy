/** How far apart Reed-Solomon codewords are: two that differ in no more places than there are check symbols are the
    same. */
module Distance {
  import opened GaloisField
  import opened GaloisTables
  import opened ReedSolomon

  /** Every coefficient times the power of 2 of its degree. */
  function Stretched(p: Poly): (q: Poly)
    ensures |q| == |p|
  {
    seq(|p|, j requires 0 <= j < |p| => Mul(p[j], Alpha(|p| - 1 - j)))
  }

  /** So its values are those at twice the argument. */
  lemma {:induction false} EvalStretched(p: Poly, x: Byte)
    ensures Eval(Stretched(p), x) == Eval(p, TimesX(x))
    decreases |p|
  {
    hide Mul, Xor, TimesX;
    if p != [] {
      var n := |p| - 1;
      var q := p[..n];
      EvalStretched(q, x);
      StretchedStep(p);
      EvalAppend(Scale(2, Stretched(q)), p[n], x);
      EvalScale(2, Stretched(q), x);
      TwiceTheArgument(Eval(Stretched(q), x), x);
    }
  }

  lemma TwiceTheArgument(e: Byte, x: Byte)
    ensures Mul(Mul(e, 2), x) == Mul(e, TimesX(x))
  {
    hide Mul, Xor, TimesX;
    MulAssoc(e, 2, x);
    MulComm(2, x);
    TwiceIsTimesX(x);
  }

  lemma TwiceIsTimesX(x: Byte)
    ensures Mul(x, 2) == TimesX(x)
  {
    hide Mul, Xor, TimesX;
    MulTimesXRight(x, 1);
    MulOne(x);
    TimesXOne();
  }

  lemma TimesXOne()
    ensures TimesX(1) == 2
  {
  }

  lemma StretchedStep(p: Poly)
    requires p != []
    ensures var n := |p| - 1; Stretched(p) == Scale(2, Stretched(p[..n])) + [p[n]]
  {
    var n := |p| - 1;
    var longer := Scale(2, Stretched(p[..n])) + [p[n]];
    forall j | 0 <= j <= n ensures Stretched(p)[j] == longer[j] {
      if j < n { NextPower(p[j], n - 1 - j); } else { MulOne(p[n]); }
      hide Mul, TimesX;
    }
  }

  lemma NextPower(c: Byte, k: nat)
    ensures Mul(c, Alpha(k + 1)) == Mul(Mul(c, Alpha(k)), 2)
  {
    assert Alpha(k + 1) == TimesX(Alpha(k));
    hide Mul, Xor, TimesX, Alpha;
    MulTimesXRight(c, Alpha(k));
    TwiceIsTimesX(Mul(c, Alpha(k)));
  }

  /** The places where a polynomial has a coefficient other than zero. */
  function Support(p: Poly): (places: set<nat>)
    ensures forall j: nat :: j in places <==> j < |p| && p[j] != 0
  {
    set j: nat | j < |p| && p[j] != 0
  }

  /** One of them taken out, and none added: p at twice the argument, plus p times the place's power. */
  function Without(p: Poly, place: nat): (q: Poly)
    requires place < |p|
    ensures |q| == |p|
  {
    Plus(Stretched(p), Scale(Alpha(|p| - 1 - place), p))
  }

  lemma WithoutSupport(p: Poly, place: nat)
    requires place < |p| <= 255
    ensures Support(Without(p, place)) == Support(p) - {place}
  {
    var q := Without(p, place);
    forall j: nat | j < |p| ensures q[j] != 0 <==> p[j] != 0 && j != place {
      CoefficientAt(p, place, j);
      hide Mul, Xor, Alpha, TimesX, Without;
    }
    hide Without;
  }

  lemma CoefficientAt(p: Poly, place: nat, j: nat)
    requires place < |p| <= 255 && j < |p|
    ensures Without(p, place)[j] == 0 <==> p[j] == 0 || j == place
  {
    var e, f := |p| - 1 - j, |p| - 1 - place;
    assert Without(p, place)[j] == Add(Mul(p[j], Alpha(e)), Mul(p[j], Alpha(f)));
    hide Mul, Xor, Alpha, TimesX, Without;
    MulAddRight(p[j], Alpha(e), Alpha(f));
    MulNonzero(p[j], Add(Alpha(e), Alpha(f)));
    XorIsZero(Alpha(e), Alpha(f));
    if e < f { AlphaInjective(e, f); } else if f < e { AlphaInjective(f, e); }
  }

  lemma WithoutVanishes(p: Poly, place: nat, n: nat)
    requires place < |p| && n > 0 && VanishesAtPowers(p, n)
    ensures VanishesAtPowers(Without(p, place), n - 1)
  {
    hide Mul, Xor, TimesX, Eval;
    forall i | 0 <= i < n - 1 ensures Eval(Without(p, place), Alpha(i)) == 0 {
      var a := Alpha(|p| - 1 - place);
      EvalPlus(Stretched(p), Scale(a, p), Alpha(i));
      EvalStretched(p, Alpha(i));
      assert Alpha(i + 1) == TimesX(Alpha(i));
      EvalScale(a, p, Alpha(i));
      MulZero(a);
      XorZero(0);
    }
  }

  /** With one coefficient only, the value at 1 is that coefficient. */
  lemma {:induction false} SingleAtOne(p: Poly, place: nat)
    requires place < |p| && Support(p) <= {place}
    ensures Eval(p, 1) == p[place]
    decreases |p|
  {
    hide Mul, Xor, TimesX;
    var n := |p| - 1;
    if place < n {
      assert p[n] == 0 by { assert n !in Support(p); }
      SingleAtOne(p[..n], place);
      MulOne(Eval(p[..n], 1));
      XorZero(Eval(p[..n], 1));
    } else {
      forall j: nat | j < n ensures p[j] == 0 { assert j !in Support(p); }
      assert p[..n] == Zeros(n);
      EvalLeadingZeros(n, [], 1);
      assert Zeros(n) + [] == Zeros(n);
      MulOne(0);
      XorZero(p[n]);
    }
  }

  /** A polynomial with no more coefficients than roots among the powers of 2 is zero, wherever the coefficients are. */
  lemma {:induction false} FewCoefficients(p: Poly, n: nat)
    requires |p| <= 255 && VanishesAtPowers(p, n) && |Support(p)| <= n
    ensures p == Zeros(|p|)
    decreases n
  {
    hide Mul, Xor, TimesX, Eval;
    if Support(p) == {} {
      forall j: nat | j < |p| ensures p[j] == 0 { assert j !in Support(p); }
    } else {
      var place: nat :| place in Support(p);
      assert Alpha(0) == 1;
      WithoutSupport(p, place);
      WithoutVanishes(p, place, n);
      FewCoefficients(Without(p, place), n - 1);
      NoSupport(Without(p, place));
      SingleAtOne(p, place);
    }
  }

  lemma NoSupport(p: Poly)
    requires p == Zeros(|p|)
    ensures Support(p) == {}
  {
  }

  /** The places where two words differ. */
  function Apart(p: Poly, q: Poly): (places: set<nat>)
    requires |p| == |q|
    ensures forall j: nat :: j in places <==> j < |p| && p[j] != q[j]
  {
    set j: nat | j < |p| && p[j] != q[j]
  }

  /** Two codewords with n check symbols that differ in at most n places are the same, so that many symbols can be lost,
      if it is known which. */
  lemma SameCodeword(p: Poly, q: Poly, n: nat)
    requires |p| == |q| <= 255 && VanishesAtPowers(p, n) && VanishesAtPowers(q, n) && |Apart(p, q)| <= n
    ensures p == q
  {
    hide Mul, Xor, TimesX, Eval;
    var sum := Plus(p, q);
    forall i | 0 <= i < n ensures Eval(sum, Alpha(i)) == 0 {
      EvalPlus(p, q, Alpha(i));
      XorZero(0);
    }
    forall j: nat ensures j in Support(sum) <==> j in Apart(p, q) {
      if j < |p| { XorIsZero(p[j], q[j]); }
    }
    assert Support(sum) == Apart(p, q);
    FewCoefficients(sum, n);
    PlusIsZero(p, q);
  }
}
