/** Systematic Reed-Solomon coding over GF(256).

    A polynomial is the sequence of its coefficients, highest degree first. */
module ReedSolomon {
  import opened GaloisField
  import opened GaloisTables

  type Poly = seq<Byte>

  function Zeros(n: nat): (p: Poly)
    ensures |p| == n && forall i :: 0 <= i < n ==> p[i] == 0
  {
    seq(n, _ => 0)
  }

  function Plus(p: Poly, q: Poly): (r: Poly)
    requires |p| == |q|
    ensures |r| == |p|
  {
    seq(|p|, i requires 0 <= i < |p| => Add(p[i], q[i]))
  }

  function Scale(f: Byte, p: Poly): (r: Poly)
    ensures |r| == |p|
  {
    seq(|p|, i requires 0 <= i < |p| => Mul(p[i], f))
  }

  /** Horner evaluation. */
  function Eval(p: Poly, x: Byte): Byte
  {
    if p == [] then 0 else Add(Mul(Eval(p[..|p| - 1], x), x), p[|p| - 1])
  }

  /** q * g, adding g into the tail once for every coefficient of q. */
  function PolyMul(q: Poly, g: Poly): (r: Poly)
    requires |g| > 0
    ensures |r| == |q| + |g| - 1
  {
    if q == [] then Zeros(|g| - 1)
    else Plus(PolyMul(q[..|q| - 1], g) + [0], Zeros(|q| - 1) + Scale(q[|q| - 1], g))
  }

  /** p * (x + r) */
  function TimesLinear(p: Poly, r: Byte): (q: Poly)
    ensures |q| == |p| + 1
  {
    Plus(p + [0], [0] + Scale(r, p))
  }

  /** (x + 1)(x + 2)(x + 4) ... (x + 2^(n-1)), the generator polynomial of n check symbols. */
  function Generator(n: nat): (g: Poly)
    ensures |g| == n + 1
  {
    if n == 0 then [1] else TimesLinear(Generator(n - 1), Alpha(n - 1))
  }

  // ----- evaluation is a homomorphism -----

  lemma {:induction false} EvalPlus(p: Poly, q: Poly, x: Byte)
    requires |p| == |q|
    ensures Eval(Plus(p, q), x) == Add(Eval(p, x), Eval(q, x))
    decreases |p|
  {
    hide Mul, Xor, TimesX;
    if p != [] {
      var n := |p| - 1;
      EvalPlus(p[..n], q[..n], x);
      assert Plus(p, q)[..n] == Plus(p[..n], q[..n]);
      MulAddLeft(Eval(p[..n], x), Eval(q[..n], x), x);
      XorShuffle(Mul(Eval(p[..n], x), x), Mul(Eval(q[..n], x), x), p[n], q[n]);
    } else {
      XorZero(0);
    }
  }

  lemma {:induction false} EvalScale(f: Byte, p: Poly, x: Byte)
    ensures Eval(Scale(f, p), x) == Mul(Eval(p, x), f)
    decreases |p|
  {
    hide Mul, Xor, TimesX;
    if p != [] {
      var n := |p| - 1;
      EvalScale(f, p[..n], x);
      assert Scale(f, p)[..n] == Scale(f, p[..n]);
      var e := Eval(p[..n], x);
      MulAddLeft(Mul(e, x), p[n], f);
      MulAssoc(e, f, x); MulComm(f, x); MulAssoc(e, x, f);
    } else {
      MulZero(f);
    }
  }

  lemma {:induction false} EvalLeadingZeros(n: nat, p: Poly, x: Byte)
    ensures Eval(Zeros(n) + p, x) == Eval(p, x)
    decreases n + |p|
  {
    if p != [] {
      assert (Zeros(n) + p)[..n + |p| - 1] == Zeros(n) + p[..|p| - 1];
      EvalLeadingZeros(n, p[..|p| - 1], x);
    } else if n > 0 {
      assert (Zeros(n) + p)[..n - 1] == Zeros(n - 1) + p;
      EvalLeadingZeros(n - 1, p, x);
      MulZero(x);
    }
  }

  lemma EvalAppend(p: Poly, c: Byte, x: Byte)
    ensures Eval(p + [c], x) == Add(Mul(Eval(p, x), x), c)
  {
    assert (p + [c])[..|p|] == p;
  }

  lemma {:induction false} EvalPolyMul(q: Poly, g: Poly, x: Byte)
    requires |g| > 0
    ensures Eval(PolyMul(q, g), x) == Mul(Eval(q, x), Eval(g, x))
    decreases |q|
  {
    hide Mul, Xor, TimesX;
    if q == [] {
      EvalLeadingZeros(|g| - 1, [], x);
      assert Zeros(|g| - 1) + [] == Zeros(|g| - 1);
      MulZero(Eval(g, x));
    } else {
      var n := |q| - 1;
      var e, v := Eval(q[..n], x), Eval(g, x);
      EvalPolyMul(q[..n], g, x);
      EvalAppend(PolyMul(q[..n], g), 0, x);
      EvalPlus(PolyMul(q[..n], g) + [0], Zeros(n) + Scale(q[n], g), x);
      EvalLeadingZeros(n, Scale(q[n], g), x);
      EvalScale(q[n], g, x);
      XorZero(Mul(Mul(e, v), x));
      MulAssoc(e, v, x); MulComm(v, x); MulAssoc(e, x, v);
      MulComm(v, q[n]); MulAddLeft(Mul(e, x), q[n], v);
    }
  }

  lemma EvalTimesLinear(p: Poly, r: Byte, x: Byte)
    ensures Eval(TimesLinear(p, r), x) == Mul(Eval(p, x), Add(x, r))
  {
    hide Mul, Xor, TimesX;
    EvalPlus(p + [0], [0] + Scale(r, p), x);
    EvalAppend(p, 0, x);
    assert [0] + Scale(r, p) == Zeros(1) + Scale(r, p);
    EvalLeadingZeros(1, Scale(r, p), x);
    EvalScale(r, p, x);
    XorZero(Mul(Eval(p, x), x));
    MulAddRight(Eval(p, x), x, r);
  }

  // ----- the generator polynomial -----

  ghost predicate AmongPowers(x: Byte, n: nat)
  {
    exists i :: 0 <= i < n && Alpha(i) == x
  }

  /** The roots of the generator are exactly the first n powers of 2. */
  lemma {:induction false} GeneratorRoots(n: nat, x: Byte)
    ensures Eval(Generator(n), x) == 0 <==> AmongPowers(x, n)
  {
    hide Mul, Xor, Alpha, Eval, TimesLinear, AmongPowers;
    if n == 0 {
      ConstantGenerator(x);
    } else {
      var a := Alpha(n - 1);
      GeneratorRoots(n - 1, x);
      EvalTimesLinear(Generator(n - 1), a, x);
      MulNonzero(Eval(Generator(n - 1), x), Add(x, a));
      XorIsZero(x, a);
      MorePowers(x, n);
    }
  }

  lemma MorePowers(x: Byte, n: nat)
    requires n > 0
    ensures AmongPowers(x, n) <==> AmongPowers(x, n - 1) || x == Alpha(n - 1)
  {
    hide Alpha;
  }

  lemma ConstantGenerator(x: Byte)
    ensures Eval(Generator(0), x) != 0 && !AmongPowers(x, 0)
  {
    EvalAppend([], 1, x);
    MulZero(x);
    XorZero(1);
    assert [] + [1] == Generator(0);
  }

  lemma {:induction false} GeneratorMonic(n: nat)
    ensures Generator(n)[0] == 1
  {
    if n > 0 {
      GeneratorMonic(n - 1);
      XorZero(1);
    }
  }

  // ----- the remainder -----

  /** The shift register after one more data symbol. */
  function ShiftIn(rem: Poly, d: Byte, divisor: Poly): (r: Poly)
    requires |rem| == |divisor| > 0
    ensures |r| == |rem|
  {
    Plus(rem[1..] + [0], Scale(Add(d, rem[0]), divisor))
  }

  function Remainder(data: Poly, divisor: Poly): (rem: Poly)
    requires |divisor| > 0
    ensures |rem| == |divisor|
  {
    if data == [] then Zeros(|divisor|)
    else ShiftIn(Remainder(data[..|data| - 1], divisor), data[|data| - 1], divisor)
  }

  /** The feedback symbols of the shift register. */
  function Quotient(data: Poly, divisor: Poly): (q: Poly)
    requires |divisor| > 0
    ensures |q| == |data|
  {
    if data == [] then []
    else
      var n := |data| - 1;
      Quotient(data[..n], divisor) + [Add(data[n], Remainder(data[..n], divisor)[0])]
  }

  /** One step of the shift register: adding f * g clears the symbol that was shifted out. */
  lemma ShiftInAligned(prefix: Poly, rem: Poly, d: Byte, divisor: Poly)
    requires |rem| == |divisor| > 0
    ensures Plus(prefix + rem + [0], Zeros(|prefix|) + Scale(Add(d, rem[0]), [1] + divisor))
         == prefix + [d] + ShiftIn(rem, d, divisor)
  {
    var n, f := |prefix|, Add(d, rem[0]);
    var sum := Plus(prefix + rem + [0], Zeros(n) + Scale(f, [1] + divisor));
    forall i | 0 <= i < n ensures sum[i] == prefix[i] { XorZero(prefix[i]); }
    assert sum[n] == d by { MulOne(f); XorComm(d, rem[0]); XorCancel(d, rem[0]); }
    hide Mul, Xor;
    assert sum[n + 1..] == ShiftIn(rem, d, divisor);
  }

  /** Data followed by its remainder is a multiple of the monic divisor. */
  lemma {:induction false} CodewordIsMultiple(data: Poly, divisor: Poly)
    requires |divisor| > 0
    ensures data + Remainder(data, divisor) == PolyMul(Quotient(data, divisor), [1] + divisor)
    decreases |data|
  {
    if data == [] {
      assert data + Remainder(data, divisor) == Zeros(|divisor|);
    } else {
      var n := |data| - 1;
      var rem, q := Remainder(data[..n], divisor), Quotient(data[..n], divisor);
      CodewordIsMultiple(data[..n], divisor);
      assert Quotient(data, divisor)[..n] == q;
      ShiftInAligned(data[..n], rem, data[n], divisor);
      assert data[..n] + [data[n]] == data;
    }
  }

  ghost predicate VanishesAtPowers(p: Poly, n: nat)
  {
    forall i :: 0 <= i < n ==> Eval(p, Alpha(i)) == 0
  }

  /** Data followed by its remainder vanishes wherever the generator does. */
  lemma CodewordVanishes(data: Poly, n: nat)
    requires n > 0
    ensures VanishesAtPowers(data + Remainder(data, Generator(n)[1..]), n)
  {
    hide Mul, Xor;
    var g := Generator(n);
    var q := Quotient(data, g[1..]);
    GeneratorMonic(n);
    assert [1] + g[1..] == g;
    CodewordIsMultiple(data, g[1..]);
    forall i | 0 <= i < n ensures Eval(data + Remainder(data, g[1..]), Alpha(i)) == 0 {
      assert AmongPowers(Alpha(i), n);
      GeneratorRoots(n, Alpha(i));
      EvalPolyMul(q, g, Alpha(i));
      MulNonzero(Eval(q, Alpha(i)), 0);
    }
  }

  // ----- and it is the only one -----

  /** Synthetic division by (x + a): the partial Horner values. */
  function Deflate(p: Poly, a: Byte): (q: Poly)
    requires |p| > 0
    ensures |q| == |p| - 1
  {
    seq(|p| - 1, i requires 0 <= i < |p| - 1 => Eval(p[..i + 1], a))
  }

  lemma {:induction false} DeflateCorrect(p: Poly, a: Byte)
    requires |p| > 0
    ensures p == Plus(TimesLinear(Deflate(p, a), a), Zeros(|p| - 1) + [Eval(p, a)])
  {
    hide Mul, Xor, TimesX;
    var n := |p| - 1;
    var q := Deflate(p, a);
    var back := Plus(TimesLinear(q, a), Zeros(n) + [Eval(p, a)]);
    forall i | 0 <= i <= n ensures back[i] == p[i] {
      assert p[..i + 1][..i] == p[..i];
      var e := Mul(Eval(p[..i], a), a);
      assert p[..n + 1] == p;
      assert i > 0 ==> q[i - 1] == Eval(p[..i], a);
      MulZero(a); XorZero(e); XorZero(p[i]); XorZero(Add(e, p[i])); XorCancel(p[i], e); XorComm(e, p[i]);
      XorZero(Xor(Eval(p[..i + 1], a), e));
    }
  }

  /** A polynomial of degree below n with roots 1, 2, ..., 2^(n-1) is zero. */
  lemma {:induction false} TooManyRoots(p: Poly, n: nat)
    requires |p| == n <= 255 && VanishesAtPowers(p, n)
    ensures p == Zeros(n)
    decreases n
  {
    hide Mul, Xor, TimesX;
    if n > 0 {
      var a := Alpha(n - 1);
      var q := Deflate(p, a);
      DeflateCorrect(p, a);
      assert Zeros(n - 1) + [0] == Zeros(n);
      forall i | 0 <= i < n - 1 ensures Eval(q, Alpha(i)) == 0 {
        var x := Alpha(i);
        EvalPlus(TimesLinear(q, a), Zeros(n), x);
        EvalLeadingZeros(n, [], x); assert Zeros(n) + [] == Zeros(n);
        EvalTimesLinear(q, a, x);
        XorZero(Mul(Eval(q, x), Add(x, a)));
        MulNonzero(Eval(q, x), Add(x, a)); XorIsZero(x, a); AlphaInjective(i, n - 1);
      }
      TooManyRoots(q, n - 1);
      MulZero(a); XorZero(0);
    }
  }

  lemma EvalCommonPrefix(data: Poly, p: Poly, q: Poly, x: Byte)
    requires |p| == |q|
    ensures Add(Eval(data + p, x), Eval(data + q, x)) == Eval(Plus(p, q), x)
  {
    EvalPlus(data + p, data + q, x);
    forall i | 0 <= i < |data| ensures Add(data[i], data[i]) == 0 { XorSelf(data[i]); }
    hide Mul, Xor;
    assert Plus(data + p, data + q) == Zeros(|data|) + Plus(p, q);
    EvalLeadingZeros(|data|, Plus(p, q), x);
  }

  lemma PlusIsZero(p: Poly, q: Poly)
    requires |p| == |q| && Plus(p, q) == Zeros(|p|)
    ensures p == q
  {
    hide Xor;
    forall i | 0 <= i < |p| ensures p[i] == q[i] { assert Plus(p, q)[i] == 0; XorIsZero(p[i], q[i]); }
  }

  /** The check symbols are the remainder exactly when the whole block vanishes at every root. */
  lemma RemainderUnique(data: Poly, check: Poly, n: nat)
    requires 0 < n == |check| <= 255
    ensures check == Remainder(data, Generator(n)[1..]) <==> VanishesAtPowers(data + check, n)
  {
    hide Mul, Xor, Eval, Remainder, Generator;
    var rem := Remainder(data, Generator(n)[1..]);
    CodewordVanishes(data, n);
    if VanishesAtPowers(data + check, n) {
      var diff := Plus(check, rem);
      forall i | 0 <= i < n
        ensures Eval(diff, Alpha(i)) == 0
      {
        EvalCommonPrefix(data, check, rem, Alpha(i));
        XorZero(0);
      }
      TooManyRoots(diff, n);
      PlusIsZero(check, rem);
    }
  }

  // ----- the loops -----

  /** The generator with k factors, padded to n + 1 coefficients. */
  function Padded(k: nat, n: nat): (p: Poly)
    requires k <= n
    ensures |p| == n + 1
  {
    Zeros(n - k) + Generator(k)
  }

  lemma PaddedStep(k: nat, n: nat)
    requires k < n
    ensures Padded(k + 1, n) == Plus(Padded(k, n)[1..] + [0], Scale(Alpha(k), Padded(k, n)))
  {
    var g, f, z, a := Generator(k), Padded(k, n), n - k, Alpha(k);
    MulZero(a); XorZero(0);
    hide Mul, Xor;
    var right := Plus(f[1..] + [0], Scale(a, f));
    assert f[1..] + [0] == Zeros(z - 1) + (g + [0]);
    assert Scale(a, f) == Zeros(z - 1) + ([0] + Scale(a, g));
    assert right[z - 1..] == TimesLinear(g, a);
    assert right[..z - 1] == Zeros(z - 1);
  }

  /** Multiply the coefficients by (x + root) in place, dropping the leading one. */
  method MultiplyRoot(t: Tables, coeffs: array<Byte>, root: Byte)
    requires t.Valid() && coeffs != t.exp && coeffs != t.log && coeffs.Length > 0
    modifies coeffs
    ensures coeffs[..] == Plus(old(coeffs[..])[1..] + [0], Scale(root, old(coeffs[..])))
  {
    hide Mul, Xor, Alpha;
    ghost var before := coeffs[..];
    ghost var shifted := before[1..] + [0];
    var j := 0;
    while j < coeffs.Length
      invariant 0 <= j <= coeffs.Length
      invariant forall k :: j <= k < coeffs.Length ==> coeffs[k] == before[k]
      invariant forall k :: 0 <= k < j ==> coeffs[k] == Add(shifted[k], Mul(before[k], root))
    {
      var product := t.Product(coeffs[j], root);
      if j + 1 < coeffs.Length {
        XorComm(product, coeffs[j + 1]);
        coeffs[j] := Add(product, coeffs[j + 1]);
      } else {
        XorZero(product);
        coeffs[j] := product;
      }
      j := j + 1;
    }
  }

  /** The generator polynomial without its leading 1, built in place one factor at a time. */
  method Divisor(t: Tables, degree: nat) returns (coeffs: array<Byte>)
    requires t.Valid() && degree > 0
    ensures fresh(coeffs) && coeffs[..] == Generator(degree)[1..]
  {
    coeffs := new Byte[degree](_ => 0);
    coeffs[degree - 1] := 1;
    var root: Byte := 1;
    assert coeffs[..] == Padded(0, degree)[1..];
    var i := 0;
    while i < degree
      invariant 0 <= i <= degree && root == Alpha(i)
      invariant coeffs[..] == Padded(i, degree)[1..]
    {
      PaddedStep(i, degree);
      DropLeading(Padded(i, degree), root);
      MultiplyRoot(t, coeffs, root);
      MulTimesXRight(root, 1); MulOne(root);
      root := t.Product(root, 2);
      i := i + 1;
    }
    assert Padded(degree, degree) == Generator(degree);
  }

  lemma DropLeading(f: Poly, a: Byte)
    requires |f| > 1
    ensures Plus(f[1..] + [0], Scale(a, f))[1..] == Plus(f[1..][1..] + [0], Scale(a, f[1..]))
  {
  }

  /** One data symbol through the shift register, in place. */
  method Feed(t: Tables, d: Byte, divisor: array<Byte>, rem: array<Byte>)
    requires t.Valid() && divisor.Length == rem.Length > 0
    requires rem != divisor && rem != t.exp && rem != t.log
    modifies rem
    ensures rem[..] == ShiftIn(old(rem[..]), d, divisor[..])
  {
    hide Mul, Xor, Alpha;
    ghost var before := rem[..];
    var factor := Add(d, rem[0]);
    var i := 0;
    while i < rem.Length - 1
      invariant 0 <= i <= rem.Length - 1
      invariant forall k :: 0 <= k < i ==> rem[k] == before[k + 1]
      invariant forall k :: i <= k < rem.Length ==> rem[k] == before[k]
    {
      rem[i] := rem[i + 1];
      i := i + 1;
    }
    rem[rem.Length - 1] := 0;
    ghost var shifted := before[1..] + [0];
    i := 0;
    while i < divisor.Length
      invariant 0 <= i <= divisor.Length
      invariant forall k :: 0 <= k < i ==> rem[k] == Add(shifted[k], Mul(divisor[k], factor))
      invariant forall k :: i <= k < rem.Length ==> rem[k] == shifted[k]
    {
      var product := t.Product(divisor[i], factor);
      rem[i] := Add(rem[i], product);
      i := i + 1;
    }
  }

  /** The division as a linear-feedback shift register. */
  method ComputeRemainder(t: Tables, data: seq<Byte>, divisor: array<Byte>) returns (rem: array<Byte>)
    requires t.Valid() && divisor.Length > 0
    ensures fresh(rem) && rem[..] == Remainder(data, divisor[..])
  {
    rem := new Byte[divisor.Length](_ => 0);
    assert rem[..] == Zeros(divisor.Length);
    var n := 0;
    while n < |data|
      invariant 0 <= n <= |data|
      invariant rem[..] == Remainder(data[..n], divisor[..])
    {
      Feed(t, data[n], divisor, rem);
      assert data[..n + 1][..n] == data[..n];
      n := n + 1;
    }
    assert data[..n] == data;
  }
}
