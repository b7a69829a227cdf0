/** Signed 64-bit arithmetic: every intermediate result is folded back into the machine range. */
module Int64 {

  const MIN: int := -0x8000_0000_0000_0000
  const MAX: int := 0x7fff_ffff_ffff_ffff
  const SPAN: int := 0x1_0000_0000_0000_0000

  type int64 = x: int | MIN <= x <= MAX witness 0

  function Wrap(x: int): int64
  {
    (x - MIN) % SPAN + MIN
  }

  function Negate(x: int64): int64
  {
    var n: int := x;
    Wrap(0 - n)
  }

  lemma WrapInRange(x: int)
    requires MIN <= x <= MAX
    ensures Wrap(x) == x
  {
  }

  lemma WrapExplicit(x: int) returns (turns: int)
    ensures Wrap(x) == x - SPAN * turns
  {
    turns := (x - MIN) / SPAN;
  }

  /** Folding early or late makes no difference. */
  lemma WrapTwice(x: int, y: int)
    ensures Wrap(Wrap(x) + y) == Wrap(x + y)
  {
    var turns := WrapExplicit(x);
    var more := WrapExplicit(x + y);
    SameFold(Wrap(x) + y, x + y, -turns);
  }

  lemma SameFold(x: int, y: int, turns: int)
    requires x == y + SPAN * turns
    ensures Wrap(x) == Wrap(y)
  {
    var a := WrapExplicit(x);
    var b := WrapExplicit(y);
  }

  lemma WrapZero(x: int)
    ensures Wrap(x) == 0 <==> x % SPAN == 0
  {
    var turns := WrapExplicit(x);
  }

  /** Division that drops the fraction, whatever the sign. */
  function Truncate(x: int, d: int): int
    requires d > 0
  {
    if x >= 0 then x / d else -((-x) / d)
  }
}
