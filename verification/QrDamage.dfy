/** Where the format modules fall on the data walk, and how few codewords they spoil. */
module QrDamage {
  import opened QrMatrix
  import opened QrSymbol
  import opened QrReading

  // ----- the walk, column pair by column pair -----

  /** The free modules of one column pair, and of it and all pairs to its left. */
  function Lane(number: nat, right: int): seq<Pos>
  {
    Free(PairWalk(number * 4 + 17, right, number * 4 + 17), FixedCells(number))
  }

  function Rest(number: nat, right: int): seq<Pos>
  {
    Free(WalkFrom(number * 4 + 17, right), FixedCells(number))
  }

  lemma {:induction false} FreeConcat(a: seq<Pos>, b: seq<Pos>, functions: set<Pos>)
    ensures Free(a + b, functions) == Free(a, functions) + Free(b, functions)
    decreases |b|
  {
    if b == [] {
      NothingFree(a, functions);
    } else {
      hide *;
      var n := |b| - 1;
      var before, last := b[..n], b[n];
      assert b == before + [last];
      FreeConcat(a, before, functions);
      FreeAppend(a + before, last, functions);
      FreeAppend(before, last, functions);
      Assoc(a, before, [last]);
      Assoc(Free(a, functions), Free(before, functions), if last in functions then [] else [last]);
    }
  }

  lemma NothingFree(a: seq<Pos>, functions: set<Pos>)
    ensures a + [] == a && Free([], functions) == [] && Free(a, functions) + [] == Free(a, functions)
  {
  }

  /** The right columns of the pairs. */
  predicate IsLane(number: nat, right: int)
  {
    right == 5 || right == 3 || right == 1 || (8 <= right <= number * 4 + 16 && right % 2 == 0)
  }

  function NextLane(right: int): int
  {
    if right == 8 then 5 else right - 2
  }

  lemma WalkSplits(size: nat, right: int)
    requires right >= 1 && right != 6
    ensures WalkFrom(size, right) == PairWalk(size, right, size) + WalkFrom(size, NextLane(right))
  {
    hide PairWalk;
    if right == 8 { assert WalkFrom(size, 6) == WalkFrom(size, 5); }
  }

  lemma RestSplits(number: nat, right: int)
    requires IsLane(number, right)
    ensures Rest(number, right) == Lane(number, right) + Rest(number, NextLane(right))
  {
    hide PairWalk, WalkFrom, Free, FixedCells;
    var size := number * 4 + 17;
    FreeConcat(PairWalk(size, right, size), WalkFrom(size, NextLane(right)), FixedCells(number));
    WalkSplits(size, right);
  }

  /** How many modules of the walk come before a lane. */
  function Mark(number: nat, right: int): int
  {
    |DataWalk(number)| - |Rest(number, right)|
  }

  lemma {:induction false} WalkEndsIn(number: nat, right: int) returns (before: seq<Pos>)
    requires number >= 1 && IsLane(number, right)
    ensures DataWalk(number) == before + Rest(number, right) && |before| == Mark(number, right)
    decreases number * 4 + 16 - right
  {
    hide Rest, Lane, DataWalk;
    if right == number * 4 + 16 {
      before := [];
      WholeWalk(number);
      assert [] + Rest(number, right) == Rest(number, right);
    } else {
      var previous := if right == 5 then 8 else right + 2;
      before := WalkEndsIn(number, previous);
      RestSplits(number, previous);
      assert before + (Lane(number, previous) + Rest(number, right))
        == before + Lane(number, previous) + Rest(number, right);
      before := before + Lane(number, previous);
    }
  }

  lemma WholeWalk(number: nat)
    ensures DataWalk(number) == Rest(number, number * 4 + 16)
  {
    hide Free, FixedCells, WalkFrom;
  }

  lemma LaneCells(number: nat, right: int)
    ensures Distinct(Lane(number, right))
    ensures forall p :: p in Lane(number, right) <==>
      (p.x == right || p.x == right - 1) && 0 <= p.y < number * 4 + 17 && p !in FixedCells(number)
  {
    hide FixedCells, PairWalk, Free, Distinct;
    WholePair(number * 4 + 17, right);
    FreeCells(PairWalk(number * 4 + 17, right, number * 4 + 17), FixedCells(number));
  }

  // ----- the rows of a lane come in order -----

  /** Whether a module may come before another, by their rows. */
  predicate Before(up: bool, p: Pos, q: Pos)
  {
    if up then p.y >= q.y else p.y <= q.y
  }

  predicate InOrder(up: bool, path: seq<Pos>)
  {
    forall i, j :: 0 <= i < j < |path| ==> Before(up, path[i], path[j])
  }

  /** The first n rows, from below or from above. */
  lemma {:induction false} RowsSoFar(size: nat, right: int, n: nat, p: Pos)
    requires n <= size && p in PairWalk(size, right, n)
    ensures if Upward(right) then p.y >= size - n else p.y < n
  {
    hide Upward;
    if n > 0 && p in PairWalk(size, right, n - 1) { RowsSoFar(size, right, n - 1, p); }
  }

  lemma {:induction false} PairInOrder(size: nat, right: int, n: nat)
    requires n <= size
    ensures InOrder(Upward(right), PairWalk(size, right, n))
  {
    hide Upward;
    if n > 0 {
      PairInOrder(size, right, n - 1);
      var before, y := PairWalk(size, right, n - 1), RowOf(size, right, n - 1);
      assert PairWalk(size, right, n) == before + [Pos(right, y), Pos(right - 1, y)];
      hide PairWalk, InOrder;
      forall p | p in before ensures Before(Upward(right), p, Pos(right, y)) { RowsSoFar(size, right, n - 1, p); }
      AppendedInOrder(Upward(right), before, Pos(right, y), Pos(right - 1, y));
    }
  }

  lemma AppendedInOrder(up: bool, path: seq<Pos>, first: Pos, second: Pos)
    requires InOrder(up, path) && first.y == second.y && forall p :: p in path ==> Before(up, p, first)
    ensures InOrder(up, path + [first, second])
  {
    var longer := path + [first, second];
    forall i, j | 0 <= i < j < |longer| ensures Before(up, longer[i], longer[j]) {
      if i < |path| { assert longer[i] == path[i] && path[i] in path; }
      if j < |path| { assert longer[j] == path[j]; }
    }
  }

  lemma {:induction false} FreeFromPath(path: seq<Pos>, functions: set<Pos>, p: Pos)
    requires p in Free(path, functions)
    ensures p in path
    decreases |path|
  {
    var n := |path| - 1;
    if p in Free(path[..n], functions) { FreeFromPath(path[..n], functions, p); }
  }

  lemma {:induction false} FreeInOrder(up: bool, path: seq<Pos>, functions: set<Pos>)
    requires InOrder(up, path)
    ensures InOrder(up, Free(path, functions))
    decreases |path|
  {
    if path != [] {
      hide *;
      var n := |path| - 1;
      var before, last := path[..n], path[n];
      assert path == before + [last];
      LastComesLast(up, before, last);
      FreeInOrder(up, before, functions);
      FreeAppend(before, last, functions);
      if last !in functions {
        forall p | p in Free(before, functions) ensures Before(up, p, last) { FreeFromPath(before, functions, p); }
        LastInOrder(up, Free(before, functions), last);
      } else {
        assert Free(before, functions) + [] == Free(before, functions);
      }
    }
  }

  lemma LastComesLast(up: bool, path: seq<Pos>, last: Pos)
    requires InOrder(up, path + [last])
    ensures InOrder(up, path) && forall p :: p in path ==> Before(up, p, last)
  {
    hide Before;
    var longer := path + [last];
    assert forall i :: 0 <= i < |path| ==> path[i] == longer[i];
    forall p | p in path ensures Before(up, p, last) {
      var i :| 0 <= i < |path| && path[i] == p;
      assert Before(up, longer[i], longer[|path|]);
    }
  }

  lemma LastInOrder(up: bool, path: seq<Pos>, last: Pos)
    requires InOrder(up, path) && forall p :: p in path ==> Before(up, p, last)
    ensures InOrder(up, path + [last])
  {
    hide Before;
    var longer := path + [last];
    forall i, j | 0 <= i < j < |longer| ensures Before(up, longer[i], longer[j]) {
      assert longer[i] == path[i] && path[i] in path;
      if j < |path| { assert longer[j] == path[j]; }
    }
  }

  lemma LaneInOrder(number: nat, right: int)
    ensures InOrder(Upward(right), Lane(number, right))
  {
    hide FixedCells, PairWalk, Free, InOrder, Upward;
    PairInOrder(number * 4 + 17, right, number * 4 + 17);
    FreeInOrder(Upward(right), PairWalk(number * 4 + 17, right, number * 4 + 17), FixedCells(number));
  }

  // ----- how far from the ends of a lane -----

  lemma FewBefore(up: bool, lane: seq<Pos>, k: nat, early: set<Pos>)
    requires k < |lane| && Distinct(lane) && InOrder(up, lane)
    requires forall p :: p in lane && Before(up, p, lane[k]) ==> p in early
    ensures k < |early|
  {
    var head := lane[..k + 1];
    assert Distinct(head) by { hide InOrder, Before; }
    DistinctSize(head);
    hide Distinct;
    forall p | p in head ensures p in early {
      var j :| 0 <= j <= k && head[j] == p;
      assert lane[j] == p && p in lane;
      if j == k { SameRow(up, p); }
    }
    Smaller((set p | p in head), early);
  }

  lemma SameRow(up: bool, p: Pos)
    ensures Before(up, p, p)
  {
  }

  lemma FewAfter(up: bool, lane: seq<Pos>, k: nat, late: set<Pos>)
    requires k < |lane| && Distinct(lane) && InOrder(up, lane)
    requires forall p :: p in lane && Before(up, lane[k], p) ==> p in late
    ensures |lane| - k <= |late|
  {
    var tail := lane[k..];
    assert Distinct(tail) by { hide InOrder, Before; }
    DistinctSize(tail);
    hide Distinct;
    forall p | p in tail ensures p in late {
      var j :| 0 <= j < |tail| && tail[j] == p;
      assert lane[k + j] == p && p in lane;
      if j == 0 { SameRow(up, p); }
    }
    Smaller((set p | p in tail), late);
  }

  /** A module of the walk in a lane lies between the lane's mark and the next. */
  lemma InLane(number: nat, right: int, k: nat) returns (j: nat)
    requires number >= 1 && IsLane(number, right) && k < |DataWalk(number)|
    requires DataWalk(number)[k] in Lane(number, right)
    ensures j < |Lane(number, right)| && Lane(number, right)[j] == DataWalk(number)[k]
    ensures k == Mark(number, right) + j
    ensures IsLane(number, NextLane(right)) ==>
      |Lane(number, right)| == Mark(number, NextLane(right)) - Mark(number, right)
  {
    hide DataWalk, Lane, Rest, IsLane, NextLane;
    var before := WalkEndsIn(number, right);
    RestSplits(number, right);
    DataWalkCells(number);
    hide Distinct;
    j :| 0 <= j < |Lane(number, right)| && Lane(number, right)[j] == DataWalk(number)[k];
    assert DataWalk(number)[|before| + j] == Lane(number, right)[j];
    SamePlace(DataWalk(number), |before| + j, k);
  }

  lemma SamePlace(path: seq<Pos>, i: nat, j: nat)
    requires Distinct(path) && i < |path| && j < |path| && path[i] == path[j]
    ensures i == j
  {
  }

  // ----- the format modules -----

  /** The two modules of a lane in row 8, where the corner above it ends. */
  function Sill(right: int): (cells: set<Pos>)
    ensures |cells| == 2
  {
    assert Pos(right, 8) != Pos(right - 1, 8);
    {Pos(right, 8), Pos(right - 1, 8)}
  }

  /** Above row 8 such a lane holds nothing free. */
  predicate UnderCorner(number: nat, right: int)
  {
    right == 5 || right == 3 || right == 1 || right == number * 4 + 10 || right == number * 4 + 12
      || right == number * 4 + 14 || right == number * 4 + 16
  }

  lemma CornerIsFixed(number: nat, p: Pos)
    requires number >= 1 && 0 <= p.y < number * 4 + 17
    requires (0 <= p.x <= 7 && p.y <= 7) || (number * 4 + 9 <= p.x < number * 4 + 17 && p.y <= 7)
      || (0 <= p.x <= 7 && p.y >= number * 4 + 9)
    ensures p in FixedCells(number)
  {
    hide Board;
    var k: nat := if p.y > 7 then 2 else if p.x <= 7 then 0 else 1;
    assert InPattern(p, number, k);
    assert IsFixed(p, number, 6);
  }

  lemma NothingAbove(number: nat, right: int, p: Pos)
    requires number >= 1 && UnderCorner(number, right) && p in Lane(number, right) && p.y <= 8
    ensures p in Sill(right)
  {
    hide Lane, FixedCells;
    LaneCells(number, right);
    if p.y < 8 { CornerIsFixed(number, p); }
  }

  /** Its row 8 is at the end of the lane on the way up, and at its start on the way down. */
  lemma SillEnds(number: nat, right: int, k: nat)
    requires number >= 1 && UnderCorner(number, right) && IsLane(number, right) && k < |DataWalk(number)|
    requires DataWalk(number)[k] in Lane(number, right) && DataWalk(number)[k].y == 8
    ensures Upward(right) && IsLane(number, NextLane(right)) ==>
      Mark(number, NextLane(right)) - 2 <= k < Mark(number, NextLane(right))
    ensures !Upward(right) ==> Mark(number, right) <= k < Mark(number, right) + 2
  {
    hide DataWalk, Lane, Mark, Upward, NextLane;
    var lane := Lane(number, right);
    var j := InLane(number, right, k);
    LaneCells(number, right);
    LaneInOrder(number, right);
    forall p | p in lane && p.y <= 8 ensures p in Sill(right) { NothingAbove(number, right, p); }
    hide Distinct, InOrder;
    if Upward(right) { FewAfter(true, lane, j, Sill(right)); } else { FewBefore(false, lane, j, Sill(right)); }
  }

  /** The lane of column 8 starts with seven format modules and ends with nine. */
  function FootOf8(number: nat): (cells: set<Pos>)
    ensures |cells| == 7
    ensures forall p :: p in cells <==> p.x == 8 && number * 4 + 10 <= p.y < number * 4 + 17
  {
    Block(8, number * 4 + 10, 1, 7)
  }

  function HeadOf8(): (cells: set<Pos>)
    ensures |cells| <= 9
    ensures forall p :: p in cells <==> p == Pos(7, 8) || (p.x == 8 && 0 <= p.y <= 8 && p.y != 6)
  {
    var upper, lower := Block(8, 0, 1, 6), Block(8, 7, 1, 2) + {Pos(7, 8)};
    UnionBound(upper, lower);
    UnionBound(Block(8, 7, 1, 2), {Pos(7, 8)});
    upper + lower
  }

  lemma Column8(number: nat, p: Pos)
    requires number >= 1 && p in Lane(number, 8)
    ensures p.y >= number * 4 + 10 ==> p in FootOf8(number)
    ensures p.y <= 8 ==> p in HeadOf8()
  {
    hide Lane, FixedCells, FootOf8, HeadOf8;
    LaneCells(number, 8);
    if p.x == 7 && (p.y >= number * 4 + 10 || p.y < 8) {
      CornerIsFixed(number, p);
    } else if p.x == 8 && p.y == 6 {
      TimingIsFixed(number, p);
    }
  }

  lemma TimingIsFixed(number: nat, p: Pos)
    requires number >= 1 && p == Pos(8, 6)
    ensures p in FixedCells(number)
  {
    hide Board;
    assert InPattern(p, number, 3);
    assert IsFixed(p, number, 6);
  }

  lemma Eight(number: nat)
    requires number >= 1
    ensures IsLane(number, 8) && NextLane(8) == 5 && IsLane(number, 5) && Upward(8)
  {
  }

  lemma EndsOf8(number: nat, k: nat)
    requires number >= 1 && k < |DataWalk(number)| && DataWalk(number)[k] in Lane(number, 8)
    ensures DataWalk(number)[k].y >= number * 4 + 10 ==> Mark(number, 8) <= k < Mark(number, 8) + 7
    ensures DataWalk(number)[k].y <= 8 ==> Mark(number, 5) - 9 <= k < Mark(number, 5)
  {
    hide DataWalk, Lane, Mark, Upward, NextLane, IsLane, FootOf8, HeadOf8, Distinct, InOrder, FixedCells;
    Eight(number);
    var lane := Lane(number, 8);
    var j := InLane(number, 8, k);
    LaneCells(number, 8);
    LaneInOrder(number, 8);
    forall p | p in lane
      ensures p.y >= number * 4 + 10 ==> p in FootOf8(number)
      ensures p.y <= 8 ==> p in HeadOf8()
    {
      Column8(number, p);
    }
    if lane[j].y >= number * 4 + 10 { FewBefore(true, lane, j, FootOf8(number)); }
    if lane[j].y <= 8 { FewAfter(true, lane, j, HeadOf8()); }
  }

  /** The stretches of the walk that the format modules lie in: two at the upper right, two along column 8, and two at
      the left edge, of which the first continues the second along column 8. */
  predicate InStretch(number: nat, k: int)
  {
    || -2 <= k - Mark(number, number * 4 + 14) < 2
    || -2 <= k - Mark(number, number * 4 + 10) < 2
    || 0 <= k - Mark(number, 8) < 7
    || -9 <= k - Mark(number, 5) < 2
    || -2 <= k - Mark(number, 1) < 2
  }

  lemma FormatInStretches(number: nat, k: nat)
    requires number >= 1 && k < |DataWalk(number)| && FormatIndex(DataWalk(number)[k], number * 4 + 17) >= 0
    ensures InStretch(number, k)
  {
    hide DataWalk, Lane, Mark, FixedCells, Board, FormatIndex, IsLane, Distinct;
    var p := DataWalk(number)[k];
    assert p in DataWalk(number);
    DataWalkCells(number);
    var right := LaneOf(number, p);
    if right == 8 {
      EndsOf8(number, k);
    } else {
      Directions(number);
      hide Upward;
      LanesUnderCorner(number, right);
      SillEnds(number, right, k);
    }
  }

  lemma Even(n: int, half: int)
    requires n == 2 * half
    ensures n % 2 == 0
  {
  }

  lemma LanesUnderCorner(number: nat, right: int)
    requires number >= 1 && UnderCorner(number, right)
    ensures IsLane(number, right)
    ensures right == 3 || right == number * 4 + 12 || right == number * 4 + 16 ==>
      NextLane(right) == right - 2 && IsLane(number, right - 2)
  {
    Even(number * 4 + 10, 2 * number + 5);
    Even(number * 4 + 12, 2 * number + 6);
    Even(number * 4 + 14, 2 * number + 7);
    Even(number * 4 + 16, 2 * number + 8);
  }

  /** Which lane a format module is in. */
  lemma LaneOf(number: nat, p: Pos) returns (right: int)
    requires number >= 1 && FormatIndex(p, number * 4 + 17) >= 0 && p in Board(number * 4 + 17)
      && p !in FixedCells(number)
    ensures IsLane(number, right) && p in Lane(number, right)
    ensures (right == 8 && (p.y <= 8 || p.y >= number * 4 + 10))
      || (UnderCorner(number, right) && p.y == 8)
  {
    hide Lane, FixedCells, Board, FormatIndex, IsLane;
    FormatPlaces(number, p);
    right := PairOf(number, p.x);
    LaneCells(number, right);
    if right == 8 { Eight(number); } else { LanesUnderCorner(number, right); }
  }

  /** The pair of a column at either side, or of column 8. */
  function PairOf(number: nat, x: int): (right: int)
    requires number >= 1
    requires 0 <= x <= 5 || 7 <= x <= 8 || number * 4 + 9 <= x <= number * 4 + 16
    ensures x == right || x == right - 1
    ensures if 7 <= x <= 8 then right == 8 else UnderCorner(number, right)
  {
    if x <= 1 then 1 else if x <= 3 then 3 else if x <= 5 then 5 else if x <= 8 then 8
    else if x <= number * 4 + 10 then number * 4 + 10 else if x <= number * 4 + 12 then number * 4 + 12
    else if x <= number * 4 + 14 then number * 4 + 14 else number * 4 + 16
  }

  lemma FormatPlaces(number: nat, p: Pos)
    requires number >= 1 && FormatIndex(p, number * 4 + 17) >= 0
    ensures (p.x == 8 && (0 <= p.y <= 8 || number * 4 + 10 <= p.y < number * 4 + 17))
      || (p.y == 8 && (0 <= p.x <= 5 || p.x == 7 || number * 4 + 9 <= p.x < number * 4 + 17))
  {
  }

  lemma Directions(number: nat)
    ensures Upward(number * 4 + 16) && !Upward(number * 4 + 14) && Upward(number * 4 + 12) && !Upward(number * 4 + 10)
    ensures !Upward(5) && Upward(3) && !Upward(1)
  {
    assert (number * 4 + 17) / 2 == 2 * number + 8 && (number * 4 + 15) / 2 == 2 * number + 7;
    assert (number * 4 + 13) / 2 == 2 * number + 6 && (number * 4 + 11) / 2 == 2 * number + 5;
  }
}
