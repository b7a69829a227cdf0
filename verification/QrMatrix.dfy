/** The module grid of a QR symbol: function patterns, zigzag data placement and masking, all in place. */
module QrMatrix {
  import opened QrFigures

  datatype Pos = Pos(x: int, y: int)

  type Picture = map<Pos, bool>

  function Row(n: nat, y: int): (row: set<Pos>)
    ensures forall p :: p in row <==> 0 <= p.x < n && p.y == y
    ensures |row| == n
  {
    if n == 0 then {} else Row(n - 1, y) + {Pos(n - 1, y)}
  }

  function Rectangle(width: nat, height: nat): (cells: set<Pos>)
    ensures forall p :: p in cells <==> 0 <= p.x < width && 0 <= p.y < height
  {
    if height == 0 then {} else Rectangle(width, height - 1) + Row(width, height - 1)
  }

  function Board(size: nat): (cells: set<Pos>)
    ensures forall p :: p in cells <==> 0 <= p.x < size && 0 <= p.y < size
  {
    Rectangle(size, size)
  }

  // ----- function patterns as values -----

  predicate InFinder(p: Pos, left: int, top: int)
  {
    -1 <= p.x - left <= 7 && -1 <= p.y - top <= 7
  }

  /** Solid border, light ring, dark core; the separator around it is light. */
  predicate FinderDark(dx: int, dy: int)
  {
    0 <= dx <= 6 && 0 <= dy <= 6 && (dx == 0 || dx == 6 || dy == 0 || dy == 6 || (2 <= dx <= 4 && 2 <= dy <= 4))
  }

  predicate InAlignment(p: Pos, cx: int, cy: int)
  {
    -2 <= p.x - cx <= 2 && -2 <= p.y - cy <= 2
  }

  predicate AlignmentDark(dx: int, dy: int)
  {
    dx == -2 || dx == 2 || dy == -2 || dy == 2 || (dx == 0 && dy == 0)
  }

  predicate OnTiming(p: Pos, size: int)
  {
    (p.y == 6 && 8 <= p.x < size - 8) || (p.x == 6 && 8 <= p.y < size - 8)
  }

  /** Along the timing row or column the colour alternates. */
  predicate TimingDark(p: Pos)
  {
    if p.y == 6 then p.x % 2 == 0 else p.y % 2 == 0
  }

  /** Which of the 15 format bits a module carries in the copy around the top-left finder, or -1. */
  function FirstCopy(p: Pos): (i: int)
    ensures -1 <= i < 15
  {
    if p.x == 8 && 0 <= p.y <= 5 then p.y
    else if p.x == 8 && p.y == 7 then 6
    else if p.x == 8 && p.y == 8 then 7
    else if p.x == 7 && p.y == 8 then 8
    else if p.y == 8 && 0 <= p.x <= 5 then 14 - p.x
    else -1
  }

  /** The same for the copy split between the other two finders. */
  function SecondCopy(p: Pos, size: int): (i: int)
    ensures -1 <= i < 15
  {
    if p.y == 8 && size - 8 <= p.x < size then size - 1 - p.x
    else if p.x == 8 && size - 7 <= p.y < size then p.y - size + 15
    else -1
  }

  function FormatIndex(p: Pos, size: int): (i: int)
    ensures -1 <= i < 15
  {
    if FirstCopy(p) >= 0 then FirstCopy(p) else SecondCopy(p, size)
  }

  function FormatCells(size: nat): set<Pos>
  {
    set p | p in Board(size) && FormatIndex(p, size) >= 0
  }

  function WithFirstCopy(picture: Picture, bits: seq<bool>): (r: Picture)
    requires |bits| == 15
    ensures r.Keys == picture.Keys
  {
    map p | p in picture :: if FirstCopy(p) >= 0 then bits[FirstCopy(p)] else picture[p]
  }

  function WithSecondCopy(picture: Picture, size: nat, bits: seq<bool>): (r: Picture)
    requires |bits| == 15
    ensures r.Keys == picture.Keys
  {
    map p | p in picture :: if SecondCopy(p, size) >= 0 then bits[SecondCopy(p, size)] else picture[p]
  }

  /** The picture with the format bits written over it and the dark module set. */
  function WithFormat(picture: Picture, size: nat, bits: seq<bool>): (r: Picture)
    requires |bits| == 15
    ensures r.Keys == picture.Keys
  {
    map p | p in picture ::
      if FormatIndex(p, size) >= 0 then bits[FormatIndex(p, size)] else if p == Pos(8, size - 8) then true
      else picture[p]
  }

  // ----- the zigzag walk as a value -----

  predicate Upward(right: int)
  {
    (right + 1) / 2 % 2 == 0
  }

  function RowOf(size: nat, right: int, vert: int): int
  {
    if Upward(right) then size - 1 - vert else vert
  }

  /** The first n rows of the column pair (right, right - 1), in walking order. */
  function PairWalk(size: nat, right: int, n: nat): (path: seq<Pos>)
    ensures |path| == 2 * n
  {
    if n == 0 then []
    else
      PairWalk(size, right, n - 1) + [Pos(right, RowOf(size, right, n - 1)), Pos(right - 1, RowOf(size, right, n - 1))]
  }

  /** The walk from the column pair at `right` to the left edge, stepping over column 6. */
  function WalkFrom(size: nat, right: int): seq<Pos>
    decreases if right < 0 then 0 else right
  {
    if right < 1 then []
    else
      var r := if right == 6 then 5 else right;
      PairWalk(size, r, size) + WalkFrom(size, r - 2)
  }

  /** The right columns of the pairs: even down to 8, then 5, 3, 1. */
  predicate OnEdge(right: int, k: int)
  {
    if right < 6 then -1 <= right == 2 * k - 1 else right == 2 * k
  }

  lemma PairStart(size: nat, right: int, before: seq<Pos>)
    ensures before + PairWalk(size, right, 0) == before
  {
  }

  lemma RowStart(size: nat, right: int, vert: nat)
    ensures PairWalk(size, right, vert + 1)[..2 * vert + 0] == PairWalk(size, right, vert)
  {
  }

  lemma RowStep(size: nat, right: int, vert: nat, j: nat, before: seq<Pos>)
    requires j < 2
    ensures before + PairWalk(size, right, vert + 1)[..2 * vert + j] + [Pos(right - j, RowOf(size, right, vert))]
         == before + PairWalk(size, right, vert + 1)[..2 * vert + j + 1]
  {
    var path := PairWalk(size, right, vert + 1);
    assert path[2 * vert + j] == Pos(right - j, RowOf(size, right, vert));
    hide PairWalk, RowOf;
    assert path[..2 * vert + j + 1] == path[..2 * vert + j] + [path[2 * vert + j]];
  }

  lemma RowEnd(size: nat, right: int, vert: nat)
    ensures PairWalk(size, right, vert + 1)[..2 * vert + 2] == PairWalk(size, right, vert + 1)
  {
  }

  lemma NextPair(size: nat, right: int, k: int)
    requires OnEdge(right, k) && 1 <= right
    ensures var r := if right == 6 then 5 else right;
            OnEdge(r - 2, k - 1) && WalkFrom(size, right) == PairWalk(size, r, size) + WalkFrom(size, r - 2)
  {
  }

  lemma WalkEnd(size: nat, right: int, k: int)
    requires OnEdge(right, k) && right < 1
    ensures WalkFrom(size, right) == []
  {
  }

  lemma WalkStart(size: nat, picture: Picture, functions: set<Pos>, bits: seq<bool>)
    requires size % 2 == 1 && size >= 9
    ensures OnEdge(size - 1, size / 2) && [] + WalkFrom(size, size - 1) == Walk(size)
    ensures Placed(picture, Free([], functions), bits) == picture && Taken([], functions, bits) == 0
  {
    assert [] + WalkFrom(size, size - 1) == Walk(size);
  }

  lemma Assoc(a: seq<Pos>, b: seq<Pos>, c: seq<Pos>)
    ensures a + b + c == a + (b + c)
  {
  }

  function Walk(size: nat): seq<Pos>
  {
    WalkFrom(size, size - 1)
  }

  /** The positions of the path that are not function modules, in order. */
  function Free(path: seq<Pos>, functions: set<Pos>): seq<Pos>
  {
    if path == [] then []
    else Free(path[..|path| - 1], functions) + if path[|path| - 1] in functions then [] else [path[|path| - 1]]
  }

  predicate Distinct(path: seq<Pos>)
  {
    forall i, j :: 0 <= i < j < |path| ==> path[i] != path[j]
  }

  lemma {:induction false} PairWalkCells(size: nat, right: int, n: nat)
    requires n <= size
    ensures forall p :: p in PairWalk(size, right, n) <==> (p.x == right || p.x == right - 1) && exists v ::
      0 <= v < n && p.y == RowOf(size, right, v)
    ensures Distinct(PairWalk(size, right, n))
  {
    if n > 0 { PairWalkCells(size, right, n - 1); }
  }

  lemma WholePair(size: nat, right: int)
    ensures forall p :: p in PairWalk(size, right, size) <==> (p.x == right || p.x == right - 1) && 0 <= p.y < size
    ensures Distinct(PairWalk(size, right, size))
  {
    PairWalkCells(size, right, size);
    hide PairWalk;
    forall p: Pos | 0 <= p.y < size
      ensures exists v :: 0 <= v < size && p.y == RowOf(size, right, v)
    {
      var v := RowOf(size, right, p.y);
      assert p.y == RowOf(size, right, v);
    }
  }

  /** The walk visits every module left of its start exactly once, except column 6, and nothing else. */
  lemma {:induction false} WalkFromCells(size: nat, right: int)
    requires right % 2 == 0 || right < 6
    requires right < 6 ==> right % 2 != 0
    ensures forall p :: p in WalkFrom(size, right) <==> 0 <= p.x <= right && p.x != 6 && 0 <= p.y < size
    ensures Distinct(WalkFrom(size, right))
    decreases if right < 0 then 0 else right
  {
    hide PairWalk, Distinct;
    if right >= 1 {
      var r := if right == 6 then 5 else right;
      var first, rest := PairWalk(size, r, size), WalkFrom(size, r - 2);
      WalkFromCells(size, r - 2);
      WholePair(size, r);
      DistinctConcat(first, rest);
      assert WalkFrom(size, right) == first + rest;
    } else {
      NothingDistinct();
    }
  }

  lemma NothingDistinct()
    ensures Distinct([])
  {
  }

  lemma DistinctConcat(a: seq<Pos>, b: seq<Pos>)
    requires Distinct(a) && Distinct(b) && forall p :: p in a ==> p !in b
    ensures Distinct(a + b)
  {
    assert forall i :: 0 <= i < |a| ==> a[i] in a;
    assert forall i :: 0 <= i < |b| ==> b[i] in b;
  }

  lemma WalkCells(size: nat)
    requires size % 2 == 1 && size >= 9
    ensures forall p :: p in Walk(size) <==> p in Board(size) && p.x != 6
    ensures Distinct(Walk(size))
  {
    WalkFromCells(size, size - 1);
  }

  lemma {:induction false} FreeCells(path: seq<Pos>, functions: set<Pos>)
    requires Distinct(path)
    ensures Distinct(Free(path, functions))
    ensures forall p :: p in Free(path, functions) <==> p in path && p !in functions
    decreases |path|
  {
    if path != [] {
      var n := |path| - 1;
      FreeCells(path[..n], functions);
      assert path[n] !in path[..n];
      assert path == path[..n] + [path[n]];
      var f := Free(path[..n], functions);
      assert forall i :: 0 <= i < |f| ==> f[i] in f;
    }
  }

  lemma FreeAppend(path: seq<Pos>, p: Pos, functions: set<Pos>)
    ensures Free(path + [p], functions) == Free(path, functions) + if p in functions then [] else [p]
  {
    assert (path + [p])[..|path|] == path;
  }

  // ----- placing a bit stream along a path -----

  /** Write the k-th bit into the k-th position, light once the bits run out. */
  function Placed(picture: Picture, free: seq<Pos>, bits: seq<bool>): Picture
    decreases |free|
  {
    if free == [] then picture
    else
      var k := |free| - 1;
      Placed(picture, free[..k], bits)[free[k] := k < |bits| && bits[k]]
  }

  lemma PlacedNothing(picture: Picture, bits: seq<bool>)
    ensures Placed(picture, [], bits) == picture
  {
  }

  lemma PlacedStep(picture: Picture, free: seq<Pos>, p: Pos, bits: seq<bool>)
    ensures Placed(picture, free + [p], bits) == Placed(picture, free, bits)[p := |free| < |bits| && bits[|free|]]
  {
    assert (free + [p])[..|free|] == free;
  }

  lemma {:induction false} PlacedCells(picture: Picture, free: seq<Pos>, bits: seq<bool>)
    requires Distinct(free) && forall p :: p in free ==> p in picture
    ensures Placed(picture, free, bits).Keys == picture.Keys
    ensures forall k :: 0 <= k < |free| ==> Placed(picture, free, bits)[free[k]] == (k < |bits| && bits[k])
    ensures forall p :: p in picture && p !in free ==> Placed(picture, free, bits)[p] == picture[p]
    decreases |free|
  {
    if free != [] {
      var n := |free| - 1;
      PlacedCells(picture, free[..n], bits);
      assert free == free[..n] + [free[n]];
      PlacedStep(picture, free[..n], free[n], bits);
      hide Placed;
      assert free[n] in free;
      forall k | 0 <= k < n
        ensures Placed(picture, free, bits)[free[k]] == (k < |bits| && bits[k])
      {
        assert free[k] == free[..n][k];
      }
    } else {
      PlacedNothing(picture, bits);
    }
  }

  /** What a reader sees along a path. */
  function ReadAlong(picture: Picture, path: seq<Pos>): (bits: seq<bool>)
    requires forall p :: p in path ==> p in picture
    ensures |bits| == |path|
  {
    seq(|path|, k requires 0 <= k < |path| => picture[path[k]])
  }

  /** The bits, cut or padded with light modules to length n. */
  function Fitted(bits: seq<bool>, n: nat): (r: seq<bool>)
    ensures |r| == n
  {
    seq(n, k requires 0 <= k => k < |bits| && bits[k])
  }

  /** Walking the zigzag again over the free modules gives back the bits, then light modules. */
  lemma PlacedReadsBack(picture: Picture, size: nat, functions: set<Pos>, bits: seq<bool>)
    requires size % 2 == 1 && size >= 9 && picture.Keys == Board(size)
    ensures var free := Free(Walk(size), functions);
            var after := Placed(picture, free, bits);
            && after.Keys == picture.Keys
            && (forall p :: p in free <==> p in Board(size) && p.x != 6 && p !in functions)
            && Distinct(free)
            && (forall p :: p in Board(size) && p !in free ==> after[p] == picture[p])
            && ReadAlong(after, free) == Fitted(bits, |free|)
  {
    var free := Free(Walk(size), functions);
    WalkCells(size);
    FreeCells(Walk(size), functions);
    PlacedCells(picture, free, bits);
  }

  // ----- mask patterns -----

  function MaskBit(mask: int, x: int, y: int): bool
  {
    match mask
    case 0 => (x + y) % 2 == 0
    case 1 => y % 2 == 0
    case 2 => x % 3 == 0
    case 3 => (x + y) % 3 == 0
    case 4 => (x / 3 + y / 2) % 2 == 0
    case 5 => (x * y) % 2 + (x * y) % 3 == 0
    case 6 => ((x * y) % 2 + (x * y) % 3) % 2 == 0
    case _ => ((x + y) % 2 + (x * y) % 3) % 2 == 0
  }

  /** Masks 0 to 3, by how they change from module to module: a chessboard, rows, every third column, every third
      anti-diagonal. */
  lemma MaskSteps(x: nat, y: nat)
    ensures MaskBit(0, 0, 0) && MaskBit(0, x + 1, y) != MaskBit(0, x, y) && MaskBit(0, x, y + 1) != MaskBit(0, x, y)
    ensures MaskBit(1, x, 0) && MaskBit(1, x + 1, y) == MaskBit(1, x, y) && MaskBit(1, x, y + 1) != MaskBit(1, x, y)
    ensures MaskBit(2, 0, y) && !MaskBit(2, 1, y) && !MaskBit(2, 2, y)
    ensures MaskBit(2, x + 3, y) == MaskBit(2, x, y) && MaskBit(2, x, y + 1) == MaskBit(2, x, y)
    ensures MaskBit(3, 0, 0) && !MaskBit(3, 1, 0) && !MaskBit(3, 2, 0)
    ensures MaskBit(3, x + 3, y) == MaskBit(3, x, y) && MaskBit(3, x + 1, y) == MaskBit(3, x, y + 1)
  {
  }

  /** Mask 4 is a chessboard of tiles three modules wide and two high. */
  lemma MaskBlocks(x: nat, y: nat)
    ensures MaskBit(4, 0, 0)
    ensures MaskBit(4, x + 3, y) != MaskBit(4, x, y) && MaskBit(4, x, y + 2) != MaskBit(4, x, y)
    ensures x % 3 != 2 ==> MaskBit(4, x + 1, y) == MaskBit(4, x, y)
    ensures y % 2 == 0 ==> MaskBit(4, x, y + 1) == MaskBit(4, x, y)
  {
    assert (x + 3) / 3 == x / 3 + 1 && (y + 2) / 2 == y / 2 + 1;
    assert x % 3 != 2 ==> (x + 1) / 3 == x / 3;
    assert y % 2 == 0 ==> (y + 1) / 2 == y / 2;
  }

  /** The other masks are symmetric about the diagonal, and repeat every six columns and rows. */
  lemma MaskRepeats(mask: int, x: nat, y: nat)
    requires mask !in {0, 1, 2, 3, 4}
    ensures MaskBit(mask, y, x) == MaskBit(mask, x, y)
    ensures MaskBit(mask, x, y) == MaskBit(mask, x % 6, y % 6)
  {
    ProductResidues(x, y);
  }

  lemma ProductResidues(x: nat, y: nat)
    ensures x * y == y * x
    ensures (x * y) % 2 == ((x % 6) * (y % 6)) % 2 && (x * y) % 3 == ((x % 6) * (y % 6)) % 3
    ensures (x + y) % 2 == (x % 6 + y % 6) % 2
  {
    var i, j, a, b := x % 6, y % 6, x / 6, y / 6;
    var k := a * y + i * b;
    Expanded(x, y, a, b, i, j);
    Residue(x * y, i * j, k);
  }

  lemma Expanded(x: nat, y: nat, a: nat, b: nat, i: nat, j: nat)
    requires x == 6 * a + i && y == 6 * b + j
    ensures x * y == y * x == i * j + 6 * (a * y + i * b)
  {
    assert x * y == 6 * (a * y) + i * y;
    assert i * y == 6 * (i * b) + i * j;
  }

  lemma Residue(n: int, m: int, k: int)
    requires n == m + 6 * k
    ensures n % 2 == m % 2 && n % 3 == m % 3
  {
  }

  /** Every mask is its tile, repeated. */
  lemma MaskIsTile(mask: int, x: nat, y: nat)
    ensures MaskBit(mask, x, y) <==> Inverts(mask, x, y)
  {
    if mask in {0, 1, 2, 3} {
      SmallTiles(x, y);
      hide MaskBit, Inverts;
    } else if mask == 4 {
      WideTile(x, y);
    } else {
      MaskRepeats(mask, x, y);
      SquareTile(mask, x % 6, y % 6);
      hide MaskBit;
    }
  }

  lemma SmallTiles(x: nat, y: nat)
    ensures MaskBit(0, x, y) <==> Inverts(0, x, y)
    ensures MaskBit(1, x, y) <==> Inverts(1, x, y)
    ensures MaskBit(2, x, y) <==> Inverts(2, x, y)
    ensures MaskBit(3, x, y) <==> Inverts(3, x, y)
  {
    assert |Tile(0)| == |Tile(0)[0]| == 2;
    assert |Tile(1)| == 2 && |Tile(1)[0]| == 1;
    assert |Tile(2)| == 1 && |Tile(2)[0]| == 3;
    assert |Tile(3)| == |Tile(3)[0]| == 3;
  }

  lemma WideTile(x: nat, y: nat)
    ensures MaskBit(4, x, y) <==> Inverts(4, x, y)
  {
    assert x / 3 == 2 * (x / 6) + x % 6 / 3 && y / 2 == 2 * (y / 4) + y % 4 / 2;
    assert |Tile(4)| == 4 && |Tile(4)[0]| == 6;
    assert Inverts(4, x, y) <==> Inked(Tile(4), x % 6, y % 4);
    WideCell(x % 6, y % 4);
    hide Inverts, Inked;
  }

  lemma WideCell(i: nat, j: nat)
    requires i < 6 && j < 4
    ensures (i / 3 + j / 2) % 2 == 0 <==> Inked(Tile(4), i, j)
  {
  }

  lemma SquareTile(mask: int, x: nat, y: nat)
    requires mask !in {0, 1, 2, 3, 4} && x < 6 && y < 6
    ensures MaskBit(mask, x, y) <==> Inked(Tile(mask), x, y)
  {
    match mask
    case 5 => FiveCell(x, y);
    case 6 => SixCell(x, y);
    case _ => SevenCell(x, y);
  }

  lemma FiveCell(x: nat, y: nat)
    requires x < 6 && y < 6
    ensures (x * y) % 2 + (x * y) % 3 == 0 <==> Inked(Tile(5), x, y)
  {
  }

  lemma SixCell(x: nat, y: nat)
    requires x < 6 && y < 6
    ensures ((x * y) % 2 + (x * y) % 3) % 2 == 0 <==> Inked(Tile(6), x, y)
  {
  }

  lemma SevenCell(x: nat, y: nat)
    requires x < 6 && y < 6
    ensures ((x + y) % 2 + (x * y) % 3) % 2 == 0 <==> Inked(Tile(7), x, y)
  {
  }

  function Masked(picture: Picture, functions: set<Pos>, mask: int): (r: Picture)
    ensures r.Keys == picture.Keys
  {
    map p | p in picture :: picture[p] != (p !in functions && MaskBit(mask, p.x, p.y))
  }

  /** A masked picture: outside the function modules, exactly the inked modules of the tile have changed colour. */
  lemma MaskFollowsTile(picture: Picture, functions: set<Pos>, mask: int)
    ensures forall p :: p in picture && p.x >= 0 && p.y >= 0 ==>
      Masked(picture, functions, mask)[p] == if p !in functions && Inverts(mask, p.x, p.y) then !picture[p]
        else picture[p]
  {
    hide MaskBit, Inverts;
    forall p | p in picture && p.x >= 0 && p.y >= 0 ensures MaskBit(mask, p.x, p.y) <==> Inverts(mask, p.x, p.y) {
      MaskIsTile(mask, p.x, p.y);
    }
  }

  /** How many bits the walk has consumed. */
  function Taken(visited: seq<Pos>, functions: set<Pos>, bits: seq<bool>): nat
  {
    var n := |Free(visited, functions)|;
    if n < |bits| then n else |bits|
  }

  lemma VisitStep(c0: Picture, visited: seq<Pos>, p: Pos, functions: set<Pos>, bits: seq<bool>)
    ensures var i, before := Taken(visited, functions, bits), Placed(c0, Free(visited, functions), bits);
      var i', after := Taken(visited + [p], functions, bits), Placed(c0, Free(visited + [p], functions), bits);
      if p in functions then after == before && i' == i
      else after == before[p := i < |bits| && bits[i]] && i' == if i < |bits| then i + 1 else i
  {
    var free := Free(visited, functions);
    FreeAppend(visited, p, functions);
    PlacedStep(c0, free, p, bits);
    hide Free, Placed;
    assert free + [] == free;
  }

  // ----- the grid in memory -----

  class Matrix {
    const size: nat
    var modules: array2<bool>
    var isFunction: array2<bool>

    predicate Valid()
      reads this
    {
      && modules.Length0 == modules.Length1 == size
      && isFunction.Length0 == isFunction.Length1 == size
      && modules != isFunction
    }

    function Colours(): (picture: Picture)
      reads this, modules
      requires Valid()
      ensures picture.Keys == Board(size)
    {
      map p | p in Board(size) :: modules[p.y, p.x]
    }

    ghost function Functions(): (cells: set<Pos>)
      reads this, isFunction
      requires Valid()
      ensures cells <= Board(size)
    {
      set p | p in Board(size) && isFunction[p.y, p.x]
    }

    constructor (size: nat)
      ensures Valid() && this.size == size && fresh(modules) && fresh(isFunction)
      ensures Functions() == {} && forall p :: p in Colours() ==> !Colours()[p]
    {
      this.size := size;
      modules := new bool[size, size]((_, _) => false);
      isFunction := new bool[size, size]((_, _) => false);
    }

    function IsFunction(x: int, y: int): (r: bool)
      reads this, isFunction
      requires Valid() && Pos(x, y) in Board(size)
      ensures r <==> Pos(x, y) in Functions()
    {
      isFunction[y, x]
    }

    method SetFunction(x: int, y: int, dark: bool)
      requires Valid() && Pos(x, y) in Board(size)
      modifies modules, isFunction
      ensures Colours() == old(Colours())[Pos(x, y) := dark]
      ensures Functions() == old(Functions()) + {Pos(x, y)}
    {
      hide Board;
      modules[y, x] := dark;
      assert Functions() == old(Functions());
      isFunction[y, x] := true;
    }

    function Module(x: int, y: int): (r: bool)
      reads this, modules
      requires Valid() && Pos(x, y) in Board(size)
      ensures r == Colours()[Pos(x, y)]
    {
      modules[y, x]
    }

    method SetModule(p: Pos, dark: bool)
      requires Valid() && p in Board(size)
      modifies modules
      ensures Colours() == old(Colours())[p := dark]
    {
      hide Board;
      modules[p.y, p.x] := dark;
    }

    /** One stop of the walk: a function module is stepped over, a free one takes the next bit. */
    method VisitModule(p: Pos, bits: seq<bool>, i: nat, ghost c0: Picture, ghost visited: seq<Pos>) returns (next: nat)
      requires Valid() && p in Board(size)
      requires Colours() == Placed(c0, Free(visited, Functions()), bits)
      requires i == Taken(visited, Functions(), bits)
      modifies modules
      ensures Colours() == Placed(c0, Free(visited + [p], Functions()), bits)
      ensures next == Taken(visited + [p], Functions(), bits)
    {
      VisitStep(c0, visited, p, Functions(), bits);
      hide Colours, Functions, Board, Free, Placed, Taken;
      next := i;
      if !IsFunction(p.x, p.y) {
        var bit := false;
        if i < |bits| {
          bit := bits[i];
          next := i + 1;
        }
        SetModule(p, bit);
      }
    }

    /** The boustrophedon walk over column pairs from the right, one bit for every free module. */
    method PlaceData(bits: seq<bool>)
      requires Valid() && size % 2 == 1 && size >= 9
      modifies modules
      ensures Colours() == Placed(old(Colours()), Free(Walk(size), Functions()), bits)
    {
      ghost var c0 := Colours();
      ghost var visited: seq<Pos>, k := [], size / 2;
      WalkStart(size, c0, Functions(), bits);
      var i, right := 0, size - 1;
      hide Colours, Functions, Board, Walk, WalkFrom, PairWalk, Placed, Free, Taken, OnEdge;
      while right >= 1
        invariant OnEdge(right, k) && right < size
        invariant visited + WalkFrom(size, right) == Walk(size)
        invariant Colours() == Placed(c0, Free(visited, Functions()), bits)
        invariant i == Taken(visited, Functions(), bits)
        decreases right
      {
        ghost var before := visited;
        NextPair(size, right, k);
        if right == 6 { right := 5; }
        i, visited := PlacePair(right, bits, i, c0, visited);
        Assoc(before, PairWalk(size, right, size), WalkFrom(size, right - 2));
        right, k := right - 2, k - 1;
      }
      WalkEnd(size, right, k);
      assert visited + [] == visited;
    }

    method PlacePair(right: int, bits: seq<bool>, start: nat, ghost c0: Picture, ghost before: seq<Pos>)
      returns (i: nat, ghost visited: seq<Pos>)
      requires Valid() && 1 <= right < size
      requires Colours() == Placed(c0, Free(before, Functions()), bits) && start == Taken(before, Functions(), bits)
      modifies modules
      ensures visited == before + PairWalk(size, right, size)
      ensures Colours() == Placed(c0, Free(visited, Functions()), bits) && i == Taken(visited, Functions(), bits)
    {
      hide Colours, Functions, Placed, Free, Board, Taken, PairWalk;
      visited, i := before, start;
      PairStart(size, right, before);
      var vert := 0;
      while vert < size
        invariant 0 <= vert <= size && visited == before + PairWalk(size, right, vert)
        invariant Colours() == Placed(c0, Free(visited, Functions()), bits) && i == Taken(visited, Functions(), bits)
      {
        var j := 0;
        RowStart(size, right, vert);
        while j < 2
          invariant 0 <= j <= 2
          invariant visited == before + PairWalk(size, right, vert + 1)[..2 * vert + j]
          invariant Colours() == Placed(c0, Free(visited, Functions()), bits) && i == Taken(visited, Functions(), bits)
        {
          var x := right - j;
          var upward := (right + 1) / 2 % 2 == 0;
          var y := if upward then size - 1 - vert else vert;
          i := VisitModule(Pos(x, y), bits, i, c0, visited);
          visited := visited + [Pos(x, y)];
          RowStep(size, right, vert, j, before);
          j := j + 1;
        }
        RowEnd(size, right, vert);
        vert := vert + 1;
      }
    }

    method ApplyMask(mask: int)
      requires Valid()
      modifies modules
      ensures Colours() == Masked(old(Colours()), Functions(), mask)
      ensures forall p :: p in Board(size) ==>
        Colours()[p] == if p !in Functions() && Inverts(mask, p.x, p.y) then !old(Colours())[p] else old(Colours())[p]
    {
      hide Colours, Functions, Board, MaskBit, Inverts;
      MaskFollowsTile(Colours(), Functions(), mask);
      ghost var c0, f := Colours(), Functions();
      var y := 0;
      while y < size
        invariant 0 <= y <= size && Functions() == f
        invariant forall p :: p in Board(size) ==>
          Colours()[p] == (c0[p] != (p.y < y && p !in f && MaskBit(mask, p.x, p.y)))
      {
        var x := 0;
        while x < size
          invariant 0 <= x <= size && Functions() == f
          invariant forall p :: p in Board(size) ==>
            Colours()[p] == (c0[p] != ((p.y < y || (p.y == y && p.x < x)) && p !in f && MaskBit(mask, p.x, p.y)))
        {
          if !IsFunction(x, y) && MaskBit(mask, x, y) {
            SetModule(Pos(x, y), !Module(x, y));
          }
          x := x + 1;
        }
        y := y + 1;
      }
    }

    /** One row of a finder, as far as it lies on the board. */
    method DrawFinderRow(left: int, top: int, dy: int)
      requires Valid() && -1 <= dy <= 7
      modifies modules, isFunction
      ensures Functions() == old(Functions()) + set p | p in Board(size) && InFinder(p, left, top) && p.y - top == dy
      ensures Colours() == map p | p in Board(size) ::
          if InFinder(p, left, top) && p.y - top == dy then FinderDark(p.x - left, p.y - top) else old(Colours())[p]
    {
      hide Colours, Functions, FinderDark, AlignmentDark, Board, RowPainted, InFinder;
      ghost var f, c := Functions(), Colours();
      RowUnpainted(f, c, size, left, top, dy);
      var dx := -1;
      while dx <= 7
        invariant -1 <= dx <= 8
        invariant RowPainted(Functions(), Colours(), f, c, size, left, top, dy, dx)
      {
        var x, y := left + dx, top + dy;
        RowPaintedStep(Functions(), Colours(), f, c, size, left, top, dy, dx);
        if 0 <= x < size && 0 <= y < size {
          FinderModule(x, y, FinderDark(dx, dy));
        }
        dx := dx + 1;
      }
      RowPaintedEnd(Functions(), Colours(), f, c, size, left, top, dy);
    }

    /** A bounds-checked module is on the board. */
    method FinderModule(x: int, y: int, dark: bool)
      requires Valid() && 0 <= x < size && 0 <= y < size
      modifies modules, isFunction
      ensures Pos(x, y) in Board(size)
      ensures Colours() == old(Colours())[Pos(x, y) := dark] && Functions() == old(Functions()) + {Pos(x, y)}
    {
      hide Colours, Functions;
      SetFunction(x, y, dark);
    }

    method DrawFinder(left: int, top: int)
      requires Valid()
      modifies modules, isFunction
      ensures Functions() == old(Functions()) + set p | p in Board(size) && InFinder(p, left, top)
      ensures Colours() == map p | p in Board(size) :: if InFinder(p, left, top)
        then FinderDark(p.x - left, p.y - top) else old(Colours())[p]
    {
      hide Colours, Functions, FinderDark, AlignmentDark, Board;
      ghost var f, c := Functions(), Colours();
      var dy := -1;
      while dy <= 7
        invariant -1 <= dy <= 8
        invariant forall p ::
          p in Functions() <==> p in f || (p in Board(size) && InFinder(p, left, top) && p.y - top < dy)
        invariant forall p :: p in Board(size) ==>
          Colours()[p] == if InFinder(p, left, top) && p.y - top < dy then FinderDark(p.x - left, p.y - top) else c[p]
      {
        DrawFinderRow(left, top, dy);
        dy := dy + 1;
      }
    }

    method SetUnlessFunction(x: int, y: int, dark: bool)
      requires Valid() && Pos(x, y) in Board(size)
      modifies modules, isFunction
      ensures Colours() == if Pos(x, y) in old(Functions()) then old(Colours()) else old(Colours())[Pos(x, y) := dark]
      ensures Functions() == old(Functions()) + {Pos(x, y)}
    {
      hide Colours, Functions, Board;
      if !IsFunction(x, y) {
        SetFunction(x, y, dark);
      }
    }

    /** Row and column 6 between the finders; modules that are already function modules keep their colour. */
    method DrawTiming()
      requires Valid()
      modifies modules, isFunction
      ensures Functions() == old(Functions()) + set p | p in Board(size) && OnTiming(p, size)
      ensures Colours() == map p | p in Board(size) :: if OnTiming(p, size) && p !in old(Functions())
        then TimingDark(p) else old(Colours())[p]
    {
      hide Colours, Functions, Board, Tracked, IsTrack, OnTiming;
      ghost var f, c, done: set<Pos> := Functions(), Colours(), {};
      NoTrack(f, c, size);
      var i := 8;
      while i < size - 8
        invariant 8 <= i && Tracked(Functions(), Colours(), f, c, done) && IsTrack(done, size, i)
      {
        TrackStep(done, size, i);
        var dark := i % 2 == 0;
        TrackModule(Functions(), Colours(), f, c, done, Pos(i, 6));
        SetUnlessFunction(i, 6, dark);
        done := done + {Pos(i, 6)};
        TrackModule(Functions(), Colours(), f, c, done, Pos(6, i));
        SetUnlessFunction(6, i, dark);
        done := done + {Pos(6, i)};
        i := i + 1;
      }
      WholeTrack(Functions(), Colours(), f, c, done, size, i);
    }

    method DrawAlignmentRow(cx: int, cy: int, dy: int)
      requires Valid() && 2 <= cx < size - 2 && 2 <= cy < size - 2 && -2 <= dy <= 2
      modifies modules, isFunction
      ensures Functions() == old(Functions()) + set p | p in Board(size) && InAlignment(p, cx, cy) && p.y - cy == dy
      ensures Colours() == map p | p in Board(size) ::
          if InAlignment(p, cx, cy) && p.y - cy == dy then AlignmentDark(p.x - cx, p.y - cy) else old(Colours())[p]
    {
      hide Colours, Functions, FinderDark, AlignmentDark, Board;
      ghost var f, c := Functions(), Colours();
      var dx := -2;
      while dx <= 2
        invariant -2 <= dx <= 3
        invariant forall p :: p in Functions() <==> p in f || (p.y - cy == dy && -2 <= p.x - cx < dx)
        invariant forall p :: p in Board(size) ==>
          Colours()[p] == if p.y - cy == dy && -2 <= p.x - cx < dx then AlignmentDark(p.x - cx, p.y - cy) else c[p]
      {
        SetFunction(cx + dx, cy + dy, AlignmentDark(dx, dy));
        dx := dx + 1;
      }
    }

    method DrawAlignment(cx: int, cy: int)
      requires Valid() && 2 <= cx < size - 2 && 2 <= cy < size - 2
      modifies modules, isFunction
      ensures Functions() == old(Functions()) + set p | p in Board(size) && InAlignment(p, cx, cy)
      ensures Colours() == map p | p in Board(size) :: if InAlignment(p, cx, cy)
        then AlignmentDark(p.x - cx, p.y - cy) else old(Colours())[p]
    {
      hide Colours, Functions, FinderDark, AlignmentDark, Board;
      ghost var f, c := Functions(), Colours();
      var dy := -2;
      while dy <= 2
        invariant -2 <= dy <= 3
        invariant forall p ::
          p in Functions() <==> p in f || (p in Board(size) && InAlignment(p, cx, cy) && p.y - cy < dy)
        invariant forall p :: p in Board(size) ==>
          Colours()[p] == if InAlignment(p, cx, cy) && p.y - cy < dy then AlignmentDark(p.x - cx, p.y - cy) else c[p]
      {
        DrawAlignmentRow(cx, cy, dy);
        dy := dy + 1;
      }
    }

    /** Bits 0 to 5 of the first copy: down column 8. */
    method DrawFirstColumn(bits: seq<bool>)
      requires Valid() && size >= 9 && |bits| == 15
      modifies modules, isFunction
      ensures Functions() == old(Functions()) + set p | p in Board(size) && 0 <= FirstCopy(p) < 6
      ensures Colours() == map p | p in Board(size) :: if 0 <= FirstCopy(p) < 6 then bits[FirstCopy(p)]
        else old(Colours())[p]
    {
      hide Colours, Functions, Board;
      ghost var f, c := Functions(), Colours();
      var i := 0;
      while i <= 5
        invariant 0 <= i <= 6
        invariant forall p :: p in Functions() <==> p in f || (p.x == 8 && 0 <= p.y < i)
        invariant forall p :: p in Board(size) ==> Colours()[p] == if p.x == 8 && p.y < i then bits[p.y] else c[p]
      {
        SetFunction(8, i, bits[i]);
        i := i + 1;
      }
    }

    /** Bits 6 to 8 of the first copy: around the corner. */
    method DrawCorner(bits: seq<bool>)
      requires Valid() && size >= 9 && |bits| == 15
      modifies modules, isFunction
      ensures Functions() == old(Functions()) + set p | p in Board(size) && 6 <= FirstCopy(p) < 9
      ensures Colours() == map p | p in Board(size) :: if 6 <= FirstCopy(p) < 9 then bits[FirstCopy(p)]
        else old(Colours())[p]
    {
      hide Colours, Functions, Board, FirstCopy;
      CornerModules(size, Functions(), Colours(), bits);
      SetFunction(8, 7, bits[6]);
      SetFunction(8, 8, bits[7]);
      SetFunction(7, 8, bits[8]);
    }

    /** Bits 9 to 14 of the first copy: leftwards along row 8. */
    method DrawFirstRow(bits: seq<bool>)
      requires Valid() && size >= 9 && |bits| == 15
      modifies modules, isFunction
      ensures Functions() == old(Functions()) + set p | p in Board(size) && 9 <= FirstCopy(p) < 15
      ensures Colours() == map p | p in Board(size) :: if 9 <= FirstCopy(p) < 15 then bits[FirstCopy(p)]
        else old(Colours())[p]
    {
      hide Colours, Functions, Board;
      ghost var f, c := Functions(), Colours();
      var i := 9;
      while i < 15
        invariant 9 <= i <= 15
        invariant forall p :: p in Functions() <==> p in f || (p.y == 8 && 14 - i < p.x <= 5)
        invariant forall p :: p in Board(size) ==> Colours()[p] == if p.y == 8 && 14 - i < p.x <= 5
          then bits[14 - p.x] else c[p]
      {
        SetFunction(14 - i, 8, bits[i]);
        i := i + 1;
      }
    }

    /** Bits 0 to 7 of the second copy: leftwards along row 8 from the right edge. */
    method DrawSecondRow(bits: seq<bool>)
      requires Valid() && size >= 17 && |bits| == 15
      modifies modules, isFunction
      ensures Functions() == old(Functions()) + set p | p in Board(size) && 0 <= SecondCopy(p, size) < 8
      ensures Colours() == map p | p in Board(size) :: if 0 <= SecondCopy(p, size) < 8 then bits[SecondCopy(p, size)]
        else old(Colours())[p]
    {
      hide Colours, Functions, Board;
      ghost var f, c := Functions(), Colours();
      var i := 0;
      while i < 8
        invariant 0 <= i <= 8
        invariant forall p :: p in Functions() <==> p in f || (p.y == 8 && size - 1 - i < p.x < size)
        invariant forall p :: p in Board(size) ==> Colours()[p] == if p.y == 8 && size - 1 - i < p.x
          then bits[size - 1 - p.x] else c[p]
      {
        SetFunction(size - 1 - i, 8, bits[i]);
        i := i + 1;
      }
    }

    /** Bits 8 to 14 of the second copy: down column 8 to the bottom edge. */
    method DrawSecondColumn(bits: seq<bool>)
      requires Valid() && size >= 17 && |bits| == 15
      modifies modules, isFunction
      ensures Functions() == old(Functions()) + set p | p in Board(size) && 8 <= SecondCopy(p, size) < 15
      ensures Colours() == map p | p in Board(size) :: if 8 <= SecondCopy(p, size) < 15
        then bits[SecondCopy(p, size)] else old(Colours())[p]
    {
      hide Colours, Functions, Board;
      ghost var f, c := Functions(), Colours();
      var i := 8;
      while i < 15
        invariant 8 <= i <= 15
        invariant forall p :: p in Functions() <==> p in f || (p.x == 8 && size - 7 <= p.y < size - 15 + i)
        invariant forall p :: p in Board(size) ==>
          Colours()[p] == if p.x == 8 && size - 7 <= p.y < size - 15 + i then bits[p.y - size + 15] else c[p]
      {
        SetFunction(8, size - 15 + i, bits[i]);
        i := i + 1;
      }
    }

    method DrawFirstCopy(bits: seq<bool>)
      requires Valid() && size >= 9 && |bits| == 15
      modifies modules, isFunction
      ensures Functions() == old(Functions()) + set p | p in Board(size) && FirstCopy(p) >= 0
      ensures Colours() == WithFirstCopy(old(Colours()), bits)
    {
      hide Colours, Functions, Board, FirstCopy;
      DrawFirstColumn(bits);
      DrawCorner(bits);
      DrawFirstRow(bits);
    }

    method DrawSecondCopy(bits: seq<bool>)
      requires Valid() && size >= 17 && |bits| == 15
      modifies modules, isFunction
      ensures Functions() == old(Functions()) + set p | p in Board(size) && SecondCopy(p, size) >= 0
      ensures Colours() == WithSecondCopy(old(Colours()), size, bits)
    {
      hide Colours, Functions, Board, SecondCopy;
      DrawSecondRow(bits);
      DrawSecondColumn(bits);
    }

    /** Both copies of the format bits, and the dark module again. */
    method DrawFormat(bits: seq<bool>)
      requires Valid() && size >= 17 && |bits| == 15
      modifies modules, isFunction
      ensures Functions() == old(Functions()) + FormatCells(size) + {Pos(8, size - 8)}
      ensures Colours() == WithFormat(old(Colours()), size, bits)
    {
      FormatInStages(Colours(), size, bits);
      BothCopies(size);
      hide Colours, Functions, Board, FirstCopy, SecondCopy, WithFirstCopy, WithSecondCopy, WithFormat, FormatCells;
      ghost var f := Functions();
      DrawFirstCopy(bits);
      DrawSecondCopy(bits);
      OnBoard(size);
      SetFunction(8, size - 8, true);
      Regroup(f, set p | p in Board(size) && FirstCopy(p) >= 0, set p | p in Board(size)
        && SecondCopy(p, size) >= 0, {Pos(8, size - 8)});
    }
  }

  /** A finder row has been drawn up to column dx. */
  ghost predicate RowPainted(functions: set<Pos>, colours: Picture, f: set<Pos>, c: Picture, size: nat, left: int,
    top: int, dy: int, dx: int)
  {
    && colours.Keys == c.Keys == Board(size)
    && (forall p :: p in functions <==> p in f || (p in Board(size) && p.y - top == dy && -1 <= p.x - left < dx))
    && (forall p :: p in Board(size) ==>
        colours[p] == if p.y - top == dy && -1 <= p.x - left < dx then FinderDark(p.x - left, p.y - top) else c[p])
  }

  lemma RowUnpainted(f: set<Pos>, c: Picture, size: nat, left: int, top: int, dy: int)
    requires c.Keys == Board(size)
    ensures RowPainted(f, c, f, c, size, left, top, dy, -1)
  {
  }

  lemma RowPaintedStep(functions: set<Pos>, colours: Picture, f: set<Pos>, c: Picture, size: nat, left: int,
    top: int, dy: int, dx: int)
    requires -1 <= dx <= 7 && RowPainted(functions, colours, f, c, size, left, top, dy, dx)
    ensures var p := Pos(left + dx, top + dy);
      if 0 <= p.x < size && 0 <= p.y < size
      then RowPainted(functions + {p}, colours[p := FinderDark(dx, dy)], f, c, size, left, top, dy, dx + 1)
      else RowPainted(functions, colours, f, c, size, left, top, dy, dx + 1)
  {
    hide FinderDark, Board;
    OnBoard(size);
  }

  lemma RowPaintedEnd(functions: set<Pos>, colours: Picture, f: set<Pos>, c: Picture, size: nat, left: int, top: int,
    dy: int)
    requires -1 <= dy <= 7 && RowPainted(functions, colours, f, c, size, left, top, dy, 8)
    ensures functions == f + set p | p in Board(size) && InFinder(p, left, top) && p.y - top == dy
    ensures colours == map p | p in Board(size) :: if InFinder(p, left, top) && p.y - top == dy
      then FinderDark(p.x - left, p.y - top) else c[p]
  {
    hide FinderDark, Board;
  }

  lemma Regroup(f: set<Pos>, a: set<Pos>, b: set<Pos>, c: set<Pos>)
    ensures f + a + b + c == f + (a + b) + c
  {
  }

  /** The modules of the timing tracks before position i. */
  ghost predicate IsTrack(done: set<Pos>, size: nat, i: int)
  {
    forall p :: p in done <==> p in Board(size) && OnTiming(p, size) && p.x < i && p.y < i
  }

  /** Some modules have been reserved, and the free ones among them have their timing colour. */
  ghost predicate Tracked(functions: set<Pos>, colours: Picture, f: set<Pos>, c: Picture, done: set<Pos>)
  {
    && colours.Keys == c.Keys && functions == f + done
    && forall p :: p in c ==> colours[p] == if p in done && p !in f then TimingDark(p) else c[p]
  }

  lemma NoTrack(f: set<Pos>, c: Picture, size: nat)
    ensures Tracked(f, c, f, c, {}) && IsTrack({}, size, 8)
  {
  }

  lemma TrackModule(functions: set<Pos>, colours: Picture, f: set<Pos>, c: Picture, done: set<Pos>, p: Pos)
    requires Tracked(functions, colours, f, c, done) && p in c && p !in done
    ensures var after := if p in functions then colours else colours[p := TimingDark(p)];
      Tracked(functions + {p}, after, f, c, done + {p})
  {
    hide TimingDark;
  }

  lemma TrackStep(done: set<Pos>, size: nat, i: int)
    requires 8 <= i < size - 8 && IsTrack(done, size, i)
    ensures Pos(i, 6) in Board(size) && Pos(6, i) in Board(size)
    ensures Pos(i, 6) !in done && Pos(6, i) !in done + {Pos(i, 6)}
    ensures TimingDark(Pos(i, 6)) == TimingDark(Pos(6, i)) == (i % 2 == 0)
    ensures IsTrack(done + {Pos(i, 6)} + {Pos(6, i)}, size, i + 1)
  {
  }

  lemma WholeTrack(functions: set<Pos>, colours: Picture, f: set<Pos>, c: Picture, done: set<Pos>, size: nat, i: int)
    requires i >= size - 8 && c.Keys == Board(size) && Tracked(functions, colours, f, c, done) && IsTrack(done, size, i)
    ensures functions == f + set p | p in Board(size) && OnTiming(p, size)
    ensures colours == map p | p in Board(size) :: if OnTiming(p, size) && p !in f then TimingDark(p) else c[p]
  {
    TrackIs(done, size, i);
    hide Board, TimingDark, OnTiming, IsTrack;
  }

  lemma TrackIs(done: set<Pos>, size: nat, i: int)
    requires i >= size - 8 && IsTrack(done, size, i)
    ensures done == set p | p in Board(size) && OnTiming(p, size)
  {
    assert forall p :: OnTiming(p, size) ==> p.x < i && p.y < i;
    hide Board, OnTiming;
  }

  lemma CornerModules(size: nat, f: set<Pos>, c: Picture, bits: seq<bool>)
    requires size >= 9 && |bits| == 15 && c.Keys == Board(size)
    ensures Pos(8, 7) in Board(size) && Pos(8, 8) in Board(size) && Pos(7, 8) in Board(size)
    ensures f + {Pos(8, 7)} + {Pos(8, 8)} + {Pos(7, 8)} == f + set p | p in Board(size) && 6 <= FirstCopy(p) < 9
    ensures c[Pos(8, 7) := bits[6]][Pos(8, 8) := bits[7]][Pos(7, 8) := bits[8]]
      == map p | p in Board(size) :: if 6 <= FirstCopy(p) < 9 then bits[FirstCopy(p)] else c[p]
  {
    hide Board, FirstCopy;
    OnBoard(size);
    CornerIndices();
  }

  lemma CornerIndices()
    ensures forall p :: 6 <= FirstCopy(p) < 9 <==> p == Pos(8, 7) || p == Pos(8, 8) || p == Pos(7, 8)
    ensures FirstCopy(Pos(8, 7)) == 6 && FirstCopy(Pos(8, 8)) == 7 && FirstCopy(Pos(7, 8)) == 8
  {
  }

  lemma OnBoard(size: nat)
    ensures forall x, y :: Pos(x, y) in Board(size) <==> 0 <= x < size && 0 <= y < size
  {
  }

  lemma FormatInStages(picture: Picture, size: nat, bits: seq<bool>)
    requires size >= 17 && |bits| == 15 && picture.Keys == Board(size)
    ensures WithFormat(picture, size, bits)
      == WithSecondCopy(WithFirstCopy(picture, bits), size, bits)[Pos(8, size - 8) := true]
  {
    hide *;
    var plain, staged := WithFormat(picture, size, bits),
      WithSecondCopy(WithFirstCopy(picture, bits), size, bits)[Pos(8, size - 8) := true];
    forall p | p in picture ensures plain[p] == staged[p] { StagedModule(picture, size, bits, p); }
    assert staged.Keys == picture.Keys;
  }

  lemma BothCopies(size: nat)
    ensures FormatCells(size)
      == (set p | p in Board(size) && FirstCopy(p) >= 0) + (set p | p in Board(size) && SecondCopy(p, size) >= 0)
  {
    hide FirstCopy, SecondCopy, Board;
  }

  lemma StagedModule(picture: Picture, size: nat, bits: seq<bool>, p: Pos)
    requires size >= 17 && |bits| == 15 && p in picture
    ensures WithFormat(picture, size, bits)[p]
      == WithSecondCopy(WithFirstCopy(picture, bits), size, bits)[Pos(8, size - 8) := true][p]
  {
    CopiesApart(size);
    hide FirstCopy, SecondCopy;
  }

  /** The two copies do not share a module, and neither holds the dark module. */
  lemma CopiesApart(size: nat)
    requires size >= 17
    ensures forall p :: FirstCopy(p) >= 0 ==> SecondCopy(p, size) < 0
    ensures FirstCopy(Pos(8, size - 8)) < 0 && SecondCopy(Pos(8, size - 8), size) < 0
  {
  }
}
