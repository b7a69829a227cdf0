/** What a finished symbol says to a reader: its patterns, its mask, its data bits, and the bits that do not survive. */
module QrReading {
  import opened GaloisField
  import opened QrMatrix
  import opened QrFormat
  import opened QrSymbol
  import C = QrCodewords

  /** The data walk of a version: the modules left free by the fixed patterns, in order. */
  function DataWalk(number: nat): seq<Pos>
  {
    Free(Walk(number * 4 + 17), FixedCells(number))
  }

  /** The walk visits each module outside the fixed patterns exactly once. */
  lemma DataWalkCells(number: nat)
    requires number >= 1
    ensures Distinct(DataWalk(number))
    ensures forall p :: p in DataWalk(number) <==> p in Board(number * 4 + 17) && p !in FixedCells(number)
  {
    hide FixedCells, Walk, Free, Board;
    OddSize(number);
    WalkCells(number * 4 + 17);
    FreeCells(Walk(number * 4 + 17), FixedCells(number));
    forall p | p in Board(number * 4 + 17) && p.x == 6
      ensures p in FixedCells(number)
    {
      FixedApartFromFormat(number, p);
    }
  }

  /** The symbol shows its patterns, names its mask twice, and elsewhere shows each codeword bit exclusive-or the
      mask. */
  lemma SymbolReadsBack(picture: Picture, payload: seq<Byte>, ver: C.Version, base: Picture, mask: nat,
    penalty: Picture -> int)
    requires 1 <= ver.number && IsSymbolFor(picture, payload, ver, base, mask, penalty)
    ensures picture.Keys == Board(SizeOf(ver))
    ensures forall p, k: nat ::
      p in picture && k < 6 && InPattern(p, ver.number, k) ==> picture[p] == PatternColour(p, ver.number, k)
    ensures forall p ::
      p in picture && FormatIndex(p, SizeOf(ver)) >= 0 ==> picture[p] == FormatBits(mask)[FormatIndex(p, SizeOf(ver))]
    ensures var walk := DataWalk(ver.number); var bits := C.BitsFromBytes(C.Encode(payload, ver));
      forall k :: 0 <= k < |walk| && walk[k] in picture && FormatIndex(walk[k], SizeOf(ver)) < 0 ==>
        (picture[walk[k]] != MaskBit(mask, walk[k].x, walk[k].y)) == (k < |bits| && bits[k])
  {
    hide *;
    SymbolUnfold(picture, payload, ver, base, mask, penalty);
    var bits := C.BitsFromBytes(C.Encode(payload, ver));
    PatternsVisible(base, ver.number, bits, mask);
    forall k | 0 <= k < |DataWalk(ver.number)|
      ensures DataWalk(ver.number)[k] in picture && ReadsBit(picture, ver.number, mask, bits, k)
    {
      DataBitVisible(base, ver.number, bits, mask, k);
    }
    ReadsBits(picture, ver.number, mask, bits);
  }

  lemma SymbolUnfold(picture: Picture, payload: seq<Byte>, ver: C.Version, base: Picture, mask: nat,
    penalty: Picture -> int)
    requires IsSymbolFor(picture, payload, ver, base, mask, penalty)
    ensures C.Layout(ver) && C.Fits(ver, |payload|) && ver in C.VERSIONS && mask < 8
      && SizeOf(ver) == ver.number * 4 + 17
    ensures IsLaidOut(base, ver.number, C.BitsFromBytes(C.Encode(payload, ver)))
    ensures picture == Trial(base, FixedCells(ver.number), ver.number * 4 + 17, mask)
    ensures LeastSoFar(penalty, base, FixedCells(ver.number), ver.number * 4 + 17, mask, 8)
  {
    hide IsLaidOut, Trial, FixedCells, LeastSoFar, C.BitsFromBytes, C.Encode;
  }

  /** The k-th module of the walk is either a format module or shows the k-th bit under the mask. */
  predicate ReadsBit(picture: Picture, number: nat, mask: nat, bits: seq<bool>, k: nat)
    requires k < |DataWalk(number)| && DataWalk(number)[k] in picture
  {
    var p := DataWalk(number)[k];
    FormatIndex(p, number * 4 + 17) < 0 ==> (picture[p] != MaskBit(mask, p.x, p.y)) == (k < |bits| && bits[k])
  }

  lemma ReadsBits(picture: Picture, number: nat, mask: nat, bits: seq<bool>)
    requires forall k ::
      0 <= k < |DataWalk(number)| ==> DataWalk(number)[k] in picture && ReadsBit(picture, number, mask, bits, k)
    ensures var walk := DataWalk(number);
      forall k :: 0 <= k < |walk| && walk[k] in picture && FormatIndex(walk[k], number * 4 + 17) < 0 ==>
        (picture[walk[k]] != MaskBit(mask, walk[k].x, walk[k].y)) == (k < |bits| && bits[k])
  {
    hide DataWalk, FormatIndex, MaskBit;
  }

  lemma PatternsVisible(base: Picture, number: nat, bits: seq<bool>, mask: nat)
    requires number >= 1 && mask < 8 && IsLaidOut(base, number, bits)
    ensures var size := number * 4 + 17; var picture := Trial(base, FixedCells(number), size, mask);
      && picture.Keys == Board(size)
      && (forall p, k: nat ::
        p in picture && k < 6 && InPattern(p, number, k) ==> picture[p] == PatternColour(p, number, k))
      && (forall p ::
        p in picture && FormatIndex(p, size) >= 0 ==> picture[p] == FormatBits(mask)[FormatIndex(p, size)])
  {
    hide InPattern, PatternColour, MaskBit, FormatIndex, FormatBits, Board, FixedCells, Walk, Free, Fitted;
    forall p, k: nat | p in base && k < 6 && InPattern(p, number, k)
      ensures Trial(base, FixedCells(number), number * 4 + 17, mask)[p] == PatternColour(p, number, k)
    {
      FixedApartFromFormat(number, p);
      assert IsFixed(p, number, 6);
    }
  }

  lemma DataBitVisible(base: Picture, number: nat, bits: seq<bool>, mask: nat, k: nat)
    requires number >= 1 && mask < 8 && IsLaidOut(base, number, bits) && k < |DataWalk(number)|
    ensures DataWalk(number)[k] in Trial(base, FixedCells(number), number * 4 + 17, mask)
    ensures ReadsBit(Trial(base, FixedCells(number), number * 4 + 17, mask), number, mask, bits, k)
  {
    DataWalkCells(number);
    BitPlaced(base, number, bits, k);
    hide Board, FixedCells, MaskBit, FormatIndex, FormatBits, DataWalk, IsLaidOut;
    assert DataWalk(number)[k] in DataWalk(number);
  }

  lemma BitPlaced(base: Picture, number: nat, bits: seq<bool>, k: nat)
    requires IsLaidOut(base, number, bits) && k < |DataWalk(number)|
    ensures DataWalk(number)[k] in base && base[DataWalk(number)[k]] == (k < |bits| && bits[k])
  {
    hide Walk, Free, PatternsDrawn, FixedCells;
    assert ReadAlong(base, DataWalk(number))[k] == Fitted(bits, |DataWalk(number)|)[k];
  }

  // ----- which bits survive -----

  /** Two streams agree on every module of the walk that is not overwritten by format bits. */
  ghost predicate AgreeOnSurvivors(a: seq<bool>, b: seq<bool>, number: nat)
  {
    var walk := DataWalk(number);
    forall k :: 0 <= k < |walk| && FormatIndex(walk[k], number * 4 + 17) < 0 ==>
      Fitted(a, |walk|)[k] == Fitted(b, |walk|)[k]
  }

  /** Under one mask, a trial determines a stream exactly up to the bits placed under the format modules. */
  lemma TrialsAgree(baseA: Picture, baseB: Picture, a: seq<bool>, b: seq<bool>, number: nat, mask: nat)
    requires number >= 1 && mask < 8 && IsLaidOut(baseA, number, a) && IsLaidOut(baseB, number, b)
    ensures Trial(baseA, FixedCells(number), number * 4 + 17, mask)
      == Trial(baseB, FixedCells(number), number * 4 + 17, mask)
      <==> AgreeOnSurvivors(a, b, number)
  {
    hide *;
    var size, walk := number * 4 + 17, DataWalk(number);
    var one, two := Trial(baseA, FixedCells(number), size, mask), Trial(baseB, FixedCells(number), size, mask);
    PatternsVisible(baseA, number, a, mask);
    PatternsVisible(baseB, number, b, mask);
    DataWalkCells(number);
    if AgreeOnSurvivors(a, b, number) {
      forall p | p in one ensures one[p] == two[p] {
        SameModule(baseA, baseB, a, b, number, mask, p);
      }
    }
    if one == two {
      forall k | 0 <= k < |walk| && FormatIndex(walk[k], size) < 0
        ensures Fitted(a, |walk|)[k] == Fitted(b, |walk|)[k]
      {
        DataBitVisible(baseA, number, a, mask, k);
        DataBitVisible(baseB, number, b, mask, k);
        SameBit(one, number, mask, a, b, k);
      }
      AgreeIntro(a, b, number);
    }
  }

  /** The first format copy has a module for each bit. */
  lemma FormatModule(i: nat, number: nat) returns (p: Pos)
    requires i < 15 && number >= 1
    ensures p in Board(number * 4 + 17) && FormatIndex(p, number * 4 + 17) == i
  {
    p := if i < 6 then Pos(8, i) else if i < 8 then Pos(8, i + 1) else if i == 8 then Pos(7, 8) else Pos(14 - i, 8);
  }

  lemma {:induction false} SameBits(x: nat, y: nat, n: nat)
    requires x < Pow2(n) && y < Pow2(n) && forall i: nat :: i < n ==> C.BitAt(x, i) == C.BitAt(y, i)
    ensures x == y
  {
    if n > 0 {
      assert C.BitAt(x, 0) == C.BitAt(y, 0);
      forall i: nat | i < n - 1
        ensures C.BitAt(x / 2, i) == C.BitAt(y / 2, i)
      {
        assert C.BitAt(x, i + 1) == C.BitAt(y, i + 1);
      }
      SameBits(x / 2, y / 2, n - 1);
    }
  }

  /** Different masks have different format bits. */
  lemma FormatBitsNameMask(maskA: nat, maskB: nat)
    requires maskA < 8 && maskB < 8 && FormatBits(maskA) == FormatBits(maskB)
    ensures maskA == maskB
  {
    var q := FormatWordNamesMask(maskA);
    q := FormatWordNamesMask(maskB);
    assert Pow2(15) == 32768;
    forall i: nat | i < 15 ensures C.BitAt(FormatWord(maskA), i) == C.BitAt(FormatWord(maskB), i) {
      assert FormatBits(maskA)[i] == FormatBits(maskB)[i];
    }
    hide Xor, FormatWord, C.BitAt, CarrylessMul, Pow2;
    SameBits(FormatWord(maskA), FormatWord(maskB), 15);
  }

  /** A symbol names its mask, so equal pictures come from equal masks. */
  lemma SamePictureSameMask(baseA: Picture, baseB: Picture, a: seq<bool>, b: seq<bool>, number: nat, maskA: nat,
    maskB: nat)
    requires number >= 1 && maskA < 8 && maskB < 8 && IsLaidOut(baseA, number, a) && IsLaidOut(baseB, number, b)
    requires Trial(baseA, FixedCells(number), number * 4 + 17, maskA)
      == Trial(baseB, FixedCells(number), number * 4 + 17, maskB)
    ensures maskA == maskB
  {
    hide *;
    PatternsVisible(baseA, number, a, maskA);
    PatternsVisible(baseB, number, b, maskB);
    forall i | 0 <= i < 15 ensures FormatBits(maskA)[i] == FormatBits(maskB)[i] {
      var p := FormatModule(i, number);
    }
    FormatBitsNameMask(maskA, maskB);
  }

  /** The best mask depends on nothing but the eight trials. */
  lemma SameTrialsSameMask(penalty: Picture -> int, baseA: Picture, baseB: Picture, fixed: set<Pos>, size: nat,
    maskA: nat, maskB: nat)
    requires LeastSoFar(penalty, baseA, fixed, size, maskA, 8) && LeastSoFar(penalty, baseB, fixed, size, maskB, 8)
    requires forall k :: 0 <= k < 8 ==> Trial(baseA, fixed, size, k) == Trial(baseB, fixed, size, k)
    ensures maskA == maskB
  {
    hide Trial;
    assert Trial(baseA, fixed, size, maskA) == Trial(baseB, fixed, size, maskA);
    assert Trial(baseA, fixed, size, maskB) == Trial(baseB, fixed, size, maskB);
  }

  /** Two payloads of one version give the same finished symbol, each under its own best mask, if and only if their
      codeword bits agree outside the places of the format modules: the symbol determines exactly those bits. */
  lemma SurvivingBits(
    pictureA: Picture, pictureB: Picture, payloadA: seq<Byte>, payloadB: seq<Byte>, ver: C.Version, baseA: Picture,
      baseB: Picture,
    maskA: nat, maskB: nat, penalty: Picture -> int)
    requires 1 <= ver.number
    requires IsSymbolFor(pictureA, payloadA, ver, baseA, maskA, penalty)
      && IsSymbolFor(pictureB, payloadB, ver, baseB, maskB, penalty)
    ensures C.Layout(ver) && C.Fits(ver, |payloadA|) && C.Fits(ver, |payloadB|)
    ensures pictureA == pictureB
      <==> AgreeOnSurvivors(C.BitsFromBytes(C.Encode(payloadA, ver)), C.BitsFromBytes(C.Encode(payloadB, ver)),
        ver.number)
  {
    hide *;
    SymbolUnfold(pictureA, payloadA, ver, baseA, maskA, penalty);
    SymbolUnfold(pictureB, payloadB, ver, baseB, maskB, penalty);
    var a, b, number := C.BitsFromBytes(C.Encode(payloadA, ver)), C.BitsFromBytes(C.Encode(payloadB, ver)), ver.number;
    TrialsAgree(baseA, baseB, a, b, number, maskA);
    if pictureA == pictureB {
      SamePictureSameMask(baseA, baseB, a, b, number, maskA, maskB);
    }
    if AgreeOnSurvivors(a, b, number) {
      var fixed, size := FixedCells(number), number * 4 + 17;
      forall k | 0 <= k < 8 ensures Trial(baseA, fixed, size, k) == Trial(baseB, fixed, size, k) {
        TrialsAgree(baseA, baseB, a, b, number, k);
      }
      SameTrialsSameMask(penalty, baseA, baseB, fixed, size, maskA, maskB);
    }
  }

  lemma SameBit(picture: Picture, number: nat, mask: nat, a: seq<bool>, b: seq<bool>, k: nat)
    requires k < |DataWalk(number)| && DataWalk(number)[k] in picture
      && FormatIndex(DataWalk(number)[k], number * 4 + 17) < 0
    requires ReadsBit(picture, number, mask, a, k) && ReadsBit(picture, number, mask, b, k)
    ensures Fitted(a, |DataWalk(number)|)[k] == Fitted(b, |DataWalk(number)|)[k]
  {
    hide DataWalk, MaskBit, FormatIndex;
  }

  lemma AgreeIntro(a: seq<bool>, b: seq<bool>, number: nat)
    requires var walk := DataWalk(number);
      forall k :: 0 <= k < |walk| && FormatIndex(walk[k], number * 4 + 17) < 0 ==>
        Fitted(a, |walk|)[k] == Fitted(b, |walk|)[k]
    ensures AgreeOnSurvivors(a, b, number)
  {
    hide DataWalk, FormatIndex, Fitted;
  }

  lemma SameModule(baseA: Picture, baseB: Picture, a: seq<bool>, b: seq<bool>, number: nat, mask: nat, p: Pos)
    requires number >= 1 && mask < 8 && IsLaidOut(baseA, number, a) && IsLaidOut(baseB, number, b)
      && AgreeOnSurvivors(a, b, number)
    requires p in Trial(baseA, FixedCells(number), number * 4 + 17, mask)
      && p in Trial(baseB, FixedCells(number), number * 4 + 17, mask)
    ensures Trial(baseA, FixedCells(number), number * 4 + 17, mask)[p]
      == Trial(baseB, FixedCells(number), number * 4 + 17, mask)[p]
  {
    hide *;
    var size, walk := number * 4 + 17, DataWalk(number);
    PatternsVisible(baseA, number, a, mask);
    PatternsVisible(baseB, number, b, mask);
    if FormatIndex(p, size) < 0 {
      if p in FixedCells(number) {
        var k := WhichPattern(p, number);
      } else {
        DataWalkCells(number);
        var k :| 0 <= k < |walk| && walk[k] == p;
        DataBitVisible(baseA, number, a, mask, k);
        DataBitVisible(baseB, number, b, mask, k);
        SameReading(Trial(baseA, FixedCells(number), size, mask), Trial(baseB, FixedCells(number), size, mask), a, b,
          number, mask, k);
      }
    }
  }

  lemma WhichPattern(p: Pos, number: nat) returns (k: nat)
    requires p in FixedCells(number)
    ensures k < 6 && InPattern(p, number, k)
  {
    hide InPattern;
    k :| k < 6 && InPattern(p, number, k);
  }

  lemma SameReading(one: Picture, two: Picture, a: seq<bool>, b: seq<bool>, number: nat, mask: nat, k: nat)
    requires k < |DataWalk(number)| && DataWalk(number)[k] in one && DataWalk(number)[k] in two
    requires ReadsBit(one, number, mask, a, k) && ReadsBit(two, number, mask, b, k) && AgreeOnSurvivors(a, b, number)
    requires FormatIndex(DataWalk(number)[k], number * 4 + 17) < 0
    ensures one[DataWalk(number)[k]] == two[DataWalk(number)[k]]
  {
    hide DataWalk, MaskBit, FormatIndex;
    assert Fitted(a, |DataWalk(number)|)[k] == Fitted(b, |DataWalk(number)|)[k];
  }

  /** In every version the first bit of codeword number + 2 lands on a format module, so no symbol shows it. */
  lemma LostBit(number: nat)
    requires number >= 1
    ensures 8 * number + 16 < |DataWalk(number)| && DataWalk(number)[8 * number + 16] == Pos(number * 4 + 16, 8)
    ensures FormatIndex(DataWalk(number)[8 * number + 16], number * 4 + 17) == 0
  {
    var n := 4 * number + 9;
    UpwardStart(number);
    FirstStretch(number, n);
    LastOfStretch(number, n);
  }

  /** The data walk starts with the bottom rows of the first column pair. */
  lemma FirstStretch(number: nat, n: nat)
    requires number >= 1 && n <= 4 * number + 9 && Upward(number * 4 + 16)
    ensures PairWalk(number * 4 + 17, number * 4 + 16, n) <= DataWalk(number)
  {
    hide *;
    var size, right := number * 4 + 17, number * 4 + 16;
    OpenStretch(number, n);
    PairWalkPrefix(size, right, n, size);
    FirstPair(number);
    FreeOfPrefix(PairWalk(size, right, n), Walk(size), FixedCells(number));
    DataWalkIsFree(number);
  }

  lemma DataWalkIsFree(number: nat)
    ensures DataWalk(number) == Free(Walk(number * 4 + 17), FixedCells(number))
  {
  }

  lemma FirstPair(number: nat)
    requires number >= 1
    ensures PairWalk(number * 4 + 17, number * 4 + 16, number * 4 + 17) <= Walk(number * 4 + 17)
  {
    hide PairWalk;
    assert Walk(number * 4 + 17) == WalkFrom(number * 4 + 17, number * 4 + 16);
  }

  lemma FreeOfPrefix(path: seq<Pos>, walk: seq<Pos>, functions: set<Pos>)
    requires path <= walk
    ensures Free(path, functions) <= Free(walk, functions)
  {
    assert walk == path + walk[|path|..];
    FreePrefix(path, walk[|path|..], functions);
  }

  lemma LastOfStretch(number: nat, n: nat)
    requires number >= 1 && n == 4 * number + 9 && Upward(number * 4 + 16)
      && PairWalk(number * 4 + 17, number * 4 + 16, n) <= DataWalk(number)
    ensures 8 * number + 16 < |DataWalk(number)| && DataWalk(number)[8 * number + 16] == Pos(number * 4 + 16, 8)
  {
    hide DataWalk;
    var path := PairWalk(number * 4 + 17, number * 4 + 16, n);
    assert path[|path| - 2] == Pos(number * 4 + 16, RowOf(number * 4 + 17, number * 4 + 16, n - 1));
    assert DataWalk(number)[|path| - 2] == path[|path| - 2];
  }

  lemma UpwardStart(number: nat)
    ensures Upward(number * 4 + 16)
  {
    assert (number * 4 + 16 + 1) / 2 == 2 * number + 8;
    assert (2 * number + 8) % 2 == 0;
  }

  /** The bottom rows of the first column pair hold no fixed module. */
  lemma {:induction false} OpenStretch(number: nat, n: nat)
    requires number >= 1 && n <= 4 * number + 9 && Upward(number * 4 + 16)
    ensures Free(PairWalk(number * 4 + 17, number * 4 + 16, n), FixedCells(number))
      == PairWalk(number * 4 + 17, number * 4 + 16, n)
  {
    if n > 0 {
      OpenStretch(number, n - 1);
      OpenRow(number, PairWalk(number * 4 + 17, number * 4 + 16, n - 1), number * 4 + 17 - n);
    }
  }

  lemma OpenRow(number: nat, path: seq<Pos>, y: int)
    requires number >= 1 && y >= 8 && Free(path, FixedCells(number)) == path
    ensures var longer := path + [Pos(number * 4 + 16, y), Pos(number * 4 + 15, y)];
      Free(longer, FixedCells(number)) == longer
  {
    hide *;
    var right, left := Pos(number * 4 + 16, y), Pos(number * 4 + 15, y);
    OpenCell(number, right);
    OpenCell(number, left);
    FreeAppend(path, right, FixedCells(number));
    FreeAppend(path + [right], left, FixedCells(number));
    assert path + [right] + [left] == path + [right, left];
  }

  lemma OpenCell(number: nat, p: Pos)
    requires number >= 1 && number * 4 + 15 <= p.x && p.y >= 8
    ensures p !in FixedCells(number)
  {
  }

  lemma {:induction false} PairWalkPrefix(size: nat, right: int, n: nat, m: nat)
    requires n <= m
    ensures PairWalk(size, right, n) <= PairWalk(size, right, m)
    decreases m
  {
    if n < m { PairWalkPrefix(size, right, n, m - 1); }
  }

  lemma {:induction false} FreePrefix(path: seq<Pos>, rest: seq<Pos>, functions: set<Pos>)
    ensures Free(path, functions) <= Free(path + rest, functions)
    decreases |rest|
  {
    if rest == [] {
      assert path + rest == path;
    } else {
      var n := |rest| - 1;
      FreePrefix(path, rest[..n], functions);
      assert path + rest == path + rest[..n] + [rest[n]];
      FreeAppend(path + rest[..n], rest[n], functions);
    }
  }

  // ----- a reader that skips the format modules -----

  /** The walk of a reader that treats the format modules as function modules from the start (ISO/IEC 18004, section
      8.7.3). */
  function StandardWalk(number: nat): seq<Pos>
  {
    Free(Walk(number * 4 + 17), FixedCells(number) + FormatCells(number * 4 + 17))
  }

  lemma {:induction false} FreeTwice(path: seq<Pos>, a: set<Pos>, b: set<Pos>)
    ensures Free(path, a + b) == Free(Free(path, a), b)
    decreases |path|
  {
    if path != [] {
      var n := |path| - 1;
      FreeTwice(path[..n], a, b);
      if path[n] in a {
        assert Free(path, a) == Free(path[..n], a) + [];
        assert Free(path[..n], a) + [] == Free(path[..n], a);
      } else {
        FreeAppend(Free(path[..n], a), path[n], b);
      }
    }
  }

  /** Dropping positions moves what is left forward: past a dropped one, strictly. */
  lemma {:induction false} DroppingShifts(path: seq<Pos>, dropped: set<Pos>, i: nat, k: nat) returns (j: nat)
    requires i <= k < |Free(path, dropped)| && i < |path| && path[i] in dropped
    ensures k < j < |path| && Free(path, dropped)[k] == path[j]
    decreases |path|
  {
    var n := |path| - 1;
    FreeIsShorter(path[..n], dropped);
    if k < |Free(path[..n], dropped)| {
      if i < n {
        j := DroppingShifts(path[..n], dropped, i, k);
      } else {
        assert false;
      }
    } else {
      j := n;
      if i < n { FreeDropsOne(path[..n], dropped, i); }
    }
  }

  lemma {:induction false} FreeIsShorter(path: seq<Pos>, dropped: set<Pos>)
    ensures |Free(path, dropped)| <= |path|
  {
    if path != [] { FreeIsShorter(path[..|path| - 1], dropped); }
  }

  lemma {:induction false} FreeDropsOne(path: seq<Pos>, dropped: set<Pos>, i: nat)
    requires i < |path| && path[i] in dropped
    ensures |Free(path, dropped)| < |path|
    decreases |path|
  {
    var n := |path| - 1;
    if i < n { FreeDropsOne(path[..n], dropped, i); } else { FreeIsShorter(path[..n], dropped); }
  }

  /** Such a reader sees the stream without the lost bits: from bit 8 * number + 16 on, every module it takes for a
      bit carries a later one. */
  lemma StandardReaderSlips(number: nat, k: nat) returns (j: nat)
    requires number >= 1 && 8 * number + 16 <= k < |StandardWalk(number)|
    ensures k < j < |DataWalk(number)| && StandardWalk(number)[k] == DataWalk(number)[j]
      && DataWalk(number)[k] != StandardWalk(number)[k]
  {
    hide *;
    var format := FormatCells(number * 4 + 17);
    StandardIsSurvivors(number);
    LostBit(number);
    LostCell(number);
    j := DroppingShifts(DataWalk(number), format, 8 * number + 16, k);
    DataWalkCells(number);
    ApartInWalk(DataWalk(number), k, j);
  }

  lemma StandardIsSurvivors(number: nat)
    ensures StandardWalk(number) == Free(DataWalk(number), FormatCells(number * 4 + 17))
  {
    hide FixedCells, FormatCells, Walk, Free;
    FreeTwice(Walk(number * 4 + 17), FixedCells(number), FormatCells(number * 4 + 17));
  }

  lemma LostCell(number: nat)
    requires number >= 1
    ensures Pos(number * 4 + 16, 8) in FormatCells(number * 4 + 17)
  {
  }

  lemma ApartInWalk(walk: seq<Pos>, k: nat, j: nat)
    requires Distinct(walk) && k < j < |walk|
    ensures walk[k] != walk[j]
  {
  }

  // ----- capacity -----

  function Block(left: int, top: int, width: nat, height: nat): (cells: set<Pos>)
    ensures forall p :: p in cells <==> left <= p.x < left + width && top <= p.y < top + height
    ensures |cells| == width * height
    decreases height
  {
    if height == 0 then {} else
      var above, last := Block(left, top, width, height - 1), Line(left, top + height - 1, width);
      assert above !! last;
      assert (height - 1) * width + width == height * width;
      above + last
  }

  function Line(left: int, y: int, width: nat): (cells: set<Pos>)
    ensures forall p :: p in cells <==> left <= p.x < left + width && p.y == y
    ensures |cells| == width
  {
    if width == 0 then {} else Line(left, y, width - 1) + {Pos(left + width - 1, y)}
  }

  lemma UnionBound(a: set<Pos>, b: set<Pos>)
    ensures |a + b| <= |a| + |b|
  {
    assert a + b == a + (b - a);
    Smaller(b - a, b);
  }

  lemma {:induction false} Smaller(a: set<Pos>, b: set<Pos>)
    requires a <= b
    ensures |a| <= |b|
  {
    assert b == a + (b - a);
  }

  /** A pattern lies inside one or two rectangles: an 8 by 8 corner, the timing tracks, 5 by 5, or a single module. */
  function Piece(number: nat, k: nat): (cells: set<Pos>)
    requires number >= 1
  {
    var size := number * 4 + 17;
    match k
    case 0 => Block(0, 0, 8, 8)
    case 1 => Block(size - 8, 0, 8, 8)
    case 2 => Block(0, size - 8, 8, 8)
    case 3 => Block(8, 6, size - 16, 1) + Block(6, 8, 1, size - 16)
    case 4 => if number >= 2 then Block(size - 9, size - 9, 5, 5) else {}
    case 5 => Block(8, size - 8, 1, 1)
    case _ => {}
  }

  function PieceSize(number: nat, k: nat): nat
  {
    match k
    case 0 => 64
    case 1 => 64
    case 2 => 64
    case 3 => 2 * (4 * number + 1)
    case 4 => if number >= 2 then 25 else 0
    case _ => 1
  }

  lemma PieceCovers(number: nat, k: nat, p: Pos)
    requires number >= 1 && p in Board(number * 4 + 17) && InPattern(p, number, k)
    ensures p in Piece(number, k)
  {
    hide Board, Block;
    assert 0 <= p.x < number * 4 + 17 && 0 <= p.y < number * 4 + 17;
  }

  lemma PieceBound(number: nat, k: nat)
    requires number >= 1
    ensures |Piece(number, k)| <= PieceSize(number, k)
  {
    hide Block;
    if k == 3 {
      var size := number * 4 + 17;
      UnionBound(Block(8, 6, size - 16, 1), Block(6, 8, 1, size - 16));
    }
  }

  function Covering(number: nat, n: nat): set<Pos>
    requires number >= 1
  {
    if n == 0 then {} else Covering(number, n - 1) + Piece(number, n - 1)
  }

  function CoveringSize(number: nat, n: nat): nat
  {
    if n == 0 then 0 else CoveringSize(number, n - 1) + PieceSize(number, n - 1)
  }

  lemma {:induction false} CoveringBound(number: nat, n: nat)
    requires number >= 1
    ensures |Covering(number, n)| <= CoveringSize(number, n)
    ensures forall p, k: nat ::
      p in Board(number * 4 + 17) && k < n && InPattern(p, number, k) ==> p in Covering(number, n)
  {
    hide Board, InPattern, Piece, PieceSize;
    if n > 0 {
      var last: nat := n - 1;
      CoveringBound(number, last);
      PieceBound(number, last);
      UnionBound(Covering(number, last), Piece(number, last));
      forall p: Pos | p in Board(number * 4 + 17) && InPattern(p, number, last)
        ensures p in Piece(number, last)
      {
        PieceCovers(number, last, p);
      }
    }
  }

  lemma FixedBound(number: nat)
    requires number >= 1
    ensures |FixedCells(number)| <= CoveringSize(number, 6)
  {
    hide InPattern, Board, Piece, PieceSize, Covering, CoveringSize;
    CoveringBound(number, 6);
    forall p | p in FixedCells(number) ensures p in Covering(number, 6) { var k := WhichPattern(p, number); }
    Smaller(FixedCells(number), Covering(number, 6));
  }

  lemma {:induction false} DistinctSize(path: seq<Pos>)
    requires Distinct(path)
    ensures |set p | p in path| == |path|
    decreases |path|
  {
    if path != [] {
      var n := |path| - 1;
      DistinctSize(path[..n]);
      assert path[n] !in path[..n];
      assert (set p | p in path) == (set p | p in path[..n]) + {path[n]} by { assert path == path[..n] + [path[n]]; }
    }
  }

  lemma WalkLength(number: nat)
    requires number >= 1
    ensures |DataWalk(number)| >= (number * 4 + 17) * (number * 4 + 17) - CoveringSize(number, 6)
  {
    hide DataWalk, FixedCells, Board, CoveringSize, Block;
    var size := number * 4 + 17;
    var walk, fixed, all := DataWalk(number), FixedCells(number), Block(0, 0, size, size);
    DataWalkCells(number);
    DistinctSize(walk);
    FixedBound(number);
    var visited := set p | p in walk;
    assert all <= visited + fixed;
    Smaller(all, visited + fixed);
    UnionBound(visited, fixed);
  }

  /** No codeword bit is left over when the walk ends, in any version. */
  lemma EveryBitIsPlaced(payload: seq<Byte>, ver: C.Version)
    requires ver in C.VERSIONS && C.Layout(ver) && C.Fits(ver, |payload|)
    ensures |C.BitsFromBytes(C.Encode(payload, ver))| <= |DataWalk(ver.number)|
  {
    hide DataWalk, C.BitsFromBytes, C.Encode;
    VersionNumber(ver);
    WalkLength(ver.number);
    assert ver.number in {1, 2, 3, 4, 5, 6};
  }
}
