/** A finished symbol, damaged as it is, belongs to one payload only. */
module QrIdentity {
  import opened Results
  import opened GaloisField
  import opened ReedSolomon
  import opened Distance
  import opened QrMatrix
  import opened QrSymbol
  import opened QrReading
  import opened QrDamage
  import C = QrCodewords

  // ----- the codewords that format modules spoil -----

  /** The codewords with a bit among n bits from a place on. */
  function Spoiled(start: int, n: nat): (codewords: set<int>)
    requires n > 0
    ensures forall c :: c in codewords <==> start / 8 <= c <= (start + n - 1) / 8
    ensures |codewords| == (start + n - 1) / 8 - start / 8 + 1
  {
    Span(start / 8, (start + n - 1) / 8 - start / 8 + 1)
  }

  function Span(first: int, n: nat): (numbers: set<int>)
    ensures forall c :: c in numbers <==> first <= c < first + n
    ensures |numbers| == n
  {
    if n == 0 then {} else Span(first, n - 1) + {first + n - 1}
  }

  lemma AtMostTwo(start: int, n: nat)
    requires 0 < n <= 9
    ensures |Spoiled(start, n)| <= 2
  {
  }

  lemma AtMostThree(start: int, n: nat)
    requires 0 < n <= 17
    ensures |Spoiled(start, n)| <= 3
  {
  }

  /** In version 1 the stream ends before the modules at the left edge. */
  function Damaged(number: nat): set<int>
  {
    var upperRight := Spoiled(Mark(number, number * 4 + 14) - 2, 4) + Spoiled(Mark(number, number * 4 + 10) - 2, 4);
    var foot := Spoiled(Mark(number, 8), 7);
    if number == 1 then upperRight + foot + Spoiled(Mark(number, 5) - 9, 9)
    else upperRight + foot + Spoiled(Mark(number, 5) - 9, 11) + Spoiled(Mark(number, 1) - 2, 4)
  }

  lemma UnionAtMost(a: set<int>, b: set<int>)
    ensures |a + b| <= |a| + |b|
  {
    assert a + b == a + (b - a);
    assert b == (b - a) + (b * a);
  }

  /** The first stretch starts on a codeword boundary. */
  lemma FirstIsAligned(number: nat)
    requires number >= 1
    ensures Mark(number, number * 4 + 14) == 8 * number + 18
  {
    hide DataWalk, Lane, Mark, FixedCells, Board, FormatIndex, Distinct, Upward, PairWalk;
    Directions(number);
    LanesUnderCorner(number, number * 4 + 16);
    TwoOfStretch(number);
    LaneCells(number, number * 4 + 16);
    OpenCell(number, Pos(number * 4 + 16, 8));
    OpenCell(number, Pos(number * 4 + 15, 8));
    SillEnds(number, number * 4 + 16, 8 * number + 16);
    SillEnds(number, number * 4 + 16, 8 * number + 17);
  }

  lemma TwoOfStretch(number: nat)
    requires number >= 1
    ensures 8 * number + 17 < |DataWalk(number)|
    ensures DataWalk(number)[8 * number + 16] == Pos(number * 4 + 16, 8)
    ensures DataWalk(number)[8 * number + 17] == Pos(number * 4 + 15, 8)
  {
    var n, size := 4 * number + 9, number * 4 + 17;
    UpwardStart(number);
    FirstStretch(number, n);
    hide DataWalk, FixedCells;
    var path := PairWalk(size, size - 1, n);
    assert path[|path| - 2] == Pos(size - 1, RowOf(size, size - 1, n - 1));
    assert path[|path| - 1] == Pos(size - 2, RowOf(size, size - 1, n - 1));
    assert DataWalk(number)[|path| - 2] == path[|path| - 2] && DataWalk(number)[|path| - 1] == path[|path| - 1];
  }

  lemma FewDamaged(number: nat)
    requires 1 <= number
    ensures |Damaged(number)| <= if number == 1 then 7 else 10
  {
    hide Mark, Spoiled;
    FirstIsAligned(number);
    var a, b := Spoiled(Mark(number, number * 4 + 14) - 2, 4), Spoiled(Mark(number, number * 4 + 10) - 2, 4);
    var c := Spoiled(Mark(number, 8), 7);
    var d := Spoiled(Mark(number, 5) - 9, if number == 1 then 9 else 11);
    var e := Spoiled(Mark(number, 1) - 2, 4);
    assert |a| == 1;
    AtMostTwo(Mark(number, number * 4 + 10) - 2, 4);
    AtMostTwo(Mark(number, 8), 7);
    if number == 1 { AtMostTwo(Mark(number, 5) - 9, 9); } else { AtMostThree(Mark(number, 5) - 9, 11); }
    AtMostTwo(Mark(number, 1) - 2, 4);
    UnionAtMost(a, b);
    UnionAtMost(a + b, c);
    UnionAtMost(a + b + c, d);
    UnionAtMost(a + b + c + d, e);
  }

  /** The last lanes of version 1 hold thirty modules, and so come after its 208 bits. */
  lemma LeftEdgeIsLate()
    ensures Mark(1, 5) >= 208 && Mark(1, 1) >= 210
  {
    hide Lane, FixedCells, Board, DataWalk, Block, Rest;
    WalkLength(1);
    assert CoveringSize(1, 6) == 203 by { CoverOfFirst(); }
    RestSplits(1, 5);
    RestSplits(1, 3);
    RestSplits(1, 1);
    NothingLeft();
    TenFree(5);
    TenFree(3);
    TenFree(1);
  }

  lemma CoverOfFirst()
    ensures CoveringSize(1, 6) == 203
  {
    assert CoveringSize(1, 1) == 64 && CoveringSize(1, 2) == 128 && CoveringSize(1, 3) == 192;
    assert CoveringSize(1, 4) == 202 && CoveringSize(1, 5) == 202;
  }

  lemma NothingLeft()
    ensures Rest(1, -1) == []
  {
  }

  lemma TenFree(right: int)
    requires right in {1, 3, 5}
    ensures |Lane(1, right)| <= 10
  {
    hide Lane, FixedCells, Distinct, Block;
    LaneCells(1, right);
    var lane, free := Lane(1, right), Block(right - 1, 8, 2, 5);
    forall p | p in lane ensures p in free {
      if p.y <= 7 || p.y >= 13 { CornerIsFixed(1, p); }
    }
    DistinctSize(lane);
    Smaller((set p | p in lane), free);
  }

  /** Every codeword bit under a format module belongs to a damaged codeword. */
  lemma BitIsDamaged(number: nat, k: nat)
    requires number >= 1 && k < |DataWalk(number)| && (number == 1 ==> k < 208)
    requires FormatIndex(DataWalk(number)[k], number * 4 + 17) >= 0
    ensures k / 8 in Damaged(number)
  {
    hide DataWalk, FormatIndex, Mark, Spoiled;
    FormatInStretches(number, k);
    if number == 1 { LeftEdgeIsLate(); }
    InSpoiled(Mark(number, number * 4 + 14) - 2, 4, k);
    InSpoiled(Mark(number, number * 4 + 10) - 2, 4, k);
    InSpoiled(Mark(number, 8), 7, k);
    InSpoiled(Mark(number, 5) - 9, 9, k);
    InSpoiled(Mark(number, 5) - 9, 11, k);
    InSpoiled(Mark(number, 1) - 2, 4, k);
  }

  lemma InSpoiled(start: int, n: nat, k: int)
    requires n > 0
    ensures start <= k < start + n ==> k / 8 in Spoiled(start, n)
  {
  }

  // ----- two payloads with one symbol -----

  lemma SameBitOffDamage(a: seq<bool>, b: seq<bool>, number: nat, k: nat)
    requires number >= 1 && |a| == |b| && k < |a| <= |DataWalk(number)| && (number == 1 ==> |a| == 208)
    requires AgreeOnSurvivors(a, b, number) && k / 8 !in Damaged(number)
    ensures a[k] == b[k]
  {
    hide Damaged, FormatIndex, DataWalk;
    var walk := DataWalk(number);
    if FormatIndex(walk[k], number * 4 + 17) >= 0 { BitIsDamaged(number, k); }
    assert Fitted(a, |walk|)[k] == Fitted(b, |walk|)[k];
  }

  /** Codewords that are not damaged show in full. */
  lemma SameOffDamage(a: seq<Byte>, b: seq<Byte>, number: nat, c: nat)
    requires number >= 1 && |a| == |b| && c < |a| && 8 * |a| <= |DataWalk(number)| && (number == 1 ==> |a| == 26)
    requires AgreeOnSurvivors(C.BitsFromBytes(a), C.BitsFromBytes(b), number) && c !in Damaged(number)
    ensures a[c] == b[c]
  {
    hide Damaged, AgreeOnSurvivors, DataWalk, C.BitsFromBytes, C.BytesFromBits, C.ByteAt, C.ValueOf;
    var bitsA, bitsB := C.BitsFromBytes(a), C.BitsFromBytes(b);
    forall i | 0 <= i < 8 ensures C.Chunk(bitsA, c)[i] == C.Chunk(bitsB, c)[i] {
      SameBitOffDamage(bitsA, bitsB, number, 8 * c + i);
    }
    assert C.Chunk(bitsA, c) == C.Chunk(bitsB, c);
    C.BytesRoundTrip(a);
    C.BytesRoundTrip(b);
    BytesAt(bitsA, c);
    BytesAt(bitsB, c);
  }

  lemma BytesAt(bits: seq<bool>, c: nat)
    requires 8 * c + 8 <= |bits|
    ensures c < |C.BytesFromBits(bits)| && C.BytesFromBits(bits)[c] == C.ByteAt(bits, c)
    ensures C.ByteAt(bits, c) == (assert Pow2(8) == 256; C.ValueOf(C.Chunk(bits, c)))
  {
  }

  /** Where a place of block i with its check symbols stands among all codewords. */
  function PlaceOf(ver: C.Version, i: nat, j: nat): nat
    requires C.Layout(ver)
  {
    var n := C.BlockSize(ver);
    if j < n then i + j * ver.numBlocks else ver.dataCodewords + i + (j - n) * ver.numBlocks
  }

  function WholeBlock(out: seq<Byte>, ver: C.Version, i: nat): (block: seq<Byte>)
    requires C.Layout(ver) && i < ver.numBlocks && |out| == ver.dataCodewords + ver.eccPerBlock * ver.numBlocks
    ensures |block| == C.BlockSize(ver) + ver.eccPerBlock
  {
    C.ReadBlock(out, ver, i) + C.ReadEcc(out, ver, i)
  }

  lemma {:induction false} StripeAt(out: seq<Byte>, start: nat, stride: nat, n: nat, j: nat)
    requires (n > 0 ==> start + (n - 1) * stride < |out|) && j < n
    ensures start + j * stride < |out| && C.Stripe(out, start, stride, n)[j] == out[start + j * stride]
    decreases n
  {
    if j < n - 1 {
      assert (n - 1) * stride == (n - 2) * stride + stride;
      StripeAt(out, start, stride, n - 1, j);
    }
  }

  lemma WholeBlockAt(out: seq<Byte>, ver: C.Version, i: nat, j: nat)
    requires C.Layout(ver) && i < ver.numBlocks && |out| == ver.dataCodewords + ver.eccPerBlock * ver.numBlocks
    requires j < C.BlockSize(ver) + ver.eccPerBlock
    ensures PlaceOf(ver, i, j) < |out| && WholeBlock(out, ver, i)[j] == out[PlaceOf(ver, i, j)]
  {
    hide C.Stripe;
    var n := C.BlockSize(ver);
    C.StripeFits(n, ver.numBlocks, i);
    C.StripeFits(ver.eccPerBlock, ver.numBlocks, i);
    if j < n {
      StripeAt(out, i, ver.numBlocks, n, j);
    } else {
      StripeAt(out[ver.dataCodewords..], i, ver.numBlocks, ver.eccPerBlock, j - n);
    }
  }

  lemma PlacesApart(ver: C.Version, i: nat, j: nat, k: nat)
    requires C.Layout(ver) && i < ver.numBlocks && j < k
    ensures PlaceOf(ver, i, j) < PlaceOf(ver, i, k)
  {
    var n := C.BlockSize(ver);
    hide C.BlockSize;
    if k < n {
      Steps(j, k, ver.numBlocks);
    } else if j < n {
      Steps(j, n, ver.numBlocks);
    } else {
      Steps(j - n, k - n, ver.numBlocks);
    }
  }

  lemma Steps(j: nat, k: nat, stride: nat)
    requires j < k && stride > 0
    ensures j * stride + stride <= k * stride
  {
    assert (k - j - 1) * stride >= 0;
  }

  /** Distinct places of a block stand apart, so a block differs in no more places than the codewords do. */
  lemma {:induction false} NoMoreApart(places: set<nat>, ver: C.Version, i: nat, all: set<int>)
    requires C.Layout(ver) && i < ver.numBlocks && forall j: nat :: j in places ==> PlaceOf(ver, i, j) in all
    ensures |places| <= |all|
    decreases places
  {
    hide PlaceOf;
    if places != {} {
      var j: nat :| j in places;
      forall k: nat | k in places - {j} ensures PlaceOf(ver, i, k) in all - {PlaceOf(ver, i, j)} {
        if j < k { PlacesApart(ver, i, j, k); } else { PlacesApart(ver, i, k, j); }
      }
      NoMoreApart(places - {j}, ver, i, all - {PlaceOf(ver, i, j)});
    }
  }

  /** Two blocks that agree off a set of codewords no larger than the number of check symbols are the same. */
  lemma SameBlock(a: seq<Byte>, b: seq<Byte>, ver: C.Version, i: nat, damaged: set<int>)
    requires C.Layout(ver) && i < ver.numBlocks && |a| == |b| == ver.dataCodewords + ver.eccPerBlock * ver.numBlocks
    requires C.BlockSize(ver) + ver.eccPerBlock <= 255 && |damaged| <= ver.eccPerBlock
    requires forall c: nat :: c < |a| && c !in damaged ==> a[c] == b[c]
    requires VanishesAtPowers(WholeBlock(a, ver, i), ver.eccPerBlock)
      && VanishesAtPowers(WholeBlock(b, ver, i), ver.eccPerBlock)
    ensures C.ReadBlock(a, ver, i) == C.ReadBlock(b, ver, i)
  {
    hide WholeBlock, PlaceOf, VanishesAtPowers, Apart, C.ReadBlock, C.ReadEcc, C.Layout, C.BlockSize;
    var p, q := WholeBlock(a, ver, i), WholeBlock(b, ver, i);
    forall j: nat | j in Apart(p, q) ensures PlaceOf(ver, i, j) in damaged {
      WholeBlockAt(a, ver, i, j);
      WholeBlockAt(b, ver, i, j);
    }
    NoMoreApart(Apart(p, q), ver, i, damaged);
    SameCodeword(p, q, ver.eccPerBlock);
    BlockOfWhole(a, ver, i);
    BlockOfWhole(b, ver, i);
  }

  lemma BlockOfWhole(out: seq<Byte>, ver: C.Version, i: nat)
    requires C.Layout(ver) && i < ver.numBlocks && |out| == ver.dataCodewords + ver.eccPerBlock * ver.numBlocks
    ensures WholeBlock(out, ver, i)[..C.BlockSize(ver)] == C.ReadBlock(out, ver, i)
  {
    hide C.ReadBlock, C.ReadEcc;
  }

  lemma {:induction false} SameData(a: seq<Byte>, b: seq<Byte>, ver: C.Version, n: nat)
    requires C.Layout(ver) && n <= ver.numBlocks
    requires |a| == |b| == ver.dataCodewords + ver.eccPerBlock * ver.numBlocks
    requires forall i: nat :: i < n ==> C.ReadBlock(a, ver, i) == C.ReadBlock(b, ver, i)
    ensures C.ReadData(a, ver, n) == C.ReadData(b, ver, n)
  {
    hide C.ReadBlock;
    if n > 0 { SameData(a, b, ver, n - 1); }
  }

  lemma EncodedBlocksVanish(payload: seq<Byte>, ver: C.Version, i: nat)
    requires C.Layout(ver) && C.Fits(ver, |payload|) && i < ver.numBlocks
    ensures VanishesAtPowers(WholeBlock(C.Encode(payload, ver), ver, i), ver.eccPerBlock)
  {
    hide C.Codewords, C.BytesFromBits, C.Stream, VanishesAtPowers, C.ReadBlock, C.ReadEcc;
    C.DeinterleaveBlock(C.BytesFromBits(C.Stream(payload, ver.dataCodewords)), ver, i);
  }

  lemma Sizes(ver: C.Version)
    requires ver in C.VERSIONS
    ensures C.Layout(ver) && 1 <= ver.number <= 6 && C.BlockSize(ver) + ver.eccPerBlock <= 255
    ensures (if ver.number == 1 then 7 else 10) <= ver.eccPerBlock
    ensures ver.number == 1 ==> ver.dataCodewords + ver.eccPerBlock * ver.numBlocks == 26
  {
  }

  /** Codeword sequences that agree off the format modules come from the same payload. */
  lemma SurvivorsNamePayload(payloadA: seq<Byte>, payloadB: seq<Byte>, ver: C.Version)
    requires C.ChooseVersion(|payloadA|) == Some(ver) == C.ChooseVersion(|payloadB|)
    requires C.Layout(ver) && AgreeOnSurvivors(C.BitsFromBytes(C.Encode(payloadA, ver)),
      C.BitsFromBytes(C.Encode(payloadB, ver)), ver.number)
    ensures payloadA == payloadB
  {
    hide *;
    Sizes(ver);
    FewDamaged(ver.number);
    var a, b := C.Encode(payloadA, ver), C.Encode(payloadB, ver);
    EveryBitIsPlaced(payloadA, ver);
    forall c: nat | c < |a| && c !in Damaged(ver.number) ensures a[c] == b[c] {
      SameOffDamage(a, b, ver.number, c);
    }
    forall i: nat | i < ver.numBlocks ensures C.ReadBlock(a, ver, i) == C.ReadBlock(b, ver, i) {
      EncodedBlocksVanish(payloadA, ver, i);
      EncodedBlocksVanish(payloadB, ver, i);
      SameBlock(a, b, ver, i, Damaged(ver.number));
    }
    SameData(a, b, ver, ver.numBlocks);
    DecodesAlike(a, b, ver);
    C.PayloadRoundTrip(payloadA, ver);
    C.PayloadRoundTrip(payloadB, ver);
  }

  lemma DecodesAlike(a: seq<Byte>, b: seq<Byte>, ver: C.Version)
    requires C.Layout(ver) && |a| == |b| == ver.dataCodewords + ver.eccPerBlock * ver.numBlocks
    requires C.ReadData(a, ver, ver.numBlocks) == C.ReadData(b, ver, ver.numBlocks)
    ensures C.Decode(a, ver) == C.Decode(b, ver)
  {
    hide C.ReadData, C.ParseStream, C.BitsFromBytes;
  }

  /** No two payloads share a finished symbol, whatever the penalties: what the format modules overwrite is little
      enough for the check symbols to make up for, in every version. */
  lemma SymbolNamesPayload(picture: Picture, payloadA: seq<Byte>, payloadB: seq<Byte>, verA: C.Version, verB: C.Version,
    baseA: Picture, baseB: Picture, maskA: nat, maskB: nat, penaltyA: Picture -> int, penaltyB: Picture -> int)
    requires IsSymbolFor(picture, payloadA, verA, baseA, maskA, penaltyA)
    requires IsSymbolFor(picture, payloadB, verB, baseB, maskB, penaltyB)
    ensures payloadA == payloadB
  {
    hide *;
    SymbolUnfold(picture, payloadA, verA, baseA, maskA, penaltyA);
    SymbolUnfold(picture, payloadB, verB, baseB, maskB, penaltyB);
    Chosen(picture, payloadA, verA, baseA, maskA, penaltyA);
    Chosen(picture, payloadB, verB, baseB, maskB, penaltyB);
    Sizes(verA);
    Sizes(verB);
    var a, b := C.BitsFromBytes(C.Encode(payloadA, verA)), C.BitsFromBytes(C.Encode(payloadB, verB));
    PatternsVisible(baseA, verA.number, a, maskA);
    PatternsVisible(baseB, verB.number, b, maskB);
    BoardNamesVersion(verA, verB);
    SamePictureSameMask(baseA, baseB, a, b, verA.number, maskA, maskB);
    TrialsAgree(baseA, baseB, a, b, verA.number, maskA);
    SurvivorsNamePayload(payloadA, payloadB, verA);
  }

  lemma Chosen(picture: Picture, payload: seq<Byte>, ver: C.Version, base: Picture, mask: nat, penalty: Picture -> int)
    requires IsSymbolFor(picture, payload, ver, base, mask, penalty)
    ensures C.ChooseVersion(|payload|) == Some(ver)
  {
    hide IsLaidOut, Trial, FixedCells, LeastSoFar, C.BitsFromBytes, C.Encode;
  }

  lemma BoardNamesVersion(a: C.Version, b: C.Version)
    requires a in C.VERSIONS && b in C.VERSIONS && Board(a.number * 4 + 17) == Board(b.number * 4 + 17)
    ensures a == b
  {
    hide *;
    SameNumber(a.number, b.number);
    NumberNamesVersion(a, b);
  }

  lemma SameNumber(m: nat, n: nat)
    requires Board(m * 4 + 17) == Board(n * 4 + 17)
    ensures m == n
  {
    hide *;
    SameSize(m * 4 + 17, n * 4 + 17);
  }

  lemma NumberNamesVersion(a: C.Version, b: C.Version)
    requires a in C.VERSIONS && b in C.VERSIONS && a.number == b.number
    ensures a == b
  {
  }

  lemma SameSize(m: nat, n: nat)
    requires m > 0 && n > 0 && Board(m) == Board(n)
    ensures m == n
  {
    hide Board;
    assert Pos(m - 1, 0) in Board(m);
    assert Pos(n - 1, 0) in Board(n);
  }
}
