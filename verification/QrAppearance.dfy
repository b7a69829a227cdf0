/** A finished symbol against the figures: its patterns, its format words, its masked data and its codewords. */
module QrAppearance {
  import opened GaloisField
  import opened QrFigures
  import opened QrMatrix
  import opened QrFormat
  import opened QrSymbol
  import opened QrReading
  import C = QrCodewords

  // ----- patterns -----

  /** A finder is drawn as in its figure, the light ring included. */
  lemma FinderAsDrawn(dx: int, dy: int)
    ensures FinderDark(dx, dy) <==> Inked(FINDER, dx + 1, dy + 1)
  {
    if -1 <= dy <= 7 && -1 <= dx <= 7 {
      FinderCell(dx + 1, dy + 1);
    }
  }

  lemma FinderCell(x: nat, y: nat)
    requires x < 9 && y < 9
    ensures FinderDark(x - 1, y - 1) <==> Inked(FINDER, x, y)
  {
    assert y == 0 || y == 1 || y == 2 || y == 3 || y == 4 || y == 5 || y == 6 || y == 7 || y == 8;
  }

  lemma AlignmentAsDrawn(dx: int, dy: int)
    requires -2 <= dx <= 2 && -2 <= dy <= 2
    ensures AlignmentDark(dx, dy) <==> Inked(ALIGNMENT, dx + 2, dy + 2)
  {
    assert dy == -2 || dy == -1 || dy == 0 || dy == 1 || dy == 2;
  }

  /** Next to the separator the timing tracks are dark, and from there they alternate. */
  lemma TimingAlternates(i: nat)
    ensures TimingDark(Pos(8, 6)) && TimingDark(Pos(6, 8))
    ensures i >= 8 ==>
      TimingDark(Pos(i + 1, 6)) != TimingDark(Pos(i, 6)) && TimingDark(Pos(6, i + 1)) != TimingDark(Pos(6, i))
  {
  }

  // ----- format words -----

  /** Where the bits of the format word are read, lowest first: down column 8 and left along row 8, around the corner of
      the top-left finder and across the timing tracks. */
  const FIRST_COPY: seq<Pos> := [
    Pos(8, 0), Pos(8, 1), Pos(8, 2), Pos(8, 3), Pos(8, 4), Pos(8, 5), Pos(8, 7), Pos(8, 8),
    Pos(7, 8), Pos(5, 8), Pos(4, 8), Pos(3, 8), Pos(2, 8), Pos(1, 8), Pos(0, 8)]

  /** Left along row 8 from the right edge, then down column 8 to the bottom edge. */
  function SecondPlaces(size: nat): (places: seq<Pos>)
    ensures |places| == 15
  {
    [Pos(size - 1, 8), Pos(size - 2, 8), Pos(size - 3, 8), Pos(size - 4, 8),
     Pos(size - 5, 8), Pos(size - 6, 8), Pos(size - 7, 8), Pos(size - 8, 8),
     Pos(8, size - 7), Pos(8, size - 6), Pos(8, size - 5), Pos(8, size - 4),
     Pos(8, size - 3), Pos(8, size - 2), Pos(8, size - 1)]
  }

  lemma FormatPlaces(size: nat, i: nat)
    requires size >= 17 && i < 15
    ensures FirstCopy(FIRST_COPY[i]) == i && FormatIndex(FIRST_COPY[i], size) == i
    ensures SecondCopy(SecondPlaces(size)[i], size) == i && FormatIndex(SecondPlaces(size)[i], size) == i
    ensures FIRST_COPY[i] in Board(size) && SecondPlaces(size)[i] in Board(size)
  {
  }

  lemma OnlyFormatPlaces(size: nat, p: Pos)
    requires size >= 17
    ensures FormatIndex(p, size) >= 0 ==> p in FIRST_COPY || p in SecondPlaces(size)
  {
    if FirstCopy(p) >= 0 {
      FirstPlace(p);
    } else if SecondCopy(p, size) >= 0 {
      SecondPlace(p, size);
    }
    hide FirstCopy, SecondCopy, SecondPlaces;
  }

  lemma FirstPlace(p: Pos)
    requires FirstCopy(p) >= 0
    ensures p == FIRST_COPY[FirstCopy(p)]
  {
  }

  lemma SecondPlace(p: Pos, size: nat)
    requires size >= 17 && SecondCopy(p, size) >= 0
    ensures p == SecondPlaces(size)[SecondCopy(p, size)]
  {
  }

  // ----- the walk -----

  /** The right column of the s-th pair from the right; the timing column belongs to none. */
  function PairAt(size: nat, s: nat): int
  {
    if size - 1 - 2 * s >= 8 then size - 1 - 2 * s else size - 2 - 2 * s
  }

  lemma PairsInTurn(number: nat, s: nat)
    requires number >= 1 && s < 2 * number + 8
    ensures var r := PairAt(number * 4 + 17, s); r >= 1 && r != 6 && (Upward(r) <==> s % 2 == 0)
    ensures var r, next := PairAt(number * 4 + 17, s), PairAt(number * 4 + 17, s + 1);
      next == r - 2 || (r == 8 && next == 5)
  {
    var r := PairAt(number * 4 + 17, s);
    assert (r + 1) / 2 == 2 * (number + 4) - s;
  }

  /** Before the s-th pair the walk has covered the pairs to its right, 2 * size modules each. */
  lemma {:induction false} PairsBefore(number: nat, s: nat) returns (before: seq<Pos>)
    requires number >= 1 && s < 2 * number + 8
    ensures var size := number * 4 + 17;
      Walk(size) == before + WalkFrom(size, PairAt(size, s)) && |before| == s * (2 * size)
  {
    var size := number * 4 + 17;
    hide PairWalk, WalkFrom, Upward;
    if s == 0 {
      before := [];
      assert [] + WalkFrom(size, size - 1) == Walk(size);
    } else {
      var right := PairAt(size, s - 1);
      before := PairsBefore(number, s - 1);
      PairsInTurn(number, s - 1);
      PairFirst(size, right, PairAt(size, s));
      assert before + (PairWalk(size, right, size) + WalkFrom(size, PairAt(size, s)))
        == before + PairWalk(size, right, size) + WalkFrom(size, PairAt(size, s));
      before := before + PairWalk(size, right, size);
      assert s * (2 * size) == (s - 1) * (2 * size) + 2 * size;
    }
  }

  lemma PairFirst(size: nat, right: int, next: int)
    requires right >= 1 && right != 6 && (next == right - 2 || (right == 8 && next == 5))
    ensures WalkFrom(size, right) == PairWalk(size, right, size) + WalkFrom(size, next)
  {
    hide PairWalk;
    if right == 8 { assert WalkFrom(size, 6) == WalkFrom(size, 5); }
  }

  /** The walk goes up the first pair of columns from the bottom right corner, down the next, and so on in turn, right
      module before left, never touching the timing column. */
  lemma WalkAt(number: nat, s: nat, v: nat, left: nat)
    requires number >= 1 && s < 2 * number + 8 && v < number * 4 + 17 && left < 2
    ensures var size := number * 4 + 17; var k := s * (2 * size) + 2 * v + left;
      k < |Walk(size)| && Walk(size)[k] == Pos(PairAt(size, s) - left, if s % 2 == 0 then size - 1 - v else v)
  {
    var size := number * 4 + 17;
    var before := PairsBefore(number, s);
    PairsInTurn(number, s);
    var right := PairAt(size, s);
    hide PairAt, Walk;
    PairCell(size, right, size, v, left);
    PairLeads(size, right);
  }

  lemma PairLeads(size: nat, right: int)
    requires right >= 1 && right != 6
    ensures PairWalk(size, right, size) <= WalkFrom(size, right)
  {
    hide PairWalk;
  }

  lemma {:induction false} PairCell(size: nat, right: int, n: nat, v: nat, left: nat)
    requires v < n && left < 2
    ensures PairWalk(size, right, n)[2 * v + left] == Pos(right - left, RowOf(size, right, v))
  {
    if v < n - 1 { PairCell(size, right, n - 1, v, left); }
  }

  // ----- the symbol -----

  /** The three finders with their light rings. */
  ghost predicate ShowsFinders(picture: Picture, size: nat)
  {
    forall p :: p in picture ==>
      && (p.x < 8 && p.y < 8 ==> picture[p] == Inked(FINDER, p.x + 1, p.y + 1))
      && (p.x >= size - 8 && p.y < 8 ==> picture[p] == Inked(FINDER, p.x - (size - 8), p.y + 1))
      && (p.x < 8 && p.y >= size - 8 ==> picture[p] == Inked(FINDER, p.x + 1, p.y - (size - 8)))
  }

  /** The timing tracks, the alignment figure (from version 2 on), and the dark module. */
  ghost predicate ShowsTracks(picture: Picture, number: nat)
  {
    var size := number * 4 + 17;
    && (forall p :: p in picture && (p.y == 6 && 8 <= p.x < size - 8) ==> (picture[p] <==> p.x % 2 == 0))
    && (forall p :: p in picture && (p.x == 6 && 8 <= p.y < size - 8) ==> (picture[p] <==> p.y % 2 == 0))
    && (number >= 2 ==> forall p :: p in picture && size - 9 <= p.x <= size - 5 && size - 9 <= p.y <= size - 5 ==>
          picture[p] == Inked(ALIGNMENT, p.x - (size - 9), p.y - (size - 9)))
    && (forall p :: p in picture && p == Pos(8, size - 8) ==> picture[p])
  }

  /** Both copies of a format word, lowest bit first along their places. */
  ghost predicate ShowsWord(picture: Picture, size: nat, word: nat)
  {
    forall i: nat :: i < 15 ==>
      && FIRST_COPY[i] in picture && SecondPlaces(size)[i] in picture
      && picture[FIRST_COPY[i]] == picture[SecondPlaces(size)[i]] == C.BitAt(word, i)
  }

  /** Along the walk, the bits under the tile of a mask; what the format word covers is not shown. */
  ghost predicate ShowsBits(picture: Picture, number: nat, mask: nat, bits: seq<bool>)
  {
    var walk := DataWalk(number);
    forall k :: 0 <= k < |walk| && walk[k] in picture && walk[k] !in FIRST_COPY
      && walk[k] !in SecondPlaces(number * 4 + 17)
      && walk[k].x >= 0 && walk[k].y >= 0
      ==> picture[walk[k]] == (Inverts(mask, walk[k].x, walk[k].y) != (k < |bits| && bits[k]))
  }

  /** Every pattern shows in the picture. */
  ghost predicate ShowsPatterns(picture: Picture, number: nat)
  {
    forall p, k: nat :: p in picture && k < 6 && InPattern(p, number, k) ==> picture[p] == PatternColour(p, number, k)
  }

  lemma FindersShown(picture: Picture, number: nat)
    requires number >= 1 && picture.Keys == Board(number * 4 + 17) && ShowsPatterns(picture, number)
    ensures ShowsFinders(picture, number * 4 + 17)
  {
    var size := number * 4 + 17;
    hide FinderDark, TimingDark, AlignmentDark, Inked;
    forall p | p in picture
      ensures p.x < 8 && p.y < 8 ==> picture[p] == Inked(FINDER, p.x + 1, p.y + 1)
      ensures p.x >= size - 8 && p.y < 8 ==> picture[p] == Inked(FINDER, p.x - (size - 8), p.y + 1)
      ensures p.x < 8 && p.y >= size - 8 ==> picture[p] == Inked(FINDER, p.x + 1, p.y - (size - 8))
    {
      FinderAsDrawn(p.x, p.y);
      FinderAsDrawn(p.x - (size - 7), p.y);
      FinderAsDrawn(p.x, p.y - (size - 7));
      assert p.x < 8 && p.y < 8 ==> InPattern(p, number, 0);
      assert p.x >= size - 8 && p.y < 8 ==> InPattern(p, number, 1);
      assert p.x < 8 && p.y >= size - 8 ==> InPattern(p, number, 2);
    }
  }

  lemma TracksShown(picture: Picture, number: nat)
    requires number >= 1 && picture.Keys == Board(number * 4 + 17) && ShowsPatterns(picture, number)
    ensures ShowsTracks(picture, number)
  {
    var size := number * 4 + 17;
    hide FinderDark, AlignmentDark, Inked;
    forall p | p in picture && size - 9 <= p.x <= size - 5 && size - 9 <= p.y <= size - 5 && number >= 2
      ensures picture[p] == Inked(ALIGNMENT, p.x - (size - 9), p.y - (size - 9))
    {
      AlignmentAsDrawn(p.x - (size - 7), p.y - (size - 7));
      assert InPattern(p, number, 4);
    }
    forall p | p in picture && OnTiming(p, size) ensures picture[p] == TimingDark(p) { assert InPattern(p, number, 3); }
    forall p | p in picture && p == Pos(8, size - 8) ensures picture[p] { assert InPattern(p, number, 5); }
  }

  lemma WordShown(picture: Picture, size: nat, mask: nat)
    requires size >= 17 && mask < 8 && picture.Keys == Board(size)
    requires forall p ::
      p in picture && FormatIndex(p, size) >= 0 ==> picture[p] == FormatBits(mask)[FormatIndex(p, size)]
    ensures ShowsWord(picture, size, FormatWord(mask))
  {
    hide FormatIndex, FormatWord, C.BitAt, SecondPlaces, Board, FirstCopy, SecondCopy;
    forall i: nat | i < 15
      ensures FIRST_COPY[i] in picture && SecondPlaces(size)[i] in picture
        && picture[FIRST_COPY[i]] == picture[SecondPlaces(size)[i]] == C.BitAt(FormatWord(mask), i)
    {
      FormatPlaces(size, i);
    }
  }

  lemma BitsShown(picture: Picture, number: nat, mask: nat, bits: seq<bool>)
    requires var walk := DataWalk(number);
      forall k :: 0 <= k < |walk| && walk[k] in picture && FormatIndex(walk[k], number * 4 + 17) < 0 ==>
        (picture[walk[k]] != MaskBit(mask, walk[k].x, walk[k].y)) == (k < |bits| && bits[k])
    ensures ShowsBits(picture, number, mask, bits)
  {
    hide DataWalk, MaskBit, Inverts, FormatIndex, SecondPlaces;
    var walk := DataWalk(number);
    forall k | 0 <= k < |walk| && walk[k] in picture && walk[k] !in FIRST_COPY
      && walk[k] !in SecondPlaces(number * 4 + 17) && walk[k].x >= 0 && walk[k].y >= 0
      ensures picture[walk[k]] == (Inverts(mask, walk[k].x, walk[k].y) != (k < |bits| && bits[k]))
    {
      OnlyFormatPlaces(number * 4 + 17, walk[k]);
      MaskIsTile(mask, walk[k].x, walk[k].y);
    }
  }

  /** The symbol that the encoder returns is drawn as the figures say, names its mask in a word of the code in both
      places, and shows the codewords of the payload under the tile of that mask. */
  lemma SymbolAsDrawn(picture: Picture, payload: seq<Byte>, ver: C.Version, base: Picture, mask: nat,
    penalty: Picture -> int)
    requires 1 <= ver.number && IsSymbolFor(picture, payload, ver, base, mask, penalty)
    ensures picture.Keys == Board(ver.number * 4 + 17)
    ensures ShowsFinders(picture, ver.number * 4 + 17) && ShowsTracks(picture, ver.number)
    ensures ShowsWord(picture, ver.number * 4 + 17, FormatWord(mask))
    ensures ShowsBits(picture, ver.number, mask, C.BitsFromBytes(C.Encode(payload, ver)))
  {
    hide *;
    SymbolUnfold(picture, payload, ver, base, mask, penalty);
    SymbolReadsBack(picture, payload, ver, base, mask, penalty);
    assert ShowsPatterns(picture, ver.number) by { PatternsShown(picture, ver.number); }
    FindersShown(picture, ver.number);
    TracksShown(picture, ver.number);
    WordShown(picture, ver.number * 4 + 17, mask);
    BitsShown(picture, ver.number, mask, C.BitsFromBytes(C.Encode(payload, ver)));
  }

  lemma PatternsShown(picture: Picture, number: nat)
    requires forall p, k: nat ::
      p in picture && k < 6 && InPattern(p, number, k) ==> picture[p] == PatternColour(p, number, k)
    ensures ShowsPatterns(picture, number)
  {
    hide InPattern, PatternColour;
  }
}
