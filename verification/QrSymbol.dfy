/** The whole encoder: version choice, codewords, function patterns, placement and the eight mask trials. */
module QrSymbol {
  import opened Results
  import opened GaloisField
  import opened GaloisTables
  import opened QrMatrix
  import opened QrFormat
  import C = QrCodewords

  function SizeOf(ver: C.Version): nat
  {
    ver.number * 4 + 17
  }

  // ----- the function patterns of a version -----

  /** The six patterns in drawing order: three finders, timing, alignment (from version 2 on), the dark module. */
  predicate InPattern(p: Pos, number: nat, k: nat)
  {
    var size := number * 4 + 17;
    match k
    case 0 => InFinder(p, 0, 0)
    case 1 => InFinder(p, size - 7, 0)
    case 2 => InFinder(p, 0, size - 7)
    case 3 => OnTiming(p, size)
    case 4 => number >= 2 && InAlignment(p, size - 7, size - 7)
    case 5 => p == Pos(8, size - 8)
    case _ => false
  }

  function PatternColour(p: Pos, number: nat, k: nat): bool
  {
    var size := number * 4 + 17;
    match k
    case 0 => FinderDark(p.x, p.y)
    case 1 => FinderDark(p.x - (size - 7), p.y)
    case 2 => FinderDark(p.x, p.y - (size - 7))
    case 3 => TimingDark(p)
    case 4 => AlignmentDark(p.x - (size - 7), p.y - (size - 7))
    case _ => true
  }

  /** Modules of the first n patterns. */
  predicate IsFixed(p: Pos, number: nat, n: nat)
  {
    exists k: nat :: k < n && InPattern(p, number, k)
  }

  /** Modules fixed before the data is placed; the format modules are not among them. */
  function FixedCells(number: nat): set<Pos>
  {
    set p | p in Board(number * 4 + 17) && IsFixed(p, number, 6)
  }

  /** No module belongs to two patterns. */
  lemma PatternsApart(p: Pos, number: nat, j: nat, k: nat)
    requires number >= 1 && j < k && InPattern(p, number, j)
    ensures !InPattern(p, number, k)
  {
  }

  /** No fixed module is a format module, and column 6 is fixed from top to bottom. */
  lemma FixedApartFromFormat(number: nat, p: Pos)
    requires number >= 1 && p in Board(number * 4 + 17)
    ensures p in FixedCells(number) ==> FormatIndex(p, number * 4 + 17) == -1
    ensures p.x == 6 ==> p in FixedCells(number)
  {
    if p.x == 6 {
      assert InPattern(p, number, if p.y < 8 then 0 else if p.y >= number * 4 + 9 then 2 else 3);
    }
  }

  // ----- the mask trials as values -----

  /** What trial `mask` shows: format bits on top, fixed modules as drawn, data modules exclusive-or the mask. */
  function Trial(base: Picture, fixed: set<Pos>, size: nat, mask: nat): (r: Picture)
    requires mask < 8
    ensures r.Keys == base.Keys
  {
    map p | p in base ::
      if FormatIndex(p, size) >= 0 then FormatBits(mask)[FormatIndex(p, size)]
      else base[p] != (p !in fixed && MaskBit(mask, p.x, p.y))
  }

  /** Same colours everywhere except possibly on format modules. */
  ghost predicate AgreeOffFormat(a: Picture, b: Picture, size: nat)
  {
    a.Keys == b.Keys && forall p :: p in a && FormatIndex(p, size) < 0 ==> a[p] == b[p]
  }

  /** Reserved or not yet, the format modules show the format bits after masking and drawing: the trial picture. */
  lemma TrialShown(now: Picture, base: Picture, fixed: set<Pos>, reserved: set<Pos>, size: nat, mask: nat)
    requires mask < 8 && base.Keys == Board(size) && AgreeOffFormat(now, base, size)
    requires reserved == fixed || reserved == fixed + FormatCells(size)
    requires Pos(8, size - 8) in fixed && Pos(8, size - 8) in base && base[Pos(8, size - 8)]
    ensures WithFormat(Masked(now, reserved, mask), size, FormatBits(mask)) == Trial(base, fixed, size, mask)
  {
    hide *;
    AgreementKeys(now, base, size);
    var shown, trial := WithFormat(Masked(now, reserved, mask), size, FormatBits(mask)), Trial(base, fixed, size, mask);
    forall p | p in base ensures shown[p] == trial[p] { ModuleShown(now, base, fixed, reserved, size, mask, p); }
  }

  lemma AgreementKeys(a: Picture, b: Picture, size: nat)
    requires AgreeOffFormat(a, b, size)
    ensures a.Keys == b.Keys
  {
  }

  lemma ModuleShown(now: Picture, base: Picture, fixed: set<Pos>, reserved: set<Pos>, size: nat, mask: nat, p: Pos)
    requires mask < 8 && base.Keys == Board(size) && AgreeOffFormat(now, base, size) && p in base
    requires reserved == fixed || reserved == fixed + FormatCells(size)
    requires Pos(8, size - 8) in fixed && Pos(8, size - 8) in base && base[Pos(8, size - 8)]
    ensures WithFormat(Masked(now, reserved, mask), size, FormatBits(mask))[p] == Trial(base, fixed, size, mask)[p]
  {
    hide FormatIndex, MaskBit, FormatBits, Board;
  }

  /** Masking again with the format modules reserved brings the placed data back. */
  lemma TrialUndone(base: Picture, fixed: set<Pos>, size: nat, mask: nat)
    requires mask < 8 && base.Keys == Board(size)
    ensures AgreeOffFormat(Masked(Trial(base, fixed, size, mask), fixed + FormatCells(size), mask), base, size)
  {
    hide FormatIndex, MaskBit, FormatBits, Board;
  }

  method Clone(m: Matrix) returns (copy: array2<bool>)
    requires m.Valid()
    ensures fresh(copy) && copy.Length0 == copy.Length1 == m.size && Shows(copy, m.Colours(), m.size)
  {
    copy := new bool[m.size, m.size]((i, j) requires 0 <= i < m.size
      && 0 <= j < m.size reads m, m.modules requires m.Valid() => m.modules[i, j]);
  }

  ghost predicate LeastSoFar(penalty: Picture -> int, base: Picture, fixed: set<Pos>, size: nat, best: nat, n: nat)
  {
    && best < n <= 8
    && (forall k :: 0 <= k < n ==> penalty(Trial(base, fixed, size, best)) <= penalty(Trial(base, fixed, size, k)))
    && (forall k :: 0 <= k < best ==> penalty(Trial(base, fixed, size, best)) < penalty(Trial(base, fixed, size, k)))
  }

  /** The eight trials: the lowest-numbered mask of least penalty is kept. */
  method ChooseMask(m: Matrix, penalty: Picture -> int) returns (best: nat)
    requires m.Valid() && m.size >= 17
    requires Pos(8, m.size - 8) in m.Functions() && m.Colours()[Pos(8, m.size - 8)]
    modifies m`modules, m.modules, m.isFunction
    ensures m.Valid() && best < 8 && LeastSoFar(penalty, old(m.Colours()), old(m.Functions()), m.size, best, 8)
    ensures m.Colours() == Trial(old(m.Colours()), old(m.Functions()), m.size, best)
  {
    hide Matrix.Colours, Matrix.Functions, Board, FormatCells, WithFormat, Masked, Trial, FormatBits, FormatIndex,
      AgreeOffFormat, LeastSoFar, Shows;
    ghost var base, fixed, size := m.Colours(), m.Functions(), m.size;
    assert AgreeOffFormat(base, base, size) by { SelfAgreement(base, size); }
    var bestMask, bestScore := -1, -1;
    var bestModules := m.modules;
    var mask := 0;
    while mask < 8
      invariant 0 <= mask <= 8 && m.Valid() && m.modules == old(m.modules)
      invariant m.Functions() == if mask == 0 then fixed else fixed + FormatCells(size)
      invariant AgreeOffFormat(m.Colours(), base, size)
      invariant -1 <= bestMask < 8 && (mask == 0 <==> bestMask == -1)
      invariant mask > 0 ==> LeastSoFar(penalty, base, fixed, size, bestMask, mask)
      invariant mask > 0 ==> bestScore == penalty(Trial(base, fixed, size, bestMask))
      invariant bestModules.Length0 == bestModules.Length1 == size
      invariant mask > 0 ==> bestModules != m.isFunction && fresh(bestModules)
      invariant mask > 0 ==> Shows(bestModules, Trial(base, fixed, size, bestMask), size)
    {
      var score := ShowTrial(m, mask, penalty, base, fixed);
      LeastExtends(penalty, base, fixed, size, bestMask, mask);
      if bestMask == -1 || score < bestScore {
        bestScore := score;
        bestMask := mask;
        bestModules := Clone(m);
      }
      TrialUndone(base, fixed, size, mask);
      m.ApplyMask(mask);
      mask := mask + 1;
    }
    m.modules := bestModules;
    best := bestMask;
    ColoursShown(m, Trial(base, fixed, size, best));
  }

  /** Mask, draw the format bits, score. */
  method ShowTrial(m: Matrix, mask: nat, penalty: Picture -> int, ghost base: Picture, ghost fixed: set<Pos>)
    returns (score: int)
    requires m.Valid() && m.size >= 17 && mask < 8 && AgreeOffFormat(m.Colours(), base, m.size)
    requires m.Functions() == fixed || m.Functions() == fixed + FormatCells(m.size)
    requires Pos(8, m.size - 8) in fixed && Pos(8, m.size - 8) in base && base[Pos(8, m.size - 8)]
      && base.Keys == Board(m.size)
    modifies m.modules, m.isFunction
    ensures m.Functions() == fixed + FormatCells(m.size)
    ensures m.Colours() == Trial(base, fixed, m.size, mask) && score == penalty(Trial(base, fixed, m.size, mask))
  {
    hide Matrix.Colours, Matrix.Functions, Board, FormatCells, WithFormat, Masked, Trial, FormatBits, FormatIndex,
      AgreeOffFormat;
    TrialShown(m.Colours(), base, fixed, m.Functions(), m.size, mask);
    m.ApplyMask(mask);
    var bits := ComputeFormatBits(mask);
    m.DrawFormat(bits);
    score := penalty(m.Colours());
  }

  /** The running minimum after one more trial. */
  lemma LeastExtends(penalty: Picture -> int, base: Picture, fixed: set<Pos>, size: nat, best: int, mask: nat)
    requires mask < 8 && (mask == 0 <==> best == -1) && -1 <= best
    requires mask > 0 ==> LeastSoFar(penalty, base, fixed, size, best, mask)
    ensures (best == -1 || penalty(Trial(base, fixed, size, mask)) < penalty(Trial(base, fixed, size, best)))
      ==> LeastSoFar(penalty, base, fixed, size, mask, mask + 1)
    ensures !(best == -1 || penalty(Trial(base, fixed, size, mask)) < penalty(Trial(base, fixed, size, best)))
      ==> LeastSoFar(penalty, base, fixed, size, best, mask + 1)
  {
    hide Trial;
  }

  ghost predicate Shows(a: array2<bool>, picture: Picture, size: nat)
    reads a
  {
    a.Length0 == a.Length1 == size && picture.Keys == Board(size) && forall p ::
      p in Board(size) ==> a[p.y, p.x] == picture[p]
  }

  lemma ColoursShown(m: Matrix, picture: Picture)
    requires m.Valid() && Shows(m.modules, picture, m.size)
    ensures m.Colours() == picture
  {
  }

  lemma SelfAgreement(a: Picture, size: nat)
    ensures AgreeOffFormat(a, a, size)
  {
  }

  method ComputeFormatBits(mask: nat) returns (bits: seq<bool>)
    requires mask < 8
    ensures bits == FormatBits(mask)
  {
    var word := ComputeFormatWord(mask);
    bits := seq(15, i requires 0 <= i < 15 => C.BitAt(word, i));
  }

  // ----- the encoder -----

  /** The first n patterns have been drawn, and nothing else is a function module. */
  ghost predicate PatternsDrawn(functions: set<Pos>, colours: Picture, number: nat, n: nat)
  {
    && colours.Keys == Board(number * 4 + 17)
    && (forall p :: p in functions <==> p in Board(number * 4 + 17) && IsFixed(p, number, n))
    && (forall p, k: nat ::
      p in Board(number * 4 + 17) && k < n && InPattern(p, number, k) ==> colours[p] == PatternColour(p, number, k))
  }

  lemma PatternStep(functions: set<Pos>, colours: Picture, functions': set<Pos>, colours': Picture, number: nat, n: nat)
    requires number >= 1 && PatternsDrawn(functions, colours, number, n)
    requires functions' <= Board(number * 4 + 17) && colours'.Keys == Board(number * 4 + 17)
    requires forall p ::
      p in Board(number * 4 + 17) ==> (p in functions' <==> p in functions || InPattern(p, number, n))
    requires forall p :: p in Board(number * 4 + 17) ==>
               colours'[p] == if InPattern(p, number, n) then PatternColour(p, number, n) else colours[p]
    ensures PatternsDrawn(functions', colours', number, n + 1)
  {
    hide InPattern, PatternColour, Board;
    forall p, k: nat | p in Board(number * 4 + 17) && k < n + 1 && InPattern(p, number, k)
      ensures colours'[p] == PatternColour(p, number, k)
    {
      if k < n { PatternsApart(p, number, k, n); }
    }
    forall p: Pos ensures IsFixed(p, number, n + 1) <==> IsFixed(p, number, n) || InPattern(p, number, n) { }
  }

  method DrawFinderPattern(m: Matrix, number: nat, k: nat, left: int, top: int)
    requires m.Valid() && 1 <= number && m.size == number * 4 + 17
      && PatternsDrawn(m.Functions(), m.Colours(), number, k)
    requires (k == 0 && left == top == 0) || (k == 1 && left == m.size - 7 && top == 0)
      || (k == 2 && left == 0 && top == m.size - 7)
    modifies m.modules, m.isFunction
    ensures PatternsDrawn(m.Functions(), m.Colours(), number, k + 1)
  {
    hide Matrix.Colours, Matrix.Functions, Board, FinderDark, InFinder, PatternsDrawn, AlignmentDark, TimingDark;
    ghost var f, c := m.Functions(), m.Colours();
    m.DrawFinder(left, top);
    PatternStep(f, c, m.Functions(), m.Colours(), number, k);
  }

  method DrawTimingPattern(m: Matrix, number: nat)
    requires m.Valid() && 1 <= number && m.size == number * 4 + 17
      && PatternsDrawn(m.Functions(), m.Colours(), number, 3)
    modifies m.modules, m.isFunction
    ensures PatternsDrawn(m.Functions(), m.Colours(), number, 4)
  {
    ghost var f, c := m.Functions(), m.Colours();
    TimingFree(f, c, number);
    hide Matrix.Colours, Matrix.Functions, Board, OnTiming, TimingDark, PatternsDrawn;
    m.DrawTiming();
    PatternStep(f, c, m.Functions(), m.Colours(), number, 3);
  }

  method DrawAlignmentPattern(m: Matrix, number: nat)
    requires m.Valid() && 1 <= number && m.size == number * 4 + 17
      && PatternsDrawn(m.Functions(), m.Colours(), number, 4)
    modifies m.modules, m.isFunction
    ensures PatternsDrawn(m.Functions(), m.Colours(), number, 5)
  {
    hide Matrix.Colours, Matrix.Functions, Board, InAlignment, AlignmentDark, PatternsDrawn;
    ghost var f, c := m.Functions(), m.Colours();
    if number >= 2 {
      var pos := number * 4 + 10;
      m.DrawAlignment(pos, pos);
    }
    PatternStep(f, c, m.Functions(), m.Colours(), number, 4);
  }

  method DrawDarkModule(m: Matrix, number: nat)
    requires m.Valid() && 1 <= number && m.size == number * 4 + 17
      && PatternsDrawn(m.Functions(), m.Colours(), number, 5)
    modifies m.modules, m.isFunction
    ensures PatternsDrawn(m.Functions(), m.Colours(), number, 6)
  {
    hide Matrix.Colours, Matrix.Functions, Board, PatternsDrawn;
    ghost var f, c := m.Functions(), m.Colours();
    m.SetFunction(8, m.size - 8, true);
    PatternStep(f, c, m.Functions(), m.Colours(), number, 5);
  }

  method DrawFixedPatterns(m: Matrix, ver: C.Version)
    requires m.Valid() && 1 <= ver.number && m.size == ver.number * 4 + 17 && m.Functions() == {}
    modifies m.modules, m.isFunction
    ensures PatternsDrawn(m.Functions(), m.Colours(), ver.number, 6)
  {
    hide Matrix.Colours, Matrix.Functions, PatternsDrawn, Board;
    assert PatternsDrawn(m.Functions(), m.Colours(), ver.number, 0) by { NothingDrawn(m.Colours(), ver.number); }
    DrawFinderPattern(m, ver.number, 0, 0, 0);
    DrawFinderPattern(m, ver.number, 1, m.size - 7, 0);
    DrawFinderPattern(m, ver.number, 2, 0, m.size - 7);
    DrawTimingPattern(m, ver.number);
    DrawAlignmentPattern(m, ver.number);
    DrawDarkModule(m, ver.number);
  }

  lemma NothingDrawn(colours: Picture, number: nat)
    requires colours.Keys == Board(number * 4 + 17)
    ensures PatternsDrawn({}, colours, number, 0)
  {
  }

  lemma TimingFree(functions: set<Pos>, colours: Picture, number: nat)
    requires number >= 1 && PatternsDrawn(functions, colours, number, 3)
    ensures forall p :: p in Board(number * 4 + 17) && OnTiming(p, number * 4 + 17) ==> p !in functions
  {
  }

  /** The symbol before masking: fixed patterns, and the codeword bits along the walk. */
  ghost predicate IsLaidOut(base: Picture, number: nat, bits: seq<bool>)
  {
    var free := Free(Walk(number * 4 + 17), FixedCells(number));
    && PatternsDrawn(FixedCells(number), base, number, 6)
    && (forall p :: p in free ==> p in base)
    && ReadAlong(base, free) == Fitted(bits, |free|)
  }

  /** What the encoder returns for a payload: the laid-out symbol of the smallest version under the best mask. */
  ghost predicate IsSymbolFor(picture: Picture, payload: seq<Byte>, ver: C.Version, base: Picture, mask: nat,
    penalty: Picture -> int)
  {
    && C.ChooseVersion(|payload|) == Some(ver) && C.Layout(ver) && mask < 8
    && IsLaidOut(base, ver.number, C.BitsFromBytes(C.Encode(payload, ver)))
    && LeastSoFar(penalty, base, FixedCells(ver.number), SizeOf(ver), mask, 8)
    && picture == Trial(base, FixedCells(ver.number), SizeOf(ver), mask)
  }

  /** Codewords of the payload, as the bit stream to be placed. */
  method CodewordBits(t: Tables, payload: seq<Byte>, ver: C.Version) returns (bits: seq<bool>)
    requires t.Valid() && C.Layout(ver) && C.Fits(ver, |payload|)
    ensures bits == C.BitsFromBytes(C.Encode(payload, ver))
  {
    var stream := C.EncodeDataBits(payload, ver);
    var codewords := C.BitsToBytes(stream);
    var final := C.Interleave(t, codewords[..], ver);
    bits := C.BytesToBits(final);
  }

  method LayOut(ver: C.Version, bits: seq<bool>) returns (m: Matrix)
    requires 1 <= ver.number
    ensures fresh(m) && fresh(m.modules) && fresh(m.isFunction) && m.Valid() && m.size == SizeOf(ver)
    ensures m.Functions() == FixedCells(ver.number) && IsLaidOut(m.Colours(), ver.number, bits)
    ensures m.size >= 17 && Pos(8, m.size - 8) in m.Functions() && m.Colours()[Pos(8, m.size - 8)]
  {
    hide Matrix.Colours, Matrix.Functions, Board, PatternsDrawn, IsLaidOut, Free, Walk, Placed, FixedCells;
    m := new Matrix(ver.number * 4 + 17);
    DrawFixedPatterns(m, ver);
    FunctionsAreFixed(m.Functions(), m.Colours(), ver.number);
    OddSize(ver.number);
    LaidOut(m.Colours(), ver.number, bits);
    m.PlaceData(bits);
  }

  function DarkModule(number: nat): Pos
  {
    Pos(8, number * 4 + 9)
  }

  lemma OddSize(number: nat)
    ensures (number * 4 + 17) % 2 == 1
  {
    OddNumber(2 * number + 8);
    assert number * 4 + 17 == 2 * (2 * number + 8) + 1;
  }

  lemma OddNumber(k: nat)
    ensures (2 * k + 1) % 2 == 1
  {
  }

  lemma FunctionsAreFixed(functions: set<Pos>, colours: Picture, number: nat)
    requires PatternsDrawn(functions, colours, number, 6)
    ensures functions == FixedCells(number)
  {
    hide Board, IsFixed;
  }

  lemma LaidOut(drawn: Picture, number: nat, bits: seq<bool>)
    requires number >= 1 && PatternsDrawn(FixedCells(number), drawn, number, 6)
    ensures var base := Placed(drawn, Free(Walk(number * 4 + 17), FixedCells(number)), bits);
      IsLaidOut(base, number, bits) && DarkModule(number) in FixedCells(number) && DarkModule(number) in base
        && base[DarkModule(number)]
  {
    hide *;
    var fixed := FixedCells(number);
    var free := Free(Walk(number * 4 + 17), fixed);
    var base := Placed(drawn, free, bits);
    assert drawn.Keys == Board(number * 4 + 17) by { PatternsKept(fixed, drawn, drawn, number); }
    OddSize(number);
    PlacedReadsBack(drawn, number * 4 + 17, fixed, bits);
    assert forall p :: p in fixed ==> p in Board(number * 4 + 17) by { FixedOnBoard(number); }
    PatternsKept(fixed, drawn, base, number);
    LaidOutIntro(base, number, bits);
    DarkIsDrawn(base, number);
  }

  lemma FixedOnBoard(number: nat)
    ensures forall p :: p in FixedCells(number) ==> p in Board(number * 4 + 17)
  {
  }

  /** Writing elsewhere keeps the patterns. */
  lemma PatternsKept(functions: set<Pos>, drawn: Picture, after: Picture, number: nat)
    requires PatternsDrawn(functions, drawn, number, 6) && after.Keys == drawn.Keys
    requires forall p :: p in functions && p in drawn ==> after[p] == drawn[p]
    ensures drawn.Keys == Board(number * 4 + 17) && PatternsDrawn(functions, after, number, 6)
  {
    hide InPattern, PatternColour, Board;
  }

  lemma LaidOutIntro(base: Picture, number: nat, bits: seq<bool>)
    requires PatternsDrawn(FixedCells(number), base, number, 6)
    requires var free := Free(Walk(number * 4 + 17), FixedCells(number));
      (forall p :: p in free ==> p in base) && ReadAlong(base, free) == Fitted(bits, |free|)
    ensures IsLaidOut(base, number, bits)
  {
    hide Free, Walk, PatternsDrawn, FixedCells;
  }

  lemma DarkIsDrawn(base: Picture, number: nat)
    requires number >= 1 && PatternsDrawn(FixedCells(number), base, number, 6)
    ensures DarkModule(number) in FixedCells(number) && DarkModule(number) in base && base[DarkModule(number)]
  {
    var dark := DarkModule(number);
    assert InPattern(dark, number, 5) && dark in Board(number * 4 + 17) && PatternColour(dark, number, 5);
    hide Board, InPattern, PatternColour;
  }

  method EncodeMatrix(t: Tables, payload: seq<Byte>, penalty: Picture -> int)
    returns (r: Option<Matrix>, ghost ver: C.Version, ghost base: Picture, mask: nat)
    requires t.Valid()
    ensures r.None? <==> |payload| > 134
    ensures r.Some? ==>
      fresh(r.value) && r.value.Valid() && IsSymbolFor(r.value.Colours(), payload, ver, base, mask, penalty)
  {
    hide *;
    var choice := C.ChooseVersion(|payload|);
    if choice.None? {
      return None, C.Version(1, 19, 1, 7), map[], 0;
    }
    var v := choice.value;
    C.VersionsAreLaidOut(v);
    assert 1 <= v.number by { VersionNumber(v); }
    var dataBits := CodewordBits(t, payload, v);
    var m := LayOut(v, dataBits);
    base := m.Colours();
    mask := ChooseMask(m, penalty);
    ver := v;
    r := Some(m);
    assert IsSymbolFor(m.Colours(), payload, v, base, mask, penalty) by {
      SymbolIntro(m.Colours(), payload, v, base, mask, penalty);
    }
  }

  lemma VersionNumber(ver: C.Version)
    requires ver in C.VERSIONS
    ensures 1 <= ver.number <= 6
  {
  }

  lemma SymbolIntro(picture: Picture, payload: seq<Byte>, ver: C.Version, base: Picture, mask: nat,
    penalty: Picture -> int)
    requires C.ChooseVersion(|payload|) == Some(ver) && C.Layout(ver) && mask < 8
    requires IsLaidOut(base, ver.number, C.BitsFromBytes(C.Encode(payload, ver)))
    requires LeastSoFar(penalty, base, FixedCells(ver.number), SizeOf(ver), mask, 8)
    requires picture == Trial(base, FixedCells(ver.number), SizeOf(ver), mask)
    ensures IsSymbolFor(picture, payload, ver, base, mask, penalty)
  {
  }
}
