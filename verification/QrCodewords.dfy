/** From payload bytes to the interleaved codeword sequence of a QR symbol, and back. */
module QrCodewords {
  import opened Results
  import opened GaloisField
  import opened GaloisTables
  import opened ReedSolomon

  // ----- versions -----

  datatype Version = Version(number: nat, dataCodewords: nat, numBlocks: nat, eccPerBlock: nat)

  const VERSIONS: seq<Version> := [
    Version(1, 19, 1, 7), Version(2, 34, 1, 10), Version(3, 55, 1, 15),
    Version(4, 80, 1, 20), Version(5, 108, 1, 26), Version(6, 136, 2, 18)]

  /** Mode indicator, 8-bit length and payload fit in the data codewords. */
  predicate Fits(v: Version, dataLen: nat)
  {
    4 + 8 + dataLen * 8 <= v.dataCodewords * 8
  }

  /** The first version from index i on that the payload fits. */
  function FirstFitting(dataLen: nat, i: nat): (r: Option<Version>)
    requires i <= |VERSIONS|
    ensures r.Some? ==> exists k ::
      i <= k < |VERSIONS| && r.value == VERSIONS[k] && Fits(VERSIONS[k], dataLen) && forall j ::
        i <= j < k ==> !Fits(VERSIONS[j], dataLen)
    ensures r.None? <==> forall k :: i <= k < |VERSIONS| ==> !Fits(VERSIONS[k], dataLen)
    decreases |VERSIONS| - i
  {
    if i == |VERSIONS| then None
    else if Fits(VERSIONS[i], dataLen) then Some(VERSIONS[i])
    else FirstFitting(dataLen, i + 1)
  }

  function ChooseVersion(dataLen: nat): (r: Option<Version>)
    ensures r.Some? <==> dataLen <= 134
    ensures r.Some? ==> r.value in VERSIONS && Fits(r.value, dataLen)
    ensures r.Some? ==> forall v :: v in VERSIONS && Fits(v, dataLen) ==> r.value.number <= v.number
  {
    assert Fits(VERSIONS[5], dataLen) <==> dataLen <= 134;
    FirstFitting(dataLen, 0)
  }

  /** Up to 17, 32, 53, 78, 106 and 134 bytes go into versions 1 to 6, which have 26, 44, 70, 100, 134 and 172
      codewords, check symbols included. */
  lemma Capacities(dataLen: nat)
    requires dataLen <= 134
    ensures var v := ChooseVersion(dataLen).value;
      (v.number, v.dataCodewords + v.eccPerBlock * v.numBlocks)
        == if dataLen <= 17 then (1, 26) else if dataLen <= 32 then (2, 44) else if dataLen <= 53 then (3, 70)
           else if dataLen <= 78 then (4, 100) else if dataLen <= 106 then (5, 134) else (6, 172)
  {
    var v := ChooseVersion(dataLen).value;
    assert forall i :: 0 <= i < 6 ==> VERSIONS[i] in VERSIONS;
  }

  // ----- bits -----

  /** The lowest bit after i right shifts. */
  function BitAt(val: nat, i: nat): bool
    decreases i
  {
    if i == 0 then val % 2 == 1 else BitAt(val / 2, i - 1)
  }

  /** The n low bits of val, most significant first. */
  function BitsOf(val: nat, n: nat): (bits: seq<bool>)
    ensures |bits| == n
  {
    if n == 0 then [] else [BitAt(val, n - 1)] + BitsOf(val, n - 1)
  }

  function ValueOf(bits: seq<bool>): (val: nat)
    ensures val < Pow2(|bits|)
  {
    if bits == [] then 0
    else 2 * ValueOf(bits[..|bits| - 1]) + if bits[|bits| - 1] then 1 else 0
  }

  lemma {:induction false} BitsOfLast(val: nat, n: nat)
    ensures BitsOf(val, n + 1) == BitsOf(val / 2, n) + [val % 2 == 1]
  {
    if n == 0 {
      assert BitsOf(val, 1) == [BitAt(val, 0)] + BitsOf(val, 0);
    } else {
      BitsOfLast(val, n - 1);
    }
  }

  lemma {:induction false} ValueOfBitsOf(val: nat, n: nat)
    requires val < Pow2(n)
    ensures ValueOf(BitsOf(val, n)) == val
    decreases n
  {
    if n > 0 {
      BitsOfLast(val, n - 1);
      ValueOfBitsOf(val / 2, n - 1);
      assert BitsOf(val, n)[..n - 1] == BitsOf(val / 2, n - 1);
    }
  }

  lemma {:induction false} BitsOfValueOf(bits: seq<bool>)
    ensures BitsOf(ValueOf(bits), |bits|) == bits
    decreases |bits|
  {
    if bits != [] {
      var n := |bits| - 1;
      BitsOfLast(ValueOf(bits), n);
      BitsOfValueOf(bits[..n]);
    }
  }

  lemma Assoc<T>(a: seq<T>, b: seq<T>, c: seq<T>)
    ensures a + b + c == a + (b + c)
  {
  }

  method AppendBits(bits: seq<bool>, val: nat, n: nat) returns (r: seq<bool>)
    ensures r == bits + BitsOf(val, n)
  {
    r := bits;
    var i := n;
    while i > 0
      invariant 0 <= i <= n
      invariant r + BitsOf(val, i) == bits + BitsOf(val, n)
    {
      i := i - 1;
      Assoc(r, [BitAt(val, i)], BitsOf(val, i));
      r := r + [BitAt(val, i)];
    }
  }

  // ----- bytes and bits -----

  function BitsFromBytes(data: seq<Byte>): (bits: seq<bool>)
    ensures |bits| == 8 * |data|
  {
    if data == [] then [] else BitsFromBytes(data[..|data| - 1]) + BitsOf(data[|data| - 1], 8)
  }

  function Chunk(bits: seq<bool>, i: nat): (c: seq<bool>)
    requires 8 * i + 8 <= |bits|
    ensures |c| == 8
  {
    bits[8 * i..8 * i + 8]
  }

  function ByteAt(bits: seq<bool>, i: nat): Byte
    requires 8 * i + 8 <= |bits|
  {
    assert Pow2(8) == 256;
    ValueOf(Chunk(bits, i))
  }

  /** Whole bytes of the bit sequence; a trailing fragment is dropped. */
  function BytesFromBits(bits: seq<bool>): (data: seq<Byte>)
    ensures |data| == |bits| / 8
  {
    seq(|bits| / 8, i requires 0 <= i < |bits| / 8 => ByteAt(bits, i))
  }

  lemma {:induction false} ChunkOfBytes(data: seq<Byte>, i: nat)
    requires i < |data|
    ensures Chunk(BitsFromBytes(data), i) == BitsOf(data[i], 8)
    decreases |data|
  {
    if i < |data| - 1 { ChunkOfBytes(data[..|data| - 1], i); }
  }

  lemma BytesRoundTrip(data: seq<Byte>)
    ensures BytesFromBits(BitsFromBytes(data)) == data
  {
    forall i | 0 <= i < |data| ensures ByteAt(BitsFromBytes(data), i) == data[i] {
      ChunkOfBytes(data, i);
      assert Pow2(8) == 256;
      ValueOfBitsOf(data[i], 8);
    }
  }

  lemma {:induction false} EqualChunks(a: seq<bool>, b: seq<bool>, n: nat)
    requires |a| == |b| == 8 * n
    requires forall i :: 0 <= i < n ==> Chunk(a, i) == Chunk(b, i)
    ensures a == b
  {
    forall k | 0 <= k < 8 * n ensures a[k] == b[k] {
      assert Chunk(a, k / 8)[k % 8] == a[k] && Chunk(b, k / 8)[k % 8] == b[k];
    }
  }

  lemma BitsRoundTrip(bits: seq<bool>)
    requires |bits| % 8 == 0
    ensures BitsFromBytes(BytesFromBits(bits)) == bits
  {
    var data := BytesFromBits(bits);
    forall i | 0 <= i < |data| ensures Chunk(BitsFromBytes(data), i) == Chunk(bits, i) {
      ChunkOfBytes(data, i);
      BitsOfValueOf(Chunk(bits, i));
    }
    EqualChunks(BitsFromBytes(data), bits, |data|);
  }

  lemma BitsFromBytesAppend(data: seq<Byte>, b: Byte)
    ensures BitsFromBytes(data + [b]) == BitsFromBytes(data) + BitsOf(b, 8)
  {
    assert (data + [b])[..|data|] == data;
  }

  lemma {:induction false} BitsFromBytesConcat(a: seq<Byte>, b: seq<Byte>)
    ensures BitsFromBytes(a + b) == BitsFromBytes(a) + BitsFromBytes(b)
    decreases |b|
  {
    if b == [] {
      assert a + b == a;
    } else {
      var n := |b| - 1;
      assert (a + b)[..|a| + n] == a + b[..n];
      BitsFromBytesConcat(a, b[..n]);
    }
  }

  method BitsToBytes(bits: seq<bool>) returns (out: array<Byte>)
    ensures fresh(out) && out[..] == BytesFromBits(bits)
  {
    hide ByteAt;
    out := new Byte[|bits| / 8](_ => 0);
    var i := 0;
    while i < out.Length
      invariant 0 <= i <= out.Length
      invariant forall k :: 0 <= k < i ==> out[k] == ByteAt(bits, k)
    {
      out[i] := PackByte(bits, i);
      i := i + 1;
    }
  }

  method PackByte(bits: seq<bool>, i: nat) returns (b: Byte)
    requires 8 * i + 8 <= |bits|
    ensures b == ByteAt(bits, i)
  {
    ghost var chunk := Chunk(bits, i);
    b := 0;
    var j := 0;
    while j < 8
      invariant 0 <= j <= 8
      invariant b == ValueOf(chunk[..j])
    {
      ghost var next := chunk[..j + 1];
      assert next[..j] == chunk[..j];
      ShortValue(next);
      b := (2 * b) % 256;
      if bits[i * 8 + j] { b := b + 1; }
      j := j + 1;
    }
    assert chunk[..8] == chunk;
  }

  lemma ShortValue(bits: seq<bool>)
    requires 0 < |bits| <= 8
    ensures 2 * ValueOf(bits[..|bits| - 1]) < 256
  {
    assert ValueOf(bits) < Pow2(|bits|) <= Pow2(8) == 256 by { Pow2Monotone(|bits|, 8); }
  }

  lemma {:induction false} Pow2Monotone(m: nat, n: nat)
    requires m <= n
    ensures Pow2(m) <= Pow2(n)
    decreases n
  {
    if m < n { Pow2Monotone(m, n - 1); }
  }

  method BytesToBits(data: seq<Byte>) returns (bits: seq<bool>)
    ensures bits == BitsFromBytes(data)
  {
    bits := AppendBytes([], data);
  }

  method AppendBytes(start: seq<bool>, data: seq<Byte>) returns (bits: seq<bool>)
    ensures bits == start + BitsFromBytes(data)
  {
    bits := start;
    var n := 0;
    assert BitsFromBytes(data[..0]) == [];
    hide *;
    while n < |data|
      invariant 0 <= n <= |data|
      invariant bits == start + BitsFromBytes(data[..n])
    {
      BitsFromBytesAppend(data[..n], data[n]);
      Assoc(start, BitsFromBytes(data[..n]), BitsOf(data[n], 8));
      assert data[..n + 1] == data[..n] + [data[n]];
      bits := AppendBits(bits, data[n], 8);
      n := n + 1;
    }
    assert data[..n] == data;
  }

  // ----- the byte-mode bit stream -----

  function PadByte(i: nat): Byte
  {
    if i % 2 == 0 then 0xEC else 0x11
  }

  /** n pad bytes, alternating 0xEC and 0x11. */
  function PadBytes(n: nat): (pad: seq<Byte>)
    ensures |pad| == n
  {
    if n == 0 then [] else PadBytes(n - 1) + [PadByte(n - 1)]
  }

  /** Mode 4, length, payload, a full four-bit terminator, pad bytes up to the capacity. */
  function Stream(data: seq<Byte>, capacity: nat): (bits: seq<bool>)
    requires |data| + 2 <= capacity
    ensures |bits| == 8 * capacity
  {
    BitsOf(4, 4) + BitsOf(|data|, 8) + BitsFromBytes(data) + BitsOf(0, 4)
      + BitsFromBytes(PadBytes(capacity - 2 - |data|))
  }

  /** What a reader of the stream does: mode, length, then that many bytes. */
  function ParseStream(bits: seq<bool>): Option<seq<Byte>>
  {
    if |bits| < 12 || ValueOf(bits[..4]) != 4 then None
    else
      var count := ValueOf(bits[4..12]);
      if |bits| < 12 + 8 * count then None
      else Some(BytesFromBits(bits[12..12 + 8 * count]))
  }

  lemma StreamParses(data: seq<Byte>, capacity: nat)
    requires |data| + 2 <= capacity && |data| < 256
    ensures ParseStream(Stream(data, capacity)) == Some(data)
  {
    assert Pow2(4) == 16 && Pow2(8) == 256;
    ValueOfBitsOf(4, 4);
    ValueOfBitsOf(|data|, 8);
    BytesRoundTrip(data);
    hide BitsOf, ValueOf, BitsFromBytes, BytesFromBits, ParseStream;
    FieldsParse(BitsOf(4, 4), BitsOf(|data|, 8), BitsFromBytes(data), BitsOf(0, 4),
      BitsFromBytes(PadBytes(capacity - 2 - |data|)));
  }

  lemma FieldsParse(mode: seq<bool>, count: seq<bool>, payload: seq<bool>, terminator: seq<bool>, pad: seq<bool>)
    requires |mode| == 4 && |count| == 8 && ValueOf(mode) == 4 && |payload| == 8 * ValueOf(count)
    ensures ParseStream(mode + count + payload + terminator + pad) == Some(BytesFromBits(payload))
  {
    hide ValueOf, BytesFromBits;
    var bits := mode + count + payload + terminator + pad;
    assert bits[..4] == mode;
    assert bits[4..12] == count;
    assert bits[12..12 + 8 * ValueOf(count)] == payload;
  }

  lemma Nibbles(bits: seq<bool>)
    requires |bits| == 8
    ensures ValueOf(bits) == 16 * ValueOf(bits[..4]) + ValueOf(bits[4..]) && ValueOf(bits[4..]) < 16
  {
    assert Pow2(4) == 16 && ValueOf(bits[4..4]) == 0;
    NibbleStep(bits, 4);
    NibbleStep(bits, 5);
    NibbleStep(bits, 6);
    NibbleStep(bits, 7);
    assert bits[..8] == bits && bits[4..8] == bits[4..];
    hide ValueOf;
  }

  lemma NibbleStep(bits: seq<bool>, i: nat)
    requires |bits| == 8 && 4 <= i < 8
    ensures ValueOf(bits[..i + 1]) == 2 * ValueOf(bits[..i]) + if bits[i] then 1 else 0
    ensures ValueOf(bits[4..i + 1]) == 2 * ValueOf(bits[4..i]) + if bits[i] then 1 else 0
  {
    assert bits[..i + 1][..i] == bits[..i] && bits[4..i + 1][..i - 4] == bits[4..i];
  }

  /** The upper and the lower half of a byte. */
  lemma HalvesOf(v: Byte)
    ensures ValueOf(BitsOf(v, 8)[..4]) == v / 16 && ValueOf(BitsOf(v, 8)[4..]) == v % 16
  {
    assert Pow2(8) == 256;
    ValueOfBitsOf(v, 8);
    Nibbles(BitsOf(v, 8));
    hide ValueOf;
  }

  /** Whole bytes moved along by half a byte: every chunk straddles two of them. */
  lemma Straddle(mode: seq<bool>, body: seq<bool>, end: seq<bool>, pad: seq<bool>, n: nat, k: nat)
    requires |mode| == |end| == 4 && |body| == 8 * n && n > 0 && 8 * k + 8 <= 8 + 8 * n + |pad|
    ensures var bits := mode + body + end + pad;
      && |bits| == 8 + 8 * n + |pad|
      && (k <= n ==> Chunk(bits, k)[..4] == if k == 0 then mode else Chunk(body, k - 1)[4..])
      && (k <= n ==> Chunk(bits, k)[4..] == if k == n then end else Chunk(body, k)[..4])
      && (k > n ==> Chunk(bits, k) == Chunk(pad, k - n - 1))
  {
  }

  lemma StreamAsBytes(data: seq<Byte>, capacity: nat)
    requires |data| + 2 <= capacity && |data| < 256
    ensures Stream(data, capacity)
      == BitsOf(4, 4) + BitsFromBytes([|data|] + data) + BitsOf(0, 4) + BitsFromBytes(PadBytes(capacity - 2 - |data|))
  {
    BitsFromBytesConcat([|data|], data);
    assert [] + [|data|] == [|data|];
    BitsFromBytesAppend([], |data|);
    assert BitsFromBytes([]) == [];
    hide BitsOf, BitsFromBytes, PadBytes;
    assert [] + BitsOf(|data|, 8) == BitsOf(|data|, 8);
    Assoc(BitsOf(4, 4), BitsOf(|data|, 8), BitsFromBytes(data));
  }

  lemma ByteOfChunk(bits: seq<bool>, k: nat)
    requires 8 * k + 8 <= |bits|
    ensures BytesFromBits(bits)[k] == ValueOf(Chunk(bits, k))
  {
    hide ValueOf;
  }

  lemma FixedNibbles()
    ensures ValueOf(BitsOf(4, 4)) == 4 && ValueOf(BitsOf(0, 4)) == 0
  {
    assert Pow2(4) == 16;
    ValueOfBitsOf(4, 4);
    ValueOfBitsOf(0, 4);
  }

  /** Mode and length shift the payload by half a byte: every codeword joins the lower half of one byte to the upper
      half of the next, starting from mode 4 and ending in zeros; the rest is filled with 0xEC and 0x11 in turn. */
  lemma StreamCodewords(data: seq<Byte>, capacity: nat, k: nat)
    requires |data| + 2 <= capacity && |data| < 256 && k < capacity
    ensures var shown: seq<Byte> := [|data|] + data;
      BytesFromBits(Stream(data, capacity))[k]
        == if k == 0 then 0x40 + shown[0] / 16
           else if k <= |data| then shown[k - 1] % 16 * 16 + shown[k] / 16
           else if k == |data| + 1 then shown[k - 1] % 16 * 16
           else if (k - |data|) % 2 == 0 then 0xEC else 0x11
  {
    hide *;
    var shown: seq<Byte> := [|data|] + data;
    var body, n, bits := BitsFromBytes(shown), |data| + 1, Stream(data, capacity);
    StreamAsBytes(data, capacity);
    Straddle(BitsOf(4, 4), body, BitsOf(0, 4), BitsFromBytes(PadBytes(capacity - 1 - n)), n, k);
    ByteOfChunk(bits, k);
    if k <= n {
      Nibbles(Chunk(bits, k));
      FixedNibbles();
      if k > 0 {
        ChunkOfBytes(shown, k - 1);
        HalvesOf(shown[k - 1]);
      }
      if k < n {
        ChunkOfBytes(shown, k);
        HalvesOf(shown[k]);
      }
    } else {
      PadCodeword(capacity - 1 - n, k - n - 1);
    }
  }

  lemma PadCodeword(n: nat, i: nat)
    requires i < n
    ensures ValueOf(Chunk(BitsFromBytes(PadBytes(n)), i)) == if i % 2 == 0 then 0xEC else 0x11
  {
    ChunkOfBytes(PadBytes(n), i);
    PadByteIs(n, i);
    assert Pow2(8) == 256;
    ValueOfBitsOf(PadByte(i), 8);
    hide ValueOf, BitsFromBytes, BitsOf, Chunk, PadBytes;
  }

  lemma {:induction false} PadByteIs(n: nat, i: nat)
    requires i < n
    ensures PadBytes(n)[i] == PadByte(i)
  {
    if i < n - 1 { PadByteIs(n - 1, i); }
  }

  /** The header and the payload bytes. */
  function HeaderAndPayload(data: seq<Byte>): (bits: seq<bool>)
    ensures |bits| == 12 + 8 * |data|
  {
    BitsOf(4, 4) + BitsOf(|data|, 8) + BitsFromBytes(data)
  }

  method AppendHeaderAndPayload(data: seq<Byte>) returns (bits: seq<bool>)
    ensures bits == HeaderAndPayload(data)
  {
    hide BitsOf, BitsFromBytes;
    bits := AppendBits([], 4, 4);
    bits := AppendBits(bits, |data|, 8);
    bits := AppendBytes(bits, data);
  }

  /** Up to four terminator bits, as many as the capacity allows. */
  method AppendTerminator(payload: seq<bool>, capacityBits: nat) returns (bits: seq<bool>)
    requires |payload| <= capacityBits
    ensures bits == payload + FalseBits(if |payload| + 4 <= capacityBits then 4 else capacityBits - |payload|)
  {
    bits := payload;
    var i := 0;
    while i < 4 && |bits| < capacityBits
      invariant 0 <= i <= 4 && |payload| + i <= capacityBits
      invariant bits == payload + FalseBits(i)
    {
      bits := bits + [false];
      i := i + 1;
    }
  }

  /** The next multiple of 8. */
  function AlignedUp(n: nat): (m: nat)
    ensures m % 8 == 0 && n <= m < n + 8
  {
    (n + 7) / 8 * 8
  }

  method AlignToByte(start: seq<bool>) returns (bits: seq<bool>)
    ensures bits == start + FalseBits(AlignedUp(|start|) - |start|)
  {
    hide AlignedUp;
    bits := start;
    while |bits| % 8 != 0
      invariant |start| <= |bits| <= AlignedUp(|start|)
      invariant bits == start + FalseBits(|bits| - |start|)
      decreases AlignedUp(|start|) - |bits|
    {
      bits := bits + [false];
    }
  }

  lemma PadStep(i: nat)
    ensures BitsFromBytes(PadBytes(i + 1)) == BitsFromBytes(PadBytes(i)) + BitsOf(PadByte(i), 8)
  {
    BitsFromBytesAppend(PadBytes(i), PadByte(i));
  }

  method PadToCapacity(start: seq<bool>, capacity: nat, ghost n: nat) returns (bits: seq<bool>)
    requires |start| + 8 * n == 8 * capacity
    ensures bits == start + BitsFromBytes(PadBytes(n))
  {
    assert BitsFromBytes(PadBytes(0)) == [];
    hide *;
    bits := start;
    var i := 0;
    while |bits| < capacity * 8
      invariant 0 <= i <= n
      invariant bits == start + BitsFromBytes(PadBytes(i)) && |bits| == |start| + 8 * i
      decreases n - i
    {
      PadStep(i);
      Assoc(start, BitsFromBytes(PadBytes(i)), BitsOf(PadByte(i), 8));
      bits := AppendBits(bits, PadByte(i), 8);
      i := i + 1;
    }
  }

  /** The stream builder: the terminator is never cut short and always ends on a byte boundary. */
  method EncodeDataBits(data: seq<Byte>, ver: Version) returns (bits: seq<bool>)
    requires Fits(ver, |data|)
    ensures bits == Stream(data, ver.dataCodewords)
  {
    hide BitsOf, BitsFromBytes;
    bits := AppendHeaderAndPayload(data);
    bits := AppendTerminator(bits, ver.dataCodewords * 8);
    bits := AlignToByte(bits);
    FourFalseBits();
    bits := PadToCapacity(bits, ver.dataCodewords, ver.dataCodewords - 2 - |data|);
  }

  function FalseBits(n: nat): (bits: seq<bool>)
    ensures |bits| == n
  {
    if n == 0 then [] else FalseBits(n - 1) + [false]
  }

  lemma FourFalseBits()
    ensures FalseBits(4) == BitsOf(0, 4)
  {
    assert FalseBits(1) == [false] && FalseBits(2) == [false, false] && FalseBits(3) == [false, false, false];
    assert BitsOf(0, 1) == [false] && BitsOf(0, 2) == [false, false] && BitsOf(0, 3) == [false, false, false];
  }

  // ----- blocks and interleaving -----

  predicate Layout(ver: Version)
  {
    ver.numBlocks > 0 && ver.eccPerBlock > 0 && ver.dataCodewords % ver.numBlocks == 0
  }

  function BlockSize(ver: Version): (n: nat)
    requires Layout(ver)
    ensures n * ver.numBlocks == ver.dataCodewords
  {
    ver.dataCodewords / ver.numBlocks
  }

  lemma BlockBounds(ver: Version, i: nat)
    requires Layout(ver) && i < ver.numBlocks
    ensures (i + 1) * BlockSize(ver) == i * BlockSize(ver) + BlockSize(ver) <= ver.dataCodewords
  {
    var n := BlockSize(ver);
    assert (i + 1) * n <= ver.numBlocks * n;
  }

  function DataBlock(data: seq<Byte>, ver: Version, i: nat): (block: seq<Byte>)
    requires Layout(ver) && |data| == ver.dataCodewords && i < ver.numBlocks
    ensures |block| == BlockSize(ver)
  {
    BlockBounds(ver, i);
    data[i * BlockSize(ver)..(i + 1) * BlockSize(ver)]
  }

  function EccBlock(data: seq<Byte>, ver: Version, i: nat): (block: seq<Byte>)
    requires Layout(ver) && |data| == ver.dataCodewords && i < ver.numBlocks
    ensures |block| == ver.eccPerBlock
  {
    Remainder(DataBlock(data, ver, i), Generator(ver.eccPerBlock)[1..])
  }

  function DataBlocks(data: seq<Byte>, ver: Version): (blocks: seq<seq<Byte>>)
    requires Layout(ver) && |data| == ver.dataCodewords
    ensures |blocks| == ver.numBlocks && forall i :: 0 <= i < |blocks| ==> |blocks[i]| == BlockSize(ver)
  {
    seq(ver.numBlocks, i requires 0 <= i < ver.numBlocks => DataBlock(data, ver, i))
  }

  function EccBlocks(data: seq<Byte>, ver: Version): (blocks: seq<seq<Byte>>)
    requires Layout(ver) && |data| == ver.dataCodewords
    ensures |blocks| == ver.numBlocks && forall i :: 0 <= i < |blocks| ==> |blocks[i]| == ver.eccPerBlock
  {
    seq(ver.numBlocks, i requires 0 <= i < ver.numBlocks => EccBlock(data, ver, i))
  }

  function Column(blocks: seq<seq<Byte>>, c: nat): (col: seq<Byte>)
    requires forall i :: 0 <= i < |blocks| ==> c < |blocks[i]|
    ensures |col| == |blocks|
  {
    seq(|blocks|, i requires 0 <= i < |blocks| => blocks[i][c])
  }

  /** The first n columns of equally long blocks, column by column. */
  function Columns(blocks: seq<seq<Byte>>, n: nat): (out: seq<Byte>)
    requires forall i :: 0 <= i < |blocks| ==> n <= |blocks[i]|
    ensures |out| == n * |blocks|
  {
    if n == 0 then [] else
      assert n * |blocks| == (n - 1) * |blocks| + |blocks|;
      Columns(blocks, n - 1) + Column(blocks, n - 1)
  }

  /** Every `stride`-th element from `start` on. */
  function Stripe(out: seq<Byte>, start: nat, stride: nat, n: nat): (block: seq<Byte>)
    requires n > 0 ==> start + (n - 1) * stride < |out|
    ensures |block| == n
  {
    if n == 0 then [] else
      assert n > 1 ==> start + (n - 2) * stride < |out| by { assert (n - 1) * stride == (n - 2) * stride + stride; }
      Stripe(out, start, stride, n - 1) + [out[start + (n - 1) * stride]]
  }

  /** Reading stripe i back out of the columns gives block i. */
  lemma {:induction false} StripeOfColumns(blocks: seq<seq<Byte>>, n: nat, i: nat, rest: seq<Byte>)
    requires forall k :: 0 <= k < |blocks| ==> n <= |blocks[k]|
    requires i < |blocks|
    ensures n > 0 ==> i + (n - 1) * |blocks| < n * |blocks|
    ensures Stripe(Columns(blocks, n) + rest, i, |blocks|, n) == blocks[i][..n]
    decreases n
  {
    if n > 0 {
      var b := |blocks|;
      assert n * b == (n - 1) * b + b;
      StripeOfColumns(blocks, n - 1, i, Column(blocks, n - 1) + rest);
      assert Columns(blocks, n) + rest == Columns(blocks, n - 1) + (Column(blocks, n - 1) + rest);
    }
  }

  function Codewords(data: seq<Byte>, ver: Version): (out: seq<Byte>)
    requires Layout(ver) && |data| == ver.dataCodewords
    ensures |out| == ver.dataCodewords + ver.eccPerBlock * ver.numBlocks
  {
    Columns(DataBlocks(data, ver), BlockSize(ver)) + Columns(EccBlocks(data, ver), ver.eccPerBlock)
  }

  lemma {:induction false} ColumnsAt(blocks: seq<seq<Byte>>, n: nat, c: nat, i: nat)
    requires forall k :: 0 <= k < |blocks| ==> n <= |blocks[k]|
    requires c < n && i < |blocks|
    ensures 0 <= c * |blocks| + i < n * |blocks| && Columns(blocks, n)[c * |blocks| + i] == blocks[i][c]
    decreases n
  {
    var b := |blocks|;
    assert n * b == (n - 1) * b + b;
    if c < n - 1 { ColumnsAt(blocks, n - 1, c, i); }
  }

  /** Which codeword comes where: first the c-th data codewords of all blocks, for each c in turn. */
  lemma DataCodewordAt(data: seq<Byte>, ver: Version, c: nat, i: nat)
    requires Layout(ver) && |data| == ver.dataCodewords && i < ver.numBlocks && c < BlockSize(ver)
    ensures 0 <= c * ver.numBlocks + i < ver.dataCodewords && 0 <= i * BlockSize(ver) + c < |data|
    ensures Codewords(data, ver)[c * ver.numBlocks + i] == data[i * BlockSize(ver) + c]
  {
    BlockBounds(ver, i);
    ColumnsAt(DataBlocks(data, ver), BlockSize(ver), c, i);
    hide Columns, EccBlocks;
  }

  /** Then their check symbols in the same way. */
  lemma CheckCodewordAt(data: seq<Byte>, ver: Version, c: nat, i: nat)
    requires Layout(ver) && |data| == ver.dataCodewords && i < ver.numBlocks && c < ver.eccPerBlock
    ensures 0 <= c * ver.numBlocks + i < ver.eccPerBlock * ver.numBlocks
    ensures Codewords(data, ver)[ver.dataCodewords + (c * ver.numBlocks + i)] == EccBlock(data, ver, i)[c]
  {
    ColumnsAt(EccBlocks(data, ver), ver.eccPerBlock, c, i);
    hide Columns, EccBlock, DataBlocks;
  }

  method AppendColumns(out: seq<Byte>, blocks: seq<seq<Byte>>, n: nat) returns (r: seq<Byte>)
    requires forall i :: 0 <= i < |blocks| ==> n == |blocks[i]|
    ensures r == out + Columns(blocks, n)
  {
    r := out;
    var col := 0;
    while col < n
      invariant 0 <= col <= n
      invariant r == out + Columns(blocks, col)
    {
      var i := 0;
      while i < |blocks|
        invariant 0 <= i <= |blocks|
        invariant r == out + Columns(blocks, col) + Column(blocks, col)[..i]
      {
        r := r + [blocks[i][col]];
        i := i + 1;
      }
      assert Column(blocks, col)[..i] == Column(blocks, col);
      col := col + 1;
    }
  }

  /** Split into blocks, append Reed-Solomon symbols to each, interleave. */
  method Interleave(t: Tables, data: seq<Byte>, ver: Version) returns (out: seq<Byte>)
    requires t.Valid() && Layout(ver) && |data| == ver.dataCodewords
    ensures out == Codewords(data, ver)
  {
    var blockSize := ver.dataCodewords / ver.numBlocks;
    var divisor := Divisor(t, ver.eccPerBlock);
    var dataBlocks, eccBlocks := SplitBlocks(t, data, ver, blockSize, divisor);
    out := AppendColumns([], dataBlocks, blockSize);
    out := AppendColumns(out, eccBlocks, ver.eccPerBlock);
  }

  method SplitBlocks(t: Tables, data: seq<Byte>, ver: Version, blockSize: nat, divisor: array<Byte>)
    returns (dataBlocks: seq<seq<Byte>>, eccBlocks: seq<seq<Byte>>)
    requires t.Valid() && Layout(ver) && |data| == ver.dataCodewords && blockSize == BlockSize(ver)
    requires divisor[..] == Generator(ver.eccPerBlock)[1..]
    ensures dataBlocks == DataBlocks(data, ver) && eccBlocks == EccBlocks(data, ver)
  {
    hide Generator, Remainder, BlockSize;
    dataBlocks, eccBlocks := [], [];
    var i := 0;
    while i < ver.numBlocks
      invariant 0 <= i <= ver.numBlocks
      invariant |dataBlocks| == i && forall k :: 0 <= k < i ==> dataBlocks[k] == DataBlock(data, ver, k)
      invariant |eccBlocks| == i && forall k :: 0 <= k < i ==> eccBlocks[k] == EccBlock(data, ver, k)
    {
      BlockBounds(ver, i);
      var block := data[i * blockSize..(i + 1) * blockSize];
      var ecc := ComputeRemainder(t, block, divisor);
      dataBlocks := dataBlocks + [block];
      eccBlocks := eccBlocks + [ecc[..]];
      i := i + 1;
    }
  }

  // ----- reading the codewords back -----

  /** Block i of the data part, and of the check part, as a reader de-interleaves them. */
  function ReadBlock(out: seq<Byte>, ver: Version, i: nat): (block: seq<Byte>)
    requires Layout(ver) && i < ver.numBlocks && |out| == ver.dataCodewords + ver.eccPerBlock * ver.numBlocks
    ensures |block| == BlockSize(ver)
  {
    StripeFits(BlockSize(ver), ver.numBlocks, i);
    Stripe(out, i, ver.numBlocks, BlockSize(ver))
  }

  function ReadEcc(out: seq<Byte>, ver: Version, i: nat): (block: seq<Byte>)
    requires Layout(ver) && i < ver.numBlocks && |out| == ver.dataCodewords + ver.eccPerBlock * ver.numBlocks
    ensures |block| == ver.eccPerBlock
  {
    StripeFits(ver.eccPerBlock, ver.numBlocks, i);
    Stripe(out[ver.dataCodewords..], i, ver.numBlocks, ver.eccPerBlock)
  }

  lemma StripeFits(n: nat, b: nat, i: nat)
    requires i < b
    ensures n > 0 ==> i + (n - 1) * b < n * b
  {
    assert n * b == (n - 1) * b + b;
  }

  /** De-interleaving gives back every data block and its check symbols, and the pair is a Reed-Solomon codeword. */
  lemma DeinterleaveBlock(data: seq<Byte>, ver: Version, i: nat)
    requires Layout(ver) && |data| == ver.dataCodewords && i < ver.numBlocks
    ensures ReadBlock(Codewords(data, ver), ver, i) == DataBlock(data, ver, i)
    ensures ReadEcc(Codewords(data, ver), ver, i) == EccBlock(data, ver, i)
    ensures VanishesAtPowers(ReadBlock(Codewords(data, ver), ver, i) + ReadEcc(Codewords(data, ver), ver, i),
      ver.eccPerBlock)
  {
    var ecc := Columns(EccBlocks(data, ver), ver.eccPerBlock);
    StripeOfColumns(DataBlocks(data, ver), BlockSize(ver), i, ecc);
    StripeOfColumns(EccBlocks(data, ver), ver.eccPerBlock, i, []);
    assert Codewords(data, ver)[ver.dataCodewords..] == ecc + [];
    assert DataBlock(data, ver, i)[..BlockSize(ver)] == DataBlock(data, ver, i);
    assert EccBlock(data, ver, i)[..ver.eccPerBlock] == EccBlock(data, ver, i);
    CodewordVanishes(DataBlock(data, ver, i), ver.eccPerBlock);
  }

  /** The first n data blocks one after another. */
  function ReadData(out: seq<Byte>, ver: Version, n: nat): seq<Byte>
    requires Layout(ver) && n <= ver.numBlocks && |out| == ver.dataCodewords + ver.eccPerBlock * ver.numBlocks
  {
    if n == 0 then [] else ReadData(out, ver, n - 1) + ReadBlock(out, ver, n - 1)
  }

  lemma {:induction false} DeinterleaveData(data: seq<Byte>, ver: Version, n: nat)
    requires Layout(ver) && |data| == ver.dataCodewords && n <= ver.numBlocks
    ensures n * BlockSize(ver) <= |data| && ReadData(Codewords(data, ver), ver, n) == data[..n * BlockSize(ver)]
    decreases n
  {
    hide Codewords, BlockSize, DataBlock, ReadBlock;
    if n > 0 {
      DeinterleaveData(data, ver, n - 1);
      DeinterleaveBlock(data, ver, n - 1);
      JoinBlock(data, ver, n - 1);
    }
  }

  lemma JoinBlock(data: seq<Byte>, ver: Version, i: nat)
    requires Layout(ver) && |data| == ver.dataCodewords && i < ver.numBlocks
    ensures (i + 1) * BlockSize(ver) <= |data|
    ensures data[..(i + 1) * BlockSize(ver)] == data[..i * BlockSize(ver)] + DataBlock(data, ver, i)
  {
    BlockBounds(ver, i);
  }

  /** The codewords of a payload in a given version. */
  function Encode(payload: seq<Byte>, ver: Version): (out: seq<Byte>)
    requires Layout(ver) && Fits(ver, |payload|)
    ensures |out| == ver.dataCodewords + ver.eccPerBlock * ver.numBlocks
  {
    Codewords(BytesFromBits(Stream(payload, ver.dataCodewords)), ver)
  }

  function Decode(out: seq<Byte>, ver: Version): Option<seq<Byte>>
    requires Layout(ver) && |out| == ver.dataCodewords + ver.eccPerBlock * ver.numBlocks
  {
    ParseStream(BitsFromBytes(ReadData(out, ver, ver.numBlocks)))
  }

  lemma VersionsAreLaidOut(ver: Version)
    requires ver in VERSIONS
    ensures Layout(ver)
  {
  }

  /** Every payload that gets a version survives the trip to interleaved codewords and back. */
  lemma PayloadRoundTrip(payload: seq<Byte>, ver: Version)
    requires ChooseVersion(|payload|) == Some(ver)
    ensures Layout(ver) && Decode(Encode(payload, ver), ver) == Some(payload)
  {
    VersionsAreLaidOut(ver);
    var bits := Stream(payload, ver.dataCodewords);
    var data := BytesFromBits(bits);
    DeinterleaveData(data, ver, ver.numBlocks);
    assert ver.numBlocks * BlockSize(ver) == ver.dataCodewords;
    assert data[..|data|] == data;
    BitsRoundTrip(bits);
    StreamParses(payload, ver.dataCodewords);
  }
}
