// The CUDA backend: raw bytes go to the device and the kernel pads them on the
// fly (crates/server/src/compute/cuda.rs). It agrees with the wgpu backend.

module Sha256Cuda {
  import opened Prelude
  import opened Sha256Spec
  import opened Sha256Wgpu

  // ------------------------------------------------------------------
  // lop3.b32
  // ------------------------------------------------------------------

  function Pick(lut: bv8, mask: bv8, minterm: Word): Word {
    if lut & mask != 0 then minterm else 0
  }

  /** Bit `4x + 2y + z` of the table is the result for these three input bits. */
  function Lop3(lut: bv8, x: Word, y: Word, z: Word): Word {
    Pick(lut, 0x01, !x & !y & !z) | Pick(lut, 0x02, !x & !y & z)
    | Pick(lut, 0x04, !x & y & !z) | Pick(lut, 0x08, !x & y & z)
    | Pick(lut, 0x10, x & !y & !z) | Pick(lut, 0x20, x & !y & z)
    | Pick(lut, 0x40, x & y & !z) | Pick(lut, 0x80, x & y & z)
  }

  lemma TableCaIsChoice(x: Word, y: Word, z: Word)
    ensures Lop3(0xCA, x, y, z) == Ch(x, y, z)
  {}

  lemma TableE8IsMajority(x: Word, y: Word, z: Word)
    ensures Lop3(0xE8, x, y, z) == Maj(x, y, z)
  {}

  // ------------------------------------------------------------------
  // Padding inside the kernel
  // ------------------------------------------------------------------

  /** `(len + 9 + 63) / 64` in 32-bit arithmetic. */
  function DeviceBlocks(len: u32): nat { (len + 9 + 63) % 0x1_0000_0000 / 64 }

  /** The kernel counts the blocks right exactly when the sum does not wrap. */
  lemma DeviceBlocksAreRight(len: u32)
    ensures DeviceBlocks(len) == BlockCount(len) <==> len + 72 < 0x1_0000_0000
  {
    NumBlocksIsBlockCount(len);
  }

  lemma DeviceBlocksFit(len: u32)
    requires len + 72 < 0x1_0000_0000
    ensures DeviceBlocks(len) == NumBlocks(len)
  {}

  function PaddedByte(input: Message, p: nat): Byte {
    if p < |input| then input[p] else if p == |input| then 0x80 else 0
  }

  function PaddedWord(input: Message, pos: nat): Word {
    BeWord(PaddedByte(input, pos), PaddedByte(input, pos + 1), PaddedByte(input, pos + 2), PaddedByte(input, pos + 3))
  }

  lemma ShiftedInIsBigEndian(b0: Byte, b1: Byte, b2: Byte, b3: Byte)
    ensures (((((((b0 as Word) << 8) | (b1 as Word)) << 8) | (b2 as Word)) << 8) | (b3 as Word)) == BeWord(b0, b1, b2, b3)
  {}

  // `(uint32_t)(bit_len >> 32)` and `(uint32_t)bit_len`.
  function HighWord(x: bv64): Word { ((x >> 32) & 0xFFFF_FFFF) as Word }
  function LowWord(x: bv64): Word { (x & 0xFFFF_FFFF) as Word }

  lemma LengthWords(x: bv64)
    ensures var b := BeBytes(x);
      && BeWord(b[0], b[1], b[2], b[3]) == HighWord(x)
      && BeWord(b[4], b[5], b[6], b[7]) == LowWord(x)
  {}

  lemma HostWordBytes(input: Message, j: nat)
    requires j < 16 * NumBlocks(|input|)
    ensures |HostPadded(input)| == 64 * NumBlocks(|input|)
    ensures var b := HostPadded(input);
      HostWords(input)[j] == BeWord(b[4 * j], b[4 * j + 1], b[4 * j + 2], b[4 * j + 3])
  {}

  lemma HostPaddedAt(input: Message, p: nat)
    requires p < 64 * NumBlocks(|input|)
    ensures HostPadded(input)[p] ==
      if p < 64 * NumBlocks(|input|) - 8 then PaddedByte(input, p)
      else BeBytes(BitLength(|input|))[p - (64 * NumBlocks(|input|) - 8)]
  {}

  lemma HostDataWord(input: Message, j: nat)
    requires j + 2 < 16 * NumBlocks(|input|)
    ensures HostWords(input)[j] == PaddedWord(input, 4 * j)
  {
    HostWordBytes(input, j);
    HostPaddedAt(input, 4 * j);
    HostPaddedAt(input, 4 * j + 1);
    HostPaddedAt(input, 4 * j + 2);
    HostPaddedAt(input, 4 * j + 3);
  }

  lemma HostHighWord(input: Message, j: nat)
    requires j + 2 == 16 * NumBlocks(|input|)
    ensures HostWords(input)[j] == HighWord(BitLength(|input|))
  {
    HostWordBytes(input, j);
    LengthWords(BitLength(|input|));
  }

  lemma HostLowWord(input: Message, j: nat)
    requires j + 1 == 16 * NumBlocks(|input|)
    ensures HostWords(input)[j] == LowWord(BitLength(|input|))
  {
    HostWordBytes(input, j);
    LengthWords(BitLength(|input|));
  }

  function Step(val: Word, byte: Byte): Word { (val << 8) | (byte as Word) }

  lemma FourSteps(b0: Byte, b1: Byte, b2: Byte, b3: Byte)
    ensures Step(Step(Step(Step(0, b0), b1), b2), b3) == BeWord(b0, b1, b2, b3)
  {
    ShiftedInIsBigEndian(b0, b1, b2, b3);
    assert Step(0, b0) == b0 as Word;
    assert Step(Step(0, b0), b1) == ((b0 as Word) << 8) | (b1 as Word);
  }

  /** Four bytes of data, marker or padding. */
  method ShiftIn(data: array<Byte>, offset: nat, len: nat, pos: nat) returns (val: Word)
    requires offset + len <= data.Length
    ensures val == PaddedWord(data[offset..offset + len], pos)
  {
    ghost var input := data[offset..offset + len];
    ghost var one := Step(0, PaddedByte(input, pos));
    ghost var two := Step(one, PaddedByte(input, pos + 1));
    ghost var three := Step(two, PaddedByte(input, pos + 2));
    ghost var four := Step(three, PaddedByte(input, pos + 3));
    val := 0;
    for b := 0 to 4
      invariant val == if b == 0 then 0 else if b == 1 then one else if b == 2 then two else if b == 3 then three else four
    {
      var byte := LoadByte(data, offset, len, pos + b);
      val := Step(val, byte);
    }
    FourSteps(PaddedByte(input, pos), PaddedByte(input, pos + 1), PaddedByte(input, pos + 2), PaddedByte(input, pos + 3));
  }

  method LoadByte(data: array<Byte>, offset: nat, len: nat, p: nat) returns (byte: Byte)
    requires offset + len <= data.Length
    ensures byte == PaddedByte(data[offset..offset + len], p)
  {
    if p < len { byte := data[offset + p]; }
    else if p == len { byte := 0x80; }
    else { byte := 0; }
  }

  // ------------------------------------------------------------------
  // The CUDA kernel
  // ------------------------------------------------------------------

  /** Word `i` of a block, with the bit length in the last two words of the last block. */
  method LoadPaddedWord(data: array<Byte>, offset: nat, len: nat, block: nat, numBlocks: nat, i: nat, ghost words: seq<Word>)
    returns (val: Word)
    requires offset + len <= data.Length && block < numBlocks == NumBlocks(len) && i < 16
    requires words == HostWords(data[offset..offset + len]) && |words| == 16 * numBlocks
    ensures val == words[16 * block + i]
  {
    ghost var input, j := data[offset..offset + len], 16 * block + i;
    var bitLen := BitLength(len);
    val := ShiftIn(data, offset, len, block * 64 + i * 4);
    if block == numBlocks - 1 && i == 14 {
      val := HighWord(bitLen);
      HostHighWord(input, j);
    } else if block == numBlocks - 1 && i == 15 {
      val := LowWord(bitLen);
      HostLowWord(input, j);
    } else {
      HostDataWord(input, j);
    }
  }

  lemma OneMoreWord(words: seq<Word>, i: nat, val: Word)
    requires i < |words| && words[i] == val
    ensures words[..i + 1] == words[..i] + [val]
  {}

  lemma BlockIsInside(block: nat, numBlocks: nat, n: nat)
    requires block < numBlocks && n == 16 * numBlocks
    ensures 16 * block + 16 <= n
  {}

  /** The load loop of one block. */
  method LoadPadded(data: array<Byte>, offset: nat, len: nat, block: nat, numBlocks: nat, ghost words: seq<Word>)
    returns (loaded: seq<Word>)
    requires offset + len <= data.Length && block < numBlocks == NumBlocks(len)
    requires words == HostWords(data[offset..offset + len]) && |words| == 16 * numBlocks
    ensures loaded == words[16 * block..16 * block + 16]
  {
    BlockIsInside(block, numBlocks, |words|);
    ghost var mine := words[16 * block..16 * block + 16];
    loaded := [];
    for i := 0 to 16
      invariant loaded == mine[..i]
    {
      var val := LoadPaddedWord(data, offset, len, block, numBlocks, i, words);
      OneMoreWord(mine, i, val);
      loaded := loaded + [val];
    }
  }

  method Lop3Temp1(e: Word, f: Word, g: Word, h: Word, k: Word, wi: Word) returns (t: Word)
    ensures t == T1(e, f, g, h, k, wi)
  {
    // __funnelshift_r of a word with itself rotates it.
    var s1 := e.RotateRight(6) ^ e.RotateRight(11) ^ e.RotateRight(25);
    assert s1 == BigSigma1(e);
    TableCaIsChoice(e, f, g);
    t := PlusFive(h, s1, Lop3(0xCA, e, f, g), k, wi);
  }

  method Lop3Temp2(a: Word, b: Word, c: Word) returns (t: Word)
    ensures t == T2(a, b, c)
  {
    var s0 := a.RotateRight(2) ^ a.RotateRight(13) ^ a.RotateRight(22);
    assert s0 == BigSigma0(a);
    TableE8IsMajority(a, b, c);
    t := Plus(s0, Lop3(0xE8, a, b, c));
  }

  method Lop3Round(v: Vars, k: Word, wi: Word) returns (r: Vars)
    ensures r == Round(v, k, wi)
  {
    var a, b, c, d := v.a, v.b, v.c, v.d;
    var e, f, g, h := v.e, v.f, v.g, v.h;
    var temp1 := Lop3Temp1(e, f, g, h, k, wi);
    var temp2 := Lop3Temp2(a, b, c);
    h := g; g := f; f := e; e := Plus(d, temp1); d := c; c := b; b := a; a := Plus(temp1, temp2);
    r := Vars(a, b, c, d, e, f, g, h);
  }

  method CompressLoaded(m: Block, hash: Vars) returns (r: Vars)
    ensures r == Compress(hash, m)
  {
    var w := new Word[16](i requires 0 <= i < 16 => m[i]);
    assert w[..] == m;
    RollingStarts(m);
    var v := hash;
    for i := 0 to 64
      invariant Rolling(w[..], Schedule(m), if i < 16 then 0 else i - 16)
      invariant v == Rounds(hash, Schedule(m), i)
    {
      var wi := KernelWord(w, i, m);
      v := Lop3Round(v, K[i], wi);
    }
    r := PlusVars(hash, v);
    AddVarsCommutes(hash, v);
  }

  /** The block loop of the kernel. */
  method CudaBlocks(data: array<Byte>, offset: nat, len: nat, numBlocks: nat, ghost words: seq<Word>) returns (h: Vars)
    requires offset + len <= data.Length && numBlocks == NumBlocks(len)
    requires words == HostWords(data[offset..offset + len]) && |words| == 16 * numBlocks
    ensures h == HashBlocks(words, numBlocks)
  {
    h := H0;
    for block := 0 to numBlocks
      invariant h == HashBlocks(words, block)
    {
      var loaded := LoadPadded(data, offset, len, block, numBlocks, words);
      h := CompressLoaded(loaded, h);
    }
  }

  /** One thread: pads and hashes the bytes it is given. */
  method CudaThread(data: array<Byte>, offset: nat, len: u32, ghost input: Message) returns (h: Vars)
    requires offset + len <= data.Length && len + 72 < 0x1_0000_0000 && data[offset..offset + len] == input
    ensures h == Digest(input)
  {
    DeviceBlocksFit(len);
    h := CudaBlocks(data, offset, len, DeviceBlocks(len), HostWords(input));
    HostWordsHashToDigest(input);
  }

  // ------------------------------------------------------------------
  // Host side
  // ------------------------------------------------------------------

  /** The running byte offset of the scan, kept in 32 bits. */
  function ByteOffsets(inputs: seq<Message>): (r: seq<u32>)
    ensures |r| == |inputs|
  {
    if inputs == [] then []
    else
      var front := inputs[..|inputs| - 1];
      ByteOffsets(front) + [|Flatten(front)| % 0x1_0000_0000]
  }

  /** Every input starts where 32 bits can say, and it and the output are indexed without wrap-around. */
  ghost predicate FitsDevice(inputs: seq<Message>) {
    && 8 * |inputs| <= 0x1_0000_0000
    && forall i :: 0 <= i < |inputs| ==> |Flatten(inputs[..i])| < 0x1_0000_0000 && |inputs[i]| + 72 < 0x1_0000_0000
  }

  lemma {:induction false} ByteOffsetAt(inputs: seq<Message>, i: nat)
    requires i < |inputs|
    ensures ByteOffsets(inputs)[i] == |Flatten(inputs[..i])| % 0x1_0000_0000
  {
    var last := |inputs| - 1;
    if i < last {
      ByteOffsetAt(inputs[..last], i);
      assert inputs[..last][..i] == inputs[..i];
    }
  }

  lemma SmallIsItsRemainder(n: nat)
    requires n < 0x1_0000_0000
    ensures n % 0x1_0000_0000 == n
  {}

  lemma OffsetIsExact(inputs: seq<Message>, i: nat)
    requires i < |inputs| && FitsDevice(inputs)
    ensures ByteOffsets(inputs)[i] == |Flatten(inputs[..i])|
  {
    ByteOffsetAt(inputs, i);
    SmallIsItsRemainder(|Flatten(inputs[..i])|);
  }

  /** The byte range a thread is given holds its input. */
  lemma RangeHoldsInput(inputs: seq<Message>, i: nat)
    requires i < |inputs| && FitsDevice(inputs)
    ensures var off := ByteOffsets(inputs)[i];
      && off + |inputs[i]| <= |Flatten(inputs)|
      && Flatten(inputs)[off..off + |inputs[i]|] == inputs[i]
  {
    OffsetIsExact(inputs, i);
    FlattenAt(inputs, i);
  }

  /** One thread per input; thread `idx` fills slot `idx`. */
  method RunThreads(data: array<Byte>, offsets: seq<u32>, inputs: seq<Message>, output: array<Word>)
    requires FitsDevice(inputs)
    requires data[..] == Flatten(inputs) && offsets == ByteOffsets(inputs) && output.Length == 8 * |inputs|
    modifies output
    ensures forall i :: 0 <= i < |inputs| ==> Slot(output[..], i) == VarWords(Digest(inputs[i]))
  {
    for idx := 0 to |inputs|
      invariant forall i :: 0 <= i < idx ==> Slot(output[..], i) == VarWords(Digest(inputs[i]))
    {
      var h := RunThread(data, offsets[idx], inputs, idx);
      WriteSlot(output, idx, h);
    }
  }

  method RunThread(data: array<Byte>, offset: u32, inputs: seq<Message>, idx: nat) returns (h: Vars)
    requires FitsDevice(inputs) && data[..] == Flatten(inputs)
    requires idx < |inputs| && offset == ByteOffsets(inputs)[idx]
    ensures h == Digest(inputs[idx])
  {
    RangeHoldsInput(inputs, idx);
    assert data[offset..offset + |inputs[idx]|] == data[..][offset..offset + |inputs[idx]|];
    h := CudaThread(data, offset, |inputs[idx]|, inputs[idx]);
  }

  /** The same digests as the wgpu backend, for every batch whose offsets and lengths fit 32 bits. */
  method CudaSha256Batch(inputs: seq<Message>) returns (results: seq<seq<Byte>>)
    requires FitsDevice(inputs)
    ensures results == Hashes(inputs)
  {
    var bytes := Flatten(inputs);
    var data := new Byte[|bytes|](i requires 0 <= i < |bytes| => bytes[i]);
    assert data[..] == bytes;
    var output := new Word[8 * |inputs|];
    RunThreads(data, ByteOffsets(inputs), inputs, output);
    results := ReadWords(output, |inputs|, DigestWords(inputs));
    HashesAreDigests(inputs);
  }
}
