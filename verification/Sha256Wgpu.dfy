// The wgpu backend: host-side padding, the WGSL kernel with its 16-word rolling
// message schedule, and chunked dispatch (crates/server/src/compute/wgpu_compute.rs).

module Sha256Wgpu {
  import opened Sha256Spec

  const MAX_HASHES_PER_DISPATCH: nat := 65536
  const MAX_INPUT_BYTES: nat := MAX_HASHES_PER_DISPATCH * 256
  const OUTPUT_WORDS_PER_HASH: nat := 8

  // ------------------------------------------------------------------
  // sha256_pad_inputs
  // ------------------------------------------------------------------

  function NumBlocks(len: nat): nat { (len + 9 + 63) / 64 }

  lemma NumBlocksIsBlockCount(len: nat)
    ensures NumBlocks(len) == BlockCount(len)
  {
    ZeroBytesFillsBlock(len);
  }

  /** The message, the marker and zeros without end, cut eight bytes short, then the bit length. */
  function HostPadded(input: Message): seq<Byte> {
    seq(NumBlocks(|input|) * 64 - 8, i requires 0 <= i =>
      if i < |input| then input[i] else if i == |input| then 0x80 else 0)
    + BeBytes(BitLength(|input|))
  }

  lemma HostPaddingIsPad(input: Message)
    ensures HostPadded(input) == Pad(input)
  {
    ZeroBytesFillsBlock(|input|);
    NumBlocksIsBlockCount(|input|);
    PaddedLength(input);
    assert |HostPadded(input)| == |Pad(input)|;
    var k := NumBlocks(|input|) * 64 - 8;
    assert HostPadded(input)[..k] == input + [0x80] + Zeros(ZeroBytes(|input|));
  }

  function HostWords(input: Message): (r: seq<Word>)
    ensures |r| == 16 * NumBlocks(|input|)
  {
    HostPaddingIsPad(input);
    NumBlocksIsBlockCount(|input|);
    PaddedLength(input);
    WordsOf(HostPadded(input))
  }

  function Flatten<T>(blobs: seq<seq<T>>): seq<T> {
    if blobs == [] then [] else Flatten(blobs[..|blobs| - 1]) + blobs[|blobs| - 1]
  }

  function HostBlobs(inputs: seq<Message>): seq<seq<Word>> {
    seq(|inputs|, i requires 0 <= i < |inputs| => HostWords(inputs[i]))
  }

  function AllWords(inputs: seq<Message>): seq<Word> { Flatten(HostBlobs(inputs)) }

  /** The running word offset of the scan after these inputs. */
  function WordOffset(inputs: seq<Message>): nat {
    if inputs == [] then 0
    else WordOffset(inputs[..|inputs| - 1]) + NumBlocks(|inputs[|inputs| - 1]|) * 16
  }

  /** For each input its word offset and its number of blocks. */
  function MetaData(inputs: seq<Message>): seq<nat> {
    if inputs == [] then []
    else
      var last := |inputs| - 1;
      MetaData(inputs[..last]) + [WordOffset(inputs[..last]), NumBlocks(|inputs[last]|)]
  }

  lemma {:induction false} FlattenAt<T>(blobs: seq<seq<T>>, i: nat)
    requires i < |blobs|
    ensures |Flatten(blobs[..i])| + |blobs[i]| <= |Flatten(blobs)|
    ensures Flatten(blobs)[|Flatten(blobs[..i])|..|Flatten(blobs[..i])| + |blobs[i]|] == blobs[i]
  {
    var last := |blobs| - 1;
    if i < last {
      FlattenAt(blobs[..last], i);
      assert blobs[..last][..i] == blobs[..i];
    }
  }

  lemma {:induction false} OffsetIsLength(inputs: seq<Message>)
    ensures WordOffset(inputs) == |AllWords(inputs)|
  {
    if inputs != [] {
      var last := |inputs| - 1;
      OffsetIsLength(inputs[..last]);
      assert HostBlobs(inputs)[..last] == HostBlobs(inputs[..last]);
    }
  }

  lemma {:induction false} MetaDataAt(inputs: seq<Message>, i: nat)
    requires i < |inputs|
    ensures |MetaData(inputs)| == 2 * |inputs|
    ensures MetaData(inputs)[2 * i] == WordOffset(inputs[..i])
    ensures MetaData(inputs)[2 * i + 1] == NumBlocks(|inputs[i]|)
  {
    var last := |inputs| - 1;
    MetaDataLength(inputs[..last]);
    if i < last {
      MetaDataAt(inputs[..last], i);
      assert inputs[..last][..i] == inputs[..i];
    }
  }

  lemma {:induction false} MetaDataLength(inputs: seq<Message>)
    ensures |MetaData(inputs)| == 2 * |inputs|
  {
    if inputs != [] { MetaDataLength(inputs[..|inputs| - 1]); }
  }

  lemma BlobsPrefix(inputs: seq<Message>, i: nat)
    requires i < |inputs|
    ensures HostBlobs(inputs)[..i] == HostBlobs(inputs[..i])
    ensures HostBlobs(inputs)[i] == HostWords(inputs[i])
  {}

  lemma HostWordsArePadded(input: Message)
    ensures HostWords(input) == WordsOf(Pad(input)) && |HostWords(input)| == 16 * BlockCount(|input|)
  {
    HostPaddingIsPad(input);
    NumBlocksIsBlockCount(|input|);
  }

  /** Words and metadata where entry `i` locates the padded blocks of this input. */
  ghost predicate Locates(words: seq<Word>, meta: seq<nat>, i: nat, input: Message) {
    && 2 * i + 1 < |meta| && meta[2 * i + 1] == BlockCount(|input|)
    && meta[2 * i] + 16 * meta[2 * i + 1] <= |words|
    && words[meta[2 * i]..meta[2 * i] + 16 * meta[2 * i + 1]] == WordsOf(Pad(input))
  }

  lemma HostWordsHashToDigest(input: Message)
    ensures HashBlocks(HostWords(input), NumBlocks(|input|)) == Digest(input)
  {
    HostWordsArePadded(input);
    NumBlocksIsBlockCount(|input|);
  }

  lemma PackedInputsAreFound(inputs: seq<Message>, i: nat)
    requires i < |inputs|
    ensures |MetaData(inputs)| == 2 * |inputs| && Locates(AllWords(inputs), MetaData(inputs), i, inputs[i])
  {
    MetaDataAt(inputs, i);
    OffsetIsLength(inputs[..i]);
    FlattenAt(HostBlobs(inputs), i);
    BlobsPrefix(inputs, i);
    NumBlocksIsBlockCount(|inputs[i]|);
    HostWordsArePadded(inputs[i]);
  }

  // ------------------------------------------------------------------
  // The WGSL kernel
  // ------------------------------------------------------------------

  /** Slot `t & 15` of the rolling array holds word `t` of the schedule, for 16 consecutive `t`. */
  ghost predicate Rolling(w: seq<Word>, ws: Table, lo: nat)
    requires lo + 16 <= 64
  {
    && |w| == 16
    && forall t: nat :: lo <= t < lo + 16 ==> w[t % 16] == ws[t]
  }

  lemma RollingStep(w: seq<Word>, ws: Table, i: nat)
    requires 16 <= i < 64 && Rolling(w, ws, i - 16)
    ensures w[i % 16] == ws[i - 16] && w[(i - 15) % 16] == ws[i - 15]
    ensures w[(i - 7) % 16] == ws[i - 7] && w[(i - 2) % 16] == ws[i - 2]
    ensures Rolling(w[i % 16 := ws[i]], ws, i - 15)
  {
    assert (i - 16) % 16 == i % 16;
    forall t: nat | i - 15 <= t < i + 1
      ensures w[i % 16 := ws[i]][t % 16] == ws[t]
    {
      if t < i { SlotsDiffer(t, i); }
    }
  }

  lemma SlotsDiffer(t: nat, i: nat)
    requires i - 15 <= t < i
    ensures t % 16 != i % 16
  {}

  lemma SumReordered(a: Word, b: Word, c: Word, d: Word)
    ensures Sum4(a, b, c, d) == Sum4(d, c, b, a)
  {}

  // The kernel's own sums of u32 values.
  method Plus(x: Word, y: Word) returns (r: Word)
    ensures r == Add(x, y)
  {
    r := x + y;
  }

  method PlusFour(a: Word, b: Word, c: Word, d: Word) returns (r: Word)
    ensures r == Sum4(a, b, c, d)
  {
    r := a + b + c + d;
  }

  method PlusFive(a: Word, b: Word, c: Word, d: Word, e: Word) returns (r: Word)
    ensures r == Sum5(a, b, c, d, e)
  {
    r := a + b + c + d + e;
  }

  method Expand(w16: Word, w15: Word, w7: Word, w2: Word) returns (r: Word)
    ensures r == Sum4(SmallSigma1(w2), w7, SmallSigma0(w15), w16)
  {
    var s0 := ((w15 >> 7) | (w15 << 25)) ^ ((w15 >> 18) | (w15 << 14)) ^ (w15 >> 3);
    assert s0 == SmallSigma0(w15);
    var s1 := ((w2 >> 17) | (w2 << 15)) ^ ((w2 >> 19) | (w2 << 13)) ^ (w2 >> 10);
    assert s1 == SmallSigma1(w2);
    r := PlusFour(w16, s0, w7, s1);
    SumReordered(w16, s0, w7, s1);
  }

  lemma ScheduleStep(m: Block, i: nat)
    requires 16 <= i < 64
    ensures var ws := Schedule(m);
      ws[i] == Sum4(SmallSigma1(ws[i - 2]), ws[i - 7], SmallSigma0(ws[i - 15]), ws[i - 16])
  {}

  /** The word of round `i`: loaded, or computed from the rolling slots and stored back. */
  method KernelWord(w: array<Word>, i: nat, ghost m: Block) returns (wi: Word)
    requires w.Length == 16 && i < 64
    requires Rolling(w[..], Schedule(m), if i < 16 then 0 else i - 16)
    modifies w
    ensures wi == Schedule(m)[i]
    ensures Rolling(w[..], Schedule(m), if i < 15 then 0 else i - 15)
  {
    if i < 16 {
      wi := w[i];
      assert w[..][i % 16] == Schedule(m)[i];
    } else {
      ghost var before := w[..];
      RollingStep(before, Schedule(m), i);
      ScheduleStep(m, i);
      wi := Expand(w[i % 16], w[(i - 15) % 16], w[(i - 7) % 16], w[(i - 2) % 16]);
      w[i % 16] := wi;
      assert w[..] == before[i % 16 := wi];
    }
  }

  method Temp1(e: Word, f: Word, g: Word, h: Word, k: Word, wi: Word) returns (t: Word)
    ensures t == T1(e, f, g, h, k, wi)
  {
    var s1 := ((e >> 6) | (e << 26)) ^ ((e >> 11) | (e << 21)) ^ ((e >> 25) | (e << 7));
    assert s1 == BigSigma1(e);
    var chVal := (e & f) ^ (!e & g);
    assert chVal == Ch(e, f, g);
    t := PlusFive(h, s1, chVal, k, wi);
  }

  method Temp2(a: Word, b: Word, c: Word) returns (t: Word)
    ensures t == T2(a, b, c)
  {
    var s0 := ((a >> 2) | (a << 30)) ^ ((a >> 13) | (a << 19)) ^ ((a >> 22) | (a << 10));
    assert s0 == BigSigma0(a);
    var majVal := (a & b) ^ (a & c) ^ (b & c);
    assert majVal == Maj(a, b, c);
    t := Plus(s0, majVal);
  }

  method KernelRound(v: Vars, k: Word, wi: Word) returns (r: Vars)
    ensures r == Round(v, k, wi)
  {
    var a, b, c, d := v.a, v.b, v.c, v.d;
    var e, f, g, h := v.e, v.f, v.g, v.h;
    var temp1 := Temp1(e, f, g, h, k, wi);
    var temp2 := Temp2(a, b, c);
    h := g; g := f; f := e; e := Plus(d, temp1);
    d := c; c := b; b := a; a := Plus(temp1, temp2);
    r := Vars(a, b, c, d, e, f, g, h);
  }

  lemma AddCommutes(x: Word, y: Word)
    ensures Add(x, y) == Add(y, x)
  {}

  lemma AddVarsCommutes(v: Vars, w: Vars)
    ensures AddVars(v, w) == AddVars(w, v)
  {
    AddCommutes(v.a, w.a); AddCommutes(v.b, w.b); AddCommutes(v.c, w.c); AddCommutes(v.d, w.d);
    AddCommutes(v.e, w.e); AddCommutes(v.f, w.f); AddCommutes(v.g, w.g); AddCommutes(v.h, w.h);
  }

  method PlusVars(v: Vars, w: Vars) returns (r: Vars)
    ensures r == AddVars(v, w)
  {
    var a := Plus(v.a, w.a);
    var b := Plus(v.b, w.b);
    var c := Plus(v.c, w.c);
    var d := Plus(v.d, w.d);
    var e := Plus(v.e, w.e);
    var f := Plus(v.f, w.f);
    var g := Plus(v.g, w.g);
    var h := Plus(v.h, w.h);
    r := Vars(a, b, c, d, e, f, g, h);
  }

  method LoadBlock(input: array<Word>, base: nat) returns (w: array<Word>)
    requires base + 16 <= input.Length
    ensures fresh(w) && w[..] == input[base..base + 16]
  {
    w := new Word[] [
      input[base], input[base + 1], input[base + 2], input[base + 3],
      input[base + 4], input[base + 5], input[base + 6], input[base + 7],
      input[base + 8], input[base + 9], input[base + 10], input[base + 11],
      input[base + 12], input[base + 13], input[base + 14], input[base + 15]];
  }

  lemma RollingStarts(m: Block)
    ensures Rolling(m, Schedule(m), 0)
  {}

  method RunRounds(w: array<Word>, hash: Vars, ghost m: Block) returns (v: Vars)
    requires w[..] == m
    modifies w
    ensures v == Rounds(hash, Schedule(m), 64)
  {
    RollingStarts(m);
    v := hash;
    for i := 0 to 64
      invariant Rolling(w[..], Schedule(m), if i < 16 then 0 else i - 16)
      invariant v == Rounds(hash, Schedule(m), i)
    {
      var wi := KernelWord(w, i, m);
      v := KernelRound(v, K[i], wi);
    }
  }

  lemma SubSlice(all: seq<Word>, at: nat, part: seq<Word>, blk: nat)
    requires at + |part| <= |all| && all[at..at + |part|] == part && 16 * blk + 16 <= |part|
    ensures all[at + blk * 16..at + blk * 16 + 16] == part[16 * blk..16 * (blk + 1)]
  {}

  /** The words of one block, in the input and in the buffer. */
  lemma PartAt(all: seq<Word>, at: nat, words: seq<Word>, blk: nat) returns (part: Block)
    requires at + |words| <= |all| && all[at..at + |words|] == words && 16 * (blk + 1) <= |words|
    ensures part == words[16 * blk..16 * (blk + 1)] && part == all[at + blk * 16..at + blk * 16 + 16]
    ensures HashBlocks(words, blk + 1) == Compress(HashBlocks(words, blk), part)
  {
    part := words[16 * blk..16 * (blk + 1)];
    SubSlice(all, at, words, blk);
  }

  lemma PrefixSlice(all: seq<Word>, words: seq<Word>, at: nat, n: nat)
    requires |words| <= |all| && all[..|words|] == words && at + n <= |words|
    ensures all[at..at + n] == words[at..at + n]
  {
    var front := all[..|words|];
    assert front[at..at + n] == all[at..at + n];
  }

  /** One iteration of the kernel's block loop. */
  method CompressBlock(input: array<Word>, base: nat, hash: Vars, ghost m: Block) returns (r: Vars)
    requires base + 16 <= input.Length && input[..][base..base + 16] == m
    ensures r == Compress(hash, m)
  {
    var w := LoadBlock(input, base);
    var v := RunRounds(w, hash, m);
    r := PlusVars(hash, v);
    AddVarsCommutes(hash, v);
  }

  // ------------------------------------------------------------------
  // Dispatch
  // ------------------------------------------------------------------

  ghost function Slot(output: seq<Word>, i: nat): seq<Word>
    requires 8 * i + 8 <= |output|
  {
    output[8 * i..8 * i + 8]
  }

  /** Buffer contents `words` and `meta` lead thread `i` to this digest. */
  ghost predicate LeadsTo(words: seq<Word>, meta: seq<nat>, i: nat, digest: seq<Word>) {
    && 2 * i + 1 < |meta| && meta[2 * i] + 16 * meta[2 * i + 1] <= |words|
    && VarWords(HashBlocks(words[meta[2 * i]..meta[2 * i] + 16 * meta[2 * i + 1]], meta[2 * i + 1])) == digest
  }

  lemma LeadsToDigest(words: seq<Word>, meta: seq<nat>, i: nat, input: Message)
    requires Locates(words, meta, i, input)
    ensures LeadsTo(words, meta, i, VarWords(Digest(input)))
  {
    PaddedLength(input);
  }

  lemma PackedInputLeadsToDigest(inputs: seq<Message>, i: nat)
    requires i < |inputs|
    ensures LeadsTo(AllWords(inputs), MetaData(inputs), i, VarWords(Digest(inputs[i])))
  {
    PackedInputsAreFound(inputs, i);
    LeadsToDigest(AllWords(inputs), MetaData(inputs), i, inputs[i]);
  }

  function Map<A, B>(f: A -> B, xs: seq<A>): (r: seq<B>)
    ensures |r| == |xs|
    ensures forall i :: 0 <= i < |xs| ==> r[i] == f(xs[i])
  {
    if xs == [] then [] else Map(f, xs[..|xs| - 1]) + [f(xs[|xs| - 1])]
  }

  lemma MapAppend<A, B>(f: A -> B, xs: seq<A>, ys: seq<A>)
    ensures Map(f, xs + ys) == Map(f, xs) + Map(f, ys)
  {
    var both := Map(f, xs) + Map(f, ys);
    forall i | 0 <= i < |xs + ys| ensures Map(f, xs + ys)[i] == both[i] {
      assert i < |xs| ==> (xs + ys)[i] == xs[i];
    }
  }

  function DigestWordsOf(input: Message): seq<Word> { VarWords(Digest(input)) }

  function DigestWords(inputs: seq<Message>): (r: seq<seq<Word>>)
    ensures |r| == |inputs|
  {
    Map(DigestWordsOf, inputs)
  }

  /** The inputs of one dispatch, as `inputs.chunks` cuts them. */
  function Chunk(inputs: seq<Message>, k: nat): seq<Message>
    requires k < |inputs|
  {
    inputs[k..if k + MAX_HASHES_PER_DISPATCH < |inputs| then k + MAX_HASHES_PER_DISPATCH else |inputs|]
  }

  predicate FitsBuffer(chunk: seq<Message>) { 4 * WordOffset(chunk) <= MAX_INPUT_BYTES }

  predicate Fits(inputs: seq<Message>) {
    forall k: nat :: k < |inputs| && k % MAX_HASHES_PER_DISPATCH == 0 ==> FitsBuffer(Chunk(inputs, k))
  }

  lemma {:induction false} ShortInputsTakeFourBlocks(inputs: seq<Message>)
    requires forall i :: 0 <= i < |inputs| ==> |inputs[i]| <= 247
    ensures 4 * WordOffset(inputs) <= 256 * |inputs|
  {
    if inputs != [] { ShortInputsTakeFourBlocks(inputs[..|inputs| - 1]); }
  }

  /** Batches of inputs of at most 247 bytes always fit, however many they are. */
  lemma ShortInputsFit(inputs: seq<Message>)
    requires forall i :: 0 <= i < |inputs| ==> |inputs[i]| <= 247
    ensures Fits(inputs)
  {
    forall k: nat | k < |inputs| && k % MAX_HASHES_PER_DISPATCH == 0
      ensures FitsBuffer(Chunk(inputs, k))
    {
      ShortInputsTakeFourBlocks(Chunk(inputs, k));
    }
  }

  /** The digests of a batch, input by input. */
  function Hashes(inputs: seq<Message>): seq<seq<Byte>> { Map(Sha256, inputs) }

  lemma HashesAreDigests(inputs: seq<Message>)
    ensures |Hashes(inputs)| == |inputs|
    ensures forall i :: 0 <= i < |inputs| ==> Hashes(inputs)[i] == WordsBytes(DigestWords(inputs)[i])
  {}

  /** The kernel's eight stores. */
  method WriteSlot(output: array<Word>, idx: nat, h: Vars)
    requires 8 * idx + 8 <= output.Length
    modifies output
    ensures Slot(output[..], idx) == VarWords(h)
    ensures forall i: nat :: i != idx && 8 * i + 8 <= output.Length ==> Slot(output[..], i) == old(Slot(output[..], i))
  {
    var o, words := idx * 8, VarWords(h);
    forall k | 0 <= k < 8 { output[o + k] := words[k]; }
    assert output[o..o + 8] == words;
  }

  /** The first eight words per input, each as four big-endian bytes. */
  method ReadWords(output: array<Word>, count: nat, ghost digests: seq<seq<Word>>) returns (hashes: seq<seq<Byte>>)
    requires 8 * count <= output.Length && |digests| == count
    requires forall i :: 0 <= i < count ==> Slot(output[..], i) == digests[i]
    ensures |hashes| == count
    ensures forall i :: 0 <= i < count ==> hashes[i] == WordsBytes(digests[i])
  {
    var staging := output[..8 * count];
    hashes := [];
    for i := 0 to count
      invariant |hashes| == i
      invariant forall j :: 0 <= j < i ==> hashes[j] == WordsBytes(digests[j])
    {
      assert Slot(output[..], i) == digests[i];
      assert staging[8 * i..8 * i + 8] == output[..][8 * i..8 * i + 8];
      hashes := hashes + [WordsBytes(staging[8 * i..8 * i + 8])];
    }
  }

  class WgpuBackend {
    const data: array<Word>
    const offsetsLens: array<nat>
    const output: array<Word>
    const workgroupSize: nat
    var count: nat

    ghost predicate Valid() {
      && data != output && workgroupSize > 0
      && 4 * data.Length == MAX_INPUT_BYTES
      && offsetsLens.Length == 2 * MAX_HASHES_PER_DISPATCH
      && output.Length == OUTPUT_WORDS_PER_HASH * MAX_HASHES_PER_DISPATCH
    }

    constructor (workgroupSize: nat)
      requires workgroupSize > 0
      ensures Valid() && fresh(data) && fresh(offsetsLens) && fresh(output)
    {
      this.workgroupSize := workgroupSize;
      data := new Word[MAX_INPUT_BYTES / 4];
      offsetsLens := new nat[2 * MAX_HASHES_PER_DISPATCH];
      output := new Word[OUTPUT_WORDS_PER_HASH * MAX_HASHES_PER_DISPATCH];
      count := 0;
    }

    /** The device buffers start with these words and this metadata. */
    ghost predicate Uploaded(words: seq<Word>, meta: seq<nat>)
      requires Valid()
      reads this, data, offsetsLens
    {
      && |words| <= data.Length && data[..|words|] == words
      && |meta| <= offsetsLens.Length && offsetsLens[..|meta|] == meta
      && 2 * count == |meta|
    }

    method Upload(chunk: seq<Message>)
      requires Valid() && |chunk| <= MAX_HASHES_PER_DISPATCH && FitsBuffer(chunk)
      modifies this`count, data, offsetsLens
      ensures Uploaded(AllWords(chunk), MetaData(chunk)) && count == |chunk|
    {
      OffsetIsLength(chunk);
      MetaDataLength(chunk);
      var words, meta := AllWords(chunk), MetaData(chunk);
      forall j | 0 <= j < |words| { data[j] := words[j]; }
      forall j | 0 <= j < |meta| { offsetsLens[j] := meta[j]; }
      count := |chunk|;
    }

    /** The block loop of the kernel. */
    method HashThread(wordOffset: nat, numBlocks: nat, ghost words: seq<Word>) returns (h: Vars)
      requires wordOffset + 16 * numBlocks <= data.Length && |words| == 16 * numBlocks
      requires data[wordOffset..wordOffset + 16 * numBlocks] == words
      ensures h == HashBlocks(words, numBlocks)
    {
      h := H0;
      for blk := 0 to numBlocks
        invariant h == HashBlocks(words, blk)
      {
        ghost var part := PartAt(data[..], wordOffset, words, blk);
        h := CompressBlock(data, wordOffset + blk * 16, h, part);
      }
    }

    /** One invocation of the kernel; threads past the last input do nothing. */
    method RunThread(idx: nat, ghost words: seq<Word>, ghost meta: seq<nat>, ghost digest: seq<Word>)
      requires Valid() && Uploaded(words, meta) && count <= MAX_HASHES_PER_DISPATCH
      requires idx < count ==> LeadsTo(words, meta, idx, digest)
      modifies output
      ensures idx < count ==> Slot(output[..], idx) == digest
      ensures forall i: nat :: (i != idx || idx >= count) && 8 * i + 8 <= output.Length ==>
        Slot(output[..], i) == old(Slot(output[..], i))
    {
      if idx >= count { return; }
      assert offsetsLens[2 * idx] == meta[2 * idx] && offsetsLens[2 * idx + 1] == meta[2 * idx + 1];
      var wordOffset := offsetsLens[idx * 2];
      var numBlocks := offsetsLens[idx * 2 + 1];
      ghost var mine := words[wordOffset..wordOffset + 16 * numBlocks];
      PrefixSlice(data[..], words, wordOffset, 16 * numBlocks);
      assert data[wordOffset..wordOffset + 16 * numBlocks] == data[..][wordOffset..wordOffset + 16 * numBlocks];
      var h := HashThread(wordOffset, numBlocks, mine);
      assert VarWords(h) == digest;
      WriteSlot(output, idx, h);
    }

    /** All threads of the dispatched workgroups, one after the other in any order. */
    method Dispatch(ghost words: seq<Word>, ghost meta: seq<nat>, ghost digests: seq<seq<Word>>)
      requires Valid() && Uploaded(words, meta) && |digests| == count <= MAX_HASHES_PER_DISPATCH
      requires forall i :: 0 <= i < count ==> LeadsTo(words, meta, i, digests[i])
      modifies output
      ensures forall i :: 0 <= i < count ==> Slot(output[..], i) == digests[i]
    {
      var groups := (count + workgroupSize - 1) / workgroupSize;
      EnoughThreads(count, workgroupSize);
      var todo := ThreadIds(groups * workgroupSize);
      while todo != {}
        invariant Uploaded(words, meta)
        invariant forall i :: 0 <= i < count && i !in todo ==> Slot(output[..], i) == digests[i]
        decreases |todo|
      {
        var idx: nat :| idx in todo;
        RunThread(idx, words, meta, if idx < count then digests[idx] else []);
        todo := todo - {idx};
      }
    }

    /** Upload, run and read back one chunk. */
    method HashChunk(chunk: seq<Message>) returns (hashes: seq<seq<Byte>>)
      requires Valid() && |chunk| <= MAX_HASHES_PER_DISPATCH && FitsBuffer(chunk)
      modifies this`count, data, offsetsLens, output
      ensures hashes == Hashes(chunk)
    {
      Upload(chunk);
      ghost var digests := DigestWords(chunk);
      forall i | 0 <= i < |chunk| ensures LeadsTo(AllWords(chunk), MetaData(chunk), i, digests[i]) {
        PackedInputLeadsToDigest(chunk, i);
      }
      Dispatch(AllWords(chunk), MetaData(chunk), digests);
      hashes := ReadWords(output, count, digests);
      HashesAreDigests(chunk);
    }

    /** One round of the chunk loop. */
    method HashNext(inputs: seq<Message>, k: nat, chunk: seq<Message>) returns (hashes: seq<seq<Byte>>)
      requires Valid() && |chunk| <= MAX_HASHES_PER_DISPATCH && FitsBuffer(chunk)
      requires k + |chunk| <= |inputs| && inputs[..k] + chunk == inputs[..k + |chunk|]
      modifies this`count, data, offsetsLens, output
      ensures Hashes(inputs[..k + |chunk|]) == Hashes(inputs[..k]) + hashes
    {
      NextHashes(inputs, k, chunk, k + |chunk|);
      hashes := HashChunk(chunk);
    }

    /** Chunk by chunk, every input gets its SHA-256 digest. */
    method GpuSha256Batch(inputs: seq<Message>) returns (results: seq<seq<Byte>>)
      requires Valid() && Fits(inputs)
      modifies this`count, data, offsetsLens, output
      ensures results == Hashes(inputs)
    {
      results := [];
      var k := 0;
      while k < |inputs|
        invariant k <= |inputs| && AtBoundary(inputs, k)
        invariant results == Hashes(inputs[..k])
      {
        var chunk := Chunk(inputs, k);
        NextChunk(inputs, k);
        var hashes := HashNext(inputs, k, chunk);
        results := results + hashes;
        k := k + |chunk|;
      }
      assert inputs[..k] == inputs;
    }
  }

  predicate AtBoundary(inputs: seq<Message>, k: nat) { k % MAX_HASHES_PER_DISPATCH == 0 || k == |inputs| }

  lemma NextChunk(inputs: seq<Message>, k: nat)
    requires k < |inputs| && AtBoundary(inputs, k) && Fits(inputs)
    ensures var chunk := Chunk(inputs, k);
      var next := k + |chunk|;
      && 0 < |chunk| <= MAX_HASHES_PER_DISPATCH && next <= |inputs| && FitsBuffer(chunk)
      && AtBoundary(inputs, next)
      && inputs[..k] + chunk == inputs[..next]
  {}

  /** What one round of the chunk loop adds. */
  lemma NextHashes(inputs: seq<Message>, k: nat, chunk: seq<Message>, next: nat)
    requires k <= next <= |inputs| && inputs[..k] + chunk == inputs[..next]
    ensures Hashes(inputs[..next]) == Hashes(inputs[..k]) + Hashes(chunk)
  {
    MapAppend(Sha256, inputs[..k], chunk);
  }

  function ThreadIds(n: nat): (r: set<nat>)
    ensures forall t: nat :: t in r <==> t < n
  {
    if n == 0 then {} else ThreadIds(n - 1) + {n - 1}
  }

  lemma EnoughThreads(n: nat, size: nat)
    requires size > 0
    ensures (n + size - 1) / size * size >= n
  {
    var q, r := (n + size - 1) / size, (n + size - 1) % size;
    assert n + size - 1 == q * size + r;
  }
}
