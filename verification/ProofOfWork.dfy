// Leading zero bits of a digest: byte by byte on the host
// (crates/server/src/compute/mod.rs), word by word in the CUDA kernel
// (crates/server/src/compute/cuda.rs). Bytes and words are numbers here.

module ProofOfWork {
  import opened Prelude
  function Pow2(n: nat): (r: nat)
    ensures r > 0
  {
    if n == 0 then 1 else 2 * Pow2(n - 1)
  }

  /** Bits from the highest `1` bit down. */
  function BitLength(x: nat): nat { if x == 0 then 0 else 1 + BitLength(x / 2) }

  // The machine's leading-zero counts: u8::leading_zeros and __clz.
  function Clz8(b: u8): int { 8 - BitLength(b) }
  function Clz32(w: u32): int { 32 - BitLength(w) }

  /** The number a big-endian sequence of `width`-bit digits stands for. */
  function Value(xs: seq<nat>, width: nat): nat {
    if xs == [] then 0 else xs[0] * Pow2(width * (|xs| - 1)) + Value(xs[1..], width)
  }

  predicate Digits(xs: seq<nat>, width: nat) { forall i :: 0 <= i < |xs| ==> xs[i] < Pow2(width) }

  function FullZeros(hash: seq<nat>): nat {
    if hash == [] || hash[0] != 0 then 0 else 1 + FullZeros(hash[1..])
  }

  lemma {:induction false} FullZerosInRange(hash: seq<nat>)
    ensures FullZeros(hash) <= |hash|
  {
    if hash != [] { FullZerosInRange(hash[1..]); }
  }

  /** Eight bits for every leading zero byte, plus the leading zeros of the byte after them, if any. */
  function LeadingZeroBits(hash: seq<u8>): int {
    FullZerosInRange(hash);
    var full := FullZeros(hash);
    (if full < |hash| then Clz8(hash[full]) else 0) + full * 8
  }

  // ------------------------------------------------------------------
  // Both counts are 8n minus the length of the number
  // ------------------------------------------------------------------

  lemma {:induction false} Pow2Adds(a: nat, b: nat)
    ensures Pow2(a + b) == Pow2(a) * Pow2(b)
  {
    if a > 0 { Pow2Adds(a - 1, b); }
  }

  /** Appending `n` low bits makes a non-zero number `n` bits longer. */
  lemma {:induction false} BitLengthShifts(x: nat, n: nat, low: nat)
    requires x > 0 && low < Pow2(n)
    ensures BitLength(x * Pow2(n) + low) == BitLength(x) + n
    decreases n
  {
    if n == 0 {
      assert x * Pow2(0) + low == x;
    } else {
      BitLengthShifts(x, n - 1, low / 2);
      Halve(x, Pow2(n - 1), low);
    }
  }

  lemma Halve(x: nat, p: nat, low: nat)
    requires x > 0 && p > 0
    ensures x * (2 * p) + low > 0 && (x * (2 * p) + low) / 2 == x * p + low / 2
  {
    assert x * (2 * p) == 2 * (x * p);
    assert x * p > 0;
  }

  lemma BoundedSum(a: nat, bound: nat, q: nat, v: nat)
    requires a < bound && v < q
    ensures a * q + v < bound * q
  {
    assert (a + 1) * q <= bound * q;
  }

  lemma {:induction false} ValueBounded(xs: seq<nat>, width: nat)
    requires Digits(xs, width)
    ensures Value(xs, width) < Pow2(width * |xs|)
  {
    if xs == [] {
    } else {
      ValueBounded(xs[1..], width);
      var n := width * (|xs| - 1);
      Distribute(width, 1, |xs| - 1);
      Pow2Adds(width, n);
      BoundedSum(xs[0], Pow2(width), Pow2(n), Value(xs[1..], width));
    }
  }

  lemma {:induction false} ZerosAreSkipped(xs: seq<nat>, width: nat)
    requires Digits(xs, width)
    ensures FullZeros(xs) <= |xs|
    ensures FullZeros(xs) == |xs| ==> Value(xs, width) == 0
    ensures FullZeros(xs) < |xs| ==>
      BitLength(Value(xs, width)) == BitLength(xs[FullZeros(xs)]) + width * (|xs| - 1 - FullZeros(xs))
  {
    if xs == [] {
    } else if xs[0] == 0 {
      ZerosAreSkipped(xs[1..], width);
      assert Value(xs, width) == Value(xs[1..], width);
      assert FullZeros(xs) < |xs| ==> xs[FullZeros(xs)] == xs[1..][FullZeros(xs[1..])];
    } else {
      ValueBounded(xs[1..], width);
      BitLengthShifts(xs[0], width * (|xs| - 1), Value(xs[1..], width));
    }
  }

  lemma Pow2Of8And32()
    ensures Pow2(8) == 0x100 && Pow2(32) == 0x1_0000_0000
  {
    assert Pow2(4) == 16;
    Pow2Adds(4, 4);
    Pow2Adds(8, 8);
    Pow2Adds(16, 16);
  }

  /** The byte-wise count is the number of leading zero bits of the whole number. */
  lemma LeadingZeroBitsOfNumber(hash: seq<u8>)
    ensures LeadingZeroBits(hash) == 8 * |hash| - BitLength(Value(hash, 8))
  {
    Pow2Of8And32();
    ZerosAreSkipped(hash, 8);
  }

  /** The kernel's loop over the words of one digest. */
  method CountLeadingZeros(words: seq<u32>) returns (total: int)
    ensures total == 32 * |words| - BitLength(Value(words, 32))
  {
    Pow2Of8And32();
    ZerosAreSkipped(words, 32);
    total := 0;
    var i := 0;
    while i < |words|
      invariant 0 <= i <= |words| && total == 32 * i
      invariant FullZeros(words) == i + FullZeros(words[i..])
    {
      var w := words[i];
      if w == 0 {
        total := total + 32;
        assert words[i..][1..] == words[i + 1..];
      } else {
        total := total + Clz32(w);
        break;
      }
      i := i + 1;
    }
  }

  // ------------------------------------------------------------------
  // The same number, as words and as bytes
  // ------------------------------------------------------------------

  /** `to_be_bytes` of each word. */
  function BytesOf(words: seq<u32>): seq<u8> {
    if words == [] then []
    else
      var w := words[0];
      [w / 0x100_0000, w / 0x1_0000 % 0x100, w / 0x100 % 0x100, w % 0x100] + BytesOf(words[1..])
  }

  lemma Distribute(width: nat, m: nat, n: nat)
    ensures width * (m + n) == width * m + width * n
  {}

  lemma Factor(x: nat, p: nat, q: nat, v: nat, w: nat)
    ensures x * (p * q) + (v * q + w) == (x * p + v) * q + w
  {
    assert x * (p * q) == (x * p) * q;
    assert (x * p + v) * q == (x * p) * q + v * q;
  }

  lemma {:induction false} ValueAppends(xs: seq<nat>, ys: seq<nat>, width: nat)
    ensures Value(xs + ys, width) == Value(xs, width) * Pow2(width * |ys|) + Value(ys, width)
  {
    if xs == [] {
      assert xs + ys == ys;
    } else {
      assert (xs + ys)[1..] == xs[1..] + ys;
      ValueAppends(xs[1..], ys, width);
      var m, n := width * (|xs| - 1), width * |ys|;
      Distribute(width, |xs| - 1, |ys|);
      Pow2Adds(m, n);
      Factor(xs[0], Pow2(m), Pow2(n), Value(xs[1..], width), Value(ys, width));
    }
  }

  lemma FourBytes(b0: nat, b1: nat, b2: nat, b3: nat)
    ensures Value([b0, b1, b2, b3], 8) == b0 * 0x100_0000 + b1 * 0x1_0000 + b2 * 0x100 + b3
  {
    Pow2Of8And32();
    Pow2Adds(8, 8);
    Pow2Adds(16, 8);
    assert [b0, b1, b2, b3][1..] == [b1, b2, b3] && [b1, b2, b3][1..] == [b2, b3];
    assert Value([b3], 8) == b3;
    assert Value([b2, b3], 8) == b2 * 0x100 + b3;
    assert Value([b1, b2, b3], 8) == b1 * 0x1_0000 + b2 * 0x100 + b3;
  }

  lemma BytesAddUp(w: u32)
    ensures w / 0x100_0000 * 0x100_0000 + w / 0x1_0000 % 0x100 * 0x1_0000 + w / 0x100 % 0x100 * 0x100 + w % 0x100 == w
  {
    var a, b, c := w / 0x100, w / 0x1_0000, w / 0x100_0000;
    assert w == 0x100 * a + w % 0x100;
    assert a == 0x100 * b + a % 0x100;
    assert b == 0x100 * c + b % 0x100;
  }

  lemma WordIsItsBytes(w: u32)
    ensures Value(BytesOf([w]), 8) == w && |BytesOf([w])| == 4
  {
    var four := [w / 0x100_0000, w / 0x1_0000 % 0x100, w / 0x100 % 0x100, w % 0x100];
    FourBytes(four[0], four[1], four[2], four[3]);
    BytesAddUp(w);
    assert [w][1..] == [];
    assert BytesOf([w]) == four;
  }

  lemma {:induction false} SameNumber(words: seq<u32>)
    ensures |BytesOf(words)| == 4 * |words| && Value(BytesOf(words), 8) == Value(words, 32)
  {
    if words != [] {
      var first, rest := BytesOf(words[..1]), BytesOf(words[1..]);
      SameNumber(words[1..]);
      WordIsItsBytes(words[0]);
      assert words[..1] == [words[0]];
      assert BytesOf(words) == first + rest;
      ValueAppends(first, rest, 8);
    }
  }

  /** The kernel's word-wise count and the host's byte-wise count agree on every digest. */
  method CountsAgree(words: seq<u32>) returns (total: int)
    ensures total == LeadingZeroBits(BytesOf(words))
  {
    total := CountLeadingZeros(words);
    SameNumber(words);
    LeadingZeroBitsOfNumber(BytesOf(words));
  }

  // ------------------------------------------------------------------
  // What proof of work asks for
  // ------------------------------------------------------------------

  lemma {:induction false} BitLengthBound(x: nat, n: nat)
    ensures BitLength(x) <= n <==> x < Pow2(n)
    decreases n
  {
    if n > 0 && x > 0 { BitLengthBound(x / 2, n - 1); }
  }

  /** `zeros >= difficulty` holds exactly of the digests below 2^(bits - difficulty). */
  lemma DifficultyIsThreshold(hash: seq<u8>, difficulty: nat)
    requires difficulty <= 8 * |hash|
    ensures LeadingZeroBits(hash) >= difficulty <==> Value(hash, 8) < Pow2(8 * |hash| - difficulty)
  {
    LeadingZeroBitsOfNumber(hash);
    BitLengthBound(Value(hash, 8), 8 * |hash| - difficulty);
  }
}
