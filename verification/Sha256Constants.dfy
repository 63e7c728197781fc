// Facts that tie the constants and byte orders of the standard to what they are
// for: the round constants and the initial value are the first 32 fraction bits
// of cube and square roots of primes (FIPS 180-4, sections 4.2.2 and 5.3.3), the
// padding ends in the bit length, and the digest bytes are the words, big end first.

module Sha256Constants {
  import opened Sha256Spec

  /** The first 64 primes. */
  const PRIMES: seq<nat> :=
    [2, 3, 5, 7, 11, 13, 17, 19] +
    [23, 29, 31, 37, 41, 43, 47, 53] +
    [59, 61, 67, 71, 73, 79, 83, 89] +
    [97, 101, 103, 107, 109, 113, 127, 131] +
    [137, 139, 149, 151, 157, 163, 167, 173] +
    [179, 181, 191, 193, 197, 199, 211, 223] +
    [227, 229, 233, 239, 241, 251, 257, 263] +
    [269, 271, 277, 281, 283, 293, 307, 311]

  lemma PrimesAre64()
    ensures |PRIMES| == 64
  {}

  const TWO32: nat := 0x1_0000_0000

  /** `whole + fraction / 2^32` is the cube root of `p`, cut off. */
  predicate IsCubeRoot(p: nat, whole: nat, fraction: nat) {
    var x := whole * TWO32 + fraction;
    fraction < TWO32 && x * x * x <= p * (TWO32 * TWO32 * TWO32) < (x + 1) * (x + 1) * (x + 1)
  }

  predicate IsSquareRoot(p: nat, whole: nat, fraction: nat) {
    var x := whole * TWO32 + fraction;
    fraction < TWO32 && x * x <= p * (TWO32 * TWO32) < (x + 1) * (x + 1)
  }

  function CubeWhole(p: nat): nat {
    if p < 8 then 1 else if p < 27 then 2 else if p < 64 then 3 else if p < 125 then 4 else if p < 216 then 5 else 6
  }

  function SquareWhole(p: nat): nat { if p < 4 then 1 else if p < 9 then 2 else if p < 16 then 3 else 4 }

  lemma Constants0()
    ensures forall i :: 0 <= i < 8 ==> IsCubeRoot(PRIMES[i], CubeWhole(PRIMES[i]), K[i] as nat)
  {}

  lemma Constants1()
    ensures forall i :: 8 <= i < 16 ==> IsCubeRoot(PRIMES[i], CubeWhole(PRIMES[i]), K[i] as nat)
  {}

  lemma Constants2()
    ensures forall i :: 16 <= i < 24 ==> IsCubeRoot(PRIMES[i], CubeWhole(PRIMES[i]), K[i] as nat)
  {}

  lemma Constants3()
    ensures forall i :: 24 <= i < 32 ==> IsCubeRoot(PRIMES[i], CubeWhole(PRIMES[i]), K[i] as nat)
  {}

  lemma Constants4()
    ensures forall i :: 32 <= i < 40 ==> IsCubeRoot(PRIMES[i], CubeWhole(PRIMES[i]), K[i] as nat)
  {}

  lemma Constants5()
    ensures forall i :: 40 <= i < 48 ==> IsCubeRoot(PRIMES[i], CubeWhole(PRIMES[i]), K[i] as nat)
  {}

  lemma Constants6()
    ensures forall i :: 48 <= i < 56 ==> IsCubeRoot(PRIMES[i], CubeWhole(PRIMES[i]), K[i] as nat)
  {}

  lemma Constants7()
    ensures forall i :: 56 <= i < 64 ==> IsCubeRoot(PRIMES[i], CubeWhole(PRIMES[i]), K[i] as nat)
  {}

  lemma InitialValues()
    ensures IsSquareRoot(2, 1, H0.a as nat) && IsSquareRoot(3, 1, H0.b as nat)
    ensures IsSquareRoot(5, 2, H0.c as nat) && IsSquareRoot(7, 2, H0.d as nat)
    ensures IsSquareRoot(11, 3, H0.e as nat) && IsSquareRoot(13, 3, H0.f as nat)
    ensures IsSquareRoot(17, 4, H0.g as nat) && IsSquareRoot(19, 4, H0.h as nat)
  {}

  /**
   * Every constant is the first 32 fraction bits of a root: of the cube roots of the
   * first 64 primes, of the square roots of the first eight.
   */
  lemma ConstantsAreRoots()
    ensures forall i :: 0 <= i < 64 ==> IsCubeRoot(PRIMES[i], CubeWhole(PRIMES[i]), K[i] as nat)
    ensures var h := VarWords(H0);
      forall i :: 0 <= i < 8 ==> IsSquareRoot(PRIMES[i], SquareWhole(PRIMES[i]), h[i] as nat)
  {
    Constants0();
    Constants1();
    Constants2();
    Constants3();
    Constants4();
    Constants5();
    Constants6();
    Constants7();
    InitialValues();
  }

  /** At most one fraction belongs to a prime. */
  lemma CubeRootIsUnique(p: nat, whole: nat, f: nat, whole': nat, f': nat)
    requires IsCubeRoot(p, whole, f) && IsCubeRoot(p, whole', f')
    ensures f == f' && whole == whole'
  {
    var x, y := whole * TWO32 + f, whole' * TWO32 + f';
    if x < y { CubeGrows(x + 1, y); }
    if y < x { CubeGrows(y + 1, x); }
  }

  lemma CubeGrows(x: nat, y: nat)
    requires x <= y
    ensures x * x * x <= y * y * y
  {
    assert x * x <= y * y;
    assert x * x * x <= y * y * x <= y * y * y;
  }

  // ------------------------------------------------------------------
  // Words
  // ------------------------------------------------------------------

  /** Sums drop the carry out of 32 bits. */
  lemma AddDropsTheCarry(a: Word, b: Word)
    ensures Add(a, b) as bv64 == ((a as bv64) + (b as bv64)) & 0xFFFF_FFFF
  {}

  lemma WordBytesBack(w: Word)
    ensures var b := WordBytes(w); BeWord(b[0], b[1], b[2], b[3]) == w
  {}

  lemma WordAt(bytes: seq<Byte>, i: nat)
    requires 4 * i + 4 <= |bytes|
    ensures WordsOf(bytes)[i] == BeWord(bytes[4 * i], bytes[4 * i + 1], bytes[4 * i + 2], bytes[4 * i + 3])
  {}

  /** Cutting the bytes into fours, big end first, gives the words back. */
  lemma {:induction false} WordsBytesBack(ws: seq<Word>, i: nat)
    requires i < |ws|
    ensures WordsOf(WordsBytes(ws))[i] == ws[i]
  {
    var n := |ws| - 1;
    var bytes, front := WordsBytes(ws), WordsBytes(ws[..n]);
    WordAt(bytes, i);
    if i < n {
      WordsBytesBack(ws[..n], i);
      WordAt(front, i);
    } else {
      WordBytesBack(ws[n]);
    }
  }

  /** The digest bytes are the eight words of the hash value, each big end first. */
  lemma DigestBytesAreWords(msg: Message)
    ensures WordsOf(Sha256(msg)) == VarWords(Digest(msg))
  {
    var ws := VarWords(Digest(msg));
    forall i | 0 <= i < 8 ensures WordsOf(Sha256(msg))[i] == ws[i] { WordsBytesBack(ws, i); }
  }

  // ------------------------------------------------------------------
  // Padding
  // ------------------------------------------------------------------

  function Joined(b: seq<Byte>): bv64
    requires |b| == 8
  {
    ((b[0] as bv64) << 56) | ((b[1] as bv64) << 48) | ((b[2] as bv64) << 40) | ((b[3] as bv64) << 32)
    | ((b[4] as bv64) << 24) | ((b[5] as bv64) << 16) | ((b[6] as bv64) << 8) | (b[7] as bv64)
  }

  lemma BytesJoin(x: bv64)
    ensures Joined(BeBytes(x)) == x
  {}

  lemma PaddingParts(msg: Message)
    ensures |Pad(msg)| % 64 == 0 && |Pad(msg)| == |msg| + 9 + ZeroBytes(|msg|)
    ensures Pad(msg)[|Pad(msg)| - 8..] == BeBytes(BitLength(|msg|))
  {
    PaddedLength(msg);
  }

  /** The number of bytes as a u64 counts it. */
  function Length64(msg: Message): bv64 { (|msg| % 0x1_0000_0000_0000_0000) as bv64 }

  lemma EightTimes(x: bv64)
    ensures x * 8 == x << 3
  {}

  /** The message, a one bit, zero bits, and in the last eight bytes the number of bits. */
  lemma PaddingIsStandard(msg: Message)
    ensures var p := Pad(msg); var n := |p|;
      && n % 64 == 0 && n >= |msg| + 9
      && p[..|msg|] == msg && p[|msg|] == 1 << 7
      && (forall i :: |msg| < i < n - 8 ==> p[i] == 0)
      && Joined(p[n - 8..]) == Length64(msg) << 3
  {
    PaddingParts(msg);
    BytesJoin(BitLength(|msg|));
    EightTimes(Length64(msg));
  }
}
