// SHA-256 as FIPS 180-4 defines it, for messages of whole bytes: padding
// (section 5.1.1), functions and constants (4.1.2, 4.2.2, 5.3.3) and the
// computation with the 64-word message schedule (6.2.2).

module Sha256Spec {
  type Byte = bv8
  type Word = bv32
  type Block = m: seq<Word> | |m| == 16 witness seq(16, _ => 0)
  type Table = s: seq<Word> | |s| == 64 witness seq(64, _ => 0)

  const K: Table :=
    [0x428a2f98, 0x71374491, 0xb5c0fbcf, 0xe9b5dba5, 0x3956c25b, 0x59f111f1, 0x923f82a4, 0xab1c5ed5] +
    [0xd807aa98, 0x12835b01, 0x243185be, 0x550c7dc3, 0x72be5d74, 0x80deb1fe, 0x9bdc06a7, 0xc19bf174] +
    [0xe49b69c1, 0xefbe4786, 0x0fc19dc6, 0x240ca1cc, 0x2de92c6f, 0x4a7484aa, 0x5cb0a9dc, 0x76f988da] +
    [0x983e5152, 0xa831c66d, 0xb00327c8, 0xbf597fc7, 0xc6e00bf3, 0xd5a79147, 0x06ca6351, 0x14292967] +
    [0x27b70a85, 0x2e1b2138, 0x4d2c6dfc, 0x53380d13, 0x650a7354, 0x766a0abb, 0x81c2c92e, 0x92722c85] +
    [0xa2bfe8a1, 0xa81a664b, 0xc24b8b70, 0xc76c51a3, 0xd192e819, 0xd6990624, 0xf40e3585, 0x106aa070] +
    [0x19a4c116, 0x1e376c08, 0x2748774c, 0x34b0bcb5, 0x391c0cb3, 0x4ed8aa4a, 0x5b9cca4f, 0x682e6ff3] +
    [0x748f82ee, 0x78a5636f, 0x84c87814, 0x8cc70208, 0x90befffa, 0xa4506ceb, 0xbef9a3f7, 0xc67178f2]
  /** Eight words: a hash value, or the working variables of the compression. */
  datatype Vars = Vars(a: Word, b: Word, c: Word, d: Word, e: Word, f: Word, g: Word, h: Word)

  const H0 := Vars(0x6a09e667, 0xbb67ae85, 0x3c6ef372, 0xa54ff53a, 0x510e527f, 0x9b05688c, 0x1f83d9ab, 0x5be0cd19)

  // Addition modulo 2^32.
  function Add(x: Word, y: Word): Word { x + y }
  function Sum4(a: Word, b: Word, c: Word, d: Word): Word { a + b + c + d }
  function Sum5(a: Word, b: Word, c: Word, d: Word, e: Word): Word { a + b + c + d + e }

  function Ch(x: Word, y: Word, z: Word): Word { (x & y) ^ (!x & z) }
  function Maj(x: Word, y: Word, z: Word): Word { (x & y) ^ (x & z) ^ (y & z) }
  function BigSigma0(x: Word): Word { x.RotateRight(2) ^ x.RotateRight(13) ^ x.RotateRight(22) }
  function BigSigma1(x: Word): Word { x.RotateRight(6) ^ x.RotateRight(11) ^ x.RotateRight(25) }
  function SmallSigma0(x: Word): Word { x.RotateRight(7) ^ x.RotateRight(18) ^ (x >> 3) }
  function SmallSigma1(x: Word): Word { x.RotateRight(17) ^ x.RotateRight(19) ^ (x >> 10) }

  // ------------------------------------------------------------------
  // Padding, section 5.1.1
  // ------------------------------------------------------------------

  /** Whole zero bytes after the byte that holds the `1` bit. */
  function ZeroBytes(len: nat): nat { (119 - len % 64) % 64 }

  lemma ZeroBytesFillsBlock(len: nat)
    ensures len % 64 <= 55 ==> ZeroBytes(len) == 55 - len % 64
    ensures len % 64 > 55 ==> ZeroBytes(len) == 119 - len % 64
    ensures (len + 9 + ZeroBytes(len)) % 64 == 0
  {}

  lemma BytesToBits(len: nat, zeros: nat)
    requires (len + 9 + zeros) % 64 == 0
    ensures (8 * len + 1 + (7 + 8 * zeros)) % 512 == 448
  {
    var n := (len + 9 + zeros) / 64;
    assert len + 9 + zeros == 64 * n;
    assert 8 * len + 8 + 8 * zeros == 512 * (n - 1) + 448;
  }

  /** With the seven zero bits of that byte these are the `k` of the standard, the smallest solution. */
  lemma PaddingIsMinimal(len: nat, k: nat)
    ensures (8 * len + 1 + (7 + 8 * ZeroBytes(len))) % 512 == 448
    ensures (8 * len + 1 + k) % 512 == 448 ==> 7 + 8 * ZeroBytes(len) <= k
  {
    ZeroBytesFillsBlock(len);
    BytesToBits(len, ZeroBytes(len));
    if (8 * len + 1 + k) % 512 == 448 {
      var q, r, p := len / 64, len % 64, (8 * len + 1 + k) / 512;
      assert len == 64 * q + r && 8 * len + 1 + k == 512 * p + 448;
      assert k == 512 * (p - q) + 447 - 8 * r;
    }
  }

  function Zeros(n: nat): seq<Byte> { seq(n, _ => 0) }

  function BeBytes(x: bv64): (r: seq<Byte>)
    ensures |r| == 8
  {
    [((x >> 56) & 0xFF) as Byte, ((x >> 48) & 0xFF) as Byte, ((x >> 40) & 0xFF) as Byte, ((x >> 32) & 0xFF) as Byte,
     ((x >> 24) & 0xFF) as Byte, ((x >> 16) & 0xFF) as Byte, ((x >> 8) & 0xFF) as Byte, (x & 0xFF) as Byte]
  }

  type Message = seq<Byte>

  /** The length in bits. The standard covers messages of fewer than 2^64 bits; a u64 wraps beyond. */
  function BitLength(len: nat): bv64 {
    ((len % 0x1_0000_0000_0000_0000) as bv64) * 8
  }

  function Pad(msg: Message): seq<Byte> {
    msg + [0x80] + Zeros(ZeroBytes(|msg|)) + BeBytes(BitLength(|msg|))
  }

  function BlockCount(len: nat): nat { (len + 9 + ZeroBytes(len)) / 64 }

  function BeWord(b0: Byte, b1: Byte, b2: Byte, b3: Byte): Word {
    ((b0 as Word) << 24) | ((b1 as Word) << 16) | ((b2 as Word) << 8) | (b3 as Word)
  }

  function WordsOf(bytes: seq<Byte>): (r: seq<Word>)
    ensures |r| == |bytes| / 4
  {
    seq(|bytes| / 4, i requires 0 <= i < |bytes| / 4 =>
      BeWord(bytes[4 * i], bytes[4 * i + 1], bytes[4 * i + 2], bytes[4 * i + 3]))
  }

  lemma PaddedLength(msg: Message)
    ensures |Pad(msg)| == 64 * BlockCount(|msg|) && |WordsOf(Pad(msg))| == 16 * BlockCount(|msg|)
  {
    ZeroBytesFillsBlock(|msg|);
    assert |Pad(msg)| == |msg| + 9 + ZeroBytes(|msg|);
  }

  // ------------------------------------------------------------------
  // Computation, section 6.2.2
  // ------------------------------------------------------------------

  /** Word `t` of the message schedule. */
  function W(m: Block, t: nat): Word {
    if t < 16 then m[t]
    else Sum4(SmallSigma1(W(m, t - 2)), W(m, t - 7), SmallSigma0(W(m, t - 15)), W(m, t - 16))
  }

  function Schedule(m: Block): Table { seq(64, t requires 0 <= t => W(m, t)) }

  function T1(e: Word, f: Word, g: Word, h: Word, k: Word, w: Word): Word {
    Sum5(h, BigSigma1(e), Ch(e, f, g), k, w)
  }

  function T2(a: Word, b: Word, c: Word): Word { Add(BigSigma0(a), Maj(a, b, c)) }

  function Round(v: Vars, k: Word, w: Word): Vars {
    var t1 := T1(v.e, v.f, v.g, v.h, k, w);
    Vars(Add(t1, T2(v.a, v.b, v.c)), v.a, v.b, v.c, Add(v.d, t1), v.e, v.f, v.g)
  }

  function Rounds(v: Vars, ws: Table, t: nat): Vars
    requires t <= 64
  {
    if t == 0 then v else Round(Rounds(v, ws, t - 1), K[t - 1], ws[t - 1])
  }

  function AddVars(v: Vars, w: Vars): Vars {
    Vars(Add(v.a, w.a), Add(v.b, w.b), Add(v.c, w.c), Add(v.d, w.d),
         Add(v.e, w.e), Add(v.f, w.f), Add(v.g, w.g), Add(v.h, w.h))
  }

  function Compress(h: Vars, m: Block): Vars { AddVars(Rounds(h, Schedule(m), 64), h) }

  /** The hash value after the first `n` blocks. */
  function HashBlocks(words: seq<Word>, n: nat): Vars
    requires 16 * n <= |words|
  {
    if n == 0 then H0 else Compress(HashBlocks(words, n - 1), words[16 * (n - 1)..16 * n])
  }

  function Digest(msg: Message): Vars {
    PaddedLength(msg);
    HashBlocks(WordsOf(Pad(msg)), BlockCount(|msg|))
  }

  function VarWords(v: Vars): (r: seq<Word>)
    ensures |r| == 8
  {
    [v.a, v.b, v.c, v.d, v.e, v.f, v.g, v.h]
  }

  function WordBytes(w: Word): (r: seq<Byte>)
    ensures |r| == 4
  {
    [((w >> 24) & 0xFF) as Byte, ((w >> 16) & 0xFF) as Byte, ((w >> 8) & 0xFF) as Byte, (w & 0xFF) as Byte]
  }

  function WordsBytes(ws: seq<Word>): (r: seq<Byte>)
    ensures |r| == 4 * |ws|
  {
    if ws == [] then [] else WordsBytes(ws[..|ws| - 1]) + WordBytes(ws[|ws| - 1])
  }

  /** The 32 bytes of the digest. */
  function Sha256(msg: Message): (r: seq<Byte>)
    ensures |r| == 32
  {
    WordsBytes(VarWords(Digest(msg)))
  }
}
