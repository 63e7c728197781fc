// HTLC-locked outputs: the predicate that decides whether one may be consumed,
// the lock stamp, and the two hooks of a replace request
// (crates/asset-rgb/src/htlc/*.rs, crates/asset-rgb/src/lib.rs).

module Htlc {
  import opened Prelude

  type u64 = x: int | 0 <= x < 0x1_0000_0000_0000_0000

  const MAX_U64: u64 := 0xFFFF_FFFF_FFFF_FFFF

  datatype HtlcState = HtlcState(committedH: string, refundAfter: u64, claimOwner: string, refundOwner: string)

  datatype Witness = Witness(preimage: Option<string>, owner: string)

  datatype LockRequest = LockRequest(committedH: string, delay: u64, claimSecret: string, refundSecret: string)

  datatype Verdict = Claim | Refund

  datatype HtlcError =
    | PreimageMismatch | ClaimOwnerMismatch | RefundLocked(delta: u64) | RefundOwnerMismatch | BadPreimageHex
    | MissingWitness(input: nat) | LockOutOfRange(output: nat)

  predicate IsHexDigit(c: char) { '0' <= c <= '9' || 'a' <= c <= 'f' || 'A' <= c <= 'F' }

  /** What `hex::decode` accepts. */
  predicate IsHex(s: string) { |s| % 2 == 0 && forall c <- s :: IsHexDigit(c) }

  // ------------------------------------------------------------------
  // Hex strings are the encodings of byte strings, in either case
  // ------------------------------------------------------------------

  type Octet = x: int | 0 <= x < 256

  const DIGITS: string := "0123456789abcdef"

  function Hex(bytes: seq<Octet>): string {
    if bytes == [] then "" else [DIGITS[bytes[0] / 16], DIGITS[bytes[0] % 16]] + Hex(bytes[1..])
  }

  function LowerDigit(c: char): char { if 'A' <= c <= 'F' then c - 'A' + 'a' else c }

  /** The same digit, in lower case. */
  predicate SameDigits(s: string, t: string) {
    |s| == |t| && forall i :: 0 <= i < |s| ==> LowerDigit(s[i]) == t[i]
  }

  function DigitOf(c: char): (d: nat)
    requires IsHexDigit(c)
    ensures d < 16 && DIGITS[d] == LowerDigit(c)
  {
    if c <= '9' then (c - '0') as int else (LowerDigit(c) - 'a') as int + 10
  }

  /** What decodes is in either case the hex form of some bytes. */
  lemma {:induction false} HexDecodes(s: string) returns (bytes: seq<Octet>)
    requires IsHex(s)
    ensures SameDigits(s, Hex(bytes))
    decreases |s|
  {
    if s == "" {
      bytes := [];
    } else {
      assert s[0] in s && s[1] in s;
      assert forall c <- s[2..] :: c in s;
      var rest := HexDecodes(s[2..]);
      var first: Octet := 16 * DigitOf(s[0]) + DigitOf(s[1]);
      bytes := [first] + rest;
      assert bytes[1..] == rest && first / 16 == DigitOf(s[0]) && first % 16 == DigitOf(s[1]);
      forall i | 0 <= i < |s| ensures LowerDigit(s[i]) == Hex(bytes)[i] {
        if i >= 2 { assert LowerDigit(s[2..][i - 2]) == Hex(rest)[i - 2]; }
      }
    }
  }

  lemma {:induction false} EncodedIsHex(s: string, bytes: seq<Octet>)
    requires SameDigits(s, Hex(bytes))
    ensures IsHex(s)
    decreases |s|
  {
    if bytes != [] {
      var rest := Hex(bytes[1..]);
      assert Hex(bytes)[2..] == rest;
      forall i | 0 <= i < |s| - 2 ensures LowerDigit(s[2..][i]) == rest[i] { assert LowerDigit(s[i + 2]) == Hex(bytes)[i + 2]; }
      EncodedIsHex(s[2..], bytes[1..]);
      assert LowerDigit(s[0]) == Hex(bytes)[0] && LowerDigit(s[1]) == Hex(bytes)[1];
      assert s == [s[0], s[1]] + s[2..];
    }
  }

  /** `sha` stands for the hex SHA-256 of the ASCII bytes of a string. */
  function Evaluate(sha: string -> string, s: HtlcState, w: Witness, now: u64): Result<Verdict, HtlcError> {
    match w.preimage
    case Some(x) =>
      if !IsHex(x) then Err(BadPreimageHex)
      else if sha(x) != s.committedH then
        if now >= s.refundAfter && w.owner == s.refundOwner then Ok(Refund) else Err(PreimageMismatch)
      else if w.owner != s.claimOwner then Err(ClaimOwnerMismatch)
      else Ok(Claim)
    case None =>
      if now < s.refundAfter then Err(RefundLocked(s.refundAfter - now))
      else if w.owner != s.refundOwner then Err(RefundOwnerMismatch)
      else Ok(Refund)
  }

  /** The two ways the documentation gives to consume the output. */
  predicate ClaimPath(sha: string -> string, s: HtlcState, w: Witness) {
    w.preimage.Some? && sha(w.preimage.value) == s.committedH && w.owner == s.claimOwner
  }

  predicate RefundPath(s: HtlcState, w: Witness, now: u64) {
    now >= s.refundAfter && w.owner == s.refundOwner
  }

  /** Whatever is accepted satisfies the path the verdict names. */
  lemma AcceptsOnlyDocumented(sha: string -> string, s: HtlcState, w: Witness, now: u64)
    ensures Evaluate(sha, s, w, now) == Ok(Claim) ==> ClaimPath(sha, s, w)
    ensures Evaluate(sha, s, w, now) == Ok(Refund) ==> RefundPath(s, w, now)
  {}

  /** A preimage that is not hex, or the right one presented by someone other than the claim owner. */
  predicate PreimageSpoils(sha: string -> string, s: HtlcState, w: Witness) {
    w.preimage.Some? && (!IsHex(w.preimage.value) || (sha(w.preimage.value) == s.committedH && w.owner != s.claimOwner))
  }

  /** The documented rule is accepted in full, but for witnesses whose preimage spoils them. */
  lemma AcceptsDocumentedExactly(sha: string -> string, s: HtlcState, w: Witness, now: u64)
    ensures Evaluate(sha, s, w, now).Ok? <==>
      (ClaimPath(sha, s, w) || RefundPath(s, w, now)) && !PreimageSpoils(sha, s, w)
  {}

  /** What a refused witness is told. */
  lemma RefusedFor(sha: string -> string, s: HtlcState, w: Witness, now: u64)
    ensures var r := Evaluate(sha, s, w, now);
      var hex := w.preimage.Some? && IsHex(w.preimage.value);
      && (r == Err(BadPreimageHex) <==> w.preimage.Some? && !hex)
      && (r == Err(PreimageMismatch) <==> hex && sha(w.preimage.value) != s.committedH && !RefundPath(s, w, now))
      && (r == Err(ClaimOwnerMismatch) <==> hex && sha(w.preimage.value) == s.committedH && w.owner != s.claimOwner)
      && (r == Err(RefundOwnerMismatch) <==> w.preimage.None? && now >= s.refundAfter && w.owner != s.refundOwner)
      && (r.Err? && r.error.RefundLocked? <==> w.preimage.None? && now < s.refundAfter)
  {}

  /** The refund owner who also shows the right preimage is refused at any time after the deadline. */
  lemma RefundWithPreimageIsRefused(sha: string -> string, s: HtlcState, x: string, now: u64)
    requires IsHex(x) && sha(x) == s.committedH && s.refundOwner != s.claimOwner && now >= s.refundAfter
    ensures var w := Witness(Some(x), s.refundOwner);
      RefundPath(s, w, now) && Evaluate(sha, s, w, now) == Err(ClaimOwnerMismatch)
  {}

  /** An accepted witness stays accepted as the clock advances. */
  lemma AcceptanceLasts(sha: string -> string, s: HtlcState, w: Witness, now: u64, later: u64)
    requires now <= later && Evaluate(sha, s, w, now).Ok?
    ensures Evaluate(sha, s, w, later) == Evaluate(sha, s, w, now)
  {}

  function SaturatingAdd(a: u64, b: u64): u64 {
    if a + b > MAX_U64 then MAX_U64 else a + b
  }

  function Stamp(sha: string -> string, q: LockRequest, now: u64): HtlcState {
    HtlcState(q.committedH, SaturatingAdd(now, q.delay), sha(q.claimSecret), sha(q.refundSecret))
  }

  /** The deadline of an output locked at a time with a delay; it never lies beyond the last u64 second. */
  predicate DeadlinePassed(q: LockRequest, lockedAt: u64, now: u64) {
    now >= (if lockedAt + q.delay <= MAX_U64 then lockedAt + q.delay else MAX_U64)
  }

  /**
   * What opens an output that was locked at a time: the preimage, in hex, with
   * the claim owner; or, once the delay has passed, the refund owner, who shows
   * nothing or something that is in hex and not the preimage.
   */
  predicate Opens(sha: string -> string, q: LockRequest, lockedAt: u64, w: Witness, now: u64) {
    if w.preimage.Some? && !IsHex(w.preimage.value) then false
    else if w.preimage.Some? && sha(w.preimage.value) == q.committedH then w.owner == sha(q.claimSecret)
    else DeadlinePassed(q, lockedAt, now) && w.owner == sha(q.refundSecret)
  }

  /** What it takes to consume an output that was locked at a time with a delay, both ways. */
  lemma StampedLockOpens(sha: string -> string, q: LockRequest, lockedAt: u64, w: Witness, now: u64)
    ensures Evaluate(sha, Stamp(sha, q, lockedAt), w, now).Ok? <==> Opens(sha, q, lockedAt, w, now)
    ensures w.preimage.None? ==>
      (Evaluate(sha, Stamp(sha, q, lockedAt), w, now).Ok? <==>
        DeadlinePassed(q, lockedAt, now) && w.owner == sha(q.refundSecret))
    ensures w.preimage.Some? && IsHex(w.preimage.value) && sha(w.preimage.value) == q.committedH ==>
      (Evaluate(sha, Stamp(sha, q, lockedAt), w, now).Ok? <==> w.owner == sha(q.claimSecret))
  {}

  /** A refund that comes too early is told the exact time that is left: it is refused up to then and not after. */
  lemma WaitIsExact(sha: string -> string, q: LockRequest, lockedAt: u64, owner: string, now: u64, later: u64)
    requires !DeadlinePassed(q, lockedAt, now)
    ensures var r := Evaluate(sha, Stamp(sha, q, lockedAt), Witness(None, owner), now);
      && r.Err? && r.error.RefundLocked?
      && (DeadlinePassed(q, lockedAt, later) <==> later >= now + r.error.delta)
  {}

  // ------------------------------------------------------------------
  // The hooks of a replace request
  // ------------------------------------------------------------------

  datatype WitnessEntry = WitnessEntry(input: nat, shown: Witness)

  datatype LockEntry = LockEntry(output: nat, request: LockRequest)

  /** The first entry for an input counts. */
  function WitnessFor(entries: seq<WitnessEntry>, input: nat): Option<Witness> {
    if entries == [] then None
    else if entries[0].input == input then Some(entries[0].shown)
    else WitnessFor(entries[1..], input)
  }

  lemma {:induction false} WitnessIsFirst(entries: seq<WitnessEntry>, input: nat, w: Witness)
    ensures WitnessFor(entries, input).None? <==> forall i :: 0 <= i < |entries| ==> entries[i].input != input
    ensures WitnessFor(entries, input) == Some(w) <==>
      exists i :: 0 <= i < |entries| && entries[i] == WitnessEntry(input, w) && forall j :: 0 <= j < i ==> entries[j].input != input
  {
    if entries != [] && entries[0].input != input {
      var rest := entries[1..];
      WitnessIsFirst(rest, input, w);
      assert forall i :: 1 <= i < |entries| ==> entries[i] == rest[i - 1];
      if i :| 0 <= i < |rest| && rest[i] == WitnessEntry(input, w) && forall j :: 0 <= j < i ==> rest[j].input != input {
        assert entries[i + 1] == WitnessEntry(input, w);
      }
      if i :| 0 <= i < |entries| && entries[i] == WitnessEntry(input, w) && forall j :: 0 <= j < i ==> entries[j].input != input {
        assert rest[i - 1] == WitnessEntry(input, w);
        forall j | 0 <= j < i - 1 ensures rest[j].input != input { assert entries[j + 1].input != input; }
      }
    }
  }

  function CheckInput(sha: string -> string, lock: Option<HtlcState>, entries: seq<WitnessEntry>, input: nat, now: u64):
    Result<(), HtlcError>
  {
    match lock
    case None => Ok(())
    case Some(s) =>
      match WitnessFor(entries, input)
      case None => Err(MissingWitness(input))
      case Some(w) =>
        match Evaluate(sha, s, w, now)
        case Ok(_) => Ok(())
        case Err(e) => Err(e)
  }

  /** Every locked input has a witness that opens it. */
  predicate AllOpen(sha: string -> string, locks: seq<Option<HtlcState>>, entries: seq<WitnessEntry>, now: u64) {
    forall i :: 0 <= i < |locks| ==> CheckInput(sha, locks[i], entries, i, now).Ok?
  }

  method ValidateReplaceRequest(sha: string -> string, locks: seq<Option<HtlcState>>, entries: seq<WitnessEntry>, now: u64)
    returns (r: Result<(), HtlcError>)
    ensures r.Ok? <==> AllOpen(sha, locks, entries, now)
    ensures r.Err? ==> exists i ::
      && 0 <= i < |locks| && FirstShut(sha, locks, entries, now, i)
      && CheckInput(sha, locks[i], entries, i, now) == r
  {
    for idx := 0 to |locks|
      invariant forall i :: 0 <= i < idx ==> CheckInput(sha, locks[i], entries, i, now).Ok?
    {
      var checked := CheckInput(sha, locks[idx], entries, idx, now);
      if checked.Err? {
        assert FirstShut(sha, locks, entries, now, idx);
        return checked;
      }
    }
    r := Ok(());
  }

  predicate FirstShut(sha: string -> string, locks: seq<Option<HtlcState>>, entries: seq<WitnessEntry>, now: u64, i: nat)
    requires i < |locks|
  {
    && CheckInput(sha, locks[i], entries, i, now).Err?
    && forall j :: 0 <= j < i ==> CheckInput(sha, locks[j], entries, j, now).Ok?
  }

  /** The last lock entry for an output wins. */
  function LockFor(entries: seq<LockEntry>, output: nat): Option<LockRequest> {
    if entries == [] then None
    else if entries[|entries| - 1].output == output then Some(entries[|entries| - 1].request)
    else LockFor(entries[..|entries| - 1], output)
  }

  lemma {:induction false} LockIsLast(entries: seq<LockEntry>, output: nat, q: LockRequest)
    ensures LockFor(entries, output).None? <==> forall i :: 0 <= i < |entries| ==> entries[i].output != output
    ensures LockFor(entries, output) == Some(q) <==>
      exists i :: 0 <= i < |entries| && entries[i] == LockEntry(output, q) && forall j :: i < j < |entries| ==> entries[j].output != output
  {
    if entries != [] {
      var n := |entries| - 1;
      if entries[n].output != output { LockIsLast(entries[..n], output, q); }
    }
  }

  function StampFor(sha: string -> string, entries: seq<LockEntry>, output: nat, now: u64): Option<HtlcState> {
    match LockFor(entries, output)
    case None => None
    case Some(q) => Some(Stamp(sha, q, now))
  }

  /** Stamps the locks of a request on its outputs, which start out unlocked. */
  method AugmentOutputRecords(sha: string -> string, total: nat, entries: seq<LockEntry>, now: u64)
    returns (r: Result<seq<Option<HtlcState>>, HtlcError>)
    ensures r.Ok? <==> forall e <- entries :: e.output < total
    ensures r.Ok? ==> |r.value| == total && forall i :: 0 <= i < total ==> r.value[i] == StampFor(sha, entries, i, now)
  {
    var locks: seq<Option<HtlcState>> := seq(total, _ => None);
    for n := 0 to |entries|
      invariant |locks| == total
      invariant forall e <- entries[..n] :: e.output < total
      invariant forall i :: 0 <= i < total ==> locks[i] == StampFor(sha, entries[..n], i, now)
    {
      var e := entries[n];
      assert e in entries && entries[..n + 1] == entries[..n] + [e];
      if e.output >= total { return Err(LockOutOfRange(e.output)); }
      locks := locks[e.output := Some(Stamp(sha, e.request, now))];
    }
    assert entries[..|entries|] == entries;
    return Ok(locks);
  }
}
