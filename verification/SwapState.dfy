// Data and pure phase transitions of the referee's swap
// (referee/src/state/*.rs, referee/src/transaction.rs).

module Prelude {
  datatype Option<+T> = None | Some(value: T)

  datatype Result<+T, +E> = Ok(value: T) | Err(error: E) {
    predicate IsFailure() { Err? }

    function PropagateFailure<U>(): Result<U, E>
      requires Err?
    {
      Err(error)
    }

    function Extract(): T
      requires Ok?
    {
      value
    }
  }

  datatype List<+T> = Nil | Cons(head: T, tail: List<T>)

  type u8 = x: int | 0 <= x < 0x100

  type u32 = x: int | 0 <= x < 0x1_0000_0000

  const MIN_I64: int := -0x8000_0000_0000_0000
  const MAX_I64: int := 0x7FFF_FFFF_FFFF_FFFF

  function Min(a: nat, b: nat): nat { if a < b then a else b }
}

module SwapState {
  import opened Prelude

  type SwapId = string

  datatype Phase =
    | Init | ZkpsVerified | PreChecked | InsertPushed
    | Settled | Aborted | Invalidated | Refunded | Canceled

  datatype Session = Settle | Refund

  datatype Error =
    | BadRequest | ZkpRejected | Musig2 | InvalidTransition
    | AttemptOverflow  // the u8 counter of insert pushes would wrap
    | Crypto
    | Stopped          // a collaborator failed

  datatype Parties = Parties(
    bobFp: string, aliceFp: string, aliceMusigKey: string,
    bobCancelKey: string, aliceCancelKey: string)

  datatype BobPayload = BobPayload(hB: string, encSecretForAlice: string, zkp: string)

  datatype AlicePayload = AlicePayload(
    vtxo: string, txSettleHash: string, txRefundHash: string,
    encPartialForBob: string, zkp: string)

  datatype AliceNonces = AliceNonces(settle: string, refund: string)

  /** The immutable value of one phase. `phase` plays the role of the phantom type. */
  datatype State = State(
    phase: Phase, id: SwapId, parties: Parties, bob: BobPayload, alice: AlicePayload,
    nonces: AliceNonces, enteredAt: nat, attempts: u8, tip: string)

  function Initiate(id: SwapId, parties: Parties, bob: BobPayload, alice: AlicePayload,
                    nonces: AliceNonces, now: nat, tip: string): State
  {
    State(Init, id, parties, bob, alice, nonces, now, 0, tip)
  }

  function Advance(s: State, to: Phase, now: nat, tip: string): State {
    s.(phase := to, enteredAt := now, tip := tip)
  }

  function VerifyZkps(s: State, ok: bool, now: nat, tip: string): Result<State, Error>
    requires s.phase == Init
  {
    if ok then Ok(Advance(s, ZkpsVerified, now, tip)) else Err(ZkpRejected)
  }

  function PreCheck(s: State, unspent: bool, now: nat, tip: string): Result<State, Error>
    requires s.phase == ZkpsVerified
  {
    if unspent then Ok(Advance(s, PreChecked, now, tip)) else Err(InvalidTransition)
  }

  function InsertPushedFromPre(s: State, now: nat, tip: string): State
    requires s.phase == PreChecked
  {
    Advance(s, InsertPushed, now, tip).(attempts := 1)
  }

  function InsertPushedRetry(s: State, now: nat, tip: string): Result<State, Error>
    requires s.phase == InsertPushed
  {
    if s.attempts == 255 then Err(AttemptOverflow)
    else Ok(s.(attempts := s.attempts + 1, enteredAt := now, tip := tip))
  }

  // ------------------------------------------------------------------
  // Rows (referee/src/transaction.rs)
  // ------------------------------------------------------------------

  datatype Status = Pending | SettledStatus | RefundedStatus | CanceledStatus

  function StatusFor(phase: Phase): Status {
    match phase
    case Settled => SettledStatus
    case Refunded => RefundedStatus
    case Canceled => CanceledStatus
    case _ => Pending
  }

  datatype Row = Row(
    id: SwapId, status: Status, phase: Phase, terminal: bool,
    bobFp: string, aliceFp: string, hB: string, vtxo: string,
    txSettleHash: string, txRefundHash: string,
    createdAt: nat, updatedAt: nat, attempts: u8,
    cancelReason: Option<string>, canceledBy: Option<string>, htlcContract: Option<string>,
    blob: State)

  function DeriveFrom(s: State, phase: Phase, now: nat): Row {
    var status := StatusFor(phase);
    Row(s.id, status, phase, status != Pending,
        s.parties.bobFp, s.parties.aliceFp, s.bob.hB, s.alice.vtxo,
        s.alice.txSettleHash, s.alice.txRefundHash,
        s.enteredAt, now, s.attempts, None, None, None, s)
  }

  /** The flat columns of a row agree with the continuation stored beside them. */
  predicate Coherent(r: Row) {
    && r.blob.id == r.id && r.blob.phase == r.phase
    && r.status == StatusFor(r.phase) && r.terminal == (r.status != Pending)
    && r.bobFp == r.blob.parties.bobFp && r.aliceFp == r.blob.parties.aliceFp
    && r.hB == r.blob.bob.hB && r.vtxo == r.blob.alice.vtxo
    && r.txSettleHash == r.blob.alice.txSettleHash
    && r.txRefundHash == r.blob.alice.txRefundHash
    && r.attempts == r.blob.attempts
  }

  /** What every write of a row must leave as it was: the parties, the payloads, the creation time. */
  predicate SameSwap(r: Row, r': Row) {
    && r.id == r'.id && r.createdAt == r'.createdAt
    && r.blob.parties == r'.blob.parties && r.blob.bob == r'.blob.bob
    && r.blob.alice == r'.blob.alice && r.blob.nonces == r'.blob.nonces
  }

  /** The phase graph of referee/src/state/phases.rs, with the party cancel added. */
  predicate Edge(from: Phase, to: Phase) {
    match to
    case Init => false
    case ZkpsVerified => from == Init
    case PreChecked => from == ZkpsVerified
    case InsertPushed => from == PreChecked || from == InsertPushed
    case Settled => from == InsertPushed
    case Aborted => from == InsertPushed
    case Invalidated => from == Aborted
    case Refunded => from == Invalidated
    case Canceled => from in {Init, ZkpsVerified, PreChecked, InsertPushed}
  }
}
