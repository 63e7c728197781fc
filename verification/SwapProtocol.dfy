// The swap protocol as the ordered effects of each entry point of the
// orchestrator (referee/src/api/orchestrator.rs).
//
// Every collaborator call that the Rust code makes is one Effect. A call to
// an entry point is a script: the effects it performs when nothing fails, and
// its reply. A failing collaborator cuts the script short after any number of
// effects; a best-effort effect may be missing from it.

module SwapProtocol {
  import opened Prelude
  import opened SwapState

  datatype SpentStatus = Unspent | Spent | Unknown

  datatype Circuit = BobCircuit | AliceCircuit

  datatype PushKind = Insert | Invalidate | ReleaseSettle | ReleaseRefund

  datatype CloseKind = CloseSettle | CloseRefund | CloseCancel

  datatype Payload =
    | InitPayload(bobFp: string, aliceFp: string, hB: string, vtxo: string, txSettle: string, txRefund: string)
    | ZkpPayload(okBob: bool, okAlice: bool)
    | PreCheckPayload(unspent: bool)
    | AttemptPayload(attempt: nat)
    | AbortPayload(attempts: nat)
    | AckPayload(acked: bool)
    | CancelPayload(requester: string, reason: string)
    | EmptyPayload

  datatype Entry = Entry(id: SwapId, phase: Phase, ts: nat, prior: string, payload: Payload)

  datatype Effect =
    | Began(id: SwapId, session: Session)
    | Appended(entry: Entry)
    | Wrote(row: Row)
    | Minted(id: SwapId)
    | MintedHtlc(id: SwapId, contract: string)
    | Verified(id: SwapId, circuit: Circuit, proof: string, ok: bool)
    | Checked(id: SwapId, hash: string, status: SpentStatus)
    | Pushed(id: SwapId, recipient: string, kind: PushKind, payload: seq<string>)
    | Signed(id: SwapId, session: Session, txHash: string, aliceKey: string, aliceNonce: string)
    | Discarded(id: SwapId, session: Session)
    | ClosedHtlc(id: SwapId, contract: string, how: CloseKind)

  function Subject(e: Effect): SwapId {
    match e
    case Appended(entry) => entry.id
    case Wrote(row) => row.id
    case _ => e.id
  }

  /** Row store, audit log, live signing sessions, and everything that was done so far. */
  datatype World = World(
    rows: map<SwapId, Row>, log: seq<Entry>, live: set<(SwapId, Session)>, trace: seq<Effect>)

  const EMPTY_WORLD := World(map[], [], {}, [])

  function Do(w: World, e: Effect): World {
    var w' := w.(trace := w.trace + [e]);
    match e
    case Began(id, session) => w'.(live := w.live + {(id, session)})
    case Appended(entry) => w'.(log := w.log + [entry])
    case Wrote(row) => w'.(rows := w.rows[row.id := row])
    case Signed(id, session, _, _, _) => w'.(live := w.live - {(id, session)})
    case Discarded(id, session) => w'.(live := w.live - {(id, session)})
    case _ => w'
  }

  /** What the caller of an entry point gets; a failure is what `?` propagates. */
  datatype Outcome = OutcomeSettled | OutcomeRefunded | OutcomeCanceled

  datatype Reply = Done | Advanced(outcome: Option<Outcome>) | Failed(error: Error) {
    predicate IsFailure() { Failed? }

    function PropagateFailure(): Reply
      requires Failed?
    {
      this
    }
  }

  datatype Script = Script(effects: List<Effect>, reply: Reply)

  /** Runs a script whose first `n` effects succeed: the new world, the reply, and what is left of `n`. */
  function Exec(w: World, effects: List<Effect>, reply: Reply, n: nat): (World, Reply, nat)
    decreases effects
  {
    if effects.Nil? then (w, reply, n)
    else if n == 0 then (w, Failed(Stopped), 0)
    else Exec(Do(w, effects.head), effects.tail, reply, n - 1)
  }

  // ------------------------------------------------------------------
  // Configuration and the answers of the environment
  // ------------------------------------------------------------------

  /** `hash` stands for the hex SHA-256 of an entry's canonical body. */
  datatype Config = Config(retry: u8, hash: Entry -> string)

  /** What a party signs to cancel. */
  datatype CancelMessage = CancelMessage(id: SwapId, requester: string, reason: string)

  /**
   * Everything a call learns from outside: the clock at each reading, the two
   * verifier verdicts, the webcash status, the contract id of the HTLC record
   * if one was minted, under which keys and for which messages the cancel
   * signature verifies, whether the signer accepts Alice's key and nonce, and
   * which best-effort effects happen.
   */
  datatype Answers = Answers(
    clock: nat -> nat, okBob: bool, okAlice: bool, status: SpentStatus,
    htlc: Option<string>, sigOk: (string, CancelMessage) -> bool, signerOk: bool, lucky: nat -> bool)

  datatype Request = Request(parties: Parties, bob: BobPayload, alice: AlicePayload, nonces: AliceNonces)

  function When(cond: bool, e: Effect, rest: List<Effect>): List<Effect> {
    if cond then Cons(e, rest) else rest
  }

  /** `persist`: project the state, keep what only the stored row knows. */
  function Persisted(rows: map<SwapId, Row>, s: State, now: nat): Row {
    var r := DeriveFrom(s, s.phase, now);
    if s.phase == Init then r.(createdAt := s.enteredAt)
    else if s.id in rows then
      r.(createdAt := rows[s.id].createdAt, cancelReason := rows[s.id].cancelReason,
         canceledBy := rows[s.id].canceledBy, htlcContract := rows[s.id].htlcContract)
    else r
  }

  // ------------------------------------------------------------------
  // start_swap
  // ------------------------------------------------------------------

  function InitEntry(id: SwapId, q: Request, a: Answers): Entry {
    Entry(id, Init, a.clock(0), "",
          InitPayload(q.parties.bobFp, q.parties.aliceFp, q.bob.hB, q.alice.vtxo,
                      q.alice.txSettleHash, q.alice.txRefundHash))
  }

  function InitState(c: Config, id: SwapId, q: Request, a: Answers): (s: State)
    ensures s.phase == Init
  {
    Initiate(id, q.parties, q.bob, q.alice, q.nonces, a.clock(0), c.hash(InitEntry(id, q, a)))
  }

  function InitRow(c: Config, id: SwapId, q: Request, a: Answers): Row {
    Persisted(map[], InitState(c, id, q, a), a.clock(1))
  }

  /** The row as it stands when the verifiers are asked. */
  function MintedRow(c: Config, id: SwapId, q: Request, a: Answers): Row {
    var r := InitRow(c, id, q, a);
    if a.htlc.Some? then r.(htlcContract := a.htlc) else r
  }

  function ZkpEntry(s: State, a: Answers): Entry {
    Entry(s.id, ZkpsVerified, a.clock(2), s.tip, ZkpPayload(a.okBob, a.okAlice))
  }

  function PreCheckEntry(s: State, a: Answers): Entry {
    Entry(s.id, PreChecked, a.clock(5), s.tip, PreCheckPayload(a.status == Unspent))
  }

  function FirstInsertEntry(s: State, a: Answers): Entry {
    Entry(s.id, InsertPushed, a.clock(8), s.tip, AttemptPayload(1))
  }

  function InsertPush(s: State): Effect {
    Pushed(s.id, s.parties.aliceFp, Insert, [s.bob.encSecretForAlice])
  }

  /** From the dispatch of the first insert push to the end of `start_swap`. */
  function StartTail(c: Config, s: State, r: Row, a: Answers): Script
    requires s.phase == PreChecked
  {
    var e := FirstInsertEntry(s, a);
    var pushed := InsertPushedFromPre(s, a.clock(9), c.hash(e));
    Script(Cons(InsertPush(s),
           Cons(Appended(e),
           Cons(Wrote(Persisted(map[s.id := r], pushed, a.clock(10))),
           Nil))), Done)
  }

  /** From the webcash pre-check on. */
  function StartPreCheck(c: Config, s: State, r: Row, a: Answers): Script
    requires s.phase == ZkpsVerified
  {
    var e := PreCheckEntry(s, a);
    match PreCheck(s, a.status == Unspent, a.clock(6), c.hash(e))
    case Err(error) =>
      Script(Cons(Checked(s.id, s.bob.hB, a.status), Cons(Appended(e), Nil)), Failed(error))
    case Ok(pre) =>
      var row := Persisted(map[s.id := r], pre, a.clock(7));
      var rest := StartTail(c, pre, row, a);
      Script(Cons(Checked(s.id, s.bob.hB, a.status),
             Cons(Appended(e),
             Cons(Wrote(row), rest.effects))), rest.reply)
  }

  /** From the two ZKP verifications on. */
  function StartVerify(c: Config, s: State, r: Row, a: Answers): Script
    requires s.phase == Init
  {
    var e := ZkpEntry(s, a);
    match VerifyZkps(s, a.okBob && a.okAlice, a.clock(3), c.hash(e))
    case Err(error) =>
      Script(Cons(Verified(s.id, BobCircuit, s.bob.zkp, a.okBob),
             Cons(Verified(s.id, AliceCircuit, s.alice.zkp, a.okAlice),
             Cons(Appended(e), Nil))), Failed(error))
    case Ok(zkps) =>
      var row := Persisted(map[s.id := r], zkps, a.clock(4));
      var rest := StartPreCheck(c, zkps, row, a);
      Script(Cons(Verified(s.id, BobCircuit, s.bob.zkp, a.okBob),
             Cons(Verified(s.id, AliceCircuit, s.alice.zkp, a.okAlice),
             Cons(Appended(e),
             Cons(Wrote(row), rest.effects)))), rest.reply)
  }

  function StartScript(c: Config, id: SwapId, q: Request, a: Answers): Script {
    var rest := StartVerify(c, InitState(c, id, q, a), MintedRow(c, id, q, a), a);
    var htlc := match a.htlc
      case None => rest.effects
      case Some(contract) =>
        Cons(MintedHtlc(id, contract), Cons(Wrote(MintedRow(c, id, q, a)), rest.effects));
    Script(Cons(Began(id, Settle),
           Cons(Began(id, Refund),
           Cons(Appended(InitEntry(id, q, a)),
           Cons(Wrote(InitRow(c, id, q, a)),
           Cons(Minted(id), htlc))))), rest.reply)
  }

  // ------------------------------------------------------------------
  // advance_swap
  // ------------------------------------------------------------------

  function CloseHtlc(r: Row, how: CloseKind, a: Answers): List<Effect> {
    if r.htlcContract.Some? && a.lucky(0)
    then Cons(ClosedHtlc(r.id, r.htlcContract.value, how), Nil)
    else Nil
  }

  function PhaseEntry(s: State, phase: Phase, payload: Payload, a: Answers): Entry {
    Entry(s.id, phase, a.clock(0), s.tip, payload)
  }

  function SignSettle(s: State): Effect {
    Signed(s.id, Settle, s.alice.txSettleHash, s.parties.aliceMusigKey, s.nonces.settle)
  }

  function SignRefund(s: State): Effect {
    Signed(s.id, Refund, s.alice.txRefundHash, s.parties.aliceMusigKey, s.nonces.refund)
  }

  /** The partial signature the signer returns is named by what it covers. */
  function ReleaseSettlePush(s: State): Effect {
    Pushed(s.id, s.parties.bobFp, ReleaseSettle, [s.alice.txSettleHash, s.alice.encPartialForBob])
  }

  function ReleaseRefundPush(s: State): Effect {
    Pushed(s.id, s.parties.aliceFp, ReleaseRefund, [s.alice.txRefundHash])
  }

  /** The post-check reported `Spent`. */
  function SettleScript(c: Config, w: World, r: Row, s: State, a: Answers): Script {
    var e := PhaseEntry(s, Settled, EmptyPayload, a);
    var settled := Advance(s, Settled, a.clock(1), c.hash(e));
    if (s.id, Settle) !in w.live then
      Script(Cons(Checked(s.id, s.bob.hB, Spent), Cons(Appended(e), Nil)), Failed(Musig2))
    else if !a.signerOk then
      // The nonce is consumed before Alice's key and nonce are parsed.
      Script(Cons(Checked(s.id, s.bob.hB, Spent),
             Cons(Appended(e),
             Cons(Discarded(s.id, Settle), Nil))), Failed(Musig2))
    else
      Script(Cons(Checked(s.id, s.bob.hB, Spent),
             Cons(Appended(e),
             Cons(SignSettle(s),
             Cons(ReleaseSettlePush(s),
             Cons(Wrote(Persisted(w.rows, settled, a.clock(2))),
             Cons(Discarded(s.id, Refund),
             CloseHtlc(r, CloseSettle, a))))))),
             Advanced(Some(OutcomeSettled)))
  }

  /** Still not spent, and the retry budget is not used up. */
  function RetryScript(c: Config, w: World, s: State, a: Answers): Script
    requires s.phase == InsertPushed
  {
    var e := PhaseEntry(s, InsertPushed, AttemptPayload(s.attempts + 1), a);
    match InsertPushedRetry(s, a.clock(1), c.hash(e))
    case Err(error) =>
      Script(Cons(Checked(s.id, s.bob.hB, a.status),
             Cons(InsertPush(s),
             Cons(Appended(e), Nil))), Failed(error))
    case Ok(retried) =>
      Script(Cons(Checked(s.id, s.bob.hB, a.status),
             Cons(InsertPush(s),
             Cons(Appended(e),
             Cons(Wrote(Persisted(w.rows, retried, a.clock(2))), Nil)))), Advanced(None))
  }

  /** Still not spent, retries exhausted. */
  function AbortScript(c: Config, w: World, s: State, a: Answers): Script {
    var e := PhaseEntry(s, Aborted, AbortPayload(s.attempts), a);
    var aborted := Advance(s, Aborted, a.clock(1), c.hash(e));
    Script(Cons(Checked(s.id, s.bob.hB, a.status),
           Cons(Appended(e),
           Cons(Wrote(Persisted(w.rows, aborted, a.clock(2))),
           Cons(Pushed(s.id, s.parties.bobFp, Invalidate, [s.bob.hB]), Nil)))), Advanced(None))
  }

  function InvalidateScript(c: Config, w: World, s: State, a: Answers): Script {
    var e := PhaseEntry(s, Invalidated, AckPayload(true), a);
    var invalidated := Advance(s, Invalidated, a.clock(1), c.hash(e));
    Script(Cons(Appended(e),
           Cons(Wrote(Persisted(w.rows, invalidated, a.clock(2))), Nil)), Advanced(None))
  }

  function RefundScript(c: Config, w: World, r: Row, s: State, a: Answers): Script {
    var e := PhaseEntry(s, Refunded, EmptyPayload, a);
    var refunded := Advance(s, Refunded, a.clock(1), c.hash(e));
    if (s.id, Refund) !in w.live then Script(Nil, Failed(Musig2))
    else if !a.signerOk then Script(Cons(Discarded(s.id, Refund), Nil), Failed(Musig2))
    else
      Script(Cons(SignRefund(s),
             Cons(ReleaseRefundPush(s),
             Cons(Appended(e),
             Cons(Wrote(Persisted(w.rows, refunded, a.clock(2))),
             Cons(Discarded(s.id, Settle),
             CloseHtlc(r, CloseRefund, a)))))),
             Advanced(Some(OutcomeRefunded)))
  }

  /** The stored continuation is decoded at the phase that the row names. */
  function Decode(r: Row): State {
    r.blob.(phase := r.phase)
  }

  function AdvanceScript(c: Config, w: World, id: SwapId, a: Answers): Script {
    if id !in w.rows then Script(Nil, Failed(BadRequest))
    else
      var r := w.rows[id];
      var s := Decode(r);
      match r.phase
      case Settled => Script(Nil, Advanced(Some(OutcomeSettled)))
      case Refunded => Script(Nil, Advanced(Some(OutcomeRefunded)))
      case Canceled => Script(Nil, Advanced(Some(OutcomeCanceled)))
      case InsertPushed =>
        if a.status == Spent then SettleScript(c, w, r, s, a)
        else if s.attempts < c.retry then RetryScript(c, w, s, a)
        else AbortScript(c, w, s, a)
      case Aborted => InvalidateScript(c, w, s, a)
      case Invalidated => RefundScript(c, w, r, s, a)
      case _ => Script(Nil, Advanced(None))
  }

  // ------------------------------------------------------------------
  // cancel_swap
  // ------------------------------------------------------------------

  function CancelEntry(r: Row, requester: string, reason: string, a: Answers): Entry {
    Entry(r.id, Canceled, a.clock(1), r.blob.tip, CancelPayload(requester, reason))
  }

  function CanceledRow(c: Config, r: Row, requester: string, reason: string, a: Answers): Row {
    r.(phase := Canceled, status := CanceledStatus, terminal := true,
       cancelReason := Some(reason), canceledBy := Some(requester), updatedAt := a.clock(0),
       blob := r.blob.(phase := Canceled, enteredAt := a.clock(0),
                       tip := c.hash(CancelEntry(r, requester, reason, a))))
  }

  /** The cancel key of the party that the requester names. */
  function CancelKey(r: Row, requester: string): string {
    if requester == r.blob.parties.bobFp then r.blob.parties.bobCancelKey else r.blob.parties.aliceCancelKey
  }

  /** Either party before the insert push went out, Bob alone while it is out. */
  predicate MayCancel(phase: Phase, isBob: bool) {
    phase in {Init, ZkpsVerified, PreChecked} || (phase == InsertPushed && isBob)
  }

  function CancelEffects(c: Config, r: Row, requester: string, reason: string, a: Answers): List<Effect> {
    Cons(Appended(CancelEntry(r, requester, reason, a)),
    Cons(Wrote(CanceledRow(c, r, requester, reason, a)),
    When(r.attempts > 0 && a.lucky(1), Pushed(r.id, r.aliceFp, Invalidate, [r.hB]),
    When(a.lucky(2), Discarded(r.id, Settle),
    When(a.lucky(3), Discarded(r.id, Refund),
    CloseHtlc(r, CloseCancel, a))))))
  }

  function CancelScript(c: Config, w: World, id: SwapId, requester: string, reason: string, a: Answers): Script {
    if id !in w.rows then Script(Nil, Failed(BadRequest))
    else
      var r := w.rows[id];
      if r.terminal then Script(Nil, Failed(InvalidTransition))
      else if requester != r.blob.parties.bobFp && requester != r.blob.parties.aliceFp then Script(Nil, Failed(BadRequest))
      else if !MayCancel(r.phase, requester == r.blob.parties.bobFp) then Script(Nil, Failed(InvalidTransition))
      else if !a.sigOk(CancelKey(r, requester), CancelMessage(id, requester, reason)) then Script(Nil, Failed(Crypto))
      else Script(CancelEffects(c, r, requester, reason, a), Done)
  }
}
