// What each effect of a call must be, given the row that is stored at its turn:
// who is pushed to and what, what is signed, checked, closed and logged, and
// how a row may change. `persist` and the HTLC mint read the row again and keep
// what only the store knows; a cancel stores the row it has changed
// (referee/src/api/orchestrator.rs). It is stated on rows, not on the scripts.

module SwapWrites {
  import opened Prelude
  import opened SwapState
  import opened SwapProtocol
  import opened SwapRuns
  import opened SwapLocality

  /** The planned row merged into the one that is stored by then. */
  function Merged(rows: map<SwapId, Row>, row: Row): Row {
    if row.id !in rows || row.phase == Canceled then row
    else
      var now := rows[row.id];
      if row.phase == Init then now.(htlcContract := row.htlcContract)
      else
        row.(createdAt := now.createdAt, cancelReason := now.cancelReason,
             canceledBy := now.canceledBy, htlcContract := now.htlcContract)
  }

  // ------------------------------------------------------------------
  // What has happened to a swap since its row was last written
  // ------------------------------------------------------------------

  /**
   * The last verdict on each party's proof, the last webcash answer, the HTLC
   * record, what was signed and pushed, and the last log entry.
   */
  datatype Known = Known(
    bob: Option<bool>, alice: Option<bool>, status: Option<SpentStatus>, htlc: Option<string>,
    signed: set<Session>, pushed: set<PushKind>, entry: Option<Entry>)

  const NOTHING := Known(None, None, None, None, {}, {}, None)

  function Learn(k: Known, e: Effect): Known {
    match e
    case Verified(_, BobCircuit, _, ok) => k.(bob := Some(ok))
    case Verified(_, AliceCircuit, _, ok) => k.(alice := Some(ok))
    case Checked(_, _, status) => k.(status := Some(status))
    case MintedHtlc(_, contract) => k.(htlc := Some(contract))
    case Signed(_, s, _, _, _) => k.(signed := k.signed + {s})
    case Pushed(_, _, kind, _) => k.(pushed := k.pushed + {kind})
    case Appended(entry) => k.(entry := Some(entry))
    case Wrote(_) => NOTHING
    case _ => k
  }

  function KnownOf(t: seq<Effect>, id: SwapId): Known {
    if t == [] then NOTHING
    else
      var n := |t| - 1;
      if Subject(t[n]) == id then Learn(KnownOf(t[..n], id), t[n]) else KnownOf(t[..n], id)
  }

  lemma KnownSnoc(t: seq<Effect>, e: Effect, id: SwapId)
    ensures KnownOf(t + [e], id) == if Subject(e) == id then Learn(KnownOf(t, id), e) else KnownOf(t, id)
  {
    assert (t + [e])[..|t|] == t;
  }

  // ------------------------------------------------------------------
  // One effect
  // ------------------------------------------------------------------

  /** The status and terminal flag that users see for each phase. */
  predicate ShownRight(r: Row) {
    match r.phase
    case Settled => r.status == SettledStatus && r.terminal
    case Refunded => r.status == RefundedStatus && r.terminal
    case Canceled => r.status == CanceledStatus && r.terminal
    case _ => r.status == Pending && !r.terminal
  }

  predicate IsParty(r: Row, fp: string) { fp == r.bobFp || fp == r.aliceFp }

  /** The first row of a swap, right after its first log entry. */
  predicate FirstRow(k: Known, r: Row) {
    && r.phase == Init && r.attempts == 0 && r.createdAt == r.blob.enteredAt
    && r.cancelReason == None && r.canceledBy == None && r.htlcContract == None
    && k.entry.Some? && k.entry.value.phase == Init
    && k.entry.value.payload == InitPayload(r.bobFp, r.aliceFp, r.hB, r.vtxo, r.txSettleHash, r.txRefundHash)
  }

  /** What must have happened since the last write for a row to enter its phase. */
  predicate Earned(k: Known, r: Row) {
    && k.entry.Some? && k.entry.value.phase == r.phase
    && match r.phase
       case Init => false
       case ZkpsVerified => k.bob == Some(true) && k.alice == Some(true)
       case PreChecked => k.status == Some(Unspent)
       case InsertPushed => Insert in k.pushed
       case Settled => k.status == Some(Spent) && Settle in k.signed && ReleaseSettle in k.pushed
       case Aborted => k.status == Some(Unspent) || k.status == Some(Unknown)
       case Invalidated => true
       case Refunded => Refund in k.signed && ReleaseRefund in k.pushed
       case Canceled =>
         && r.canceledBy.Some? && r.cancelReason.Some? && IsParty(r, r.canceledBy.value)
         && k.entry.value.payload == CancelPayload(r.canceledBy.value, r.cancelReason.value)
  }

  /** A later row: the HTLC record is noted once, or one edge of the phase graph is taken for its reason. */
  predicate NextRow(k: Known, prev: Row, r: Row) {
    && SameSwap(prev, r)
    && if r.phase == Init then prev.htlcContract == None && k.htlc.Some? && r == prev.(htlcContract := k.htlc)
       else
         && Edge(prev.phase, r.phase) && Earned(k, r) && r.htlcContract == prev.htlcContract
         && r.attempts == prev.attempts + (if r.phase == InsertPushed then 1 else 0)
         && (r.phase != Canceled ==> r.cancelReason == prev.cancelReason && r.canceledBy == prev.canceledBy)
  }

  predicate RowFits(rows: map<SwapId, Row>, k: Known, r: Row) {
    && Merged(rows, r) == r && Coherent(r) && ShownRight(r)
    && if r.id in rows then NextRow(k, rows[r.id], r) else FirstRow(k, r)
  }

  /** Each push goes to the party it is for, with what that party needs. */
  predicate PushFits(k: Known, r: Row, recipient: string, kind: PushKind, payload: seq<string>) {
    match kind
    case Insert =>
      r.phase in {PreChecked, InsertPushed} && recipient == r.aliceFp && payload == [r.blob.bob.encSecretForAlice]
    case ReleaseSettle =>
      && r.phase == InsertPushed && Settle in k.signed
      && recipient == r.bobFp && payload == [r.txSettleHash, r.blob.alice.encPartialForBob]
    case ReleaseRefund =>
      r.phase == Invalidated && Refund in k.signed && recipient == r.aliceFp && payload == [r.txRefundHash]
    case Invalidate =>
      && payload == [r.hB]
      && ((r.phase == Aborted && recipient == r.bobFp)
          || (r.phase == Canceled && r.attempts > 0 && recipient == r.aliceFp))
  }

  predicate SignFits(k: Known, r: Row, s: Session, txHash: string, key: string, nonce: string) {
    && key == r.blob.parties.aliceMusigKey
    && match s
       case Settle =>
         r.phase == InsertPushed && k.status == Some(Spent) && txHash == r.txSettleHash && nonce == r.blob.nonces.settle
       case Refund => r.phase == Invalidated && txHash == r.txRefundHash && nonce == r.blob.nonces.refund
  }

  predicate CloseFits(r: Row, contract: string, how: CloseKind) {
    && r.htlcContract == Some(contract)
    && match how
       case CloseSettle => r.phase == Settled
       case CloseRefund => r.phase == Refunded
       case CloseCancel => r.phase == Canceled
  }

  /** A session is thrown away once the other one was used, after a cancel, or when the signer refuses its keys. */
  predicate DiscardFits(r: Row, s: Session) {
    match r.phase
    case InsertPushed => s == Settle
    case Invalidated => s == Refund
    case Settled => s == Refund
    case Refunded => s == Settle
    case Canceled => true
    case _ => false
  }

  /** The log says why each phase was entered, linked to the row it leaves. */
  predicate EntryFits(rows: map<SwapId, Row>, k: Known, e: Entry) {
    if e.phase == Init then e.id !in rows && e.prior == "" && e.payload.InitPayload?
    else
      && e.id in rows && e.prior == rows[e.id].blob.tip && Edge(rows[e.id].phase, e.phase)
      && match e.phase
         case ZkpsVerified => k.bob.Some? && k.alice.Some? && e.payload == ZkpPayload(k.bob.value, k.alice.value)
         case PreChecked => k.status.Some? && e.payload == PreCheckPayload(k.status.value == Unspent)
         case InsertPushed => Insert in k.pushed && e.payload == AttemptPayload(rows[e.id].attempts + 1)
         case Aborted => k.status != Some(Spent) && e.payload == AbortPayload(rows[e.id].attempts)
         case Invalidated => e.payload == AckPayload(true)
         case Settled => k.status == Some(Spent) && e.payload == EmptyPayload
         case Refunded => ReleaseRefund in k.pushed && e.payload == EmptyPayload
         case Canceled => e.payload.CancelPayload? && IsParty(rows[e.id], e.payload.requester)
         case _ => true
  }

  /** An effect at its turn, with these rows stored and this known about its swap. */
  predicate Fitting(rows: map<SwapId, Row>, k: Known, e: Effect) {
    match e
    case Began(id, _) => id !in rows
    case Discarded(id, s) => id in rows && DiscardFits(rows[id], s)
    case Wrote(row) => RowFits(rows, k, row)
    case Appended(entry) => EntryFits(rows, k, entry)
    case Minted(id) => id in rows && rows[id].phase == Init
    case MintedHtlc(id, _) => id in rows && rows[id].phase == Init
    case Verified(id, circuit, proof, _) =>
      && id in rows && rows[id].phase == Init
      && proof == (if circuit == BobCircuit then rows[id].blob.bob.zkp else rows[id].blob.alice.zkp)
    case Checked(id, hash, _) =>
      id in rows && rows[id].phase in {ZkpsVerified, InsertPushed} && hash == rows[id].hB
    case Pushed(id, recipient, kind, payload) => id in rows && PushFits(k, rows[id], recipient, kind, payload)
    case Signed(id, s, txHash, key, nonce) => id in rows && SignFits(k, rows[id], s, txHash, key, nonce)
    case ClosedHtlc(id, contract, how) => id in rows && CloseFits(rows[id], contract, how)
  }

  // ------------------------------------------------------------------
  // Lists of effects
  // ------------------------------------------------------------------

  function RowsAfter(rows: map<SwapId, Row>, e: Effect): map<SwapId, Row> {
    if e.Wrote? then rows[e.row.id := e.row] else rows
  }

  /** Every effect fits at its turn. */
  predicate Fits(rows: map<SwapId, Row>, k: Known, es: List<Effect>)
    decreases es
  {
    es.Nil? || (Fitting(rows, k, es.head) && Fits(RowsAfter(rows, es.head), Learn(k, es.head), es.tail))
  }

  /** Only the row of its own swap matters to a call. */
  lemma {:induction false} FitsFrame(rows: map<SwapId, Row>, rows': map<SwapId, Row>, k: Known, es: List<Effect>, id: SwapId)
    requires About(es, id) && Fits(rows, k, es)
    requires (id in rows <==> id in rows') && (id in rows ==> rows'[id] == rows[id])
    ensures Fits(rows', k, es)
    decreases es
  {
    if es.Cons? {
      FitsFrame(RowsAfter(rows, es.head), RowsAfter(rows', es.head), Learn(k, es.head), es.tail, id);
    }
  }

  lemma First(rows: map<SwapId, Row>, k: Known, e: Effect, rest: List<Effect>)
    requires Fitting(rows, k, e) && Fits(RowsAfter(rows, e), Learn(k, e), rest)
    ensures Fits(rows, k, Cons(e, rest))
  {}

  // ------------------------------------------------------------------
  // The scripts
  // ------------------------------------------------------------------

  predicate Stored(rows: map<SwapId, Row>, r: Row) {
    r.id in rows && rows[r.id] == r && Coherent(r)
  }

  /** What `persist` stores for the next state of a stored swap. */
  lemma NextRowFits(rows: map<SwapId, Row>, known: map<SwapId, Row>, k: Known, r: Row, s: State, now: nat)
    requires Stored(rows, r) && Stored(known, r)
    requires s == r.blob.(phase := s.phase, enteredAt := s.enteredAt, attempts := s.attempts, tip := s.tip)
    requires s.phase !in {Init, Canceled} && Edge(r.phase, s.phase)
    requires s.attempts == r.attempts + (if s.phase == InsertPushed then 1 else 0)
    requires Earned(k, Persisted(known, s, now))
    ensures var row := Persisted(known, s, now); RowFits(rows, k, row) && Stored(rows[r.id := row], row)
  {}

  predicate ClosesIn(phase: Phase, how: CloseKind) {
    match how case CloseSettle => phase == Settled case CloseRefund => phase == Refunded case CloseCancel => phase == Canceled
  }

  lemma CloseOfScript(rows: map<SwapId, Row>, k: Known, r: Row, now: Row, how: CloseKind, a: Answers)
    requires r.id in rows && rows[r.id] == now && now.htlcContract == r.htlcContract && ClosesIn(now.phase, how)
    ensures Fits(rows, k, CloseHtlc(r, how, a))
  {}

  /** The end of both signing paths: the row, the other session, the HTLC record. */
  lemma EndFits(rows: map<SwapId, Row>, k: Known, r: Row, s: State, now: nat, other: Session, how: CloseKind, a: Answers)
    requires Stored(rows, r) && s.phase in {Settled, Refunded} && ClosesIn(s.phase, how)
    requires s == r.blob.(phase := s.phase, enteredAt := s.enteredAt, tip := s.tip) && Edge(r.phase, s.phase)
    requires Earned(k, Persisted(rows, s, now)) && (s.phase == Settled <==> other == Refund)
    ensures Fits(rows, k, Cons(Wrote(Persisted(rows, s, now)), Cons(Discarded(r.id, other), CloseHtlc(r, how, a))))
  {
    var row := Persisted(rows, s, now);
    NextRowFits(rows, rows, k, r, s, now);
    CloseOfScript(rows[r.id := row], NOTHING, r, row, how, a);
    First(rows[r.id := row], NOTHING, Discarded(r.id, other), CloseHtlc(r, how, a));
    First(rows, k, Wrote(row), Cons(Discarded(r.id, other), CloseHtlc(r, how, a)));
  }

  lemma SettleFits(c: Config, w: World, r: Row, k: Known, a: Answers)
    requires Stored(w.rows, r) && r.phase == InsertPushed
    ensures Fits(w.rows, k, SettleScript(c, w, r, Decode(r), a).effects)
  {
    var s, rows := Decode(r), w.rows;
    var es := SettleScript(c, w, r, s, a).effects;
    var e := PhaseEntry(s, Settled, EmptyPayload, a);
    var k1 := k.(status := Some(Spent));
    var k2 := k1.(entry := Some(e));
    var k3 := k2.(signed := k.signed + {Settle});
    var k4 := k3.(pushed := k.pushed + {ReleaseSettle});
    if (s.id, Settle) in w.live && a.signerOk {
      EndFits(rows, k4, r, Advance(s, Settled, a.clock(1), c.hash(e)), a.clock(2), Refund, CloseSettle, a);
      First(rows, k3, ReleaseSettlePush(s), es.tail.tail.tail.tail);
      First(rows, k2, SignSettle(s), es.tail.tail.tail);
    }
    First(rows, k1, Appended(e), es.tail.tail);
    First(rows, k, Checked(s.id, s.bob.hB, Spent), es.tail);
  }

  lemma RefundFits(c: Config, w: World, r: Row, k: Known, a: Answers)
    requires Stored(w.rows, r) && r.phase == Invalidated
    ensures Fits(w.rows, k, RefundScript(c, w, r, Decode(r), a).effects)
  {
    var s, rows := Decode(r), w.rows;
    var es := RefundScript(c, w, r, s, a).effects;
    var e := PhaseEntry(s, Refunded, EmptyPayload, a);
    var k1 := k.(signed := k.signed + {Refund});
    var k2 := k1.(pushed := k.pushed + {ReleaseRefund});
    if (s.id, Refund) in w.live && a.signerOk {
      EndFits(rows, k2.(entry := Some(e)), r, Advance(s, Refunded, a.clock(1), c.hash(e)), a.clock(2), Settle, CloseRefund, a);
      First(rows, k2, Appended(e), es.tail.tail.tail);
      First(rows, k1, ReleaseRefundPush(s), es.tail.tail);
      First(rows, k, SignRefund(s), es.tail);
    }
  }

  lemma RetryFits(c: Config, w: World, r: Row, k: Known, a: Answers)
    requires Stored(w.rows, r) && r.phase == InsertPushed && a.status != Spent
    ensures Fits(w.rows, k, RetryScript(c, w, Decode(r), a).effects)
  {
    var s, rows := Decode(r), w.rows;
    var es := RetryScript(c, w, s, a).effects;
    var e := PhaseEntry(s, InsertPushed, AttemptPayload(s.attempts + 1), a);
    var k1 := k.(status := Some(a.status));
    var k2 := k1.(pushed := k.pushed + {Insert});
    var k3 := k2.(entry := Some(e));
    if s.attempts < 255 {
      var next := InsertPushedRetry(s, a.clock(1), c.hash(e)).value;
      NextRowFits(rows, rows, k3, r, next, a.clock(2));
      First(rows, k3, Wrote(Persisted(rows, next, a.clock(2))), Nil);
    }
    First(rows, k2, Appended(e), es.tail.tail.tail);
    First(rows, k1, InsertPush(s), es.tail.tail);
    First(rows, k, Checked(s.id, s.bob.hB, a.status), es.tail);
  }

  lemma AbortFits(c: Config, w: World, r: Row, k: Known, a: Answers)
    requires Stored(w.rows, r) && r.phase == InsertPushed && a.status != Spent
    ensures Fits(w.rows, k, AbortScript(c, w, Decode(r), a).effects)
  {
    var s, rows := Decode(r), w.rows;
    var es := AbortScript(c, w, s, a).effects;
    var e := PhaseEntry(s, Aborted, AbortPayload(s.attempts), a);
    var next := Advance(s, Aborted, a.clock(1), c.hash(e));
    var row := Persisted(rows, next, a.clock(2));
    var k1 := k.(status := Some(a.status));
    NextRowFits(rows, rows, k1.(entry := Some(e)), r, next, a.clock(2));
    First(rows[r.id := row], NOTHING, es.tail.tail.tail.head, Nil);
    First(rows, k1.(entry := Some(e)), Wrote(row), es.tail.tail.tail);
    First(rows, k1, Appended(e), es.tail.tail);
    First(rows, k, Checked(s.id, s.bob.hB, a.status), es.tail);
  }

  lemma InvalidateFits(c: Config, w: World, r: Row, k: Known, a: Answers)
    requires Stored(w.rows, r) && r.phase == Aborted
    ensures Fits(w.rows, k, InvalidateScript(c, w, Decode(r), a).effects)
  {
    var s, rows := Decode(r), w.rows;
    var e := PhaseEntry(s, Invalidated, AckPayload(true), a);
    var next := Advance(s, Invalidated, a.clock(1), c.hash(e));
    var row := Persisted(rows, next, a.clock(2));
    NextRowFits(rows, rows, k.(entry := Some(e)), r, next, a.clock(2));
    First(rows, k.(entry := Some(e)), Wrote(row), Nil);
    First(rows, k, Appended(e), Cons(Wrote(row), Nil));
  }

  lemma AdvanceFits(c: Config, w: World, id: SwapId, k: Known, a: Answers)
    requires id in w.rows ==> w.rows[id].id == id && Coherent(w.rows[id])
    ensures Fits(w.rows, k, AdvanceScript(c, w, id, a).effects)
  {
    if id in w.rows {
      var r := w.rows[id];
      match r.phase {
        case InsertPushed =>
          if a.status == Spent { SettleFits(c, w, r, k, a); }
          else { RetryFits(c, w, r, k, a); AbortFits(c, w, r, k, a); }
        case Aborted => InvalidateFits(c, w, r, k, a);
        case Invalidated => RefundFits(c, w, r, k, a);
        case _ =>
      }
    }
  }

  lemma CanceledRowFits(c: Config, rows: map<SwapId, Row>, k: Known, r: Row, requester: string, reason: string, a: Answers)
    requires Stored(rows, r) && IsParty(r, requester) && Edge(r.phase, Canceled)
    requires k.entry == Some(CancelEntry(r, requester, reason, a))
    ensures RowFits(rows, k, CanceledRow(c, r, requester, reason, a))
  {}

  lemma CancelFits(c: Config, w: World, id: SwapId, requester: string, reason: string, k: Known, a: Answers)
    requires id in w.rows ==> w.rows[id].id == id && Coherent(w.rows[id])
    ensures Fits(w.rows, k, CancelScript(c, w, id, requester, reason, a).effects)
  {
    if !CancelScript(c, w, id, requester, reason, a).reply.Failed? {
      var r := w.rows[id];
      var row := CanceledRow(c, r, requester, reason, a);
      var e := CancelEntry(r, requester, reason, a);
      var rows' := w.rows[id := row];
      var close := CloseHtlc(r, CloseCancel, a);
      var refund := When(a.lucky(3), Discarded(r.id, Refund), close);
      var discards := When(a.lucky(2), Discarded(r.id, Settle), refund);
      var push := When(r.attempts > 0 && a.lucky(1), Pushed(r.id, r.aliceFp, Invalidate, [r.hB]), discards);
      forall k' ensures Fits(rows', k', close) { CloseOfScript(rows', k', r, row, CloseCancel, a); }
      assert forall k' :: Fits(rows', k', refund);
      assert forall k' :: Fits(rows', k', discards);
      assert Fits(rows', NOTHING, push);
      CanceledRowFits(c, w.rows, k.(entry := Some(e)), r, requester, reason, a);
      First(w.rows, k.(entry := Some(e)), Wrote(row), push);
      First(w.rows, k, Appended(e), Cons(Wrote(row), push));
    }
  }

  /** A stored row that carries this state, from before the first insert push. */
  predicate Starting(rows: map<SwapId, Row>, s: State, r: Row) {
    Stored(rows, r) && r.blob == s && r.attempts == 0
  }

  /** The entry and the row of the next phase, in the middle of `start_swap`. */
  lemma StartPhaseFits(rows: map<SwapId, Row>, k: Known, s: State, r: Row, e: Entry, next: State, now: nat, rest: List<Effect>)
    requires Starting(rows, s, r) && next.phase in {ZkpsVerified, PreChecked, InsertPushed} && Edge(s.phase, next.phase)
    requires next == s.(phase := next.phase, enteredAt := next.enteredAt, attempts := next.attempts, tip := next.tip)
    requires next.attempts == if next.phase == InsertPushed then 1 else 0
    requires e.phase == next.phase && EntryFits(rows, k, e) && e.id == s.id
    requires Earned(k.(entry := Some(e)), Persisted(map[s.id := r], next, now))
    ensures var row := Persisted(map[s.id := r], next, now);
      && (next.phase != InsertPushed ==> Starting(rows[row.id := row], next, row))
      && (Fits(rows[row.id := row], NOTHING, rest) ==> Fits(rows, k, Cons(Appended(e), Cons(Wrote(row), rest))))
  {
    var row := Persisted(map[s.id := r], next, now);
    NextRowFits(rows, map[s.id := r], k.(entry := Some(e)), r, next, now);
    if Fits(rows[row.id := row], NOTHING, rest) {
      First(rows, k.(entry := Some(e)), Wrote(row), rest);
      First(rows, k, Appended(e), Cons(Wrote(row), rest));
    }
  }

  lemma TailFits(c: Config, rows: map<SwapId, Row>, s: State, r: Row, k: Known, a: Answers)
    requires s.phase == PreChecked && Starting(rows, s, r)
    ensures Fits(rows, k, StartTail(c, s, r, a).effects)
  {
    var es := StartTail(c, s, r, a).effects;
    var e := FirstInsertEntry(s, a);
    var k1 := k.(pushed := k.pushed + {Insert});
    StartPhaseFits(rows, k1, s, r, e, InsertPushedFromPre(s, a.clock(9), c.hash(e)), a.clock(10), Nil);
    First(rows, k, InsertPush(s), es.tail);
  }

  lemma PreCheckFits(c: Config, rows: map<SwapId, Row>, s: State, r: Row, k: Known, a: Answers)
    requires s.phase == ZkpsVerified && Starting(rows, s, r)
    ensures Fits(rows, k, StartPreCheck(c, s, r, a).effects)
  {
    var es := StartPreCheck(c, s, r, a).effects;
    var e := PreCheckEntry(s, a);
    var k1 := k.(status := Some(a.status));
    if a.status == Unspent {
      var pre := PreCheck(s, true, a.clock(6), c.hash(e)).value;
      var row := Persisted(map[s.id := r], pre, a.clock(7));
      StartPhaseFits(rows, k1, s, r, e, pre, a.clock(7), StartTail(c, pre, row, a).effects);
      TailFits(c, rows[row.id := row], pre, row, NOTHING, a);
    } else {
      First(rows, k1, Appended(e), Nil);
    }
    First(rows, k, Checked(s.id, s.bob.hB, a.status), es.tail);
  }

  lemma VerifyFits(c: Config, rows: map<SwapId, Row>, s: State, r: Row, k: Known, a: Answers)
    requires s.phase == Init && Starting(rows, s, r)
    ensures Fits(rows, k, StartVerify(c, s, r, a).effects)
  {
    var es := StartVerify(c, s, r, a).effects;
    var e := ZkpEntry(s, a);
    var k1 := k.(bob := Some(a.okBob));
    var k2 := k1.(alice := Some(a.okAlice));
    if a.okBob && a.okAlice {
      var zkps := VerifyZkps(s, true, a.clock(3), c.hash(e)).value;
      var row := Persisted(map[s.id := r], zkps, a.clock(4));
      StartPhaseFits(rows, k2, s, r, e, zkps, a.clock(4), StartPreCheck(c, zkps, row, a).effects);
      PreCheckFits(c, rows[row.id := row], zkps, row, NOTHING, a);
    } else {
      First(rows, k2, Appended(e), Nil);
    }
    First(rows, k1, es.tail.head, es.tail.tail);
    First(rows, k, es.head, es.tail);
  }

  lemma StartFits(c: Config, rows: map<SwapId, Row>, id: SwapId, q: Request, k: Known, a: Answers)
    requires id !in rows
    ensures Fits(rows, k, StartScript(c, id, q, a).effects)
  {
    var es := StartScript(c, id, q, a).effects;
    var first, minted, s := InitRow(c, id, q, a), MintedRow(c, id, q, a), InitState(c, id, q, a);
    var rows' := rows[id := first];
    var rest := StartVerify(c, s, minted, a).effects;
    var htlc := es.tail.tail.tail.tail.tail;
    VerifyFits(c, rows'[id := minted], s, minted, NOTHING, a);
    if a.htlc.Some? {
      First(rows', NOTHING.(htlc := a.htlc), Wrote(minted), rest);
      First(rows', NOTHING, MintedHtlc(id, a.htlc.value), Cons(Wrote(minted), rest));
    } else {
      assert rows'[id := minted] == rows';
    }
    First(rows', NOTHING, Minted(id), htlc);
    First(rows, k.(entry := Some(InitEntry(id, q, a))), Wrote(first), es.tail.tail.tail.tail);
    First(rows, k, es.tail.tail.head, es.tail.tail.tail);
    First(rows, k, es.tail.head, es.tail.tail);
    First(rows, k, es.head, es.tail);
  }

  /**
   * Whatever a call plans fits, as long as nobody else writes the row of its swap;
   * its writes then store what it planned.
   */
  lemma CallFits(c: Config, w: World, call: Call, k: Known, a: Answers)
    requires call.id in w.rows ==> w.rows[call.id].id == call.id && Coherent(w.rows[call.id])
    requires call.StartCall? ==> call.id !in w.rows
    ensures Fits(w.rows, k, ScriptOf(c, w, call, a).effects)
  {
    match call
    case StartCall(id, request) => StartFits(c, w.rows, id, request, k, a);
    case AdvanceCall(id) => AdvanceFits(c, w, id, k, a);
    case CancelCall(id, requester, reason) => CancelFits(c, w, id, requester, reason, k, a);
  }
}
