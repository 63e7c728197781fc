// Each entry point of the orchestrator only performs legal effects.

module SwapScripts {
  import opened Prelude
  import opened SwapState
  import opened SwapProtocol
  import opened SwapHistory
  import opened SwapInvariant

  /** The swap is stored with this row, and the row carries this state. */
  ghost predicate StoredAs(w: World, s: State, r: Row) {
    s.id in w.rows && w.rows[s.id] == r && r.blob == s && !r.terminal
  }

  /**
   * What the assumption that webcash never un-spends a hash says about one answer:
   * `Unknown` after `Spent` is out too.
   */
  ghost predicate Monotone(t: seq<Effect>, h: string, status: SpentStatus) {
    SpentSeen(t, h) ==> status == Spent
  }

  lemma Reached(t: seq<Effect>, e: Effect, id: SwapId, k: nat)
    requires Stage(t, id) >= k
    ensures Stage(t + [e], id) >= if IsMilestone(e, id, k) then k + 1 else k
  {
    StageSnoc(t, e, id);
  }

  lemma LegalFirst(c: Config, w: World, e: Effect, rest: List<Effect>)
    requires Legal(c, w, e) && AllLegal(c, Do(w, e), rest)
    ensures AllLegal(c, w, Cons(e, rest))
  {}

  /** Effects that no rule restricts: bookkeeping and best-effort calls. */
  predicate Harmless(e: Effect) {
    || e.Appended? || e.Minted? || e.MintedHtlc? || e.Verified? || e.Checked?
    || e.Discarded? || e.ClosedHtlc? || (e.Pushed? && e.kind != ReleaseSettle)
  }

  predicate AllHarmless(es: List<Effect>) {
    es.Nil? || (Harmless(es.head) && AllHarmless(es.tail))
  }

  lemma {:induction false} HarmlessIsLegal(c: Config, w: World, es: List<Effect>)
    requires AllHarmless(es)
    ensures AllLegal(c, w, es)
    decreases es
  {
    if es.Cons? { HarmlessIsLegal(c, Do(w, es.head), es.tail); }
  }

  /** A row derived from a later state of the stored swap is coherent and keeps its identity. */
  lemma PersistedFacts(w: World, rows: map<SwapId, Row>, s: State, r: Row, s': State, now: nat)
    requires StoredAs(w, s, r) && Coherent(r)
    requires rows == w.rows || rows == map[s.id := r]
    requires s' == s.(phase := s'.phase, enteredAt := s'.enteredAt, attempts := s'.attempts, tip := s'.tip)
    requires s'.phase != Init
    ensures Coherent(Persisted(rows, s', now)) && SameSwap(r, Persisted(rows, s', now))
    ensures Persisted(rows, s', now).blob == s' && Persisted(rows, s', now).phase == s'.phase
  {}

  /** The write of a phase is legal once its entry is in the log and its milestones are met. */
  lemma PhaseWriteLegal(c: Config, w: World, s: State, r: Row, e: Entry, row: Row)
    requires Inv(c, w) && StoredAs(w, s, r)
    requires e in w.log && e.id == s.id && e.prior == s.tip && Edge(s.phase, e.phase)
    requires Linked(c.hash, w.log, s.id, e.phase, c.hash(e))
    requires Coherent(row) && SameSwap(r, row) && row.phase == e.phase && row.blob.tip == c.hash(e)
    requires Stage(w.trace, s.id) >= Needed(row.phase)
    requires row.phase == Aborted ==> Count(w.trace, s.id, SignOf(Settle)) == 0
    ensures Legal(c, w, Wrote(row))
  {
    assert IdInv(c, w, s.id);
  }

  lemma AppendLinks(c: Config, w: World, s: State, r: Row, e: Entry)
    requires Inv(c, w) && StoredAs(w, s, r)
    requires e.id == s.id && e.prior == s.tip && Edge(s.phase, e.phase)
    ensures Inv(c, Do(w, Appended(e))) && StoredAs(Do(w, Appended(e)), s, r)
    ensures Linked(c.hash, w.log + [e], s.id, e.phase, c.hash(e))
  {
    assert IdInv(c, w, s.id);
    LinkedExtend(c.hash, w.log, e, s.phase, s.tip);
    LegalStepKeepsInv(c, w, Appended(e));
  }

  // ------------------------------------------------------------------
  // advance_swap
  // ------------------------------------------------------------------

  lemma SettleLegal(c: Config, w: World, s: State, r: Row, a: Answers)
    requires Inv(c, w) && StoredAs(w, s, r) && s.phase == InsertPushed
    ensures AllLegal(c, w, SettleScript(c, w, r, s, a).effects)
  {
    var script := SettleScript(c, w, r, s, a);
    if (s.id, Settle) !in w.live || !a.signerOk {
      assert AllHarmless(script.effects.tail.tail);
      HarmlessIsLegal(c, w, script.effects);
    } else {
      var e := PhaseEntry(s, Settled, EmptyPayload, a);
      var checked := Checked(s.id, s.bob.hB, Spent);
      assert IdInv(c, w, s.id);
      var w0 := Do(w, checked);
      LegalStepKeepsInv(c, w, checked);
      Reached(w.trace, checked, s.id, 4);
      AppendLinks(c, w0, s, r, e);
      Reached(w0.trace, Appended(e), s.id, 5);
      var w1 := Do(w0, Appended(e));
      assert w1.trace[|w.trace|] == checked;
      SettleTailLegal(c, w, w1, s, r, a);
      LegalFirst(c, w0, Appended(e), script.effects.tail.tail);
    }
  }

  /** From the settle signature on. */
  lemma SettleTailLegal(c: Config, w: World, w1: World, s: State, r: Row, a: Answers)
    requires StoredAs(w, s, r) && (s.id, Settle) in w.live && a.signerOk && s.phase == InsertPushed
    requires Inv(c, w1) && w1.rows == w.rows && w1.live == w.live
    requires Stage(w1.trace, s.id) >= 5 && SpentSeen(w1.trace, s.bob.hB)
    requires PhaseEntry(s, Settled, EmptyPayload, a) in w1.log
    requires Linked(c.hash, w1.log, s.id, Settled, c.hash(PhaseEntry(s, Settled, EmptyPayload, a)))
    ensures AllLegal(c, w1, SettleScript(c, w, r, s, a).effects.tail.tail)
  {
    assert IdInv(c, w1, s.id);
    var w2 := Do(w1, SignSettle(s));
    LegalStepKeepsInv(c, w1, SignSettle(s));
    Reached(w1.trace, SignSettle(s), s.id, 5);
    var w3 := Do(w2, ReleaseSettlePush(s));
    LegalStepKeepsInv(c, w2, ReleaseSettlePush(s));
    Reached(w2.trace, ReleaseSettlePush(s), s.id, 6);
    SettleWriteLegal(c, w, w3, s, r, a);
    LegalFirst(c, w2, ReleaseSettlePush(s), SettleScript(c, w, r, s, a).effects.tail.tail.tail.tail);
  }

  lemma SettleWriteLegal(c: Config, w: World, w3: World, s: State, r: Row, a: Answers)
    requires StoredAs(w, s, r) && (s.id, Settle) in w.live && a.signerOk && s.phase == InsertPushed
    requires Inv(c, w3) && w3.rows == w.rows && Stage(w3.trace, s.id) >= 6
    requires PhaseEntry(s, Settled, EmptyPayload, a) in w3.log
    requires Linked(c.hash, w3.log, s.id, Settled, c.hash(PhaseEntry(s, Settled, EmptyPayload, a)))
    ensures AllLegal(c, w3, SettleScript(c, w, r, s, a).effects.tail.tail.tail.tail)
  {
    assert IdInv(c, w3, s.id);
    var e := PhaseEntry(s, Settled, EmptyPayload, a);
    var settled := Advance(s, Settled, a.clock(1), c.hash(e));
    var row := Persisted(w.rows, settled, a.clock(2));
    PersistedFacts(w, w.rows, s, r, settled, a.clock(2));
    PhaseWriteLegal(c, w3, s, r, e, row);
    var last := Cons(Discarded(s.id, Refund), CloseHtlc(r, CloseSettle, a));
    HarmlessIsLegal(c, Do(w3, Wrote(row)), last);
    LegalFirst(c, w3, Wrote(row), last);
  }

  /** The audit entry of a phase and the row that stores it, one after the other. */
  lemma EntryThenRowLegal(c: Config, w: World, s: State, r: Row, e: Entry, row: Row, rest: List<Effect>)
    requires Inv(c, w) && StoredAs(w, s, r)
    requires e.id == s.id && e.prior == s.tip && Edge(s.phase, e.phase)
    requires Coherent(row) && SameSwap(r, row) && row.phase == e.phase && row.blob.tip == c.hash(e)
    requires Stage(w.trace, s.id) >= Needed(row.phase)
    requires row.phase == Aborted ==> Count(w.trace, s.id, SignOf(Settle)) == 0
    requires AllLegal(c, Do(Do(w, Appended(e)), Wrote(row)), rest)
    ensures AllLegal(c, w, Cons(Appended(e), Cons(Wrote(row), rest)))
  {
    var w1 := Do(w, Appended(e));
    AppendLinks(c, w, s, r, e);
    Reached(w.trace, Appended(e), s.id, Needed(row.phase));
    CountSnoc(w.trace, Appended(e), s.id, SignOf(Settle));
    PhaseWriteLegal(c, w1, s, r, e, row);
    LegalFirst(c, w1, Wrote(row), rest);
    LegalFirst(c, w, Appended(e), Cons(Wrote(row), rest));
  }

  /** The status check changes nothing that later effects depend on. */
  lemma AfterCheck(c: Config, w: World, s: State, r: Row, status: SpentStatus)
    requires Inv(c, w) && StoredAs(w, s, r) && Stage(w.trace, s.id) >= 4
    ensures var w' := Do(w, Checked(s.id, s.bob.hB, status));
      && Inv(c, w') && StoredAs(w', s, r) && Stage(w'.trace, s.id) >= 4
      && Count(w'.trace, s.id, SignOf(Settle)) == Count(w.trace, s.id, SignOf(Settle))
  {
    var checked := Checked(s.id, s.bob.hB, status);
    LegalStepKeepsInv(c, w, checked);
    Reached(w.trace, checked, s.id, 4);
    CountSnoc(w.trace, checked, s.id, SignOf(Settle));
  }

  lemma RetryLegal(c: Config, w: World, s: State, r: Row, a: Answers)
    requires Inv(c, w) && StoredAs(w, s, r) && s.phase == InsertPushed
    ensures AllLegal(c, w, RetryScript(c, w, s, a).effects)
  {
    assert IdInv(c, w, s.id);
    var e := PhaseEntry(s, InsertPushed, AttemptPayload(s.attempts + 1), a);
    if s.attempts == 255 {
      assert AllHarmless(RetryScript(c, w, s, a).effects.tail.tail);
      HarmlessIsLegal(c, w, RetryScript(c, w, s, a).effects);
      return;
    }
    AfterCheck(c, w, s, r, a.status);
    var w0 := Do(w, Checked(s.id, s.bob.hB, a.status));
    var w1 := Do(w0, InsertPush(s));
    LegalStepKeepsInv(c, w0, InsertPush(s));
    Reached(w0.trace, InsertPush(s), s.id, 4);
    var retried := InsertPushedRetry(s, a.clock(1), c.hash(e)).value;
    var row := Persisted(w.rows, retried, a.clock(2));
    PersistedFacts(w, w.rows, s, r, retried, a.clock(2));
    EntryThenRowLegal(c, w1, s, r, e, row, Nil);
    LegalFirst(c, w0, InsertPush(s), Cons(Appended(e), Cons(Wrote(row), Nil)));
  }

  /** An abort is only written when webcash had not reported `Spent`, hence nothing was signed to settle. */
  lemma AbortLegal(c: Config, w: World, s: State, r: Row, a: Answers)
    requires Inv(c, w) && StoredAs(w, s, r) && s.phase == InsertPushed
    requires Monotone(w.trace, s.bob.hB, a.status) && a.status != Spent
    ensures AllLegal(c, w, AbortScript(c, w, s, a).effects)
  {
    assert IdInv(c, w, s.id);
    var e := PhaseEntry(s, Aborted, AbortPayload(s.attempts), a);
    AfterCheck(c, w, s, r, a.status);
    var w0 := Do(w, Checked(s.id, s.bob.hB, a.status));
    var aborted := Advance(s, Aborted, a.clock(1), c.hash(e));
    var row := Persisted(w.rows, aborted, a.clock(2));
    PersistedFacts(w, w.rows, s, r, aborted, a.clock(2));
    var push := Pushed(s.id, s.parties.bobFp, Invalidate, [s.bob.hB]);
    HarmlessIsLegal(c, Do(Do(w0, Appended(e)), Wrote(row)), Cons(push, Nil));
    EntryThenRowLegal(c, w0, s, r, e, row, Cons(push, Nil));
    LegalFirst(c, w, Checked(s.id, s.bob.hB, a.status), Cons(Appended(e), Cons(Wrote(row), Cons(push, Nil))));
  }

  lemma InvalidateLegal(c: Config, w: World, s: State, r: Row, a: Answers)
    requires Inv(c, w) && StoredAs(w, s, r) && s.phase == Aborted
    ensures AllLegal(c, w, InvalidateScript(c, w, s, a).effects)
  {
    assert IdInv(c, w, s.id);
    var e := PhaseEntry(s, Invalidated, AckPayload(true), a);
    var w1 := Do(w, Appended(e));
    AppendLinks(c, w, s, r, e);
    Reached(w.trace, Appended(e), s.id, 4);
    var next := Advance(s, Invalidated, a.clock(1), c.hash(e));
    var row := Persisted(w.rows, next, a.clock(2));
    PersistedFacts(w, w.rows, s, r, next, a.clock(2));
    PhaseWriteLegal(c, w1, s, r, e, row);
    LegalFirst(c, w1, Wrote(row), Nil);
  }

  lemma RefundLegal(c: Config, w: World, s: State, r: Row, a: Answers)
    requires Inv(c, w) && StoredAs(w, s, r) && s.phase == Invalidated
    ensures AllLegal(c, w, RefundScript(c, w, r, s, a).effects)
  {
    var script := RefundScript(c, w, r, s, a);
    if (s.id, Refund) !in w.live || !a.signerOk {
      HarmlessIsLegal(c, w, script.effects);
    } else {
      var w0 := Do(w, SignRefund(s));
      assert IdInv(c, w, s.id);
      LegalStepKeepsInv(c, w, SignRefund(s));
      Reached(w.trace, SignRefund(s), s.id, 4);
      var w1 := Do(w0, ReleaseRefundPush(s));
      LegalStepKeepsInv(c, w0, ReleaseRefundPush(s));
      Reached(w0.trace, ReleaseRefundPush(s), s.id, 4);
      RefundTailLegal(c, w, w1, s, r, a);
      LegalFirst(c, w0, ReleaseRefundPush(s), script.effects.tail.tail);
      LegalFirst(c, w, SignRefund(s), script.effects.tail);
    }
  }

  lemma RefundTailLegal(c: Config, w: World, w1: World, s: State, r: Row, a: Answers)
    requires StoredAs(w, s, r) && (s.id, Refund) in w.live && a.signerOk && s.phase == Invalidated
    requires Inv(c, w1) && w1.rows == w.rows && Stage(w1.trace, s.id) >= 4
    ensures AllLegal(c, w1, RefundScript(c, w, r, s, a).effects.tail.tail)
  {
    assert IdInv(c, w1, s.id);
    var e := PhaseEntry(s, Refunded, EmptyPayload, a);
    var w2 := Do(w1, Appended(e));
    AppendLinks(c, w1, s, r, e);
    Reached(w1.trace, Appended(e), s.id, 4);
    var next := Advance(s, Refunded, a.clock(1), c.hash(e));
    var row := Persisted(w.rows, next, a.clock(2));
    PersistedFacts(w, w.rows, s, r, next, a.clock(2));
    PhaseWriteLegal(c, w2, s, r, e, row);
    var last := Cons(Discarded(s.id, Settle), CloseHtlc(r, CloseRefund, a));
    HarmlessIsLegal(c, Do(w2, Wrote(row)), last);
    LegalFirst(c, w2, Wrote(row), last);
    LegalFirst(c, w1, Appended(e), Cons(Wrote(row), last));
  }

  lemma AdvanceLegal(c: Config, w: World, id: SwapId, a: Answers)
    requires Inv(c, w)
    requires id in w.rows ==> Monotone(w.trace, w.rows[id].hB, a.status)
    ensures AllLegal(c, w, AdvanceScript(c, w, id, a).effects)
  {
    assert IdInv(c, w, id);
    if id in w.rows {
      var r := w.rows[id];
      var s := Decode(r);
      match r.phase
      case InsertPushed =>
        if a.status == Spent { SettleLegal(c, w, s, r, a); }
        else if s.attempts < c.retry { RetryLegal(c, w, s, r, a); }
        else { AbortLegal(c, w, s, r, a); }
      case Aborted => InvalidateLegal(c, w, s, r, a);
      case Invalidated => RefundLegal(c, w, s, r, a);
      case _ =>
    }
  }

  // ------------------------------------------------------------------
  // cancel_swap
  // ------------------------------------------------------------------

  lemma CancelLegal(c: Config, w: World, id: SwapId, requester: string, reason: string, a: Answers)
    requires Inv(c, w)
    ensures AllLegal(c, w, CancelScript(c, w, id, requester, reason, a).effects)
  {
    assert IdInv(c, w, id);
    if CancelScript(c, w, id, requester, reason, a).effects.Cons? {
      var r := w.rows[id];
      var s := r.blob;
      var e := CancelEntry(r, requester, reason, a);
      var row := CanceledRow(c, r, requester, reason, a);
      var w1 := Do(w, Appended(e));
      AppendLinks(c, w, s, r, e);
      PhaseWriteLegal(c, w1, s, r, e, row);
      var rest := CancelEffects(c, r, requester, reason, a).tail.tail;
      assert AllHarmless(CloseHtlc(r, CloseCancel, a));
      assert AllHarmless(When(a.lucky(3), Discarded(r.id, Refund), CloseHtlc(r, CloseCancel, a)));
      HarmlessIsLegal(c, Do(w1, Wrote(row)), rest);
      LegalFirst(c, w1, Wrote(row), rest);
    }
  }

  // ------------------------------------------------------------------
  // start_swap
  // ------------------------------------------------------------------

  /** A fresh id: nothing was ever done for it. */
  ghost predicate Fresh(w: World, id: SwapId) {
    id !in w.rows && forall i :: 0 <= i < |w.trace| ==> Subject(w.trace[i]) != id
  }

  lemma FreshMeansNothingDone(w: World, id: SwapId)
    requires Fresh(w, id)
    ensures Count(w.trace, id, BeginOf(Settle)) == 0 && Count(w.trace, id, BeginOf(Refund)) == 0
  {
    CountPositive(w.trace, id, BeginOf(Settle));
    CountPositive(w.trace, id, BeginOf(Refund));
  }

  /** Appending the entry of the next phase and writing its row, in the middle of `start_swap`. */
  lemma StartPhaseLegal(c: Config, w: World, s: State, r: Row, e: Entry, s': State, now: nat, rest: List<Effect>)
    requires Inv(c, w) && StoredAs(w, s, r)
    requires e.id == s.id && e.prior == s.tip && Edge(s.phase, e.phase)
    requires s' == s.(phase := e.phase, enteredAt := s'.enteredAt, attempts := s'.attempts, tip := c.hash(e))
    requires e.phase in {ZkpsVerified, PreChecked, InsertPushed}
    requires Stage(w.trace, s.id) >= Needed(e.phase)
    ensures var row := Persisted(map[s.id := r], s', now);
      var w' := Do(Do(w, Appended(e)), Wrote(row));
      && Inv(c, w') && StoredAs(w', s', row) && Stage(w'.trace, s.id) >= Needed(e.phase)
      && (AllLegal(c, w', rest) ==> AllLegal(c, w, Cons(Appended(e), Cons(Wrote(row), rest))))
  {
    assert IdInv(c, w, s.id);
    var row := Persisted(map[s.id := r], s', now);
    PersistedFacts(w, map[s.id := r], s, r, s', now);
    AppendLinks(c, w, s, r, e);
    var w1 := Do(w, Appended(e));
    Reached(w.trace, Appended(e), s.id, Needed(e.phase));
    PhaseWriteLegal(c, w1, s, r, e, row);
    LegalStepKeepsInv(c, w1, Wrote(row));
    Reached(w1.trace, Wrote(row), s.id, Needed(e.phase));
    if AllLegal(c, Do(w1, Wrote(row)), rest) {
      LegalFirst(c, w1, Wrote(row), rest);
      LegalFirst(c, w, Appended(e), Cons(Wrote(row), rest));
    }
  }

  lemma StartTailLegal(c: Config, w: World, s: State, r: Row, a: Answers)
    requires Inv(c, w) && StoredAs(w, s, r) && s.phase == PreChecked
    ensures AllLegal(c, w, StartTail(c, s, r, a).effects)
  {
    assert IdInv(c, w, s.id);
    var e := FirstInsertEntry(s, a);
    var pushed := InsertPushedFromPre(s, a.clock(9), c.hash(e));
    var w1 := Do(w, InsertPush(s));
    LegalStepKeepsInv(c, w, InsertPush(s));
    Reached(w.trace, InsertPush(s), s.id, 3);
    StartPhaseLegal(c, w1, s, r, e, pushed, a.clock(10), Nil);
  }

  lemma StartPreCheckLegal(c: Config, w: World, s: State, r: Row, a: Answers)
    requires Inv(c, w) && StoredAs(w, s, r) && s.phase == ZkpsVerified
    ensures AllLegal(c, w, StartPreCheck(c, s, r, a).effects)
  {
    assert IdInv(c, w, s.id);
    var e := PreCheckEntry(s, a);
    var checked := Checked(s.id, s.bob.hB, a.status);
    var w1 := Do(w, checked);
    LegalStepKeepsInv(c, w, checked);
    Reached(w.trace, checked, s.id, 2);
    if a.status == Unspent {
      var pre := PreCheck(s, true, a.clock(6), c.hash(e)).value;
      var row := Persisted(map[s.id := r], pre, a.clock(7));
      var rest := StartTail(c, pre, row, a).effects;
      StartPhaseLegal(c, w1, s, r, e, pre, a.clock(7), rest);
      StartTailLegal(c, Do(Do(w1, Appended(e)), Wrote(row)), pre, row, a);
    } else {
      HarmlessIsLegal(c, w1, Cons(Appended(e), Nil));
    }
  }

  lemma StartVerifyLegal(c: Config, w: World, s: State, r: Row, a: Answers)
    requires Inv(c, w) && StoredAs(w, s, r) && s.phase == Init
    ensures AllLegal(c, w, StartVerify(c, s, r, a).effects)
  {
    var e := ZkpEntry(s, a);
    var bob := Verified(s.id, BobCircuit, s.bob.zkp, a.okBob);
    var alice := Verified(s.id, AliceCircuit, s.alice.zkp, a.okAlice);
    var w1 := Do(w, bob);
    LegalStepKeepsInv(c, w, bob);
    Reached(w.trace, bob, s.id, 0);
    var w2 := Do(w1, alice);
    LegalStepKeepsInv(c, w1, alice);
    if a.okBob && a.okAlice {
      Reached(w1.trace, alice, s.id, 1);
      var zkps := VerifyZkps(s, true, a.clock(3), c.hash(e)).value;
      var row := Persisted(map[s.id := r], zkps, a.clock(4));
      var rest := StartPreCheck(c, zkps, row, a).effects;
      StartPhaseLegal(c, w2, s, r, e, zkps, a.clock(4), rest);
      StartPreCheckLegal(c, Do(Do(w2, Appended(e)), Wrote(row)), zkps, row, a);
      LegalFirst(c, w1, alice, Cons(Appended(e), Cons(Wrote(row), rest)));
    } else {
      HarmlessIsLegal(c, w2, Cons(Appended(e), Nil));
      LegalFirst(c, w1, alice, Cons(Appended(e), Nil));
    }
  }

  /** From the minted swap record on, with or without an HTLC record. */
  lemma StartMintLegal(c: Config, w: World, id: SwapId, q: Request, a: Answers)
    requires Inv(c, w) && StoredAs(w, InitState(c, id, q, a), InitRow(c, id, q, a))
    ensures AllLegal(c, w, StartScript(c, id, q, a).effects.tail.tail.tail.tail)
  {
    assert IdInv(c, w, id);
    var s := InitState(c, id, q, a);
    var minted := MintedRow(c, id, q, a);
    var rest := StartVerify(c, s, minted, a).effects;
    var w1 := Do(w, Minted(id));
    LegalStepKeepsInv(c, w, Minted(id));
    if a.htlc.Some? {
      var w2 := Do(w1, MintedHtlc(id, a.htlc.value));
      LegalStepKeepsInv(c, w1, MintedHtlc(id, a.htlc.value));
      assert IdInv(c, w2, id);
      LegalStepKeepsInv(c, w2, Wrote(minted));
      StartVerifyLegal(c, Do(w2, Wrote(minted)), s, minted, a);
      LegalFirst(c, w2, Wrote(minted), rest);
      LegalFirst(c, w1, MintedHtlc(id, a.htlc.value), Cons(Wrote(minted), rest));
    } else {
      StartVerifyLegal(c, w1, s, minted, a);
    }
  }

  lemma StartLegal(c: Config, w: World, id: SwapId, q: Request, a: Answers)
    requires Inv(c, w) && Fresh(w, id)
    ensures AllLegal(c, w, StartScript(c, id, q, a).effects)
  {
    var es := StartScript(c, id, q, a).effects;
    var e := InitEntry(id, q, a);
    var row := InitRow(c, id, q, a);
    FreshMeansNothingDone(w, id);
    var w1 := Do(w, Began(id, Settle));
    LegalStepKeepsInv(c, w, Began(id, Settle));
    CountSnoc(w.trace, Began(id, Settle), id, BeginOf(Refund));
    var w2 := Do(w1, Began(id, Refund));
    LegalStepKeepsInv(c, w1, Began(id, Refund));
    var w3 := Do(w2, Appended(e));
    LegalStepKeepsInv(c, w2, Appended(e));
    LinkedInit(c.hash, w2.log, e);
    LegalStepKeepsInv(c, w3, Wrote(row));
    StartMintLegal(c, Do(w3, Wrote(row)), id, q, a);
    LegalFirst(c, w3, Wrote(row), es.tail.tail.tail.tail);
    LegalFirst(c, w2, Appended(e), es.tail.tail.tail);
    LegalFirst(c, w1, Began(id, Refund), es.tail.tail);
  }
}
