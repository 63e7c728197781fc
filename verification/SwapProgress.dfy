// A swap in flight only needs a bounded number of advance calls
// (referee/src/api/orchestrator.rs, run_to_completion).

module SwapProgress {
  import opened Prelude
  import opened SwapState
  import opened SwapProtocol
  import opened SwapHistory

  /** Past `start_swap`, not yet terminal, with both signing sessions still open. */
  predicate InFlight(w: World, id: SwapId) {
    && id in w.rows && w.rows[id].id == id && Coherent(w.rows[id])
    && w.rows[id].phase in {InsertPushed, Aborted, Invalidated}
    && (id, Settle) in w.live && (id, Refund) in w.live
  }

  /** Advance calls that can still be needed; falls with every call. */
  function CallsLeft(c: Config, r: Row): nat {
    match r.phase
    case InsertPushed => 3 + if r.attempts < c.retry then c.retry - r.attempts else 0
    case Aborted => 2
    case Invalidated => 1
    case _ => 0
  }

  /** Insert pushes that can still go out. */
  function InsertsLeft(c: Config, r: Row): nat {
    if r.phase == InsertPushed && r.attempts < c.retry then c.retry - r.attempts else 0
  }

  const MOST_EFFECTS: nat := 8

  lemma PushCountSnoc(w: World, e: Effect, id: SwapId)
    ensures Count(Do(w, e).trace, id, PushOf(Insert)) ==
      Count(w.trace, id, PushOf(Insert)) + if Is(e, id, PushOf(Insert)) then 1 else 0
  {
    CountSnoc(w.trace, e, id, PushOf(Insert));
  }

  /** The counter of insert pushes never wraps: a retry only happens below the configured u8 budget. */
  lemma AttemptCounterNeverOverflows(c: Config, w: World, id: SwapId, a: Answers)
    ensures AdvanceScript(c, w, id, a).reply != Failed(AttemptOverflow)
  {}

  ghost predicate Progressed(c: Config, w: World, w': World, id: SwapId) {
    && InFlight(w, id) && InFlight(w', id)
    && CallsLeft(c, w'.rows[id]) < CallsLeft(c, w.rows[id])
    && Count(w'.trace, id, PushOf(Insert)) + InsertsLeft(c, w'.rows[id])
         <= Count(w.trace, id, PushOf(Insert)) + InsertsLeft(c, w.rows[id])
  }

  lemma FinishFour(w: World, e1: Effect, e2: Effect, e3: Effect, e4: Effect)
    ensures Finish(w, Cons(e1, Cons(e2, Cons(e3, Cons(e4, Nil))))) == Do(Do(Do(Do(w, e1), e2), e3), e4)
  {
    FinishTwo(w, Cons(e1, Cons(e2, Cons(e3, Cons(e4, Nil)))));
    FinishTwo(Do(Do(w, e1), e2), Cons(e3, Cons(e4, Nil)));
  }

  lemma RetryProgresses(c: Config, w: World, id: SwapId, a: Answers, n: nat)
    requires InFlight(w, id) && w.rows[id].phase == InsertPushed && w.rows[id].attempts < c.retry && n >= 4
    ensures var script := RetryScript(c, w, Decode(w.rows[id]), a);
      && Exec(w, script.effects, script.reply, n).1 == Advanced(None)
      && Progressed(c, w, Exec(w, script.effects, script.reply, n).0, id)
  {
    var script := RetryScript(c, w, Decode(w.rows[id]), a);
    var es := script.effects;
    var w1 := Do(w, es.head);
    var w2 := Do(w1, es.tail.head);
    var w3 := Do(w2, es.tail.tail.head);
    var w4 := Do(w3, es.tail.tail.tail.head);
    PushCountSnoc(w, es.head, id);
    PushCountSnoc(w1, es.tail.head, id);
    PushCountSnoc(w2, es.tail.tail.head, id);
    PushCountSnoc(w3, es.tail.tail.tail.head, id);
    MiddleScripts(c, w, Decode(w.rows[id]), a);
    CompletedRunsFinish(w, es, script.reply, n);
    FinishFour(w, es.head, es.tail.head, es.tail.tail.head, es.tail.tail.tail.head);
  }

  lemma AbortProgresses(c: Config, w: World, id: SwapId, a: Answers, n: nat)
    requires InFlight(w, id) && w.rows[id].phase == InsertPushed && n >= 4
    ensures var script := AbortScript(c, w, Decode(w.rows[id]), a);
      && Exec(w, script.effects, script.reply, n).1 == Advanced(None)
      && Progressed(c, w, Exec(w, script.effects, script.reply, n).0, id)
  {
    var script := AbortScript(c, w, Decode(w.rows[id]), a);
    var es := script.effects;
    var w1 := Do(w, es.head);
    var w2 := Do(w1, es.tail.head);
    var w3 := Do(w2, es.tail.tail.head);
    var w4 := Do(w3, es.tail.tail.tail.head);
    PushCountSnoc(w, es.head, id);
    PushCountSnoc(w1, es.tail.head, id);
    PushCountSnoc(w2, es.tail.tail.head, id);
    PushCountSnoc(w3, es.tail.tail.tail.head, id);
    MiddleScripts(c, w, Decode(w.rows[id]), a);
    CompletedRunsFinish(w, es, script.reply, n);
    FinishFour(w, es.head, es.tail.head, es.tail.tail.head, es.tail.tail.tail.head);
  }

  /** A row of a later phase, written over a row in flight. */
  lemma StoredPhaseIsInFlight(w: World, id: SwapId, next: State, now: nat, w': World)
    requires InFlight(w, id) && next.id == id && next.phase in {InsertPushed, Aborted, Invalidated}
    requires w'.rows == w.rows[id := Persisted(w.rows, next, now)] && w'.live == w.live
    ensures InFlight(w', id) && w'.rows[id].phase == next.phase && w'.rows[id].attempts == next.attempts
  {}

  /** The row an invalidation stores. */
  function InvalidatedState(c: Config, s: State, a: Answers): State {
    Advance(s, Invalidated, a.clock(1), c.hash(PhaseEntry(s, Invalidated, AckPayload(true), a)))
  }

  lemma InvalidateFinishes(c: Config, w: World, id: SwapId, a: Answers)
    requires InFlight(w, id)
    ensures var s := Decode(w.rows[id]);
      var w' := Finish(w, InvalidateScript(c, w, s, a).effects);
      && w'.rows == w.rows[id := Persisted(w.rows, InvalidatedState(c, s, a), a.clock(2))] && w'.live == w.live
      && Count(w'.trace, id, PushOf(Insert)) == Count(w.trace, id, PushOf(Insert))
  {
    var s := Decode(w.rows[id]);
    var es := InvalidateScript(c, w, s, a).effects;
    var w1 := Do(w, es.head);
    PushCountSnoc(w, es.head, id);
    PushCountSnoc(w1, es.tail.head, id);
    FinishTwo(w, es);
    assert Finish(Do(w1, es.tail.head), es.tail.tail) == Do(w1, es.tail.head);
  }

  lemma InvalidateProgresses(c: Config, w: World, id: SwapId, a: Answers, n: nat)
    requires InFlight(w, id) && w.rows[id].phase == Aborted && n >= 2
    ensures var script := InvalidateScript(c, w, Decode(w.rows[id]), a);
      && Exec(w, script.effects, script.reply, n).1 == Advanced(None)
      && Progressed(c, w, Exec(w, script.effects, script.reply, n).0, id)
  {
    var s := Decode(w.rows[id]);
    var script := InvalidateScript(c, w, s, a);
    MiddleScripts(c, w, s, a);
    CompletedRunsFinish(w, script.effects, script.reply, n);
    InvalidateFinishes(c, w, id, a);
    StoredPhaseIsInFlight(w, id, InvalidatedState(c, s, a), a.clock(2), Finish(w, script.effects));
  }

  function Length(es: List<Effect>): nat {
    match es
    case Nil => 0
    case Cons(_, rest) => 1 + Length(rest)
  }

  lemma {:induction false} EnoughBudgetCompletes(w: World, es: List<Effect>, reply: Reply, n: nat)
    requires n >= Length(es)
    ensures Exec(w, es, reply, n).1 == reply
    decreases es
  {
    if es.Cons? { EnoughBudgetCompletes(Do(w, es.head), es.tail, reply, n - 1); }
  }

  /** Insert pushes of one script. */
  function InsertsIn(es: List<Effect>): nat {
    match es
    case Nil => 0
    case Cons(e, rest) => (if e.Pushed? && e.kind == Insert then 1 else 0) + InsertsIn(rest)
  }

  lemma {:induction false} InsertsBounded(w: World, es: List<Effect>, reply: Reply, n: nat, id: SwapId)
    ensures Count(Exec(w, es, reply, n).0.trace, id, PushOf(Insert))
         <= Count(w.trace, id, PushOf(Insert)) + InsertsIn(es)
    decreases es
  {
    if es.Cons? && n > 0 {
      PushCountSnoc(w, es.head, id);
      InsertsBounded(Do(w, es.head), es.tail, reply, n - 1, id);
    }
  }

  lemma FinalScripts(c: Config, w: World, r: Row, a: Answers)
    ensures var es := SettleScript(c, w, r, Decode(r), a).effects; Length(es) <= MOST_EFFECTS && InsertsIn(es) == 0
    ensures var es := RefundScript(c, w, r, Decode(r), a).effects; Length(es) <= MOST_EFFECTS && InsertsIn(es) == 0
  {
    var close := CloseHtlc(r, CloseSettle, a);
    if close.Cons? { assert close.tail == Nil && InsertsIn(close.tail) == 0; }
    assert Length(close) <= 1 && InsertsIn(close) == 0;
    var settle := SettleScript(c, w, r, Decode(r), a).effects;
    if Length(settle.tail.tail) <= 1 {
      assert InsertsIn(settle.tail.tail) == 0;
    } else {
      var end := settle.tail.tail.tail.tail;
      assert Length(end) <= 3 && InsertsIn(end) == 0;
      assert Length(settle.tail.tail) <= 5 && InsertsIn(settle.tail.tail) == 0;
    }
    var close' := CloseHtlc(r, CloseRefund, a);
    assert Length(close') <= 1 && InsertsIn(close') == 0;
    var refund := RefundScript(c, w, r, Decode(r), a).effects;
    if refund.Cons? && refund.tail.Cons? {
      var end := refund.tail.tail.tail.tail;
      assert Length(end) <= 2 && InsertsIn(end) == 0;
      assert Length(refund.tail.tail) <= 4 && InsertsIn(refund.tail.tail) == 0;
    }
  }

  lemma MiddleScripts(c: Config, w: World, s: State, a: Answers)
    ensures s.phase == InsertPushed ==> var es := RetryScript(c, w, s, a).effects; 3 <= Length(es) <= 4 && InsertsIn(es) == 1
    ensures s.phase == InsertPushed && s.attempts < 255 ==> Length(RetryScript(c, w, s, a).effects) == 4
    ensures var es := AbortScript(c, w, s, a).effects; Length(es) == 4 && InsertsIn(es) == 0
    ensures var es := InvalidateScript(c, w, s, a).effects; Length(es) == 2 && InsertsIn(es) == 0
  {
    if s.phase == InsertPushed {
      var es := RetryScript(c, w, s, a).effects.tail.tail;
      assert es.tail.Nil? || es.tail.tail.Nil?;
      assert InsertsIn(es.tail) == 0;
      assert 1 <= Length(es) <= 2 && InsertsIn(es) == 0;
      assert s.attempts < 255 ==> Length(es) == 2;
    }
    var es := AbortScript(c, w, s, a).effects.tail.tail;
    assert Length(es.tail) == 1 && InsertsIn(es.tail) == 0;
    assert Length(es) == 2 && InsertsIn(es) == 0;
    assert Length(InvalidateScript(c, w, s, a).effects.tail) == 1;
  }

  lemma {:induction false} ShortBudgetFails(w: World, es: List<Effect>, reply: Reply, n: nat)
    requires n < Length(es)
    ensures Exec(w, es, reply, n).1 == Failed(Stopped)
    decreases es
  {
    if n > 0 { ShortBudgetFails(Do(w, es.head), es.tail, reply, n - 1); }
  }

  /**
   * One advance of a swap in flight ends it or brings it closer to its end.
   * It fails only if it is stopped or the signer rejects Alice's key or
   * nonce, and whatever happens it sends no more inserts than were left.
   */
  lemma AdvanceProgresses(c: Config, w: World, id: SwapId, a: Answers, n: nat)
    requires InFlight(w, id)
    ensures var script := AdvanceScript(c, w, id, a);
      var (w', reply, _) := Exec(w, script.effects, script.reply, n);
      && (reply == Advanced(None) ==> Progressed(c, w, w', id))
      && reply in {Advanced(None), Advanced(Some(OutcomeSettled)), Advanced(Some(OutcomeRefunded)), Failed(Stopped), Failed(Musig2)}
      && (n >= MOST_EFFECTS && a.signerOk ==> !reply.Failed?)
      && Count(w'.trace, id, PushOf(Insert)) <= Count(w.trace, id, PushOf(Insert)) + InsertsLeft(c, w.rows[id])
  {
    var r := w.rows[id];
    var script := AdvanceScript(c, w, id, a);
    FinalScripts(c, w, r, a);
    MiddleScripts(c, w, Decode(r), a);
    InsertsBounded(w, script.effects, script.reply, n, id);
    if n < Length(script.effects) {
      ShortBudgetFails(w, script.effects, script.reply, n);
    } else {
      EnoughBudgetCompletes(w, script.effects, script.reply, n);
      match r.phase
      case InsertPushed =>
        if a.status == Spent {}
        else if r.attempts < c.retry { RetryProgresses(c, w, id, a, n); }
        else { AbortProgresses(c, w, id, a, n); }
      case Aborted => InvalidateProgresses(c, w, id, a, n);
      case Invalidated =>
    }
  }

  // ------------------------------------------------------------------
  // From a successful start
  // ------------------------------------------------------------------

  /** The world after all effects of a list. */
  function Finish(w: World, es: List<Effect>): World
    decreases es
  {
    if es.Nil? then w else Finish(Do(w, es.head), es.tail)
  }

  lemma {:induction false} CompletedRunsFinish(w: World, es: List<Effect>, reply: Reply, n: nat)
    requires n >= Length(es)
    ensures Exec(w, es, reply, n) == (Finish(w, es), reply, n - Length(es))
    decreases es
  {
    if es.Cons? { CompletedRunsFinish(Do(w, es.head), es.tail, reply, n - 1); }
  }

  const MOST_START_EFFECTS: nat := 17

  /** A start that is answered this way has nothing to object to. */
  predicate Accepts(a: Answers) {
    a.okBob && a.okAlice && a.status == Unspent
  }

  /** One insert push and a row in `insert-pushed` after its first attempt. */
  ghost predicate Launches(w: World, es: List<Effect>, id: SwapId) {
    var w' := Finish(w, es);
    && InFlight(w', id) && w'.rows[id].phase == InsertPushed && w'.rows[id].attempts == 1
    && InsertsIn(es) == 1
  }

  lemma TailLaunches(c: Config, w: World, s: State, r: Row, a: Answers)
    requires s.phase == PreChecked && (s.id, Settle) in w.live && (s.id, Refund) in w.live
    ensures var es := StartTail(c, s, r, a).effects; Launches(w, es, s.id) && Length(es) == 3
  {
    var es := StartTail(c, s, r, a).effects;
    var last := es.tail.tail;
    var w2 := Do(Do(w, es.head), es.tail.head);
    assert Finish(w2, last) == Do(w2, last.head);
    assert InsertsIn(last) == 0 && Length(last) == 1;
  }

  /** Effects before the launch that leave the sessions alone do not disturb it. */
  lemma LaunchAfter(w: World, e: Effect, rest: List<Effect>, id: SwapId)
    requires Launches(Do(w, e), rest, id) && !e.Pushed?
    ensures Launches(w, Cons(e, rest), id) && Length(Cons(e, rest)) == Length(rest) + 1
  {}

  lemma PreCheckLaunches(c: Config, w: World, s: State, r: Row, a: Answers)
    requires s.phase == ZkpsVerified && (s.id, Settle) in w.live && (s.id, Refund) in w.live && Accepts(a)
    ensures var es := StartPreCheck(c, s, r, a).effects; Launches(w, es, s.id) && Length(es) == 6
  {
    var es := StartPreCheck(c, s, r, a).effects;
    var w1 := Do(w, es.head);
    var w2 := Do(w1, es.tail.head);
    var w3 := Do(w2, es.tail.tail.head);
    var pre := Advance(s, PreChecked, a.clock(6), c.hash(PreCheckEntry(s, a)));
    var row := Persisted(map[s.id := r], pre, a.clock(7));
    TailLaunches(c, w3, pre, row, a);
    LaunchAfter(w2, es.tail.tail.head, es.tail.tail.tail, s.id);
    LaunchAfter(w1, es.tail.head, es.tail.tail, s.id);
    LaunchAfter(w, es.head, es.tail, s.id);
  }

  lemma VerifyLaunches(c: Config, w: World, s: State, r: Row, a: Answers)
    requires s.phase == Init && (s.id, Settle) in w.live && (s.id, Refund) in w.live && Accepts(a)
    ensures var es := StartVerify(c, s, r, a).effects; Launches(w, es, s.id) && Length(es) == 10
  {
    var es := StartVerify(c, s, r, a).effects;
    var w1 := Do(w, es.head);
    var w2 := Do(w1, es.tail.head);
    var w3 := Do(w2, es.tail.tail.head);
    var w4 := Do(w3, es.tail.tail.tail.head);
    var zkps := Advance(s, ZkpsVerified, a.clock(3), c.hash(ZkpEntry(s, a)));
    var row := Persisted(map[s.id := r], zkps, a.clock(4));
    PreCheckLaunches(c, w4, zkps, row, a);
    LaunchAfter(w3, es.tail.tail.tail.head, es.tail.tail.tail.tail, s.id);
    LaunchAfter(w2, es.tail.tail.head, es.tail.tail.tail, s.id);
    LaunchAfter(w1, es.tail.head, es.tail.tail, s.id);
    LaunchAfter(w, es.head, es.tail, s.id);
  }

  lemma MintLaunches(c: Config, w: World, id: SwapId, q: Request, a: Answers)
    requires (id, Settle) in w.live && (id, Refund) in w.live && Accepts(a)
    ensures var es := StartScript(c, id, q, a).effects.tail.tail.tail.tail;
      Launches(w, es, id) && Length(es) <= 13
  {
    var es := StartScript(c, id, q, a).effects.tail.tail.tail.tail;
    var s, r := InitState(c, id, q, a), MintedRow(c, id, q, a);
    var w1 := Do(w, es.head);
    if a.htlc.None? {
      VerifyLaunches(c, w1, s, r, a);
    } else {
      var w2 := Do(w1, es.tail.head);
      VerifyLaunches(c, Do(w2, es.tail.tail.head), s, r, a);
      LaunchAfter(w2, es.tail.tail.head, es.tail.tail.tail, id);
      LaunchAfter(w1, es.tail.head, es.tail.tail, id);
    }
    LaunchAfter(w, es.head, es.tail, id);
  }

  lemma StartLaunches(c: Config, w: World, id: SwapId, q: Request, a: Answers)
    requires Accepts(a)
    ensures var es := StartScript(c, id, q, a).effects; Launches(w, es, id) && Length(es) <= MOST_START_EFFECTS
  {
    var es := StartScript(c, id, q, a).effects;
    var w1 := Do(w, es.head);
    var w2 := Do(w1, es.tail.head);
    var w3 := Do(w2, es.tail.tail.head);
    MintLaunches(c, Do(w3, es.tail.tail.tail.head), id, q, a);
    LaunchAfter(w3, es.tail.tail.tail.head, es.tail.tail.tail.tail, id);
    LaunchAfter(w2, es.tail.tail.head, es.tail.tail.tail, id);
    LaunchAfter(w1, es.tail.head, es.tail.tail, id);
    LaunchAfter(w, es.head, es.tail, id);
  }

  lemma StartReplies(c: Config, id: SwapId, q: Request, a: Answers)
    ensures StartScript(c, id, q, a).reply == Done <==> Accepts(a)
    ensures StartScript(c, id, q, a).reply == Done || StartScript(c, id, q, a).reply.Failed?
  {}

  /**
   * `start_swap` succeeds exactly when both proofs verify, the webcash is
   * unspent and nothing cuts it short; the swap is then in flight after one
   * insert push.
   */
  lemma StartSucceeds(c: Config, w: World, id: SwapId, q: Request, a: Answers, n: nat)
    ensures var script := StartScript(c, id, q, a);
      var (w', reply, _) := Exec(w, script.effects, script.reply, n);
      && (reply == Done ==>
            && Accepts(a) && InFlight(w', id) && w'.rows[id].phase == InsertPushed && w'.rows[id].attempts == 1
            && Count(w'.trace, id, PushOf(Insert)) <= Count(w.trace, id, PushOf(Insert)) + 1)
      && (reply == Done || reply.Failed?)
      && (Accepts(a) && n >= MOST_START_EFFECTS ==> reply == Done)
      && (reply == Done ==> Exec(w, script.effects, script.reply, n).2 >= n - MOST_START_EFFECTS)
  {
    var script := StartScript(c, id, q, a);
    StartReplies(c, id, q, a);
    if n < Length(script.effects) {
      ShortBudgetFails(w, script.effects, script.reply, n);
      if Accepts(a) { StartLaunches(c, w, id, q, a); }
    } else {
      CompletedRunsFinish(w, script.effects, script.reply, n);
      if Accepts(a) {
        StartLaunches(c, w, id, q, a);
        InsertsBounded(w, script.effects, script.reply, n, id);
      }
    }
  }

  // ------------------------------------------------------------------
  // What a terminal reply means for the stored row, and the budget it takes
  // ------------------------------------------------------------------

  function PhaseOf(outcome: Outcome): Phase {
    match outcome
    case OutcomeSettled => Settled
    case OutcomeRefunded => Refunded
    case OutcomeCanceled => Canceled
  }

  lemma FinishTwo(w: World, es: List<Effect>)
    requires es.Cons? && es.tail.Cons?
    ensures Finish(w, es) == Finish(Do(Do(w, es.head), es.tail.head), es.tail.tail)
  {}

  lemma FinishClose(w: World, r: Row, how: CloseKind, a: Answers)
    ensures Finish(w, CloseHtlc(r, how, a)).rows == w.rows
  {
    var es := CloseHtlc(r, how, a);
    if es.Cons? { assert Finish(Do(w, es.head), es.tail) == Do(w, es.head); }
  }

  lemma SettleIsStored(c: Config, w: World, r: Row, s: State, a: Answers)
    requires s.id == r.id && SettleScript(c, w, r, s, a).reply.Advanced?
    ensures var w' := Finish(w, SettleScript(c, w, r, s, a).effects);
      s.id in w'.rows && w'.rows[s.id].phase == Settled
  {
    var es := SettleScript(c, w, r, s, a).effects;
    FinishTwo(w, es);
    var w2 := Do(Do(w, es.head), es.tail.head);
    FinishTwo(w2, es.tail.tail);
    var w4 := Do(Do(w2, es.tail.tail.head), es.tail.tail.tail.head);
    var rest := es.tail.tail.tail.tail;
    FinishTwo(w4, rest);
    FinishClose(Do(Do(w4, rest.head), rest.tail.head), r, CloseSettle, a);
  }

  lemma RefundIsStored(c: Config, w: World, r: Row, s: State, a: Answers)
    requires s.id == r.id && RefundScript(c, w, r, s, a).reply.Advanced?
    ensures var w' := Finish(w, RefundScript(c, w, r, s, a).effects);
      s.id in w'.rows && w'.rows[s.id].phase == Refunded
  {
    var es := RefundScript(c, w, r, s, a).effects;
    FinishTwo(w, es);
    var w3 := Do(Do(Do(w, es.head), es.tail.head), es.tail.tail.head);
    var rest := es.tail.tail.tail;
    FinishTwo(w3, rest);
    FinishClose(Do(Do(w3, rest.head), rest.tail.head), r, CloseRefund, a);
  }

  /** The outcome an advance call reports is the phase it stored. */
  lemma TerminalReplyIsStored(c: Config, w: World, id: SwapId, a: Answers, n: nat)
    requires InFlight(w, id)
    ensures var script := AdvanceScript(c, w, id, a);
      var (w', reply, _) := Exec(w, script.effects, script.reply, n);
      reply.Advanced? && reply.outcome.Some? ==> id in w'.rows && w'.rows[id].phase == PhaseOf(reply.outcome.value)
  {
    var r := w.rows[id];
    var script := AdvanceScript(c, w, id, a);
    if n < Length(script.effects) {
      ShortBudgetFails(w, script.effects, script.reply, n);
    } else {
      CompletedRunsFinish(w, script.effects, script.reply, n);
      if script.reply == Advanced(Some(OutcomeSettled)) {
        SettleIsStored(c, w, r, Decode(r), a);
      } else if script.reply == Advanced(Some(OutcomeRefunded)) {
        RefundIsStored(c, w, r, Decode(r), a);
      }
    }
  }

  lemma {:induction false} BudgetLeft(w: World, es: List<Effect>, reply: Reply, n: nat)
    ensures Exec(w, es, reply, n).2 >= n - Length(es)
    decreases es
  {
    if es.Cons? && n > 0 { BudgetLeft(Do(w, es.head), es.tail, reply, n - 1); }
  }

  /** An advance call of a swap in flight takes at most eight effects. */
  lemma AdvanceIsShort(c: Config, w: World, id: SwapId, a: Answers, n: nat)
    requires InFlight(w, id)
    ensures var script := AdvanceScript(c, w, id, a);
      Exec(w, script.effects, script.reply, n).2 >= n - MOST_EFFECTS
  {
    var r := w.rows[id];
    FinalScripts(c, w, r, a);
    MiddleScripts(c, w, Decode(r), a);
    var script := AdvanceScript(c, w, id, a);
    BudgetLeft(w, script.effects, script.reply, n);
  }
}
