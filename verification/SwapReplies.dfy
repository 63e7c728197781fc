// What the reply of a call tells: who may cancel and when, and which sessions
// are closed, who was told and which records were closed once a call has gone
// through (referee/src/api/orchestrator.rs).

module SwapReplies {
  import opened Prelude
  import opened SwapState
  import opened SwapProtocol
  import opened SwapInvariant
  import opened SwapRuns
  import opened SwapLocality
  import opened SwapProgress
  import opened SwapRetries

  // ------------------------------------------------------------------
  // Who may cancel
  // ------------------------------------------------------------------

  /**
   * Bob may cancel until the swap is over or aborted, Alice until the insert
   * push went out; each with a signature of the whole request under the key the
   * swap was created with.
   */
  ghost predicate MayBeCanceled(r: Row, requester: string, reason: string, sigOk: (string, CancelMessage) -> bool) {
    var message := CancelMessage(r.id, requester, reason);
    if requester == r.bobFp then
      r.phase in {Init, ZkpsVerified, PreChecked, InsertPushed} && sigOk(r.blob.parties.bobCancelKey, message)
    else
      && requester == r.aliceFp
      && r.phase in {Init, ZkpsVerified, PreChecked} && sigOk(r.blob.parties.aliceCancelKey, message)
  }

  /** A cancel that may be made goes through unless it is cut off; any other changes nothing. */
  lemma CancelGoesThroughExactly(c: Config, w: World, id: SwapId, requester: string, reason: string, a: Answers, n: nat)
    requires Inv(c, w)
    ensures var (w', reply, _) := After(c, w, Step(CancelCall(id, requester, reason), a, n));
      if id in w.rows && MayBeCanceled(w.rows[id], requester, reason, a.sigOk) then
        && (n >= MOST_EFFECTS ==> reply == Done)
        && (n >= 2 ==> w'.rows == w.rows[id := CanceledRow(c, w.rows[id], requester, reason, a)])
        && (n < 2 ==> w'.rows == w.rows && reply == Failed(Stopped))
      else
        reply.Failed? && w' == w
  {
    assert IdInv(c, w, id);
    var script := CancelScript(c, w, id, requester, reason, a);
    if script.reply == Done {
      var r := w.rows[id];
      var rest := script.effects.tail.tail;
      CancelRest(c, r, a, rest);
      CancelCut(w, script.effects.head, script.effects.tail.head, rest, script.reply, n);
      if n >= MOST_EFFECTS { EnoughBudgetCompletes(w, script.effects, script.reply, n); }
    }
  }

  lemma ShortClose(r: Row, how: CloseKind, a: Answers)
    ensures NoWrites(CloseHtlc(r, how, a)) && Length(CloseHtlc(r, how, a)) <= 1
  {
    var es := CloseHtlc(r, how, a);
    if es.Cons? { assert es.tail == Nil && Length(es.tail) == 0 && NoWrites(es.tail); }
  }

  /** The best-effort part of a cancel. */
  lemma CancelRest(c: Config, r: Row, a: Answers, rest: List<Effect>)
    requires rest == When(r.attempts > 0 && a.lucky(1), Pushed(r.id, r.aliceFp, Invalidate, [r.hB]),
      When(a.lucky(2), Discarded(r.id, Settle), When(a.lucky(3), Discarded(r.id, Refund), CloseHtlc(r, CloseCancel, a))))
    ensures NoWrites(rest) && Length(rest) <= 4
  {
    var close := CloseHtlc(r, CloseCancel, a);
    ShortClose(r, CloseCancel, a);
    var refund := When(a.lucky(3), Discarded(r.id, Refund), close);
    assert NoWrites(refund) && Length(refund) <= 2;
    var discards := When(a.lucky(2), Discarded(r.id, Settle), refund);
    assert NoWrites(discards) && Length(discards) <= 3;
  }

  lemma CancelCut(w: World, e1: Effect, e2: Effect, rest: List<Effect>, reply: Reply, n: nat)
    requires !e1.Wrote? && NoWrites(rest)
    ensures var (w', r, _) := Exec(w, Cons(e1, Cons(e2, rest)), reply, n);
      && (n >= 2 ==> w'.rows == Do(Do(w, e1), e2).rows)
      && (n < 2 ==> w'.rows == w.rows && r == Failed(Stopped))
  {
    if n > 0 { ExecSplits(w, e1, Cons(e2, rest), reply, n); }
    if n > 1 {
      ExecSplits(Do(w, e1), e2, rest, reply, n - 1);
      NoWritesNoRows(Do(Do(w, e1), e2), rest, reply, n - 2);
    }
  }

  predicate All(es: List<Effect>, ok: Effect -> bool) {
    es.Nil? || (ok(es.head) && All(es.tail, ok))
  }

  lemma AllTwo(e1: Effect, e2: Effect, rest: List<Effect>, ok: Effect -> bool)
    requires All(rest, ok) && ok(e1) && ok(e2)
    ensures All(Cons(e1, Cons(e2, rest)), ok)
  {}

  lemma {:induction false} RowsWritten(w: World, es: List<Effect>, reply: Reply, n: nat, id: SwapId, ok: Effect -> bool)
    requires All(es, ok)
    ensures var rows := Exec(w, es, reply, n).0.rows;
      && (id in w.rows ==> id in rows)
      && (id in rows ==> (id in w.rows && rows[id] == w.rows[id]) || ok(Wrote(rows[id])))
    decreases es
  {
    if es.Cons? && n > 0 { RowsWritten(Do(w, es.head), es.tail, reply, n - 1, id, ok); }
  }

  lemma {:induction false} EntriesLogged(w: World, es: List<Effect>, reply: Reply, n: nat, ok: Effect -> bool)
    requires All(es, ok)
    ensures var log := Exec(w, es, reply, n).0.log;
      w.log <= log && forall i :: |w.log| <= i < |log| ==> ok(Appended(log[i]))
    decreases es
  {
    if es.Cons? && n > 0 { EntriesLogged(Do(w, es.head), es.tail, reply, n - 1, ok); }
  }

  function NotCanceled(): Effect -> bool { (e: Effect) => e.Wrote? ==> e.row.phase != Canceled }

  /** Logged at the first time the clock was read, entered at the second, stored at the third, and not canceled. */
  function Stamped(a: Answers): Effect -> bool {
    (e: Effect) =>
      && (e.Wrote? ==> e.row.phase != Canceled && e.row.blob.enteredAt == a.clock(1) && e.row.updatedAt == a.clock(2))
      && (e.Appended? ==> e.entry.ts == a.clock(0))
  }

  lemma SettleStamps(c: Config, w: World, r: Row, s: State, a: Answers)
    ensures All(SettleScript(c, w, r, s, a).effects, Stamped(a))
  {
    var ok := Stamped(a);
    var es := SettleScript(c, w, r, s, a).effects;
    if (s.id, Settle) in w.live && a.signerOk {
      var end := es.tail.tail.tail.tail;
      AllTwo(end.head, end.tail.head, CloseHtlc(r, CloseSettle, a), ok);
      AllTwo(es.tail.tail.head, es.tail.tail.tail.head, end, ok);
    } else {
      assert All(es.tail.tail, ok);
    }
    AllTwo(es.head, es.tail.head, es.tail.tail, ok);
  }

  lemma RefundStamps(c: Config, w: World, r: Row, s: State, a: Answers)
    ensures All(RefundScript(c, w, r, s, a).effects, Stamped(a))
  {
    var ok := Stamped(a);
    var es := RefundScript(c, w, r, s, a).effects;
    if (s.id, Refund) in w.live && a.signerOk {
      assert All(es.tail.tail.tail.tail, ok);
      AllTwo(es.tail.tail.head, es.tail.tail.tail.head, es.tail.tail.tail.tail, ok);
      AllTwo(es.head, es.tail.head, es.tail.tail, ok);
    }
  }

  lemma MiddleStamps(c: Config, w: World, s: State, a: Answers)
    ensures s.phase == InsertPushed ==> All(RetryScript(c, w, s, a).effects, Stamped(a))
    ensures All(AbortScript(c, w, s, a).effects, Stamped(a))
    ensures All(InvalidateScript(c, w, s, a).effects, Stamped(a))
  {
    var ok := Stamped(a);
    if s.phase == InsertPushed {
      var es := RetryScript(c, w, s, a).effects;
      assert All(es.tail.tail, ok);
      AllTwo(es.head, es.tail.head, es.tail.tail, ok);
    }
    var es := AbortScript(c, w, s, a).effects;
    assert All(es.tail.tail, ok);
    AllTwo(es.head, es.tail.head, es.tail.tail, ok);
  }

  lemma AdvanceStamps(c: Config, w: World, id: SwapId, a: Answers)
    ensures All(AdvanceScript(c, w, id, a).effects, Stamped(a))
  {
    if id in w.rows {
      SettleStamps(c, w, w.rows[id], Decode(w.rows[id]), a);
      RefundStamps(c, w, w.rows[id], Decode(w.rows[id]), a);
      MiddleStamps(c, w, Decode(w.rows[id]), a);
    }
  }

  /** What an advance call logs, enters and stores carries the first, second and third time it read the clock. */
  lemma AdvanceTellsTheTime(c: Config, w: World, id: SwapId, a: Answers, n: nat)
    requires id in w.rows
    ensures var w' := After(c, w, Step(AdvanceCall(id), a, n)).0;
      && id in w'.rows
      && (w'.rows[id] != w.rows[id] ==> w'.rows[id].blob.enteredAt == a.clock(1) && w'.rows[id].updatedAt == a.clock(2))
      && w.log <= w'.log && forall i :: |w.log| <= i < |w'.log| ==> w'.log[i].ts == a.clock(0)
  {
    var script := AdvanceScript(c, w, id, a);
    AdvanceStamps(c, w, id, a);
    RowsWritten(w, script.effects, script.reply, n, id, Stamped(a));
    EntriesLogged(w, script.effects, script.reply, n, Stamped(a));
  }

  /** A swap only becomes canceled by a cancel call of its own that a party may make, and its row says which. */
  lemma OnlyPartiesCancel(c: Config, w: World, step: Step, id: SwapId)
    requires Inv(c, w) && Plausible(w, step) && id in w.rows && w.rows[id].phase != Canceled
    requires var rows := After(c, w, step).0.rows; id in rows && rows[id].phase == Canceled
    ensures IsCallOf(step, id) && step.call.CancelCall?
    ensures MayBeCanceled(w.rows[id], step.call.requester, step.call.reason, step.answers.sigOk)
    ensures After(c, w, step).0.rows == w.rows[id := CanceledRow(c, w.rows[id], step.call.requester, step.call.reason, step.answers)]
  {
    assert step.Step?;
    var script := ScriptOf(c, w, step.call, step.answers);
    assert IdInv(c, w, step.call.id);
    if step.call.id != id {
      CallAbout(c, w, step.call, step.answers);
      OthersStay(w, script.effects, script.reply, step.stop, step.call.id, id);
    } else {
      match step.call {
        case StartCall(_, _) =>
        case AdvanceCall(_) =>
          AdvanceStamps(c, w, id, step.answers);
          RowsWritten(w, script.effects, script.reply, step.stop, id, Stamped(step.answers));
        case CancelCall(_, requester, reason) =>
          CancelGoesThroughExactly(c, w, id, requester, reason, step.answers, step.stop);
      }
    }
  }

  /** The row of a canceled swap differs from the one before in nothing but the cancel. */
  lemma CanceledRowTells(c: Config, r: Row, requester: string, reason: string, a: Answers)
    ensures var r' := CanceledRow(c, r, requester, reason, a);
      && r'.phase == Canceled && r'.cancelReason == Some(reason) && r'.canceledBy == Some(requester)
      && r'.blob.enteredAt == a.clock(0) && r'.updatedAt == a.clock(0)
      && SameSwap(r, r') && r'.attempts == r.attempts && r'.htlcContract == r.htlcContract
  {}

  ghost predicate CanceledBy(c: Config, w: World, step: Step, id: SwapId) {
    && IsCallOf(step, id) && step.call.CancelCall? && id in w.rows
    && MayBeCanceled(w.rows[id], step.call.requester, step.call.reason, step.answers.sigOk)
    && CancelNoted(After(c, w, step).0, id, step.call.requester, step.call.reason)
  }

  predicate CancelNoted(w: World, id: SwapId, requester: string, reason: string) {
    && id in w.rows && w.rows[id].phase == Canceled
    && w.rows[id].canceledBy == Some(requester) && w.rows[id].cancelReason == Some(reason)
  }

  /**
   * In every run, a canceled swap was canceled by one of its calls, which a party
   * was entitled to make when it was made.
   */
  lemma {:induction false} CanceledSwapsWereCanceled(c: Config, w: World, steps: seq<Step>, id: SwapId) returns (at: nat)
    requires Inv(c, w) && PlausibleRun(c, w, steps) && (id in w.rows ==> w.rows[id].phase != Canceled)
    requires var w' := Run(c, w, steps); id in w'.rows && w'.rows[id].phase == Canceled
    ensures at < |steps| && CanceledBy(c, Run(c, w, steps[..at]), steps[at], id)
    ensures var call := steps[at].call; CancelNoted(Run(c, w, steps), id, call.requester, call.reason)
    decreases |steps|
  {
    var w1 := After(c, w, steps[0]).0;
    StepKeepsInv(c, w, steps[0]);
    if id in w1.rows && w1.rows[id].phase == Canceled {
      at := 0;
      if id !in w.rows { NotBornCanceled(c, w, steps[0], id); }
      OnlyPartiesCancel(c, w, steps[0], id);
      RunGoesForward(c, w1, steps[1..]);
      assert IdInv(c, w1, id);
      assert Run(c, w, steps[..0]) == w;
    } else {
      var later := CanceledSwapsWereCanceled(c, w1, steps[1..], id);
      at := later + 1;
      assert steps[..at][0] == steps[0] && steps[..at][1..] == steps[1..][..later];
    }
  }

  /** A call that creates a row leaves it short of canceled. */
  lemma NotBornCanceled(c: Config, w: World, step: Step, id: SwapId)
    requires Inv(c, w) && Plausible(w, step) && id !in w.rows
    ensures var rows := After(c, w, step).0.rows; id in rows ==> rows[id].phase != Canceled
  {
    if step.Step? {
      var script := ScriptOf(c, w, step.call, step.answers);
      assert IdInv(c, w, step.call.id);
      CallAbout(c, w, step.call, step.answers);
      if step.call.id != id {
        OthersStay(w, script.effects, script.reply, step.stop, step.call.id, id);
      } else if step.call.StartCall? {
        StartCancelsNothing(c, id, step.call.request, step.answers);
        RowsWritten(w, script.effects, script.reply, step.stop, id, NotCanceled());
      }
    }
  }

  lemma PreCheckCancelsNothing(c: Config, s: State, r: Row, a: Answers)
    requires s.phase == ZkpsVerified
    ensures All(StartPreCheck(c, s, r, a).effects, NotCanceled())
  {
    var es := StartPreCheck(c, s, r, a).effects;
    if a.status == Unspent {
      assert All(es.tail.tail.tail.tail, NotCanceled());
      AllTwo(es.tail.tail.head, es.tail.tail.tail.head, es.tail.tail.tail.tail, NotCanceled());
    }
    AllTwo(es.head, es.tail.head, es.tail.tail, NotCanceled());
  }

  lemma StartCancelsNothing(c: Config, id: SwapId, q: Request, a: Answers)
    ensures All(StartScript(c, id, q, a).effects, NotCanceled())
  {
    var es := StartScript(c, id, q, a).effects;
    var s, minted := InitState(c, id, q, a), MintedRow(c, id, q, a);
    var rest := StartVerify(c, s, minted, a).effects;
    if a.okBob && a.okAlice {
      var zkps := VerifyZkps(s, true, a.clock(3), c.hash(ZkpEntry(s, a))).value;
      PreCheckCancelsNothing(c, zkps, Persisted(map[s.id := minted], zkps, a.clock(4)), a);
      AllTwo(rest.tail.tail.head, rest.tail.tail.tail.head, rest.tail.tail.tail.tail, NotCanceled());
    } else {
      assert All(rest.tail.tail, NotCanceled());
    }
    AllTwo(rest.head, rest.tail.head, rest.tail.tail, NotCanceled());
    var htlc := es.tail.tail.tail.tail.tail;
    if a.htlc.Some? { AllTwo(htlc.head, htlc.tail.head, rest, NotCanceled()); }
    AllTwo(es.tail.tail.tail.head, es.tail.tail.tail.tail.head, htlc, NotCanceled());
    AllTwo(es.head, es.tail.head, es.tail.tail, NotCanceled());
  }

  // ------------------------------------------------------------------
  // What has happened when a call went through
  // ------------------------------------------------------------------

  /** A reply that is no failure means that the whole script was performed. */
  lemma RepliedMeansFinished(c: Config, w: World, call: Call, a: Answers, n: nat)
    requires !After(c, w, Step(call, a, n)).1.Failed?
    ensures After(c, w, Step(call, a, n)).0 == Finish(w, ScriptOf(c, w, call, a).effects)
    ensures After(c, w, Step(call, a, n)).1 == ScriptOf(c, w, call, a).reply
  {
    var script := ScriptOf(c, w, call, a);
    if n < Length(script.effects) {
      ShortBudgetFails(w, script.effects, script.reply, n);
    } else {
      CompletedRunsFinish(w, script.effects, script.reply, n);
    }
  }

  /** The reply is no failure. */
  predicate WentThrough(reply: Reply) { !reply.Failed? }

  /**
   * An advance call that goes through reports exactly the end that is stored
   * now, if one is; of a swap that was over it changes nothing, nor of one that
   * its start has not brought to its first insert push.
   */
  lemma ReplyIsStoredPhase(c: Config, w: World, id: SwapId, a: Answers, n: nat)
    requires Inv(c, w)
    ensures var (w', reply, _) := After(c, w, Step(AdvanceCall(id), a, n));
      && (id !in w.rows ==> reply.Failed? && w' == w)
      && (id in w.rows && w.rows[id].phase !in {InsertPushed, Aborted, Invalidated} ==> reply.Advanced? && w' == w)
      && (WentThrough(reply) ==> reply.Advanced? && id in w'.rows && EndOf(w'.rows[id].phase) == reply.outcome)
  {
    assert IdInv(c, w, id);
    if WentThrough(After(c, w, Step(AdvanceCall(id), a, n)).1) && id in w.rows {
      var r := w.rows[id];
      RepliedMeansFinished(c, w, AdvanceCall(id), a, n);
      match r.phase {
        case InsertPushed => PushedReply(c, w, id, a);
        case Aborted => FinishTwo(w, InvalidateScript(c, w, Decode(r), a).effects);
        case Invalidated => RefundIsStored(c, w, r, Decode(r), a);
        case _ =>
      }
    }
  }

  function EndOf(phase: Phase): Option<Outcome> {
    match phase
    case Settled => Some(OutcomeSettled)
    case Refunded => Some(OutcomeRefunded)
    case Canceled => Some(OutcomeCanceled)
    case _ => None
  }

  lemma PushedReply(c: Config, w: World, id: SwapId, a: Answers)
    requires Inv(c, w) && id in w.rows && w.rows[id].phase == InsertPushed
    ensures var script := AdvanceScript(c, w, id, a);
      var rows := Finish(w, script.effects).rows;
      WentThrough(script.reply) ==> script.reply.Advanced? && id in rows && EndOf(rows[id].phase) == script.reply.outcome
  {
    assert IdInv(c, w, id);
    var s := Decode(w.rows[id]);
    if a.status == Spent {
      if SettleScript(c, w, w.rows[id], s, a).reply.Advanced? { SettleIsStored(c, w, w.rows[id], s, a); }
    } else if s.attempts < c.retry {
      RetryStaysOut(c, w, s, a);
    } else {
      AbortPushes(c, w, s, a);
    }
  }

  /** What has been done for a swap that is over: no session is open, and the HTLC record is closed if it could be. */
  ghost predicate Wound(w: World, r: Row, how: CloseKind, lucky: bool) {
    && (r.id, Settle) !in w.live && (r.id, Refund) !in w.live
    && (r.htlcContract.Some? && lucky ==> ClosedHtlc(r.id, r.htlcContract.value, how) in w.trace)
  }

  lemma FinishesClose(w: World, r: Row, how: CloseKind, a: Answers)
    ensures var w' := Finish(w, CloseHtlc(r, how, a));
      && w'.live == w.live && w.trace <= w'.trace
      && (r.htlcContract.Some? && a.lucky(0) ==> ClosedHtlc(r.id, r.htlcContract.value, how) in w'.trace)
  {
    var es := CloseHtlc(r, how, a);
    if es.Cons? {
      var w1 := Do(w, es.head);
      assert w1.trace[|w.trace|] == es.head && Finish(w1, es.tail) == w1;
    }
  }

  lemma SettleWinds(c: Config, w: World, r: Row, s: State, a: Answers)
    requires s.id == r.id && SettleScript(c, w, r, s, a).reply.Advanced?
    ensures Wound(Finish(w, SettleScript(c, w, r, s, a).effects), r, CloseSettle, a.lucky(0))
  {
    var es := SettleScript(c, w, r, s, a).effects;
    FinishTwo(w, es);
    var w2 := Do(Do(w, es.head), es.tail.head);
    FinishTwo(w2, es.tail.tail);
    var w4 := Do(Do(w2, es.tail.tail.head), es.tail.tail.tail.head);
    var rest := es.tail.tail.tail.tail;
    FinishTwo(w4, rest);
    FinishesClose(Do(Do(w4, rest.head), rest.tail.head), r, CloseSettle, a);
  }

  lemma RefundWinds(c: Config, w: World, r: Row, s: State, a: Answers)
    requires s.id == r.id && RefundScript(c, w, r, s, a).reply.Advanced?
    ensures Wound(Finish(w, RefundScript(c, w, r, s, a).effects), r, CloseRefund, a.lucky(0))
  {
    var es := RefundScript(c, w, r, s, a).effects;
    FinishTwo(w, es);
    var w3 := Do(Do(Do(w, es.head), es.tail.head), es.tail.tail.head);
    var rest := es.tail.tail.tail;
    FinishTwo(w3, rest);
    FinishesClose(Do(Do(w3, rest.head), rest.tail.head), r, CloseRefund, a);
  }

  /**
   * Once an advance call reports the end of a swap, no session is open and the HTLC
   * record is closed the same way if it could be.
   */
  lemma EndWindsUp(c: Config, w: World, id: SwapId, a: Answers, n: nat)
    requires Inv(c, w) && id in w.rows && !w.rows[id].terminal
    ensures var (w', reply, _) := After(c, w, Step(AdvanceCall(id), a, n));
      && (reply == Advanced(Some(OutcomeSettled)) ==> Wound(w', w.rows[id], CloseSettle, a.lucky(0)))
      && (reply == Advanced(Some(OutcomeRefunded)) ==> Wound(w', w.rows[id], CloseRefund, a.lucky(0)))
  {
    assert IdInv(c, w, id);
    var r := w.rows[id];
    if After(c, w, Step(AdvanceCall(id), a, n)).1.Advanced? {
      RepliedMeansFinished(c, w, AdvanceCall(id), a, n);
      if r.phase == InsertPushed && a.status == Spent { SettleWinds(c, w, r, Decode(r), a); }
      else if r.phase == Invalidated { RefundWinds(c, w, r, Decode(r), a); }
    }
  }

  lemma AbortPushes(c: Config, w: World, s: State, a: Answers)
    ensures var w' := Finish(w, AbortScript(c, w, s, a).effects);
      && |w.trace| < |w'.trace| && w'.trace[|w'.trace| - 1] == Pushed(s.id, s.parties.bobFp, Invalidate, [s.bob.hB])
      && s.id in w'.rows && w'.rows[s.id].phase == Aborted
  {
    var es := AbortScript(c, w, s, a).effects;
    FinishFour(w, es.head, es.tail.head, es.tail.tail.head, es.tail.tail.tail.head);
  }

  lemma RetryStaysOut(c: Config, w: World, s: State, a: Answers)
    requires s.phase == InsertPushed && s.attempts < 255
    ensures var rows := Finish(w, RetryScript(c, w, s, a).effects).rows; s.id in rows && rows[s.id].phase == InsertPushed
  {
    var es := RetryScript(c, w, s, a).effects;
    FinishFour(w, es.head, es.tail.head, es.tail.tail.head, es.tail.tail.tail.head);
  }

  /** An abort call that goes through has told Bob, after storing the row. */
  lemma AbortTellsBob(c: Config, w: World, id: SwapId, a: Answers, n: nat)
    requires Inv(c, w) && id in w.rows && w.rows[id].phase == InsertPushed
    ensures var (w', reply, _) := After(c, w, Step(AdvanceCall(id), a, n));
      !reply.Failed? && id in w'.rows && w'.rows[id].phase == Aborted ==>
        && |w.trace| < |w'.trace|
        && w'.trace[|w'.trace| - 1] == Pushed(id, w.rows[id].bobFp, Invalidate, [w.rows[id].hB])
  {
    assert IdInv(c, w, id);
    var s := Decode(w.rows[id]);
    if !After(c, w, Step(AdvanceCall(id), a, n)).1.Failed? {
      RepliedMeansFinished(c, w, AdvanceCall(id), a, n);
      if a.status == Spent { SettleIsStored(c, w, w.rows[id], s, a); }
      else if s.attempts < c.retry { RetryStaysOut(c, w, s, a); }
      else { AbortPushes(c, w, s, a); }
    }
  }

  /** Why a start that is not cut off fails. */
  lemma StartFailsFor(c: Config, w: World, id: SwapId, q: Request, a: Answers, n: nat)
    requires n >= MOST_START_EFFECTS
    ensures After(c, w, Step(StartCall(id, q), a, n)).1 ==
      if !a.okBob || !a.okAlice then Failed(ZkpRejected) else if a.status != Unspent then Failed(InvalidTransition) else Done
  {
    var script := StartScript(c, id, q, a);
    StartSucceeds(c, w, id, q, a, n);
    StartIsShort(c, id, q, a);
    CompletedRunsFinish(w, script.effects, script.reply, n);
  }

  lemma StartIsShort(c: Config, id: SwapId, q: Request, a: Answers)
    ensures Length(StartScript(c, id, q, a).effects) <= MOST_START_EFFECTS
  {
    if Accepts(a) {
      StartLaunches(c, EMPTY_WORLD, id, q, a);
    } else {
      var es := StartScript(c, id, q, a).effects;
      var s, r := InitState(c, id, q, a), MintedRow(c, id, q, a);
      RefusedIsShort(c, s, r, a);
      var rest := StartVerify(c, s, r, a).effects;
      var htlc := es.tail.tail.tail.tail.tail;
      assert Length(htlc) <= 2 + Length(rest);
      assert Length(es.tail.tail.tail) == 2 + Length(htlc);
      assert Length(es.tail) == 2 + Length(es.tail.tail.tail);
    }
  }

  lemma RefusedIsShort(c: Config, s: State, r: Row, a: Answers)
    requires s.phase == Init && !Accepts(a)
    ensures Length(StartVerify(c, s, r, a).effects) <= 6
  {
    var es := StartVerify(c, s, r, a).effects;
    if a.okBob && a.okAlice {
      var zkps := VerifyZkps(s, true, a.clock(3), c.hash(ZkpEntry(s, a))).value;
      var pre := StartPreCheck(c, zkps, Persisted(map[s.id := r], zkps, a.clock(4)), a).effects;
      assert Length(pre) == 2 by { assert Length(pre.tail) == 1; }
      assert Length(es.tail.tail) == 4 by { assert Length(es.tail.tail.tail) == 3; }
    } else {
      assert Length(es.tail.tail) == 1;
    }
  }

  lemma FinishWhen(w: World, cond: bool, e: Effect, rest: List<Effect>)
    ensures Finish(w, When(cond, e, rest)) == Finish(if cond then Do(w, e) else w, rest)
  {}

  /**
   * A cancel that goes through has told Alice if an insert was out, and closed the
   * sessions and the HTLC record, each with its own luck.
   */
  lemma CancelWindsUp(c: Config, w: World, id: SwapId, requester: string, reason: string, a: Answers, n: nat)
    requires Inv(c, w) && After(c, w, Step(CancelCall(id, requester, reason), a, n)).1 == Done
    ensures var w' := After(c, w, Step(CancelCall(id, requester, reason), a, n)).0;
      var r := w.rows[id];
      && (r.attempts > 0 && a.lucky(1) ==> Pushed(id, r.aliceFp, Invalidate, [r.hB]) in w'.trace)
      && (a.lucky(2) ==> (id, Settle) !in w'.live) && (a.lucky(3) ==> (id, Refund) !in w'.live)
      && (r.htlcContract.Some? && a.lucky(0) ==> ClosedHtlc(id, r.htlcContract.value, CloseCancel) in w'.trace)
  {
    assert IdInv(c, w, id);
    RepliedMeansFinished(c, w, CancelCall(id, requester, reason), a, n);
    var r := w.rows[id];
    var es := CancelScript(c, w, id, requester, reason, a).effects;
    var close := CloseHtlc(r, CloseCancel, a);
    var refund := When(a.lucky(3), Discarded(r.id, Refund), close);
    var discards := When(a.lucky(2), Discarded(r.id, Settle), refund);
    var push := Pushed(r.id, r.aliceFp, Invalidate, [r.hB]);
    FinishTwo(w, es);
    var w2 := Do(Do(w, es.head), es.tail.head);
    FinishWhen(w2, r.attempts > 0 && a.lucky(1), push, discards);
    var w3 := if r.attempts > 0 && a.lucky(1) then Do(w2, push) else w2;
    FinishWhen(w3, a.lucky(2), Discarded(r.id, Settle), refund);
    var w4 := if a.lucky(2) then Do(w3, Discarded(r.id, Settle)) else w3;
    FinishWhen(w4, a.lucky(3), Discarded(r.id, Refund), close);
    var w5 := if a.lucky(3) then Do(w4, Discarded(r.id, Refund)) else w4;
    FinishesClose(w5, r, CloseCancel, a);
    if r.attempts > 0 && a.lucky(1) { assert w5.trace[|w2.trace|] == push; }
  }

  lemma {:induction false} TraceGrows(w: World, es: List<Effect>)
    ensures w.trace <= Finish(w, es).trace
    decreases es
  {
    if es.Cons? { TraceGrows(Do(w, es.head), es.tail); }
  }

  /** An effect after four others, and one after that. */
  lemma FifthIsSeen(w: World, e1: Effect, e2: Effect, e3: Effect, e4: Effect, e5: Effect, rest: List<Effect>)
    ensures var t := Finish(w, Cons(e1, Cons(e2, Cons(e3, Cons(e4, Cons(e5, rest)))))).trace;
      e5 in t && (rest.Cons? ==> rest.head in t)
  {
    var es5 := Cons(e5, rest);
    var w4 := Do(Do(Do(Do(w, e1), e2), e3), e4);
    FinishTwo(w, Cons(e1, Cons(e2, Cons(e3, Cons(e4, es5)))));
    FinishTwo(Do(Do(w, e1), e2), Cons(e3, Cons(e4, es5)));
    var w5 := Do(w4, e5);
    assert w5.trace[|w4.trace|] == e5;
    TraceGrows(w5, rest);
    if rest.Cons? {
      assert Do(w5, rest.head).trace[|w5.trace|] == rest.head;
      TraceGrows(Do(w5, rest.head), rest.tail);
    }
  }

  /** A start that goes through has minted the swap record, and the HTLC record if it was answered. */
  lemma StartMints(c: Config, w: World, id: SwapId, q: Request, a: Answers, n: nat)
    requires After(c, w, Step(StartCall(id, q), a, n)).1 == Done
    ensures var w' := After(c, w, Step(StartCall(id, q), a, n)).0;
      Minted(id) in w'.trace && (a.htlc.Some? ==> MintedHtlc(id, a.htlc.value) in w'.trace)
  {
    RepliedMeansFinished(c, w, StartCall(id, q), a, n);
    var es := StartScript(c, id, q, a).effects;
    var rest := es.tail.tail.tail.tail.tail;
    FifthIsSeen(w, es.head, es.tail.head, es.tail.tail.head, es.tail.tail.tail.head, Minted(id), rest);
  }
}
