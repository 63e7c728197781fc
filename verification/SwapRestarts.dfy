// What a restart of the process does to swaps in flight: their sessions are
// gone, so neither path can be signed any more (referee/src/musig2.rs,
// referee/src/store/mod.rs).

module SwapRestarts {
  import opened Prelude
  import opened SwapState
  import opened SwapProtocol
  import opened SwapHistory
  import opened SwapInvariant
  import opened SwapProgress
  import opened SwapRuns
  import opened SwapLocality

  predicate Closed(w: World, id: SwapId) { forall s: Session :: (id, s) !in w.live }

  /** Neither session is open and nothing has come of the swap. */
  predicate Forsaken(w: World, id: SwapId) {
    id in w.rows && w.rows[id].phase !in {Settled, Refunded} && Closed(w, id)
  }

  ghost predicate SignedAlike(w: World, w': World, id: SwapId) {
    forall s :: Count(w'.trace, id, SignOf(s)) == Count(w.trace, id, SignOf(s))
  }

  // ------------------------------------------------------------------
  // One call
  // ------------------------------------------------------------------

  /** Without open sessions a legal script that opens none signs nothing for this swap. */
  lemma {:induction false} ClosedStaysClosed(
      c: Config, w: World, es: List<Effect>, ids: set<SwapId>, reply: Reply, n: nat, id: SwapId)
    requires AllLegal(c, w, es) && Calm(es, ids) && Closed(w, id)
    ensures var w' := Exec(w, es, reply, n).0; Closed(w', id) && SignedAlike(w, w', id)
    decreases es
  {
    if es.Cons? && n > 0 {
      forall s ensures Count(Do(w, es.head).trace, id, SignOf(s)) == Count(w.trace, id, SignOf(s)) {
        CountSnoc(w.trace, es.head, id, SignOf(s));
      }
      ClosedStaysClosed(c, Do(w, es.head), es.tail, ids, reply, n - 1, id);
    }
  }

  /** Calls of another swap sign nothing for this one. */
  lemma {:induction false} OthersSignNothing(w: World, es: List<Effect>, reply: Reply, n: nat, owner: SwapId, id: SwapId)
    requires About(es, owner) && id != owner
    ensures SignedAlike(w, Exec(w, es, reply, n).0, id)
    decreases es
  {
    if es.Cons? && n > 0 {
      forall s ensures Count(Do(w, es.head).trace, id, SignOf(s)) == Count(w.trace, id, SignOf(s)) {
        CountSnoc(w.trace, es.head, id, SignOf(s));
      }
      OthersSignNothing(Do(w, es.head), es.tail, reply, n - 1, owner, id);
    }
  }

  /** No row in one of the two signed phases is written. */
  predicate NoEnd(es: List<Effect>) {
    es.Nil? || ((es.head.Wrote? ==> es.head.row.phase !in {Settled, Refunded}) && NoEnd(es.tail))
  }

  lemma {:induction false} NoEndIsWritten(w: World, es: List<Effect>, reply: Reply, n: nat, id: SwapId)
    requires NoEnd(es) && id in w.rows && w.rows[id].phase !in {Settled, Refunded}
    ensures var rows := Exec(w, es, reply, n).0.rows; id in rows && rows[id].phase !in {Settled, Refunded}
    decreases es
  {
    if es.Cons? && n > 0 { NoEndIsWritten(Do(w, es.head), es.tail, reply, n - 1, id); }
  }

  lemma NoEndTwo(e1: Effect, e2: Effect, rest: List<Effect>)
    requires NoEnd(rest) && !e1.Wrote? && (e2.Wrote? ==> e2.row.phase !in {Settled, Refunded})
    ensures NoEnd(Cons(e1, Cons(e2, rest)))
  {}

  lemma AdvanceEndsNothing(c: Config, w: World, id: SwapId, a: Answers)
    requires Forsaken(w, id) && w.rows[id].blob.id == id
    ensures NoEnd(AdvanceScript(c, w, id, a).effects)
  {
    var es := AdvanceScript(c, w, id, a).effects;
    if w.rows[id].phase == InsertPushed && a.status != Spent {
      AttemptCounterNeverOverflows(c, w, id, a);
      assert NoEnd(es.tail.tail);
      NoEndTwo(es.head, es.tail.head, es.tail.tail);
    }
  }

  lemma CancelEndsNothing(c: Config, w: World, id: SwapId, requester: string, reason: string, a: Answers)
    ensures NoEnd(CancelScript(c, w, id, requester, reason, a).effects)
  {
    if id in w.rows {
      var r := w.rows[id];
      var refund := When(a.lucky(3), Discarded(r.id, Refund), CloseHtlc(r, CloseCancel, a));
      var discards := When(a.lucky(2), Discarded(r.id, Settle), refund);
      assert NoEnd(refund);
      assert NoEnd(discards);
      var push := When(r.attempts > 0 && a.lucky(1), Pushed(r.id, r.aliceFp, Invalidate, [r.hB]), discards);
      NoEndTwo(Appended(CancelEntry(r, requester, reason, a)), Wrote(CanceledRow(c, r, requester, reason, a)), push);
    }
  }

  lemma OwnCallForsakes(c: Config, w: World, id: SwapId, step: Step)
    requires Inv(c, w) && Plausible(w, step) && Forsaken(w, id) && IsCallOf(step, id)
    ensures var w' := After(c, w, step).0; Forsaken(w', id) && SignedAlike(w, w', id)
  {
    assert IdInv(c, w, id);
    StepLegal(c, w, step);
    var script := ScriptOf(c, w, step.call, step.answers);
    match step.call {
      case AdvanceCall(_) =>
        AdvanceCalm(c, w, id, step.answers);
        AdvanceEndsNothing(c, w, id, step.answers);
      case CancelCall(_, requester, reason) =>
        CancelCalm(c, w, id, requester, reason, step.answers);
        CancelEndsNothing(c, w, id, requester, reason, step.answers);
      case StartCall(_, _) =>
    }
    ClosedStaysClosed(c, w, script.effects, Names(w, id), script.reply, step.stop, id);
    NoEndIsWritten(w, script.effects, script.reply, step.stop, id);
  }

  lemma StepForsakes(c: Config, w: World, id: SwapId, step: Step)
    requires Inv(c, w) && Plausible(w, step) && Forsaken(w, id)
    ensures var w' := After(c, w, step).0; Forsaken(w', id) && SignedAlike(w, w', id)
  {
    if IsCallOf(step, id) {
      OwnCallForsakes(c, w, id, step);
    } else if step.Step? {
      assert IdInv(c, w, step.call.id);
      var script := ScriptOf(c, w, step.call, step.answers);
      CallAbout(c, w, step.call, step.answers);
      OthersStay(w, script.effects, script.reply, step.stop, step.call.id, id);
      OthersSignNothing(w, script.effects, script.reply, step.stop, step.call.id, id);
    }
  }

  // ------------------------------------------------------------------
  // Whole runs
  // ------------------------------------------------------------------

  lemma {:induction false} ForsakenForever(c: Config, w: World, id: SwapId, steps: seq<Step>)
    requires Inv(c, w) && PlausibleRun(c, w, steps) && Forsaken(w, id)
    ensures var w' := Run(c, w, steps); Forsaken(w', id) && SignedAlike(w, w', id)
    decreases |steps|
  {
    if steps != [] {
      StepForsakes(c, w, id, steps[0]);
      StepKeepsInv(c, w, steps[0]);
      ForsakenForever(c, After(c, w, steps[0]).0, id, steps[1..]);
    }
  }

  /**
   * Whatever calls follow, a swap that has not settled or refunded by the time
   * of a restart never does, and the referee never signs for it again: no
   * refund path engages.
   */
  lemma NothingIsSignedAfterRestart(c: Config, w: World, id: SwapId, later: seq<Step>)
    requires Inv(c, w) && PlausibleRun(c, w, [Restart] + later)
    requires id in w.rows && w.rows[id].phase !in {Settled, Refunded}
    ensures var w' := Run(c, w, [Restart] + later);
      && id in w'.rows && w'.rows[id].phase !in {Settled, Refunded}
      && forall s :: Count(w'.trace, id, SignOf(s)) == Count(w.trace, id, SignOf(s))
  {
    assert ([Restart] + later)[1..] == later;
    RestartKeepsInv(c, w);
    ForsakenForever(c, w.(live := {}), id, later);
  }
}
