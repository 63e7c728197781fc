// Why the exclusivity of the two signatures rests on webcash never taking back
// that a hash is spent: if it may, four advance calls release both.

module SwapNecessity {
  import opened SwapState
  import opened SwapProtocol
  import opened SwapHistory
  import opened SwapProgress
  import opened SwapRuns

  /** The release push fails right after the settle signature; the row still says `insert-pushed`. */
  lemma FailsAfterSigning(c: Config, w: World, id: SwapId, a: Answers)
    requires InFlight(w, id) && w.rows[id].phase == InsertPushed && a.status == Spent && a.signerOk
    ensures var w' := After(c, w, Step(AdvanceCall(id), a, 3)).0;
      && w'.rows == w.rows && w'.live == w.live - {(id, Settle)}
      && Count(w'.trace, id, SignOf(Settle)) > 0
  {
    var s := Decode(w.rows[id]);
    var es := AdvanceScript(c, w, id, a).effects;
    var w1 := Do(w, es.head);
    var w2 := Do(w1, es.tail.head);
    var w3 := Do(w2, es.tail.tail.head);
    assert es.tail.tail.head == SignSettle(s);
    CountSnoc(w2.trace, SignSettle(s), id, SignOf(Settle));
    assert Exec(w2, es.tail.tail, AdvanceScript(c, w, id, a).reply, 1).0 == w3;
    assert Exec(w1, es.tail, AdvanceScript(c, w, id, a).reply, 2).0 == w3;
  }

  /** What the remaining two calls need of the world. */
  ghost predicate Waiting(w: World, id: SwapId, phase: Phase) {
    && id in w.rows && w.rows[id].id == id && Coherent(w.rows[id]) && w.rows[id].phase == phase
    && (id, Refund) in w.live && Count(w.trace, id, SignOf(Settle)) > 0
  }

  lemma QuietKeepsCount(w: World, e: Effect, id: SwapId)
    requires !e.Signed?
    ensures Count(Do(w, e).trace, id, SignOf(Settle)) == Count(w.trace, id, SignOf(Settle))
  {
    CountSnoc(w.trace, e, id, SignOf(Settle));
  }

  lemma AbortsWhenNotSpent(c: Config, w: World, id: SwapId, a: Answers)
    requires Waiting(w, id, InsertPushed) && a.status != Spent && w.rows[id].attempts >= c.retry
    ensures Waiting(After(c, w, Step(AdvanceCall(id), a, 4)).0, id, Aborted)
  {
    var script := AdvanceScript(c, w, id, a);
    var es := script.effects;
    MiddleScripts(c, w, Decode(w.rows[id]), a);
    CompletedRunsFinish(w, es, script.reply, 4);
    FinishFour(w, es.head, es.tail.head, es.tail.tail.head, es.tail.tail.tail.head);
    var w1 := Do(w, es.head);
    var w2 := Do(w1, es.tail.head);
    var w3 := Do(w2, es.tail.tail.head);
    QuietKeepsCount(w, es.head, id);
    QuietKeepsCount(w1, es.tail.head, id);
    QuietKeepsCount(w2, es.tail.tail.head, id);
    QuietKeepsCount(w3, es.tail.tail.tail.head, id);
  }

  lemma Invalidates(c: Config, w: World, id: SwapId, a: Answers)
    requires Waiting(w, id, Aborted)
    ensures Waiting(After(c, w, Step(AdvanceCall(id), a, 2)).0, id, Invalidated)
  {
    var script := AdvanceScript(c, w, id, a);
    var es := script.effects;
    MiddleScripts(c, w, Decode(w.rows[id]), a);
    CompletedRunsFinish(w, es, script.reply, 2);
    FinishTwo(w, es);
    var w1 := Do(w, es.head);
    QuietKeepsCount(w, es.head, id);
    QuietKeepsCount(w1, es.tail.head, id);
    assert Finish(Do(w1, es.tail.head), es.tail.tail) == Do(w1, es.tail.head);
  }

  lemma SignsRefund(c: Config, w: World, id: SwapId, a: Answers)
    requires Waiting(w, id, Invalidated) && a.signerOk
    ensures var w' := After(c, w, Step(AdvanceCall(id), a, 1)).0;
      Count(w'.trace, id, SignOf(Settle)) > 0 && Count(w'.trace, id, SignOf(Refund)) > 0
  {
    var s := Decode(w.rows[id]);
    var script := AdvanceScript(c, w, id, a);
    assert script.effects.head == SignRefund(s);
    CountSnoc(w.trace, SignRefund(s), id, SignOf(Settle));
    CountSnoc(w.trace, SignRefund(s), id, SignOf(Refund));
    assert Exec(Do(w, SignRefund(s)), script.effects.tail, script.reply, 0).0 == Do(w, SignRefund(s));
  }

  /**
   * From any swap in flight whose retries are used up: `Spent`, a failed push
   * after the settle signature, then `Unspent` or `Unknown`, and both sessions
   * have signed.
   */
  lemma BothSignaturesIfSpentIsTakenBack(c: Config, w: World, id: SwapId, spent: Answers, unspent: Answers)
    requires InFlight(w, id) && w.rows[id].phase == InsertPushed && w.rows[id].attempts >= c.retry
    requires spent.status == Spent && unspent.status != Spent && spent.signerOk && unspent.signerOk
    ensures var steps := [
        Step(AdvanceCall(id), spent, 3), Step(AdvanceCall(id), unspent, 4),
        Step(AdvanceCall(id), unspent, 2), Step(AdvanceCall(id), unspent, 1)];
      var t := Run(c, w, steps).trace;
      Count(t, id, SignOf(Settle)) > 0 && Count(t, id, SignOf(Refund)) > 0
  {
    var s1, s2 := Step(AdvanceCall(id), spent, 3), Step(AdvanceCall(id), unspent, 4);
    var s3, s4 := Step(AdvanceCall(id), unspent, 2), Step(AdvanceCall(id), unspent, 1);
    FailsAfterSigning(c, w, id, spent);
    var w1 := After(c, w, s1).0;
    AbortsWhenNotSpent(c, w1, id, unspent);
    var w2 := After(c, w1, s2).0;
    Invalidates(c, w2, id, unspent);
    var w3 := After(c, w2, s3).0;
    SignsRefund(c, w3, id, unspent);
    RunOfFour(c, w, s1, s2, s3, s4);
  }

  lemma RunFirst(c: Config, w: World, s: Step, rest: seq<Step>)
    ensures Run(c, w, [s] + rest) == Run(c, After(c, w, s).0, rest)
  {
    assert ([s] + rest)[1..] == rest;
  }

  lemma RunOfFour(c: Config, w: World, s1: Step, s2: Step, s3: Step, s4: Step)
    ensures Run(c, w, [s1, s2, s3, s4]) ==
      After(c, After(c, After(c, After(c, w, s1).0, s2).0, s3).0, s4).0
  {
    var w1 := After(c, w, s1).0;
    var w2 := After(c, w1, s2).0;
    var w3 := After(c, w2, s3).0;
    assert [s1, s2, s3, s4] == [s1] + ([s2] + ([s3] + ([s4] + [])));
    RunFirst(c, w, s1, [s2] + ([s3] + ([s4] + [])));
    RunFirst(c, w1, s2, [s3] + ([s4] + []));
    RunFirst(c, w2, s3, [s4] + []);
    RunFirst(c, w3, s4, []);
  }
}
