// The two ways to both signatures, from the empty world: a start, the retries it
// has, and then what SwapNecessity and SwapInterleaving show. So neither
// assumption of the exclusivity theorem can be dropped.

module SwapFromNothing {
  import opened Prelude
  import opened SwapState
  import opened SwapProtocol
  import opened SwapHistory
  import opened SwapProgress
  import opened SwapRuns
  import opened SwapInterleaving
  import opened SwapNecessity
  import opened SwapWrites

  // ------------------------------------------------------------------
  // Nothing is signed and nothing answered spent before the retries are used up
  // ------------------------------------------------------------------

  predicate Uneventful(es: List<Effect>) {
    es.Nil? || (!es.head.Signed? && (es.head.Checked? ==> es.head.status != Spent) && Uneventful(es.tail))
  }

  ghost predicate NothingSpent(t: seq<Effect>) {
    forall i :: 0 <= i < |t| && t[i].Checked? ==> t[i].status != Spent
  }

  lemma UneventfulTwo(e1: Effect, e2: Effect, rest: List<Effect>)
    requires Uneventful(rest) && !e1.Signed? && !e2.Signed?
    requires (e1.Checked? ==> e1.status != Spent) && (e2.Checked? ==> e2.status != Spent)
    ensures Uneventful(Cons(e1, Cons(e2, rest)))
  {}

  lemma PreCheckUneventful(c: Config, s: State, r: Row, a: Answers)
    requires s.phase == ZkpsVerified && a.status == Unspent
    ensures Uneventful(StartPreCheck(c, s, r, a).effects)
  {
    var es := StartPreCheck(c, s, r, a).effects;
    assert Uneventful(es.tail.tail.tail.tail);
    UneventfulTwo(es.tail.tail.head, es.tail.tail.tail.head, es.tail.tail.tail.tail);
    UneventfulTwo(es.head, es.tail.head, es.tail.tail);
  }

  lemma VerifyUneventful(c: Config, s: State, r: Row, a: Answers)
    requires s.phase == Init && Accepts(a)
    ensures Uneventful(StartVerify(c, s, r, a).effects)
  {
    var es := StartVerify(c, s, r, a).effects;
    var zkps := VerifyZkps(s, true, a.clock(3), c.hash(ZkpEntry(s, a))).value;
    PreCheckUneventful(c, zkps, Persisted(map[s.id := r], zkps, a.clock(4)), a);
    UneventfulTwo(es.tail.tail.head, es.tail.tail.tail.head, es.tail.tail.tail.tail);
    UneventfulTwo(es.head, es.tail.head, es.tail.tail);
  }

  lemma StartUneventful(c: Config, id: SwapId, q: Request, a: Answers)
    requires Accepts(a)
    ensures Uneventful(StartScript(c, id, q, a).effects)
  {
    var es := StartScript(c, id, q, a).effects;
    var rest := StartVerify(c, InitState(c, id, q, a), MintedRow(c, id, q, a), a).effects;
    VerifyUneventful(c, InitState(c, id, q, a), MintedRow(c, id, q, a), a);
    var htlc := es.tail.tail.tail.tail.tail;
    if a.htlc.Some? { UneventfulTwo(htlc.head, htlc.tail.head, rest); }
    UneventfulTwo(es.tail.tail.tail.head, es.tail.tail.tail.tail.head, htlc);
    assert Uneventful(es.tail.tail);
    UneventfulTwo(es.head, es.tail.head, es.tail.tail);
  }

  lemma {:induction false} StaysUnspent(w: World, es: List<Effect>)
    requires Uneventful(es) && NothingSpent(w.trace)
    ensures NothingSpent(Finish(w, es).trace)
    decreases es
  {
    if es.Cons? { StaysUnspent(Do(w, es.head), es.tail); }
  }

  lemma UnspentIsLasting(t: seq<Effect>, h: string)
    requires NothingSpent(t)
    ensures Lasting(t) && !SpentSeen(t, h)
  {}

  // ------------------------------------------------------------------
  // One more retry
  // ------------------------------------------------------------------

  /** In flight after its insert pushes, with nothing answered spent. */
  ghost predicate Pending(w: World, id: SwapId) {
    InFlight(w, id) && w.rows[id].phase == InsertPushed && NothingSpent(w.trace)
  }

  lemma RetryOnce(c: Config, w: World, id: SwapId, a: Answers)
    requires Pending(w, id) && w.rows[id].attempts < c.retry && a.status != Spent
    ensures var es := AdvanceScript(c, w, id, a).effects;
      var w' := Finish(w, es);
      && Uneventful(es) && Length(es) == 4
      && Pending(w', id) && w'.rows[id].attempts == w.rows[id].attempts + 1
  {
    var s := Decode(w.rows[id]);
    var es := AdvanceScript(c, w, id, a).effects;
    MiddleScripts(c, w, s, a);
    FinishFour(w, es.head, es.tail.head, es.tail.tail.head, es.tail.tail.tail.head);
    assert Uneventful(es.tail.tail);
    UneventfulTwo(es.head, es.tail.head, es.tail.tail);
    StaysUnspent(w, es);
    var e := PhaseEntry(s, InsertPushed, AttemptPayload(s.attempts + 1), a);
    var retried := InsertPushedRetry(s, a.clock(1), c.hash(e)).value;
    StoredPhaseIsInFlight(w, id, retried, a.clock(2), Finish(w, es));
  }

  lemma StartPends(c: Config, w: World, id: SwapId, q: Request, a: Answers)
    requires Accepts(a) && NothingSpent(w.trace)
    ensures var es := StartScript(c, id, q, a).effects;
      && Uneventful(es) && Length(es) <= MOST_START_EFFECTS
      && Pending(Finish(w, es), id)
  {
    StartLaunches(c, w, id, q, a);
    StartUneventful(c, id, q, a);
    StaysUnspent(w, StartScript(c, id, q, a).effects);
  }

  // ------------------------------------------------------------------
  // Serialised calls, webcash taking back a spent answer
  // ------------------------------------------------------------------

  ghost predicate AdvanceWith(step: Step, id: SwapId, a: Answers, b: Answers) {
    step.Step? && step.call == AdvanceCall(id) && (step.answers == a || step.answers == b)
  }

  lemma {:induction false} UsesUpRetries(c: Config, w: World, id: SwapId, a: Answers) returns (steps: seq<Step>)
    requires Pending(w, id) && a.status != Spent
    ensures var w' := Run(c, w, steps); Pending(w', id) && w'.rows[id].attempts >= c.retry
    ensures forall i :: 0 <= i < |steps| ==> AdvanceWith(steps[i], id, a, a)
    decreases if w.rows[id].attempts < c.retry then c.retry - w.rows[id].attempts else 0
  {
    if w.rows[id].attempts >= c.retry {
      steps := [];
    } else {
      var script := AdvanceScript(c, w, id, a);
      RetryOnce(c, w, id, a);
      CompletedRunsFinish(w, script.effects, script.reply, 4);
      var rest := UsesUpRetries(c, Finish(w, script.effects), id, a);
      steps := [Step(AdvanceCall(id), a, 4)] + rest;
      RunFirst(c, w, Step(AdvanceCall(id), a, 4), rest);
    }
  }

  lemma FirstStep(c: Config, id: SwapId, q: Request, start: Answers)
    requires Accepts(start)
    ensures Pending(After(c, EMPTY_WORLD, Step(StartCall(id, q), start, MOST_START_EFFECTS)).0, id)
  {
    var script := StartScript(c, id, q, start);
    StartPends(c, EMPTY_WORLD, id, q, start);
    CompletedRunsFinish(EMPTY_WORLD, script.effects, script.reply, MOST_START_EFFECTS);
  }

  /** The last four calls, from a swap whose retries are used up. */
  lemma LastFour(c: Config, w: World, id: SwapId, unspent: Answers, spent: Answers) returns (steps: seq<Step>)
    requires Pending(w, id) && w.rows[id].attempts >= c.retry
    requires unspent.status != Spent && spent.status == Spent && spent.signerOk && unspent.signerOk
    ensures forall i :: 0 <= i < |steps| ==> AdvanceWith(steps[i], id, spent, unspent)
    ensures var t := Run(c, w, steps).trace;
      Count(t, id, SignOf(Settle)) > 0 && Count(t, id, SignOf(Refund)) > 0
  {
    steps := [
      Step(AdvanceCall(id), spent, 3), Step(AdvanceCall(id), unspent, 4),
      Step(AdvanceCall(id), unspent, 2), Step(AdvanceCall(id), unspent, 1)];
    BothSignaturesIfSpentIsTakenBack(c, w, id, spent, unspent);
  }

  lemma PendingEndsInBoth(c: Config, w: World, id: SwapId, unspent: Answers, spent: Answers) returns (steps: seq<Step>)
    requires Pending(w, id)
    requires unspent.status != Spent && spent.status == Spent && spent.signerOk && unspent.signerOk
    ensures forall i :: 0 <= i < |steps| ==> AdvanceWith(steps[i], id, spent, unspent)
    ensures var t := Run(c, w, steps).trace;
      Count(t, id, SignOf(Settle)) > 0 && Count(t, id, SignOf(Refund)) > 0
  {
    var retries := UsesUpRetries(c, w, id, unspent);
    var last := LastFour(c, Run(c, w, retries), id, unspent, spent);
    RunSplits(c, w, retries, last);
    steps := retries + last;
  }

  /**
   * From nothing: one start and then advance calls of the same swap, one after
   * the other, each answered one way or the other, end with both signatures.
   * Ids being unused, all that sets the run apart is an answer taken back.
   */
  lemma BothSignaturesFromNothing(c: Config, id: SwapId, q: Request, start: Answers, unspent: Answers, spent: Answers)
    returns (steps: seq<Step>)
    requires Accepts(start) && unspent.status != Spent && spent.status == Spent && spent.signerOk && unspent.signerOk
    ensures steps != [] && steps[0].Step? && steps[0].call == StartCall(id, q) && steps[0].answers == start
    ensures forall i :: 1 <= i < |steps| ==> AdvanceWith(steps[i], id, spent, unspent)
    ensures var t := Run(c, EMPTY_WORLD, steps).trace;
      Count(t, id, SignOf(Settle)) > 0 && Count(t, id, SignOf(Refund)) > 0
  {
    var first := Step(StartCall(id, q), start, MOST_START_EFFECTS);
    FirstStep(c, id, q, start);
    var rest := PendingEndsInBoth(c, After(c, EMPTY_WORLD, first).0, id, unspent, spent);
    RunFirst(c, EMPTY_WORLD, first, rest);
    steps := [first] + rest;
  }

  // ------------------------------------------------------------------
  // Overlapping calls, webcash taking nothing back
  // ------------------------------------------------------------------

  /** A task that asks for no signature can run to its end. */
  lemma {:induction false} TaskLeads(c: Config, p: Pool, i: nat, k: Known, id: SwapId, any: Row)
    requires i < |p.tasks| && Uneventful(p.tasks[i]) && Fits(p.w.rows, k, p.tasks[i])
    requires Leads(c, Pool(Finish(p.w, p.tasks[i]), p.tasks[i := Nil], p.used), id)
    ensures Leads(c, p, id)
    decreases p.tasks[i]
  {
    var es := p.tasks[i];
    if es.Nil? {
      assert p.tasks[i := Nil] == p.tasks;
    } else {
      var move := Turn(i, if es.head.Wrote? then es.head.row else any);
      var p' := Next(c, p, move);
      assert p'.tasks[i] == es.tail && p'.tasks[i := Nil] == p.tasks[i := Nil];
      TaskLeads(c, p', i, Learn(k, es.head), id, any);
      LeadsFrom(c, p, move, id);
    }
  }

  lemma {:induction false} PendingLeads(c: Config, p: Pool, id: SwapId, unspent: Answers, spent: Answers)
    requires Pending(p.w, id) && unspent.status != Spent && spent.status == Spent && spent.signerOk
    ensures Leads(c, p, id)
    decreases if p.w.rows[id].attempts < c.retry then c.retry - p.w.rows[id].attempts else 0
  {
    var row := p.w.rows[id];
    if row.attempts >= c.retry {
      UnspentIsLasting(p.w.trace, row.hB);
      BothSignaturesInterleaved(c, p, id, unspent, spent);
    } else {
      RetryOnce(c, p.w, id, unspent);
      AdvanceFits(c, p.w, id, NOTHING, unspent);
      var k := |p.tasks|;
      var p1 := Next(c, p, Enter(AdvanceCall(id), unspent));
      assert p1.tasks[k] == AdvanceScript(c, p.w, id, unspent).effects;
      PendingLeads(c, Pool(Finish(p1.w, p1.tasks[k]), p1.tasks[k := Nil], p1.used), id, unspent, spent);
      TaskLeads(c, p1, k, NOTHING, id, row);
      LeadsFrom(c, p, Enter(AdvanceCall(id), unspent), id);
    }
  }

  /** From nothing: overlapping calls can end with both signatures though webcash takes nothing back. */
  lemma OverlapFromNothing(c: Config, id: SwapId, q: Request, start: Answers, unspent: Answers, spent: Answers)
    requires Accepts(start) && unspent.status != Spent && spent.status == Spent && spent.signerOk
    ensures Leads(c, EMPTY_POOL, id)
  {
    StartPends(c, EMPTY_WORLD, id, q, start);
    StartFits(c, map[], id, q, NOTHING, start);
    var p1 := Next(c, EMPTY_POOL, Enter(StartCall(id, q), start));
    var es := StartScript(c, id, q, start).effects;
    assert p1.tasks == [es];
    PendingLeads(c, Pool(Finish(p1.w, es), p1.tasks[0 := Nil], p1.used), id, unspent, spent);
    TaskLeads(c, p1, 0, NOTHING, id, InitRow(c, id, q, start));
    LeadsFrom(c, EMPTY_POOL, Enter(StartCall(id, q), start), id);
  }
}
