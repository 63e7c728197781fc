// What a retry can still do after an advance call was cut off or the process was
// restarted. The signer consumes its session before the row is written, so a
// call that fails between signing and storing cannot be completed by another;
// and it keeps its sessions in memory, so a restart loses them.

module SwapRetries {
  import opened Prelude
  import opened SwapState
  import opened SwapProtocol
  import opened SwapHistory
  import opened SwapInvariant
  import opened SwapProgress
  import opened SwapRuns
  import opened SwapLocality
  import opened SwapRestarts

  /** The call cut off after `n` effects leaves the phase's session consumed and the row where it was. */
  predicate CutSpoils(w: World, id: SwapId, a: Answers, n: nat)
    requires id in w.rows
  {
    match w.rows[id].phase
    case InsertPushed => a.status == Spent && (if a.signerOk then n in {3, 4} else n >= 3)
    case Invalidated => if a.signerOk then n in {1, 2, 3} else n >= 1
    case _ => false
  }

  /** A spoiling cut of one of the swap's advance calls, or a restart. */
  predicate Spoils(w: World, id: SwapId, step: Step)
    requires id in w.rows
  {
    match step
    case Restart => true
    case Step(call, a, n) => call == AdvanceCall(id) && CutSpoils(w, id, a, n)
  }

  /** The session that the row's phase signs with is open; phases that do not sign need none. */
  predicate Open(w: World, id: SwapId)
    requires id in w.rows
  {
    match w.rows[id].phase
    case InsertPushed => (id, Settle) in w.live
    case Invalidated => (id, Refund) in w.live
    case _ => true
  }

  /** The session that the row's phase signs with is gone; a settle got that far because webcash had answered `Spent`. */
  ghost predicate Stuck(w: World, id: SwapId) {
    && id in w.rows && w.rows[id].id == id && Coherent(w.rows[id])
    && match w.rows[id].phase
       case InsertPushed => (id, Settle) !in w.live && SpentSeen(w.trace, w.rows[id].hB)
       case Invalidated => (id, Refund) !in w.live
       case _ => false
  }

  predicate Ended(w: World, id: SwapId) {
    id in w.rows && w.rows[id].phase in {Settled, Refunded}
  }

  // ------------------------------------------------------------------
  // One call, cut off anywhere
  // ------------------------------------------------------------------

  lemma ExecSplits(w: World, e: Effect, rest: List<Effect>, reply: Reply, n: nat)
    requires n > 0
    ensures Exec(w, Cons(e, rest), reply, n) == Exec(Do(w, e), rest, reply, n - 1)
  {}

  /** Where a script of at least four effects is after each of the first four, and how it goes on. */
  lemma FirstFour(w: World, e1: Effect, e2: Effect, e3: Effect, e4: Effect, rest: List<Effect>, reply: Reply, n: nat)
    ensures var w1 := Do(w, e1);
      var w2 := Do(w1, e2);
      var w3 := Do(w2, e3);
      Exec(w, Cons(e1, Cons(e2, Cons(e3, Cons(e4, rest)))), reply, n).0 ==
        if n == 0 then w else if n == 1 then w1 else if n == 2 then w2 else if n == 3 then w3
        else Exec(Do(w3, e4), rest, reply, n - 4).0
  {
    var es3, es4 := Cons(e3, Cons(e4, rest)), Cons(e4, rest);
    if n > 0 { ExecSplits(w, e1, Cons(e2, es3), reply, n); }
    if n > 1 { ExecSplits(Do(w, e1), e2, es3, reply, n - 1); }
    if n > 2 { ExecSplits(Do(Do(w, e1), e2), e3, es4, reply, n - 2); }
    if n > 3 { ExecSplits(Do(Do(Do(w, e1), e2), e3), e4, rest, reply, n - 3); }
  }

  lemma FirstThree(w: World, e1: Effect, e2: Effect, e3: Effect, rest: List<Effect>, reply: Reply, n: nat)
    ensures var w1 := Do(w, e1);
      var w2 := Do(w1, e2);
      Exec(w, Cons(e1, Cons(e2, Cons(e3, rest))), reply, n).0 ==
        if n == 0 then w else if n == 1 then w1 else if n == 2 then w2 else Exec(Do(w2, e3), rest, reply, n - 3).0
  {
    if n > 0 { ExecSplits(w, e1, Cons(e2, Cons(e3, rest)), reply, n); }
    if n > 1 { ExecSplits(Do(w, e1), e2, Cons(e3, rest), reply, n - 1); }
    if n > 2 { ExecSplits(Do(Do(w, e1), e2), e3, rest, reply, n - 2); }
  }

  predicate NoWrites(es: List<Effect>) {
    es.Nil? || (!es.head.Wrote? && NoWrites(es.tail))
  }

  /** Effects that write no row leave the rows alone. */
  lemma {:induction false} NoWritesNoRows(w: World, es: List<Effect>, reply: Reply, n: nat)
    requires NoWrites(es)
    ensures Exec(w, es, reply, n).0.rows == w.rows
    decreases es
  {
    if es.Cons? && n > 0 { NoWritesNoRows(Do(w, es.head), es.tail, reply, n - 1); }
  }

  function CutAt(c: Config, w: World, id: SwapId, a: Answers, n: nat): World {
    After(c, w, Step(AdvanceCall(id), a, n)).0
  }

  ghost predicate CutIsRight(c: Config, w: World, id: SwapId, a: Answers, n: nat)
    requires id in w.rows
  {
    var w' := CutAt(c, w, id, a, n);
    if CutSpoils(w, id, a, n) then Stuck(w', id) && w'.rows == w.rows else InFlight(w', id) || Ended(w', id)
  }

  lemma {:induction false} SeenStays(w: World, es: List<Effect>, reply: Reply, n: nat, h: string)
    requires SpentSeen(w.trace, h)
    ensures SpentSeen(Exec(w, es, reply, n).0.trace, h)
    decreases es
  {
    if es.Cons? && n > 0 {
      var i :| 0 <= i < |w.trace| && w.trace[i].Checked? && w.trace[i].hash == h && w.trace[i].status == Spent;
      assert Do(w, es.head).trace[i] == w.trace[i];
      SeenStays(Do(w, es.head), es.tail, reply, n - 1, h);
    }
  }

  /** A call that gets past its post-check leaves the spent answer in the history. */
  lemma SeenAfterCheck(w: World, id: SwapId, h: string, rest: List<Effect>, reply: Reply, n: nat)
    requires n > 0
    ensures SpentSeen(Exec(w, Cons(Checked(id, h, Spent), rest), reply, n).0.trace, h)
  {
    var w1 := Do(w, Checked(id, h, Spent));
    assert w1.trace[|w.trace|] == Checked(id, h, Spent);
    SeenStays(w1, rest, reply, n - 1, h);
  }

  lemma CutSettle(c: Config, w: World, id: SwapId, a: Answers, n: nat)
    requires InFlight(w, id) && w.rows[id].phase == InsertPushed && a.status == Spent && a.signerOk
    ensures CutIsRight(c, w, id, a, n)
  {
    var st, r := Decode(w.rows[id]), w.rows[id];
    var script := AdvanceScript(c, w, id, a);
    var e := PhaseEntry(st, Settled, EmptyPayload, a);
    var e1, e3 := Checked(id, st.bob.hB, Spent), SignSettle(st);
    var row := Persisted(w.rows, Advance(st, Settled, a.clock(1), c.hash(e)), a.clock(2));
    var rest := Cons(Discarded(id, Refund), CloseHtlc(r, CloseSettle, a));
    FirstFour(w, e1, Appended(e), e3, ReleaseSettlePush(st), Cons(Wrote(row), rest), script.reply, n);
    if n > 0 { SeenAfterCheck(w, id, st.bob.hB, script.effects.tail, script.reply, n); }
    if n > 4 {
      var w4 := Do(Do(Do(Do(w, e1), Appended(e)), e3), ReleaseSettlePush(st));
      ExecSplits(w4, Wrote(row), rest, script.reply, n - 4);
      assert NoWrites(CloseHtlc(r, CloseSettle, a));
      NoWritesNoRows(Do(w4, Wrote(row)), rest, script.reply, n - 5);
    }
  }

  lemma CutRefused(c: Config, w: World, id: SwapId, a: Answers, n: nat)
    requires InFlight(w, id) && w.rows[id].phase in {InsertPushed, Invalidated} && !a.signerOk
    requires w.rows[id].phase == InsertPushed ==> a.status == Spent
    ensures CutIsRight(c, w, id, a, n)
  {
    var st, r := Decode(w.rows[id]), w.rows[id];
    var script := AdvanceScript(c, w, id, a);
    if r.phase == InsertPushed {
      var e := Appended(PhaseEntry(st, Settled, EmptyPayload, a));
      FirstThree(w, Checked(id, st.bob.hB, Spent), e, Discarded(id, Settle), Nil, script.reply, n);
      if n > 0 { SeenAfterCheck(w, id, st.bob.hB, script.effects.tail, script.reply, n); }
    } else if n > 0 {
      ExecSplits(w, Discarded(id, Refund), Nil, script.reply, n);
    }
  }

  lemma CutRefund(c: Config, w: World, id: SwapId, a: Answers, n: nat)
    requires InFlight(w, id) && w.rows[id].phase == Invalidated && a.signerOk
    ensures CutIsRight(c, w, id, a, n)
  {
    var st, r := Decode(w.rows[id]), w.rows[id];
    var script := AdvanceScript(c, w, id, a);
    var e := PhaseEntry(st, Refunded, EmptyPayload, a);
    var row := Persisted(w.rows, Advance(st, Refunded, a.clock(1), c.hash(e)), a.clock(2));
    var rest := Cons(Discarded(id, Settle), CloseHtlc(r, CloseRefund, a));
    FirstFour(w, SignRefund(st), ReleaseRefundPush(st), Appended(e), Wrote(row), rest, script.reply, n);
    if n >= 4 {
      var w3 := Do(Do(Do(w, SignRefund(st)), ReleaseRefundPush(st)), Appended(e));
      assert NoWrites(CloseHtlc(r, CloseRefund, a));
      NoWritesNoRows(Do(w3, Wrote(row)), rest, script.reply, n - 4);
    }
  }

  lemma CutMiddle(c: Config, w: World, id: SwapId, a: Answers, n: nat)
    requires InFlight(w, id) && (w.rows[id].phase == Aborted || (w.rows[id].phase == InsertPushed && a.status != Spent))
    ensures CutIsRight(c, w, id, a, n)
  {
    var script := AdvanceScript(c, w, id, a);
    var es := script.effects;
    if w.rows[id].phase == Aborted {
      if n > 0 { ExecSplits(w, es.head, es.tail, script.reply, n); }
      if n > 1 { ExecSplits(Do(w, es.head), es.tail.head, es.tail.tail, script.reply, n - 1); }
    } else {
      FirstFour(w, es.head, es.tail.head, es.tail.tail.head, es.tail.tail.tail.head, Nil, script.reply, n);
    }
  }

  /**
   * An advance call of a swap in flight, stopped after any number of effects,
   * leaves it stuck where it was if it spoils, and otherwise in flight with
   * both sessions open, or ended.
   */
  lemma CutAnywhere(c: Config, w: World, id: SwapId, a: Answers, n: nat)
    requires InFlight(w, id)
    ensures CutIsRight(c, w, id, a, n)
  {
    if w.rows[id].phase == Aborted || (w.rows[id].phase == InsertPushed && a.status != Spent) {
      CutMiddle(c, w, id, a, n);
    } else if !a.signerOk {
      CutRefused(c, w, id, a, n);
    } else if w.rows[id].phase == InsertPushed {
      CutSettle(c, w, id, a, n);
    } else {
      CutRefund(c, w, id, a, n);
    }
  }

  /** The next call does not fail by itself, whatever webcash answers. */
  predicate Resumes(c: Config, w: World, id: SwapId, b: Answers) {
    !AdvanceScript(c, w, id, b).reply.Failed?
  }

  /** Past the start and not terminal: every next call goes through if and only if its phase's session is open. */
  lemma ResumesExactlyWhileOpen(c: Config, w: World, id: SwapId)
    requires id in w.rows && Coherent(w.rows[id]) && w.rows[id].id == id
    requires w.rows[id].phase in {InsertPushed, Aborted, Invalidated}
    ensures (forall b: Answers :: b.signerOk ==> Resumes(c, w, id, b)) <==> Open(w, id)
  {
    if Open(w, id) {
      forall b: Answers | b.signerOk ensures Resumes(c, w, id, b) {
        if w.rows[id].phase == InsertPushed { AttemptCounterNeverOverflows(c, w, id, b); }
      }
    } else {
      assert !Resumes(c, w, id, Answers(_ => 0, true, true, Spent, None, (_, _) => true, true, _ => true));
    }
  }

  /** What an advance call of the swap, cut off anywhere, or a restart may do to a swap in flight. */
  predicate Happens(id: SwapId, step: Step) { step.Restart? || step.call == AdvanceCall(id) }

  /**
   * For every phase a swap can be in: after an advance call cut off anywhere
   * or a restart, every next call goes through if and only if it was no
   * spoiling cut, and no restart in a phase that signs.
   */
  lemma RetryResumesExactly(c: Config, w: World, id: SwapId, step: Step)
    requires InFlight(w, id) && Happens(id, step)
    ensures var w' := After(c, w, step).0;
      (forall b: Answers :: b.signerOk ==> Resumes(c, w', id, b))
      <==> !(Spoils(w, id, step) && w.rows[id].phase in {InsertPushed, Invalidated})
  {
    var w' := After(c, w, step).0;
    if step.Step? { CutAnywhere(c, w, id, step.answers, step.stop); }
    if !Ended(w', id) { ResumesExactlyWhileOpen(c, w', id); }
  }

  // ------------------------------------------------------------------
  // Whole runs of retries
  // ------------------------------------------------------------------

  /** The only way out: a cancel of this swap while it is still in `insert-pushed`. */
  predicate IsWayOut(w: World, id: SwapId, step: Step) {
    IsCallOf(step, id) && step.call.CancelCall? && id in w.rows && w.rows[id].phase == InsertPushed
  }

  lemma StuckStep(c: Config, w: World, id: SwapId, step: Step)
    requires Stuck(w, id) && Inv(c, w) && Plausible(w, step) && !IsWayOut(w, id, step)
    ensures var (w', reply, _) := After(c, w, step);
      && Stuck(w', id) && w'.rows[id] == w.rows[id]
      && (step.Step? && step.call == AdvanceCall(id) ==> reply.Failed?)
  {
    if step.Restart? { return; }
    var script := ScriptOf(c, w, step.call, step.answers);
    var es := script.effects;
    if w.rows[id].phase == InsertPushed { SeenStays(w, es, script.reply, step.stop, w.rows[id].hB); }
    if step.call.id != id {
      assert IdInv(c, w, step.call.id);
      CallAbout(c, w, step.call, step.answers);
      OthersStay(w, es, script.reply, step.stop, step.call.id, id);
    } else if w.rows[id].phase == InsertPushed {
      if step.stop > 0 { ExecSplits(w, es.head, es.tail, script.reply, step.stop); }
      if step.stop > 1 { ExecSplits(Do(w, es.head), es.tail.head, es.tail.tail, script.reply, step.stop - 1); }
    }
  }

  ghost predicate NoWayOut(c: Config, w: World, id: SwapId, steps: seq<Step>)
    decreases |steps|
  {
    steps == [] || (!IsWayOut(w, id, steps[0]) && NoWayOut(c, After(c, w, steps[0]).0, id, steps[1..]))
  }

  /**
   * A stuck swap never moves again, whatever calls follow on it and on other
   * swaps, with restarts anywhere. The one exception is Bob's cancel after a
   * spoiled settle.
   */
  lemma {:induction false} StuckForever(c: Config, w: World, id: SwapId, steps: seq<Step>)
    requires Stuck(w, id) && Inv(c, w) && PlausibleRun(c, w, steps) && NoWayOut(c, w, id, steps)
    ensures var w' := Run(c, w, steps); Stuck(w', id) && w'.rows[id] == w.rows[id]
    decreases |steps|
  {
    if steps != [] {
      var w1 := After(c, w, steps[0]).0;
      StuckStep(c, w, id, steps[0]);
      StepKeepsInv(c, w, steps[0]);
      StuckForever(c, w1, id, steps[1..]);
    }
  }

  // ------------------------------------------------------------------
  // Which runs leave a swap that can still be finished
  // ------------------------------------------------------------------

  /** Nobody cancels this swap; calls of other swaps and restarts come as they like. */
  predicate NoCancel(steps: seq<Step>, id: SwapId) {
    forall i :: 0 <= i < |steps| ==> !(IsCallOf(steps[i], id) && steps[i].call.CancelCall?)
  }

  /** While it is in flight, nothing spoils the swap. */
  ghost predicate NeverSpoiled(c: Config, w: World, id: SwapId, steps: seq<Step>)
    decreases |steps|
  {
    steps == [] ||
      (&& (InFlight(w, id) ==> !Spoils(w, id, steps[0]))
       && NeverSpoiled(c, After(c, w, steps[0]).0, id, steps[1..]))
  }

  ghost predicate Stranded(w: World, id: SwapId) { Stuck(w, id) || Forsaken(w, id) }

  lemma {:induction false} StrandedForever(c: Config, w: World, id: SwapId, steps: seq<Step>)
    requires Inv(c, w) && PlausibleRun(c, w, steps) && NoCancel(steps, id) && Stranded(w, id)
    ensures Stranded(Run(c, w, steps), id)
    decreases |steps|
  {
    if steps != [] {
      if Stuck(w, id) { StuckStep(c, w, id, steps[0]); } else { StepForsakes(c, w, id, steps[0]); }
      StepKeepsInv(c, w, steps[0]);
      StrandedForever(c, After(c, w, steps[0]).0, id, steps[1..]);
    }
  }

  lemma {:induction false} EndedForever(c: Config, w: World, id: SwapId, steps: seq<Step>)
    requires Inv(c, w) && PlausibleRun(c, w, steps) && Ended(w, id)
    ensures Ended(Run(c, w, steps), id) && NeverSpoiled(c, w, id, steps)
    decreases |steps|
  {
    if steps != [] {
      assert IdInv(c, w, id) && steps[..1][1..] == [];
      RunGoesForward(c, w, steps[..1]);
      assert Run(c, w, steps[..1]) == After(c, w, steps[0]).0;
      StepKeepsInv(c, w, steps[0]);
      EndedForever(c, After(c, w, steps[0]).0, id, steps[1..]);
    }
  }

  /** One step of a swap in flight: stranded if it spoils, in flight or ended if not. */
  lemma StepOfFlight(c: Config, w: World, id: SwapId, step: Step)
    requires Inv(c, w) && Plausible(w, step) && InFlight(w, id)
    requires !(IsCallOf(step, id) && step.call.CancelCall?)
    ensures var w' := After(c, w, step).0;
      if Spoils(w, id, step) then Stranded(w', id) else InFlight(w', id) || Ended(w', id)
  {
    if IsCallOf(step, id) {
      if step.call.AdvanceCall? { CutAnywhere(c, w, id, step.answers, step.stop); }
    } else if step.Step? {
      assert IdInv(c, w, step.call.id);
      var script := ScriptOf(c, w, step.call, step.answers);
      CallAbout(c, w, step.call, step.answers);
      OthersStay(w, script.effects, script.reply, step.stop, step.call.id, id);
    }
  }

  /**
   * However often its calls are cut off, and whatever happens to other swaps,
   * a swap in flight that nobody cancels is in flight or has ended after a
   * run if and only if no cut spoiled it and the process was never restarted
   * while it was in flight.
   */
  lemma {:induction false} RetriesStickExactly(c: Config, w: World, id: SwapId, steps: seq<Step>)
    requires Inv(c, w) && PlausibleRun(c, w, steps) && NoCancel(steps, id) && InFlight(w, id)
    ensures var w' := Run(c, w, steps);
      InFlight(w', id) || Ended(w', id) <==> NeverSpoiled(c, w, id, steps)
    decreases |steps|
  {
    if steps != [] {
      var w1 := After(c, w, steps[0]).0;
      StepOfFlight(c, w, id, steps[0]);
      StepKeepsInv(c, w, steps[0]);
      if Spoils(w, id, steps[0]) {
        StrandedForever(c, w1, id, steps[1..]);
      } else if InFlight(w1, id) {
        RetriesStickExactly(c, w1, id, steps[1..]);
      } else {
        EndedForever(c, w1, id, steps[1..]);
      }
    }
  }
}
