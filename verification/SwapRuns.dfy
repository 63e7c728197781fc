// Whole runs of the referee: any sequence of serialised start, advance and
// cancel calls, each stopping after any number of its effects, with restarts of
// the process anywhere. The signer keeps its sessions in memory
// (referee/src/musig2.rs), so a restart loses them all.

module SwapRuns {
  import opened Prelude
  import opened SwapState
  import opened SwapProtocol
  import opened SwapHistory
  import opened SwapInvariant
  import opened SwapScripts

  datatype Call =
    | StartCall(id: SwapId, request: Request)
    | AdvanceCall(id: SwapId)
    | CancelCall(id: SwapId, requester: string, reason: string)

  /**
   * One call, the answers it gets, and how many of its effects happen at most;
   * or a restart. A process that dies during a call is that call, cut off, and
   * then a restart.
   */
  datatype Step = Step(call: Call, answers: Answers, stop: nat) | Restart

  predicate IsCallOf(step: Step, id: SwapId) { step.Step? && step.call.id == id }

  function ScriptOf(c: Config, w: World, call: Call, a: Answers): Script {
    match call
    case StartCall(id, request) => StartScript(c, id, request, a)
    case AdvanceCall(id) => AdvanceScript(c, w, id, a)
    case CancelCall(id, requester, reason) => CancelScript(c, w, id, requester, reason, a)
  }

  function After(c: Config, w: World, step: Step): (World, Reply, nat) {
    match step
    case Restart => (w.(live := {}), Done, 0)
    case Step(call, answers, stop) =>
      var script := ScriptOf(c, w, call, answers);
      Exec(w, script.effects, script.reply, stop)
  }

  function Run(c: Config, w: World, steps: seq<Step>): World
    decreases |steps|
  {
    if steps == [] then w else Run(c, After(c, w, steps[0]).0, steps[1..])
  }

  /** New swaps get unused ids, and webcash never takes back that a hash is spent. */
  ghost predicate Plausible(w: World, step: Step) {
    match step
    case Restart => true
    case Step(StartCall(id, request), a, _) => Fresh(w, id) && Monotone(w.trace, request.bob.hB, a.status)
    case Step(AdvanceCall(id), a, _) => id in w.rows ==> Monotone(w.trace, w.rows[id].hB, a.status)
    case Step(CancelCall(_, _, _), _, _) => true
  }

  ghost predicate PlausibleRun(c: Config, w: World, steps: seq<Step>)
    decreases |steps|
  {
    steps == [] || (Plausible(w, steps[0]) && PlausibleRun(c, After(c, w, steps[0]).0, steps[1..]))
  }

  lemma StepLegal(c: Config, w: World, step: Step)
    requires Inv(c, w) && Plausible(w, step) && step.Step?
    ensures AllLegal(c, w, ScriptOf(c, w, step.call, step.answers).effects)
  {
    match step.call
    case StartCall(id, request) => StartLegal(c, w, id, request, step.answers);
    case AdvanceCall(id) => AdvanceLegal(c, w, id, step.answers);
    case CancelCall(id, requester, reason) => CancelLegal(c, w, id, requester, reason, step.answers);
  }

  /** Losing every open session breaks nothing. */
  lemma RestartKeepsInv(c: Config, w: World)
    requires Inv(c, w)
    ensures Inv(c, w.(live := {}))
  {
    forall id ensures IdInv(c, w.(live := {}), id) { assert IdInv(c, w, id); }
  }

  lemma StepKeepsInv(c: Config, w: World, step: Step)
    requires Inv(c, w) && Plausible(w, step)
    ensures Inv(c, After(c, w, step).0)
  {
    match step
    case Restart => RestartKeepsInv(c, w);
    case Step(call, answers, stop) =>
      StepLegal(c, w, step);
      var script := ScriptOf(c, w, call, answers);
      LegalScriptKeepsInv(c, w, script.effects, script.reply, stop);
  }

  lemma {:induction false} RunKeepsInv(c: Config, w: World, steps: seq<Step>)
    requires Inv(c, w) && PlausibleRun(c, w, steps)
    ensures Inv(c, Run(c, w, steps))
    decreases |steps|
  {
    if steps != [] {
      StepKeepsInv(c, w, steps[0]);
      RunKeepsInv(c, After(c, w, steps[0]).0, steps[1..]);
    }
  }

  // ------------------------------------------------------------------
  // Safety of every run
  // ------------------------------------------------------------------

  /** No swap ever gets a settle and a refund signature. */
  lemma NeverBothSignatures(c: Config, steps: seq<Step>, id: SwapId)
    requires PlausibleRun(c, EMPTY_WORLD, steps)
    ensures var t := Run(c, EMPTY_WORLD, steps).trace;
      !((exists i :: 0 <= i < |t| && Is(t[i], id, SignOf(Settle))) &&
        (exists i :: 0 <= i < |t| && Is(t[i], id, SignOf(Refund))))
  {
    RunKeepsInv(c, EMPTY_WORLD, steps);
    var w := Run(c, EMPTY_WORLD, steps);
    assert IdInv(c, w, id);
    CountPositive(w.trace, id, SignOf(Settle));
    CountPositive(w.trace, id, SignOf(Refund));
  }

  /** Whatever was signed covers the hash the swap was created with. */
  lemma SignaturesCoverCommittedHash(c: Config, steps: seq<Step>, n: nat)
    requires PlausibleRun(c, EMPTY_WORLD, steps)
    requires var t := Run(c, EMPTY_WORLD, steps).trace; n < |t| && t[n].Signed?
    ensures var w := Run(c, EMPTY_WORLD, steps);
      var id := w.trace[n].id;
      id in w.rows && w.trace[n].txHash == Committed(w.rows[id], w.trace[n].session)
  {
    RunKeepsInv(c, EMPTY_WORLD, steps);
  }

  /**
   * A settle release comes after, in this order: Bob's proof accepted, Alice's
   * proof accepted, an `Unspent` pre-check, an insert push, a `Spent` answer
   * and a settle signature, all for the same swap.
   */
  lemma SettleReleaseIsEarned(c: Config, steps: seq<Step>, n: nat) returns (at: seq<nat>)
    requires PlausibleRun(c, EMPTY_WORLD, steps)
    requires var t := Run(c, EMPTY_WORLD, steps).trace;
      n < |t| && t[n].Pushed? && t[n].kind == ReleaseSettle
    ensures var t := Run(c, EMPTY_WORLD, steps).trace;
      |at| == MILESTONES && at[5] < n && Witnesses(t, t[n].id, at)
  {
    RunKeepsInv(c, EMPTY_WORLD, steps);
    var t := Run(c, EMPTY_WORLD, steps).trace;
    at := StageMeansOrdered(t[..n], t[n].id);
    forall k | 0 <= k < |at| ensures at[k] < |t| && IsMilestone(t[at[k]], t[n].id, k) {
      assert t[..n][at[k]] == t[at[k]];
    }
  }

  /** In every run the tip a row stores is backed by a logged chain from that swap's init entry. */
  lemma AuditTipIsChained(c: Config, steps: seq<Step>, id: SwapId)
    requires PlausibleRun(c, EMPTY_WORLD, steps)
    requires id in Run(c, EMPTY_WORLD, steps).rows
    ensures var w := Run(c, EMPTY_WORLD, steps);
      Linked(c.hash, w.log, id, w.rows[id].phase, w.rows[id].blob.tip)
  {
    RunKeepsInv(c, EMPTY_WORLD, steps);
    assert IdInv(c, Run(c, EMPTY_WORLD, steps), id);
  }

  // ------------------------------------------------------------------
  // Rows only move forward
  // ------------------------------------------------------------------

  /** Rows are never dropped, keep their identity, and are frozen once terminal. */
  ghost predicate Forward(rows: map<SwapId, Row>, rows': map<SwapId, Row>) {
    forall id <- rows :: id in rows' && SameSwap(rows[id], rows'[id]) && (rows[id].terminal ==> rows'[id] == rows[id])
  }

  lemma LegalStepGoesForward(c: Config, w: World, e: Effect)
    requires Inv(c, w) && Legal(c, w, e)
    ensures Forward(w.rows, Do(w, e).rows)
  {
    forall id <- w.rows
      ensures id in Do(w, e).rows && SameSwap(w.rows[id], Do(w, e).rows[id])
      ensures w.rows[id].terminal ==> Do(w, e).rows[id] == w.rows[id]
    {
      assert IdInv(c, w, id);
    }
  }

  lemma {:induction false} LegalScriptGoesForward(c: Config, w: World, es: List<Effect>, reply: Reply, n: nat)
    requires Inv(c, w) && AllLegal(c, w, es)
    ensures Forward(w.rows, Exec(w, es, reply, n).0.rows)
    decreases es
  {
    if es.Cons? && n > 0 {
      LegalStepGoesForward(c, w, es.head);
      LegalStepKeepsInv(c, w, es.head);
      LegalScriptGoesForward(c, Do(w, es.head), es.tail, reply, n - 1);
    }
  }

  lemma {:induction false} RunGoesForward(c: Config, w: World, steps: seq<Step>)
    requires Inv(c, w) && PlausibleRun(c, w, steps)
    ensures Forward(w.rows, Run(c, w, steps).rows)
    decreases |steps|
  {
    if steps != [] {
      StepKeepsInv(c, w, steps[0]);
      if steps[0].Step? {
        StepLegal(c, w, steps[0]);
        var script := ScriptOf(c, w, steps[0].call, steps[0].answers);
        LegalScriptGoesForward(c, w, script.effects, script.reply, steps[0].stop);
      }
      RunGoesForward(c, After(c, w, steps[0]).0, steps[1..]);
    }
  }

  lemma {:induction false} RunSplits(c: Config, w: World, past: seq<Step>, future: seq<Step>)
    ensures Run(c, w, past + future) == Run(c, Run(c, w, past), future)
    ensures PlausibleRun(c, w, past + future) <==>
      PlausibleRun(c, w, past) && PlausibleRun(c, Run(c, w, past), future)
    decreases |past|
  {
    if past == [] {
      assert past + future == future;
    } else {
      assert (past + future)[1..] == past[1..] + future;
      RunSplits(c, After(c, w, past[0]).0, past[1..], future);
    }
  }

  /** Whatever happens later, a terminal row stays as it is, and no row changes parties, payloads or creation time. */
  lemma TerminalRowsNeverChange(c: Config, past: seq<Step>, future: seq<Step>, id: SwapId)
    requires PlausibleRun(c, EMPTY_WORLD, past + future)
    requires id in Run(c, EMPTY_WORLD, past).rows
    ensures var before := Run(c, EMPTY_WORLD, past).rows;
      var after := Run(c, EMPTY_WORLD, past + future).rows;
      && id in after && SameSwap(before[id], after[id])
      && (before[id].terminal ==> after[id] == before[id])
  {
    RunSplits(c, EMPTY_WORLD, past, future);
    RunKeepsInv(c, EMPTY_WORLD, past);
    RunGoesForward(c, Run(c, EMPTY_WORLD, past), future);
  }
}
