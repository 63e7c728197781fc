// What every effect in the history of a run is, in terms of the rows: to whom
// each push goes and with what, what each signature covers and for which key,
// what each log entry says, and that each end of a swap was delivered to the
// party it pays (referee/src/api/orchestrator.rs).

module SwapFacts {
  import opened Prelude
  import opened SwapState
  import opened SwapProtocol
  import opened SwapHistory
  import opened SwapInvariant
  import opened SwapScripts
  import opened SwapRuns
  import opened SwapLocality
  import opened SwapListing
  import opened SwapWrites
  import opened SwapInterleaving
  import opened SwapPerSwap
  import opened SwapRetries

  predicate FitsAt(t: seq<Effect>, n: nat)
    requires n < |t|
  {
    Fitting(RowsOf(t[..n]), KnownOf(t[..n], Subject(t[n])), t[n])
  }

  /** Every effect of the history fitted at its turn. */
  ghost predicate TraceFits(t: seq<Effect>) {
    forall n :: 0 <= n < |t| ==> FitsAt(t, n)
  }

  /** The history fits and accounts for the rows. */
  ghost predicate Accounted(w: World) { TraceFits(w.trace) && RowsOf(w.trace) == w.rows }

  lemma FittingStep(w: World, e: Effect)
    requires Accounted(w) && Fitting(w.rows, KnownOf(w.trace, Subject(e)), e)
    ensures Accounted(Do(w, e))
  {
    var t := w.trace + [e];
    assert t[..|w.trace|] == w.trace;
    forall n | 0 <= n < |t| ensures FitsAt(t, n) {
      if n < |w.trace| {
        assert t[..n] == w.trace[..n] && t[n] == w.trace[n];
        assert FitsAt(w.trace, n);
      }
    }
  }

  lemma {:induction false} FittingScript(w: World, es: List<Effect>, reply: Reply, n: nat, id: SwapId)
    requires Accounted(w) && About(es, id) && Fits(w.rows, KnownOf(w.trace, id), es)
    ensures Accounted(Exec(w, es, reply, n).0)
    decreases es
  {
    if es.Cons? && n > 0 {
      FittingStep(w, es.head);
      KnownSnoc(w.trace, es.head, id);
      FittingScript(Do(w, es.head), es.tail, reply, n - 1, id);
    }
  }

  lemma {:induction false} RunFits(c: Config, w: World, steps: seq<Step>)
    requires Inv(c, w) && PlausibleRun(c, w, steps) && Accounted(w)
    ensures Accounted(Run(c, w, steps))
    decreases |steps|
  {
    if steps != [] {
      if steps[0].Step? {
        var call, a := steps[0].call, steps[0].answers;
        assert IdInv(c, w, call.id);
        var script := ScriptOf(c, w, call, a);
        CallAbout(c, w, call, a);
        CallFits(c, w, call, KnownOf(w.trace, call.id), a);
        FittingScript(w, script.effects, script.reply, steps[0].stop, call.id);
      }
      StepKeepsInv(c, w, steps[0]);
      RunFits(c, After(c, w, steps[0]).0, steps[1..]);
    }
  }

  /**
   * In every run each effect was what it had to be, given the row stored at that
   * time and what had happened since that row was written.
   */
  lemma EveryEffectFits(c: Config, steps: seq<Step>)
    requires PlausibleRun(c, EMPTY_WORLD, steps)
    ensures Accounted(Run(c, EMPTY_WORLD, steps))
  {
    RunFits(c, EMPTY_WORLD, steps);
  }

  lemma {:induction false} PoolFits(c: Config, p: Pool, moves: seq<Move>, p': Pool)
    requires PoolInv(c, p) && ReachablePerSwap(c, p, moves, p') && Accounted(p.w)
    ensures Accounted(p'.w)
    decreases |moves|
  {
    if moves != [] {
      var m := moves[0];
      if m.Turn? && !Refused(p.w, p.tasks[m.task].head) {
        TurnIsLegal(c, p, m.task, m.stored);
        FittingStep(p.w, p.tasks[m.task].head);
      }
      MoveKeepsPool(c, p, m);
      PoolFits(c, Next(c, p, m), moves[1..], p');
    }
  }

  /** The same when calls of different swaps interleave. */
  lemma EveryEffectFitsPerSwap(c: Config, moves: seq<Move>, p: Pool)
    requires ReachablePerSwap(c, EMPTY_POOL, moves, p)
    ensures Accounted(p.w)
  {
    PoolFits(c, EMPTY_POOL, moves, p);
  }

  // ------------------------------------------------------------------
  // In terms of the rows at the end
  // ------------------------------------------------------------------

  lemma RowsGrow(t: seq<Effect>, n: nat)
    requires n < |t|
    ensures RowsOf(t[..n + 1]) == RowsAfter(RowsOf(t[..n]), t[n])
  {
    assert t[..n + 1][..n] == t[..n];
  }

  /** Rows stay, with their parties and payloads. */
  lemma {:induction false} RowsStay(t: seq<Effect>, n: nat, m: nat, id: SwapId)
    requires TraceFits(t) && n <= m <= |t| && id in RowsOf(t[..n])
    ensures id in RowsOf(t[..m]) && SameSwap(RowsOf(t[..n])[id], RowsOf(t[..m])[id])
    decreases m
  {
    if n < m {
      RowsStay(t, n, m - 1, id);
      RowsGrow(t, m - 1);
      assert FitsAt(t, m - 1);
    }
  }

  /** Each row in the store is coherent, and shows the status of its phase. */
  lemma {:induction false} RowsShown(t: seq<Effect>, n: nat, id: SwapId)
    requires TraceFits(t) && n <= |t| && id in RowsOf(t[..n])
    ensures var r := RowsOf(t[..n])[id]; r.id == id && Coherent(r) && ShownRight(r)
  {
    if n > 0 {
      RowsGrow(t, n - 1);
      assert FitsAt(t, n - 1);
      if id in RowsOf(t[..n - 1]) { RowsShown(t, n - 1, id); }
    }
  }

  /** The row that was stored before effect `n`, and the row stored in the end. */
  lemma ThenAndNow(w: World, n: nat)
    requires Accounted(w) && n < |w.trace|
    ensures FitsAt(w.trace, n)
    ensures var id := Subject(w.trace[n]);
      id in RowsOf(w.trace[..n]) ==>
        && id in w.rows && Coherent(w.rows[id]) && w.rows[id].id == id
        && Coherent(RowsOf(w.trace[..n])[id]) && SameSwap(RowsOf(w.trace[..n])[id], w.rows[id])
  {
    var t, id := w.trace, Subject(w.trace[n]);
    assert t[..|t|] == t;
    if id in RowsOf(t[..n]) {
      RowsStay(t, n, |t|, id);
      RowsShown(t, n, id);
      RowsShown(t, |t|, id);
    }
  }

  /** Who gets what, in terms of the stored row. */
  predicate Addressed(r: Row, recipient: string, kind: PushKind, payload: seq<string>) {
    match kind
    case Insert => recipient == r.aliceFp && payload == [r.blob.bob.encSecretForAlice]
    case ReleaseSettle => recipient == r.bobFp && payload == [r.txSettleHash, r.blob.alice.encPartialForBob]
    case ReleaseRefund => recipient == r.aliceFp && payload == [r.txRefundHash]
    case Invalidate => payload == [r.hB] && recipient == (if r.phase == Canceled then r.aliceFp else r.bobFp)
  }

  predicate Over(phase: Phase) { phase in {Aborted, Invalidated, Refunded, Canceled} }

  /** Past the abort nothing is canceled, and a canceled row is not written. */
  lemma WriteWhenOver(t: seq<Effect>, n: nat)
    requires TraceFits(t) && n < |t| && t[n].Wrote?
    ensures var rows, r := RowsOf(t[..n]), t[n].row;
      r.id in rows && Over(rows[r.id].phase) ==> Over(r.phase) && rows[r.id].phase != Canceled && r.phase != Canceled
  {
    assert FitsAt(t, n);
  }

  /** A canceled row stays, so an invalidation that went to Alice is one of a canceled swap. */
  lemma {:induction false} CanceledStays(t: seq<Effect>, n: nat, m: nat, id: SwapId)
    requires TraceFits(t) && n <= m <= |t| && id in RowsOf(t[..n])
    requires Over(RowsOf(t[..n])[id].phase)
    ensures id in RowsOf(t[..m]) && Over(RowsOf(t[..m])[id].phase)
    ensures RowsOf(t[..m])[id].phase == Canceled <==> RowsOf(t[..n])[id].phase == Canceled
    decreases m
  {
    if n < m {
      CanceledStays(t, n, m - 1, id);
      RowsGrow(t, m - 1);
      if t[m - 1].Wrote? { WriteWhenOver(t, m - 1); }
    }
  }

  /**
   * Each push goes to the party it is for: inserts and refund releases to
   * Alice, settle releases to Bob, an invalidation to Bob after an abort and
   * to Alice after a cancel; and it carries what that party needs of the row.
   */
  lemma PushesAreAddressed(w: World, n: nat)
    requires Accounted(w) && n < |w.trace| && w.trace[n].Pushed?
    ensures var e := w.trace[n]; e.id in w.rows && Addressed(w.rows[e.id], e.recipient, e.kind, e.payload)
  {
    var e, t := w.trace[n], w.trace;
    ThenAndNow(w, n);
    assert t[..|t|] == t;
    if e.kind == Invalidate { CanceledStays(t, n, |t|, e.id); }
  }

  /**
   * A signature is made with the key and the nonce of Alice that the swap was
   * created with, on its own session's hash.
   */
  lemma SignaturesAreAlices(w: World, n: nat)
    requires Accounted(w) && n < |w.trace| && w.trace[n].Signed?
    ensures var e := w.trace[n];
      && e.id in w.rows && e.txHash == Committed(w.rows[e.id], e.session)
      && e.aliceKey == w.rows[e.id].blob.parties.aliceMusigKey
      && e.aliceNonce == (if e.session == Settle then w.rows[e.id].blob.nonces.settle else w.rows[e.id].blob.nonces.refund)
  {
    ThenAndNow(w, n);
  }

  function ProofFor(r: Row, circuit: Circuit): string {
    if circuit == BobCircuit then r.blob.bob.zkp else r.blob.alice.zkp
  }

  /** Webcash is asked about the committed hash, the verifiers about the committed proofs. */
  lemma QuestionsAreTheSwaps(w: World, n: nat)
    requires Accounted(w) && n < |w.trace|
    ensures var e := w.trace[n];
      && (e.Checked? ==> e.id in w.rows && e.hash == w.rows[e.id].hB)
      && (e.Verified? ==> e.id in w.rows && e.proof == ProofFor(w.rows[e.id], e.circuit))
  {
    ThenAndNow(w, n);
  }

  // ------------------------------------------------------------------
  // Ends are delivered
  // ------------------------------------------------------------------

  ghost predicate PushSeen(t: seq<Effect>, id: SwapId, kind: PushKind) {
    exists n :: 0 <= n < |t| && Is(t[n], id, PushOf(kind))
  }

  lemma PushSeenSnoc(t: seq<Effect>, n: nat, id: SwapId, kind: PushKind)
    requires n < |t|
    ensures PushSeen(t[..n + 1], id, kind) <==> PushSeen(t[..n], id, kind) || Is(t[n], id, PushOf(kind))
  {
    var s := t[..n + 1];
    assert s[n] == t[n];
    if i :| 0 <= i < n && Is(t[..n][i], id, PushOf(kind)) { assert s[i] == t[..n][i]; }
    if i :| 0 <= i < n + 1 && Is(s[i], id, PushOf(kind)) { assert i < n ==> t[..n][i] == s[i]; }
  }

  lemma KnownGrows(t: seq<Effect>, n: nat, id: SwapId)
    requires n < |t|
    ensures KnownOf(t[..n + 1], id) == if Subject(t[n]) == id then Learn(KnownOf(t[..n], id), t[n]) else KnownOf(t[..n], id)
  {
    assert t[..n + 1] == t[..n] + [t[n]];
    KnownSnoc(t[..n], t[n], id);
  }

  lemma {:induction false} PushedIsSeen(t: seq<Effect>, n: nat, id: SwapId, kind: PushKind)
    requires n <= |t| && kind in KnownOf(t[..n], id).pushed
    ensures PushSeen(t[..n], id, kind)
  {
    if n > 0 {
      KnownGrows(t, n - 1, id);
      PushSeenSnoc(t, n - 1, id, kind);
      if kind in KnownOf(t[..n - 1], id).pushed { PushedIsSeen(t, n - 1, id, kind); }
    }
  }

  function ReleaseOf(phase: Phase): PushKind {
    if phase == Settled then ReleaseSettle else ReleaseRefund
  }

  /** The write that ends a swap comes after its release. */
  lemma EndWrite(t: seq<Effect>, n: nat)
    requires TraceFits(t) && n < |t| && t[n].Wrote? && t[n].row.phase in {Settled, Refunded}
    ensures ReleaseOf(t[n].row.phase) in KnownOf(t[..n], t[n].row.id).pushed
  {
    assert FitsAt(t, n);
  }

  lemma {:induction false} EndWasPushed(t: seq<Effect>, n: nat, id: SwapId)
    requires TraceFits(t) && n <= |t| && id in RowsOf(t[..n]) && RowsOf(t[..n])[id].phase in {Settled, Refunded}
    ensures PushSeen(t[..n], id, ReleaseOf(RowsOf(t[..n])[id].phase))
  {
    if n > 0 {
      var kind := ReleaseOf(RowsOf(t[..n])[id].phase);
      RowsGrow(t, n - 1);
      PushSeenSnoc(t, n - 1, id, kind);
      if t[n - 1].Wrote? && t[n - 1].row.id == id {
        EndWrite(t, n - 1);
        PushedIsSeen(t, n - 1, id, kind);
      } else {
        EndWasPushed(t, n - 1, id);
      }
    }
  }

  /** A settled swap has its settle signature pushed to Bob, a refunded one its refund signature to Alice. */
  lemma EndsAreDelivered(w: World, id: SwapId)
    requires Accounted(w) && id in w.rows
    ensures var r := w.rows[id];
      && (r.phase == Settled ==> Pushed(id, r.bobFp, ReleaseSettle, [r.txSettleHash, r.blob.alice.encPartialForBob]) in w.trace)
      && (r.phase == Refunded ==> Pushed(id, r.aliceFp, ReleaseRefund, [r.txRefundHash]) in w.trace)
  {
    var t, r := w.trace, w.rows[id];
    assert t[..|t|] == t;
    if r.phase in {Settled, Refunded} {
      EndWasPushed(t, |t|, id);
      var kind := ReleaseOf(r.phase);
      var n :| 0 <= n < |t| && Is(t[n], id, PushOf(kind));
      PushesAreAddressed(w, n);
    }
  }

  /** Users see settled, refunded and canceled swaps as such and as final, all others as pending. */
  lemma StatusIsOfPhase(w: World, id: SwapId)
    requires Accounted(w) && id in w.rows
    ensures ShownRight(w.rows[id])
  {
    assert w.trace[..|w.trace|] == w.trace;
    RowsShown(w.trace, |w.trace|, id);
  }

  // ------------------------------------------------------------------
  // Rows hold what the start was given
  // ------------------------------------------------------------------

  /** The row carries the request of the start and the time it was made. */
  predicate Carries(r: Row, id: SwapId, q: Request, now: nat) {
    && r.id == id && r.createdAt == now
    && r.blob.parties == q.parties && r.blob.bob == q.bob && r.blob.alice == q.alice && r.blob.nonces == q.nonces
  }

  lemma LegalPastFour(c: Config, w: World, e1: Effect, e2: Effect, e3: Effect, e4: Effect, rest: List<Effect>)
    requires Inv(c, w) && AllLegal(c, w, Cons(e1, Cons(e2, Cons(e3, Cons(e4, rest)))))
    ensures var w4 := Do(Do(Do(Do(w, e1), e2), e3), e4); Inv(c, w4) && AllLegal(c, w4, rest)
  {
    var w1 := Do(w, e1);
    var w2 := Do(w1, e2);
    var w3 := Do(w2, e3);
    assert AllLegal(c, w1, Cons(e2, Cons(e3, Cons(e4, rest))));
    assert AllLegal(c, w2, Cons(e3, Cons(e4, rest)));
    assert AllLegal(c, w3, Cons(e4, rest));
    LegalStepKeepsInv(c, w, e1);
    LegalStepKeepsInv(c, w1, e2);
    LegalStepKeepsInv(c, w2, e3);
    LegalStepKeepsInv(c, w3, e4);
  }

  lemma StartStoresRequest(c: Config, w: World, id: SwapId, q: Request, a: Answers, n: nat)
    requires Inv(c, w) && Fresh(w, id)
    ensures var rows := After(c, w, Step(StartCall(id, q), a, n)).0.rows;
      if n >= 4 then id in rows && Carries(rows[id], id, q, a.clock(0)) else rows == w.rows
  {
    var script := StartScript(c, id, q, a);
    var e3, e4, rest := Appended(InitEntry(id, q, a)), Wrote(InitRow(c, id, q, a)), script.effects.tail.tail.tail.tail;
    StartLegal(c, w, id, q, a);
    FirstFour(w, Began(id, Settle), Began(id, Refund), e3, e4, rest, script.reply, n);
    if n >= 4 {
      LegalPastFour(c, w, Began(id, Settle), Began(id, Refund), e3, e4, rest);
      var w4 := Do(Do(Do(Do(w, Began(id, Settle)), Began(id, Refund)), e3), e4);
      LegalScriptGoesForward(c, w4, rest, script.reply, n - 4);
    }
  }

  ghost predicate CameFrom(r: Row, id: SwapId, steps: seq<Step>) {
    exists i :: 0 <= i < |steps| && steps[i].Step? && steps[i].call.StartCall?
      && Carries(r, id, steps[i].call.request, steps[i].answers.clock(0)) && steps[i].call.id == id
  }

  lemma StepCreates(c: Config, w: World, step: Step, id: SwapId)
    requires Inv(c, w) && Plausible(w, step) && id !in w.rows && id in After(c, w, step).0.rows
    ensures CameFrom(After(c, w, step).0.rows[id], id, [step])
  {
    assert step.Step?;
    var script := ScriptOf(c, w, step.call, step.answers);
    assert IdInv(c, w, step.call.id);
    CallAbout(c, w, step.call, step.answers);
    if step.call.id != id {
      OthersStay(w, script.effects, script.reply, step.stop, step.call.id, id);
    } else if step.call.StartCall? {
      StartStoresRequest(c, w, id, step.call.request, step.answers, step.stop);
      assert [step][0] == step;
    }
  }

  /** Every stored swap has the parties, payloads and nonces of a start call of the run under its id. */
  lemma {:induction false} RowsComeFromStarts(c: Config, w: World, steps: seq<Step>, id: SwapId)
    requires Inv(c, w) && PlausibleRun(c, w, steps)
    requires id !in w.rows && id in Run(c, w, steps).rows
    ensures CameFrom(Run(c, w, steps).rows[id], id, steps)
    decreases |steps|
  {
    var w1 := After(c, w, steps[0]).0;
    StepKeepsInv(c, w, steps[0]);
    if id in w1.rows {
      StepCreates(c, w, steps[0], id);
      RunGoesForward(c, w1, steps[1..]);
      assert steps[0] == [steps[0]][0];
    } else {
      RowsComeFromStarts(c, w1, steps[1..], id);
      var i :| 0 <= i < |steps[1..]| && steps[1..][i].Step? && steps[1..][i].call.StartCall?
        && Carries(Run(c, w1, steps[1..]).rows[id], id, steps[1..][i].call.request, steps[1..][i].answers.clock(0))
        && steps[1..][i].call.id == id;
      assert steps[i + 1] == steps[1..][i];
    }
  }
}
