// The rules every single effect of the orchestrator obeys, the invariant they
// keep, and the proof that each entry point only performs effects that obey
// them. A call may stop after any effect, so the invariant holds wherever it stops.

module SwapInvariant {
  import opened Prelude
  import opened SwapState
  import opened SwapProtocol
  import opened SwapHistory

  /** Milestones that a row in this phase vouches for. */
  function Needed(phase: Phase): nat {
    match phase
    case Init => 0
    case ZkpsVerified => 2
    case PreChecked => 3
    case InsertPushed => 4
    case Settled => 6
    case Aborted => 4
    case Invalidated => 4
    case Refunded => 4
    case Canceled => 0
  }

  ghost predicate RowInv(c: Config, w: World, r: Row) {
    && Coherent(r)
    && Linked(c.hash, w.log, r.id, r.phase, r.blob.tip)
    && Stage(w.trace, r.id) >= Needed(r.phase)
    && (Count(w.trace, r.id, SignOf(Settle)) > 0 ==>
          r.phase in {InsertPushed, Settled, Canceled} && SpentSeen(w.trace, r.hB))
    && (Count(w.trace, r.id, SignOf(Refund)) > 0 ==> r.phase in {Invalidated, Refunded})
  }

  ghost predicate SessionInv(w: World, id: SwapId, s: Session) {
    Count(w.trace, id, SignOf(s)) + (if (id, s) in w.live then 1 else 0)
      <= Count(w.trace, id, BeginOf(s)) <= 1
  }

  ghost predicate IdInv(c: Config, w: World, id: SwapId) {
    && SessionInv(w, id, Settle) && SessionInv(w, id, Refund)
    && (id in w.rows ==> w.rows[id].id == id && RowInv(c, w, w.rows[id]))
    && (id !in w.rows ==> Count(w.trace, id, SignOf(Settle)) == 0 && Count(w.trace, id, SignOf(Refund)) == 0)
  }

  /** Every settle release in the history had all its milestones behind it. */
  ghost predicate ReleasesEarned(t: seq<Effect>) {
    forall n :: 0 <= n < |t| && t[n].Pushed? && t[n].kind == ReleaseSettle ==>
      Stage(t[..n], t[n].id) == MILESTONES
  }

  function Committed(r: Row, s: Session): string {
    if s == Settle then r.txSettleHash else r.txRefundHash
  }

  /** A signature only ever covers the transaction hash its swap was created with. */
  ghost predicate SignaturesCommitted(w: World) {
    forall n :: 0 <= n < |w.trace| && w.trace[n].Signed? ==>
      && w.trace[n].id in w.rows
      && w.trace[n].txHash == Committed(w.rows[w.trace[n].id], w.trace[n].session)
  }

  ghost predicate Inv(c: Config, w: World) {
    && (forall id :: IdInv(c, w, id))
    && ReleasesEarned(w.trace)
    && SignaturesCommitted(w)
  }

  // ------------------------------------------------------------------
  // Legal effects
  // ------------------------------------------------------------------

  /** A write creates an `init` row, follows one edge of the phase graph, or records the HTLC contract. */
  ghost predicate LegalWrite(c: Config, w: World, r: Row) {
    && Coherent(r)
    && Linked(c.hash, w.log, r.id, r.phase, r.blob.tip)
    && Stage(w.trace, r.id) >= Needed(r.phase)
    && (if r.id in w.rows then
          var prev := w.rows[r.id];
          && !prev.terminal && SameSwap(prev, r)
          && (Edge(prev.phase, r.phase) || r == prev.(htlcContract := r.htlcContract))
          && (r.phase == Aborted ==> Count(w.trace, r.id, SignOf(Settle)) == 0)
        else
          r.phase == Init)
  }

  ghost predicate Legal(c: Config, w: World, e: Effect) {
    match e
    case Began(id, s) => Count(w.trace, id, BeginOf(s)) == 0
    case Wrote(row) => LegalWrite(c, w, row)
    case Signed(id, s, txHash, _, _) =>
      && (id, s) in w.live && id in w.rows && txHash == Committed(w.rows[id], s)
      && (match s
          case Settle => w.rows[id].phase == InsertPushed && SpentSeen(w.trace, w.rows[id].hB)
          case Refund => w.rows[id].phase == Invalidated)
    case Pushed(id, _, kind, _) => kind == ReleaseSettle ==> Stage(w.trace, id) == MILESTONES
    case _ => true
  }

  /** Every effect of the list is legal when its turn comes. */
  ghost predicate AllLegal(c: Config, w: World, es: List<Effect>)
    decreases es
  {
    es.Nil? || (Legal(c, w, es.head) && AllLegal(c, Do(w, es.head), es.tail))
  }

  // ------------------------------------------------------------------
  // One legal effect keeps the invariant
  // ------------------------------------------------------------------

  lemma SnocFacts(t: seq<Effect>, e: Effect, id: SwapId)
    ensures forall q :: Count(t + [e], id, q) == Count(t, id, q) + if Is(e, id, q) then 1 else 0
    ensures Stage(t + [e], id) == Stage(t, id) + if IsMilestone(e, id, Stage(t, id)) then 1 else 0
    ensures forall h :: SpentSeen(t, h) ==> SpentSeen(t + [e], h)
  {
    forall q ensures Count(t + [e], id, q) == Count(t, id, q) + if Is(e, id, q) then 1 else 0 {
      CountSnoc(t, e, id, q);
    }
    StageSnoc(t, e, id);
    forall h | SpentSeen(t, h) ensures SpentSeen(t + [e], h) {
      var i :| 0 <= i < |t| && t[i].Checked? && t[i].hash == h && t[i].status == Spent;
      assert (t + [e])[i] == t[i];
    }
  }

  lemma SessionStep(c: Config, w: World, e: Effect, id: SwapId, s: Session)
    requires SessionInv(w, id, s) && Legal(c, w, e)
    ensures SessionInv(Do(w, e), id, s)
  {
    CountSnoc(w.trace, e, id, SignOf(s));
    CountSnoc(w.trace, e, id, BeginOf(s));
  }

  /** A row stays sound under any effect that is not a write of it. */
  lemma RowStep(c: Config, w: World, e: Effect, id: SwapId)
    requires IdInv(c, w, id) && Legal(c, w, e) && id in w.rows
    requires !(e.Wrote? && e.row.id == id)
    ensures RowInv(c, Do(w, e), w.rows[id])
  {
    var r := w.rows[id];
    SnocFacts(w.trace, e, id);
    if e.Appended? { LinkedMonotone(c.hash, w.log, e.entry, id, r.phase, r.blob.tip); }
  }

  lemma WriteStep(c: Config, w: World, r: Row)
    requires IdInv(c, w, r.id) && LegalWrite(c, w, r)
    ensures RowInv(c, Do(w, Wrote(r)), r)
  {
    SnocFacts(w.trace, Wrote(r), r.id);
    assert r.id in w.rows ==> r.hB == w.rows[r.id].hB;
  }

  lemma IdInvStep(c: Config, w: World, e: Effect, id: SwapId)
    requires IdInv(c, w, id) && Legal(c, w, e)
    ensures IdInv(c, Do(w, e), id)
  {
    SessionStep(c, w, e, id, Settle);
    SessionStep(c, w, e, id, Refund);
    if e.Wrote? && e.row.id == id {
      WriteStep(c, w, e.row);
    } else if id in w.rows {
      RowStep(c, w, e, id);
    } else {
      CountSnoc(w.trace, e, id, SignOf(Settle));
      CountSnoc(w.trace, e, id, SignOf(Refund));
    }
  }

  lemma SignaturesStay(c: Config, w: World, e: Effect)
    requires SignaturesCommitted(w) && Legal(c, w, e) && (forall id :: IdInv(c, w, id))
    ensures SignaturesCommitted(Do(w, e))
  {
    if e.Wrote? && e.row.id in w.rows {
      assert IdInv(c, w, e.row.id);
    }
    var w' := Do(w, e);
    forall n | 0 <= n < |w'.trace| && w'.trace[n].Signed?
      ensures w'.trace[n].id in w'.rows
      ensures w'.trace[n].txHash == Committed(w'.rows[w'.trace[n].id], w'.trace[n].session)
    {
      if n < |w.trace| { assert w'.trace[n] == w.trace[n]; }
    }
  }

  lemma LegalStepKeepsInv(c: Config, w: World, e: Effect)
    requires Inv(c, w) && Legal(c, w, e)
    ensures Inv(c, Do(w, e))
  {
    forall id ensures IdInv(c, Do(w, e), id) { IdInvStep(c, w, e, id); }
    SignaturesStay(c, w, e);
    var t := w.trace + [e];
    forall n | 0 <= n < |t| && t[n].Pushed? && t[n].kind == ReleaseSettle
      ensures Stage(t[..n], t[n].id) == MILESTONES
    {
      assert t[..n] == if n < |w.trace| then w.trace[..n] else w.trace;
    }
  }

  /** Wherever a script of legal effects stops, the invariant holds. */
  lemma {:induction false} LegalScriptKeepsInv(c: Config, w: World, es: List<Effect>, reply: Reply, n: nat)
    requires Inv(c, w) && AllLegal(c, w, es)
    ensures Inv(c, Exec(w, es, reply, n).0)
    decreases es
  {
    if es.Cons? && n > 0 {
      LegalStepKeepsInv(c, w, es.head);
      LegalScriptKeepsInv(c, Do(w, es.head), es.tail, reply, n - 1);
    }
  }
}
