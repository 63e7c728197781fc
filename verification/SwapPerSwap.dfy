// Calls of different swaps at the same time, those of one swap one after the
// other: all that serialised runs keep is kept, so serialising per swap is
// enough (referee/src/api/orchestrator.rs).

module SwapPerSwap {
  import opened Prelude
  import opened SwapState
  import opened SwapProtocol
  import opened SwapHistory
  import opened SwapInvariant
  import opened SwapScripts
  import opened SwapRuns
  import opened SwapLocality
  import opened SwapListing
  import opened SwapInterleaving
  import opened SwapWrites

  /** A call of this swap still has something to do. */
  predicate Busy(p: Pool, id: SwapId) {
    exists i :: 0 <= i < |p.tasks| && p.tasks[i].Cons? && Subject(p.tasks[i].head) == id
  }

  /** A call waits until no other call of its swap is at work, and webcash never takes back that a hash is spent. */
  ghost predicate Serialised(p: Pool, m: Move)
    requires Enabled(p, m)
  {
    match m
    case Enter(call, _) => !Busy(p, call.id)
    case Turn(i, _) =>
      var e := p.tasks[i].head;
      e.Checked? ==> Monotone(p.w.trace, e.hash, e.status)
    case _ => true
  }

  ghost predicate ReachablePerSwap(c: Config, p: Pool, moves: seq<Move>, p': Pool)
    decreases |moves|
  {
    if moves == [] then p' == p
    else
      && Enabled(p, moves[0]) && AsWritten(p, moves[0]) && Serialised(p, moves[0])
      && ReachablePerSwap(c, Next(c, p, moves[0]), moves[1..], p')
  }

  // ------------------------------------------------------------------
  // What other swaps cannot disturb
  // ------------------------------------------------------------------

  /** `w'` is `w` for all that the rules say about this swap; others may have moved on. */
  ghost predicate Frame(c: Config, w: World, w': World, id: SwapId) {
    && SameFor(w, w', id)
    && (forall q :: Count(w'.trace, id, q) == Count(w.trace, id, q))
    && Stage(w'.trace, id) == Stage(w.trace, id)
    && (forall h :: SpentSeen(w.trace, h) ==> SpentSeen(w'.trace, h))
    && (forall phase, tip :: Linked(c.hash, w.log, id, phase, tip) ==> Linked(c.hash, w'.log, id, phase, tip))
  }

  lemma FrameLegal(c: Config, w: World, w': World, e: Effect, id: SwapId)
    requires Frame(c, w, w', id) && Subject(e) == id && Legal(c, w, e)
    ensures Legal(c, w', e)
  {}

  /** An effect of another swap. */
  lemma OthersFrame(c: Config, w: World, e: Effect, id: SwapId)
    requires Subject(e) != id
    ensures Frame(c, w, Do(w, e), id)
  {
    SnocFacts(w.trace, e, id);
    forall phase, tip | Linked(c.hash, w.log, id, phase, tip)
      ensures Linked(c.hash, Do(w, e).log, id, phase, tip)
    {
      if e.Appended? { LinkedMonotone(c.hash, w.log, e.entry, id, phase, tip); }
    }
  }

  /** A chain in the log with one more entry either does without it or ends in it. */
  lemma LinkedSplits(hash: Entry -> string, log: seq<Entry>, e: Entry, id: SwapId, phase: Phase, tip: string)
    returns (before: (Phase, string))
    requires Linked(hash, log + [e], id, phase, tip)
    ensures
      || Linked(hash, log, id, phase, tip)
      || (e.id == id && e.phase == phase && hash(e) == tip && e.phase == Init && e.prior == "")
      || (&& e.id == id && e.phase == phase && hash(e) == tip
          && Linked(hash, log, id, before.0, before.1) && e.prior == before.1 && Edge(before.0, e.phase))
  {
    var all := log + [e];
    var path: seq<nat> :| IsChain(hash, all, id, path) && EndsAt(hash, all, path, phase, tip);
    var n := |path| - 1;
    before := (phase, tip);
    if path[n] < |log| {
      ChainIsBelow(hash, log, e, id, path);
      assert EndsAt(hash, log, path, phase, tip);
    } else if n > 0 {
      var front := path[..n];
      assert front[n - 1] == path[n - 1] && path[n - 1] < path[n];
      assert IsChain(hash, all, id, front);
      ChainIsBelow(hash, log, e, id, front);
      var last := log[front[n - 1]];
      before := (last.phase, hash(last));
      assert EndsAt(hash, log, front, last.phase, hash(last));
    }
  }

  lemma {:induction false} PathIncreases(path: seq<nat>, i: nat, j: nat)
    requires i <= j < |path| && forall k :: 0 < k < |path| ==> path[k - 1] < path[k]
    ensures path[i] <= path[j]
    decreases j - i
  {
    if i < j { PathIncreases(path, i, j - 1); }
  }

  lemma ChainIsBelow(hash: Entry -> string, log: seq<Entry>, e: Entry, id: SwapId, path: seq<nat>)
    requires IsChain(hash, log + [e], id, path) && path[|path| - 1] < |log|
    ensures IsChain(hash, log, id, path)
  {
    forall k | 0 <= k < |path| ensures path[k] < |log| { PathIncreases(path, k, |path| - 1); }
    assert forall k :: 0 <= k < |path| ==> (log + [e])[path[k]] == log[path[k]];
  }

  lemma LinkedThroughAppend(c: Config, log: seq<Entry>, log': seq<Entry>, e: Entry, id: SwapId, phase: Phase, tip: string)
    requires forall ph, t :: Linked(c.hash, log, id, ph, t) ==> Linked(c.hash, log', id, ph, t)
    requires Linked(c.hash, log + [e], id, phase, tip)
    ensures Linked(c.hash, log' + [e], id, phase, tip)
  {
    var before := LinkedSplits(c.hash, log, e, id, phase, tip);
    if Linked(c.hash, log, id, phase, tip) {
      LinkedMonotone(c.hash, log', e, id, phase, tip);
    } else if e.phase == Init && e.prior == "" {
      LinkedInit(c.hash, log', e);
    } else {
      LinkedExtend(c.hash, log', e, before.0, before.1);
    }
  }

  /** The same effect of this swap on both sides. */
  lemma FrameDo(c: Config, w: World, w': World, e: Effect, id: SwapId)
    requires Frame(c, w, w', id) && Subject(e) == id
    ensures Frame(c, Do(w, e), Do(w', e), id)
  {
    SnocFacts(w.trace, e, id);
    SnocFacts(w'.trace, e, id);
    forall h | SpentSeen(Do(w, e).trace, h) ensures SpentSeen(Do(w', e).trace, h) { SpentThrough(w, w', e, h); }
    forall phase, tip | Linked(c.hash, Do(w, e).log, id, phase, tip)
      ensures Linked(c.hash, Do(w', e).log, id, phase, tip)
    {
      if e.Appended? { LinkedThroughAppend(c, w.log, w'.log, e.entry, id, phase, tip); }
    }
  }

  lemma SpentThrough(w: World, w': World, e: Effect, h: string)
    requires SpentSeen(w.trace, h) ==> SpentSeen(w'.trace, h)
    requires SpentSeen(w.trace + [e], h)
    ensures SpentSeen(w'.trace + [e], h)
  {
    var t, t' := w.trace + [e], w'.trace + [e];
    var i :| 0 <= i < |t| && t[i].Checked? && t[i].hash == h && t[i].status == Spent;
    if i < |w.trace| {
      assert w.trace[i] == t[i];
      var j :| 0 <= j < |w'.trace| && w'.trace[j].Checked? && w'.trace[j].hash == h && w'.trace[j].status == Spent;
      assert t'[j] == w'.trace[j];
    } else {
      assert t'[|w'.trace|] == e;
    }
  }

  // ------------------------------------------------------------------
  // Calls in progress
  // ------------------------------------------------------------------

  /** Each effect is legal at its turn, unless the signer refuses it or webcash would have to take something back. */
  ghost predicate Ready(c: Config, w: World, es: List<Effect>)
    decreases es
  {
    || es.Nil?
    || Refused(w, es.head)
    || (es.head.Checked? && !Monotone(w.trace, es.head.hash, es.head.status))
    || (Legal(c, w, es.head) && Ready(c, Do(w, es.head), es.tail))
  }

  lemma {:induction false} FrameReady(c: Config, w: World, w': World, es: List<Effect>, id: SwapId)
    requires Frame(c, w, w', id) && About(es, id) && Ready(c, w, es)
    ensures Ready(c, w', es)
    decreases es
  {
    if es.Cons? && Legal(c, w, es.head) && Ready(c, Do(w, es.head), es.tail) {
      FrameLegal(c, w, w', es.head, id);
      FrameDo(c, w, w', es.head, id);
      FrameReady(c, Do(w, es.head), Do(w', es.head), es.tail, id);
    }
  }

  lemma {:induction false} LegalIsReady(c: Config, w: World, es: List<Effect>)
    requires AllLegal(c, w, es)
    ensures Ready(c, w, es)
    decreases es
  {
    if es.Cons? { LegalIsReady(c, Do(w, es.head), es.tail); }
  }

  /** With its session gone, a call that means to settle is refused when it asks for the signature. */
  lemma SettleWithoutSessionReady(c: Config, w: World, seen: World, id: SwapId, a: Answers)
    requires Inv(c, w) && id in w.rows && w.rows[id].phase == InsertPushed && a.status == Spent
    requires seen.rows == w.rows && (id, Settle) in seen.live && (id, Settle) !in w.live
    ensures Ready(c, w, AdvanceScript(c, seen, id, a).effects)
  {
    assert IdInv(c, w, id);
    var es := AdvanceScript(c, seen, id, a).effects;
    var w1 := Do(w, es.head);
    var w2 := Do(w1, es.tail.head);
    assert Ready(c, w2, es.tail.tail);
    assert Ready(c, w1, es.tail);
  }

  lemma RefundWithoutSessionReady(c: Config, w: World, seen: World, id: SwapId, a: Answers)
    requires Inv(c, w) && id in w.rows && w.rows[id].phase == Invalidated
    requires seen.rows == w.rows && (id, Refund) in seen.live && (id, Refund) !in w.live
    ensures Ready(c, w, AdvanceScript(c, seen, id, a).effects)
  {
    assert IdInv(c, w, id);
  }

  /** With the session there, the plan is the script of a serialised call. */
  lemma PlanIsScript(c: Config, w: World, seen: World, id: SwapId, a: Answers)
    requires Inv(c, w) && id in w.rows && seen.rows == w.rows
    requires w.rows[id].phase == InsertPushed && a.status == Spent ==> (id, Settle) in w.live && (id, Settle) in seen.live
    requires w.rows[id].phase == Invalidated ==> (id, Refund) in w.live && (id, Refund) in seen.live
    ensures AdvanceScript(c, seen, id, a) == AdvanceScript(c, w, id, a)
  {
    assert IdInv(c, w, id);
  }

  lemma AdvanceReady(c: Config, w: World, seen: World, id: SwapId, a: Answers)
    requires Inv(c, w) && id in w.rows && seen.rows == w.rows && (id, Settle) in seen.live && (id, Refund) in seen.live
    ensures Ready(c, w, AdvanceScript(c, seen, id, a).effects)
  {
    assert IdInv(c, w, id);
    var r := w.rows[id];
    if r.phase == InsertPushed && a.status != Spent && SpentSeen(w.trace, r.hB) {
      var es := AdvanceScript(c, seen, id, a).effects;
      assert es.head == Checked(id, r.hB, a.status);
    } else if r.phase == InsertPushed && a.status == Spent && (id, Settle) !in w.live {
      SettleWithoutSessionReady(c, w, seen, id, a);
    } else if r.phase == Invalidated && (id, Refund) !in w.live {
      RefundWithoutSessionReady(c, w, seen, id, a);
    } else if r.phase in {InsertPushed, Aborted, Invalidated} {
      PlanIsScript(c, w, seen, id, a);
      var fair := if r.phase == InsertPushed then a else a.(status := Spent);
      PlanIsScript(c, w, w, id, a);
      AdvanceLegal(c, w, id, fair);
      assert AdvanceScript(c, w, id, fair).effects == AdvanceScript(c, w, id, a).effects;
      LegalIsReady(c, w, AdvanceScript(c, w, id, a).effects);
    }
  }

  lemma PlanReady(c: Config, w: World, call: Call, a: Answers)
    requires Inv(c, w) && (call.StartCall? ==> Fresh(w, call.id))
    ensures Ready(c, w, Plan(c, w, call, a)) && About(Plan(c, w, call, a), call.id) 
    ensures forall k :: Fits(w.rows, k, Plan(c, w, call, a))
  {
    assert IdInv(c, w, call.id);
    var name := if call.id in w.rows then w.rows[call.id].blob.id else call.id;
    var seen := w.(live := w.live + {(name, Settle), (name, Refund)});
    CallAbout(c, seen, call, a);
    forall k ensures Fits(w.rows, k, Plan(c, w, call, a)) { CallFits(c, seen, call, k, a); }
    match call {
      case StartCall(id, request) =>
        StartLegal(c, w, id, request, a);
        LegalIsReady(c, w, StartScript(c, id, request, a).effects);
      case AdvanceCall(id) =>
        if id in w.rows { AdvanceReady(c, w, seen, id, a); }
      case CancelCall(id, requester, reason) =>
        CancelLegal(c, w, id, requester, reason, a);
        LegalIsReady(c, w, CancelScript(c, w, id, requester, reason, a).effects);
    }
  }

  // ------------------------------------------------------------------
  // Every move keeps the invariant
  // ------------------------------------------------------------------

  ghost predicate TaskInv(c: Config, p: Pool, i: nat)
    requires i < |p.tasks|
  {
    var es := p.tasks[i];
    es.Cons? ==>
      && About(es, Subject(es.head)) && Ready(c, p.w, es) && Subject(es.head) in p.used
      && Fits(p.w.rows, KnownOf(p.w.trace, Subject(es.head)), es)
  }

  /** No two calls at work are about the same swap. */
  predicate OneEach(p: Pool) {
    forall i, j :: 0 <= i < j < |p.tasks| && p.tasks[i].Cons? && p.tasks[j].Cons? ==>
      Subject(p.tasks[i].head) != Subject(p.tasks[j].head)
  }

  ghost predicate PoolInv(c: Config, p: Pool) {
    && Inv(c, p.w) && OneEach(p)
    && (forall i :: 0 <= i < |p.tasks| ==> TaskInv(c, p, i))
    && p.w.rows.Keys <= p.used
    && (forall n :: 0 <= n < |p.w.trace| ==> Subject(p.w.trace[n]) in p.used)
  }

  lemma EnterKeepsPool(c: Config, p: Pool, call: Call, a: Answers)
    requires PoolInv(c, p) && Enabled(p, Enter(call, a)) && Serialised(p, Enter(call, a))
    ensures PoolInv(c, Next(c, p, Enter(call, a)))
  {
    PlanReady(c, p.w, call, a);
    var p' := Next(c, p, Enter(call, a));
    forall i | 0 <= i < |p'.tasks| ensures TaskInv(c, p', i) {
      if i < |p.tasks| { assert TaskInv(c, p, i); }
    }
  }

  /** The rest of a task is about the same swap. */
  lemma TailTask(es: List<Effect>, id: SwapId)
    requires es.Cons? && About(es, id)
    ensures Subject(es.head) == id && About(es.tail, id) && (es.tail.Cons? ==> Subject(es.tail.head) == id)
  {}

  /** Dropping what a task still has to do. */
  lemma DropKeepsPool(c: Config, p: Pool, i: nat)
    requires PoolInv(c, p) && i < |p.tasks|
    ensures PoolInv(c, p.(tasks := p.tasks[i := Nil]))
  {
    var p' := p.(tasks := p.tasks[i := Nil]);
    forall j | 0 <= j < |p'.tasks| ensures TaskInv(c, p', j) { assert TaskInv(c, p, j); }
  }

  lemma OtherTask(c: Config, p: Pool, e: Effect, w': World, j: nat)
    requires j < |p.tasks| && TaskInv(c, p, j) && w' == Do(p.w, e)
    requires p.tasks[j].Cons? ==> Subject(p.tasks[j].head) != Subject(e)
    ensures TaskInv(c, p.(w := w'), j)
  {
    var es := p.tasks[j];
    if es.Cons? {
      OthersFrame(c, p.w, e, Subject(es.head));
      FrameReady(c, p.w, w', es, Subject(es.head));
      KnownSnoc(p.w.trace, e, Subject(es.head));
      FitsFrame(p.w.rows, w'.rows, KnownOf(p.w.trace, Subject(es.head)), es, Subject(es.head));
    }
  }

  lemma TurnKeepsPool(c: Config, p: Pool, i: nat, stored: Row)
    requires PoolInv(c, p) && Enabled(p, Turn(i, stored))
    requires AsWritten(p, Turn(i, stored)) && Serialised(p, Turn(i, stored))
    ensures PoolInv(c, Next(c, p, Turn(i, stored)))
  {
    var es := p.tasks[i];
    var e := es.head;
    assert TaskInv(c, p, i);
    if Refused(p.w, e) {
      DropKeepsPool(c, p, i);
    } else {
      var p' := Next(c, p, Turn(i, stored));
      LegalStepKeepsInv(c, p.w, e);
      TailTask(es, Subject(e));
      KnownSnoc(p.w.trace, e, Subject(e));
      forall j | 0 <= j < |p'.tasks| ensures TaskInv(c, p', j) {
        if j != i {
          assert TaskInv(c, p, j);
          OtherTask(c, p, e, p'.w, j);
          assert TaskInv(c, p.(w := p'.w), j);
        }
      }
    }
  }

  lemma MoveKeepsPool(c: Config, p: Pool, m: Move)
    requires PoolInv(c, p) && Enabled(p, m) && AsWritten(p, m) && Serialised(p, m)
    ensures PoolInv(c, Next(c, p, m))
  {
    match m
    case Enter(call, a) => EnterKeepsPool(c, p, call, a);
    case Turn(i, stored) => TurnKeepsPool(c, p, i, stored);
    case Die(i) => DropKeepsPool(c, p, i);
    case Reboot => RestartKeepsInv(c, p.w);
  }

  lemma {:induction false} PerSwapKeepsInv(c: Config, p: Pool, moves: seq<Move>, p': Pool)
    requires PoolInv(c, p) && ReachablePerSwap(c, p, moves, p')
    ensures PoolInv(c, p')
    decreases |moves|
  {
    if moves != [] {
      MoveKeepsPool(c, p, moves[0]);
      PerSwapKeepsInv(c, Next(c, p, moves[0]), moves[1..], p');
    }
  }

  /** With the calls of each swap serialised, and those of different swaps interleaved, no swap gets both signatures. */
  lemma NeverBothSignaturesPerSwap(c: Config, moves: seq<Move>, p: Pool, id: SwapId)
    requires ReachablePerSwap(c, EMPTY_POOL, moves, p)
    ensures Count(p.w.trace, id, SignOf(Settle)) == 0 || Count(p.w.trace, id, SignOf(Refund)) == 0
  {
    PerSwapKeepsInv(c, EMPTY_POOL, moves, p);
    assert IdInv(c, p.w, id);
  }

  /** What a turn that is not refused does: one legal effect. */
  lemma TurnIsLegal(c: Config, p: Pool, i: nat, stored: Row)
    requires PoolInv(c, p) && Enabled(p, Turn(i, stored))
    requires AsWritten(p, Turn(i, stored)) && Serialised(p, Turn(i, stored))
    requires !Refused(p.w, p.tasks[i].head)
    ensures Legal(c, p.w, p.tasks[i].head) && Next(c, p, Turn(i, stored)).w == Do(p.w, p.tasks[i].head)
    ensures Fitting(p.w.rows, KnownOf(p.w.trace, Subject(p.tasks[i].head)), p.tasks[i].head)
  {
    assert TaskInv(c, p, i);
  }

  lemma MoveGoesForward(c: Config, p: Pool, m: Move)
    requires PoolInv(c, p) && Enabled(p, m) && AsWritten(p, m) && Serialised(p, m)
    ensures Forward(p.w.rows, Next(c, p, m).w.rows)
    ensures Recorded(p.w) ==> Recorded(Next(c, p, m).w)
  {
    if m.Turn? && !Refused(p.w, p.tasks[m.task].head) {
      var e := p.tasks[m.task].head;
      TurnIsLegal(c, p, m.task, m.stored);
      LegalStepGoesForward(c, p.w, e);
      if Recorded(p.w) { LegalStepRecords(c, p.w, e); }
    }
  }

  lemma {:induction false} PerSwapGoesForward(c: Config, p: Pool, moves: seq<Move>, p': Pool)
    requires PoolInv(c, p) && ReachablePerSwap(c, p, moves, p')
    ensures Forward(p.w.rows, p'.w.rows)
    ensures Recorded(p.w) ==> Recorded(p'.w)
    decreases |moves|
  {
    if moves != [] {
      var p1 := Next(c, p, moves[0]);
      MoveGoesForward(c, p, moves[0]);
      MoveKeepsPool(c, p, moves[0]);
      PerSwapGoesForward(c, p1, moves[1..], p');
    }
  }

  /**
   * The other theorems over serialised runs hold as well: signatures cover
   * committed hashes, settle releases are earned, stored tips are chained;
   * terminal rows stay, and no row changes parties, payloads or creation time,
   * which is what the listing indexes need.
   */
  lemma PerSwapRunsAreSound(c: Config, past: seq<Move>, p: Pool, future: seq<Move>, p': Pool)
    requires ReachablePerSwap(c, EMPTY_POOL, past, p) && ReachablePerSwap(c, p, future, p')
    ensures SignaturesCommitted(p.w) && ReleasesEarned(p.w.trace)
    ensures forall id <- p.w.rows :: Linked(c.hash, p.w.log, id, p.w.rows[id].phase, p.w.rows[id].blob.tip)
    ensures Forward(p.w.rows, p'.w.rows)
    ensures RowsOf(p.w.trace) == p.w.rows && OriginsKept(p.w.trace)
  {
    PerSwapKeepsInv(c, EMPTY_POOL, past, p);
    PerSwapGoesForward(c, EMPTY_POOL, past, p);
    PerSwapGoesForward(c, p, future, p');
    forall id <- p.w.rows
      ensures Linked(c.hash, p.w.log, id, p.w.rows[id].phase, p.w.rows[id].blob.tip)
    {
      assert IdInv(c, p.w, id);
    }
  }
}
