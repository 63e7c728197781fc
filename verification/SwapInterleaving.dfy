// Calls that run at the same time: tasks read a row, then perform their effects
// one by one, interleaved in any order, dying anywhere
// (referee/src/api/orchestrator.rs, referee/src/musig2.rs).

module SwapInterleaving {
  import opened Prelude
  import opened SwapState
  import opened SwapProtocol
  import opened SwapHistory
  import opened SwapProgress
  import opened SwapRuns
  import opened SwapLocality
  import opened SwapWrites

  /** The shared world, what each call in progress still has to do, and the ids handed out so far. */
  datatype Pool = Pool(w: World, tasks: seq<List<Effect>>, used: set<SwapId>)

  const EMPTY_POOL := Pool(EMPTY_WORLD, [], {})

  datatype Move =
    | Enter(call: Call, answers: Answers)  // a call arrives and reads its row
    | Turn(task: nat, stored: Row)         // a call performs its next effect
    | Die(task: nat)                       // a call fails or is dropped
    | Reboot                               // the process restarts; sessions are kept in memory only

  /** What a call plans from the row it read; whether a session is still open is only known when the signer is asked. */
  function Plan(c: Config, w: World, call: Call, a: Answers): List<Effect> {
    var name := if call.id in w.rows then w.rows[call.id].blob.id else call.id;
    ScriptOf(c, w.(live := w.live + {(name, Settle), (name, Refund)}), call, a).effects
  }

  /**
   * New swaps get unused ids. For the signatures of one session it does not
   * matter which row of its swap a write stores; `AsWritten` says which it is.
   */
  predicate Enabled(p: Pool, m: Move) {
    match m
    case Enter(call, _) => call.StartCall? ==> call.id !in p.used
    case Turn(i, stored) =>
      && i < |p.tasks| && p.tasks[i].Cons?
      && (p.tasks[i].head.Wrote? ==> stored.id == p.tasks[i].head.row.id)
    case Die(i) => i < |p.tasks|
    case Reboot => true
  }

  /** The signer refuses a session that is not open, and with it the call. */
  predicate Refused(w: World, e: Effect) { e.Signed? && (e.id, e.session) !in w.live }

  function Next(c: Config, p: Pool, m: Move): Pool
    requires Enabled(p, m)
  {
    match m
    case Enter(call, a) => Pool(p.w, p.tasks + [Plan(c, p.w, call, a)], p.used + {call.id})
    case Turn(i, stored) =>
      var e := p.tasks[i].head;
      if Refused(p.w, e) then p.(tasks := p.tasks[i := Nil])
      else p.(w := Do(p.w, if e.Wrote? then Wrote(stored) else e), tasks := p.tasks[i := p.tasks[i].tail])
    case Die(i) => p.(tasks := p.tasks[i := Nil])
    case Reboot => p.(w := p.w.(live := {}), tasks := [])
  }

  ghost predicate Reachable(c: Config, p: Pool, moves: seq<Move>, p': Pool)
    decreases |moves|
  {
    if moves == [] then p' == p
    else Enabled(p, moves[0]) && Reachable(c, Next(c, p, moves[0]), moves[1..], p')
  }

  /** A write stores its planned row merged into the row it finds at its turn. */
  predicate AsWritten(p: Pool, m: Move)
    requires Enabled(p, m)
  {
    m.Turn? && p.tasks[m.task].head.Wrote? ==> m.stored == Merged(p.w.rows, p.tasks[m.task].head.row)
  }

  /** The schedules the code can run. */
  ghost predicate ReachableAsWritten(c: Config, p: Pool, moves: seq<Move>, p': Pool)
    decreases |moves|
  {
    if moves == [] then p' == p
    else
      && Enabled(p, moves[0]) && AsWritten(p, moves[0])
      && ReachableAsWritten(c, Next(c, p, moves[0]), moves[1..], p')
  }

  // ------------------------------------------------------------------
  // Sessions that calls in progress are still going to open
  // ------------------------------------------------------------------

  function Begins(es: List<Effect>, id: SwapId, s: Session): nat {
    match es
    case Nil => 0
    case Cons(e, rest) => (if e == Began(id, s) then 1 else 0) + Begins(rest, id, s)
  }

  function ToBegin(tasks: seq<List<Effect>>, id: SwapId, s: Session): nat {
    if tasks == [] then 0
    else ToBegin(tasks[..|tasks| - 1], id, s) + Begins(tasks[|tasks| - 1], id, s)
  }

  lemma {:induction false} CalmBeginsNothing(es: List<Effect>, ids: set<SwapId>, id: SwapId, s: Session)
    requires Calm(es, ids)
    ensures Begins(es, id, s) == 0
    decreases es
  {
    if es.Cons? { CalmBeginsNothing(es.tail, ids, id, s); }
  }

  /** Only a start opens sessions: each of its own two once. */
  lemma PlanBegins(c: Config, w: World, call: Call, a: Answers, id: SwapId, s: Session)
    ensures Begins(Plan(c, w, call, a), id, s) == if call.StartCall? && call.id == id then 1 else 0
  {
    var name := if call.id in w.rows then w.rows[call.id].blob.id else call.id;
    var seen := w.(live := w.live + {(name, Settle), (name, Refund)});
    var es := Plan(c, w, call, a);
    match call {
      case StartCall(own, request) =>
        StartOpens(c, own, request, a);
        CalmBeginsNothing(es.tail.tail, {own}, id, s);
      case AdvanceCall(own) =>
        AdvanceCalm(c, seen, own, a);
        CalmBeginsNothing(es, Names(seen, own), id, s);
      case CancelCall(own, requester, reason) =>
        CancelCalm(c, seen, own, requester, reason, a);
        CalmBeginsNothing(es, Names(seen, own), id, s);
    }
  }

  lemma ToBeginAdds(tasks: seq<List<Effect>>, es: List<Effect>, id: SwapId, s: Session)
    ensures ToBegin(tasks + [es], id, s) == ToBegin(tasks, id, s) + Begins(es, id, s)
  {
    assert (tasks + [es])[..|tasks|] == tasks;
  }

  lemma {:induction false} ToBeginChanges(tasks: seq<List<Effect>>, i: nat, es: List<Effect>, id: SwapId, s: Session)
    requires i < |tasks|
    ensures ToBegin(tasks[i := es], id, s) == ToBegin(tasks, id, s) - Begins(tasks[i], id, s) + Begins(es, id, s)
  {
    var n := |tasks| - 1;
    if i < n {
      assert tasks[i := es][..n] == tasks[..n][i := es];
      ToBeginChanges(tasks[..n], i, es, id, s);
    } else {
      assert tasks[i := es][..n] == tasks[..n];
    }
  }

  // ------------------------------------------------------------------
  // The invariant
  // ------------------------------------------------------------------

  /**
   * Signatures and the open session come from a session begun before; it is
   * begun once, by the start that owns the id, or still to be begun once.
   */
  ghost predicate NonceInv(p: Pool, id: SwapId, s: Session) {
    && Count(p.w.trace, id, SignOf(s)) + (if (id, s) in p.w.live then 1 else 0) <= Count(p.w.trace, id, BeginOf(s))
    && Count(p.w.trace, id, BeginOf(s)) + ToBegin(p.tasks, id, s) <= (if id in p.used then 1 else 0)
  }

  lemma EnterKeepsNonces(c: Config, p: Pool, call: Call, a: Answers, id: SwapId, s: Session)
    requires NonceInv(p, id, s) && Enabled(p, Enter(call, a))
    ensures NonceInv(Next(c, p, Enter(call, a)), id, s)
  {
    var es := Plan(c, p.w, call, a);
    ToBeginAdds(p.tasks, es, id, s);
    PlanBegins(c, p.w, call, a, id, s);
  }

  lemma EffectKeepsNonces(w: World, e: Effect, id: SwapId, s: Session)
    requires !Refused(w, e)
    requires Count(w.trace, id, SignOf(s)) + (if (id, s) in w.live then 1 else 0) <= Count(w.trace, id, BeginOf(s))
    ensures var w' := Do(w, e);
      && Count(w'.trace, id, SignOf(s)) + (if (id, s) in w'.live then 1 else 0) <= Count(w'.trace, id, BeginOf(s))
      && Count(w'.trace, id, BeginOf(s)) == Count(w.trace, id, BeginOf(s)) + (if e == Began(id, s) then 1 else 0)
  {
    CountSnoc(w.trace, e, id, SignOf(s));
    CountSnoc(w.trace, e, id, BeginOf(s));
  }

  lemma TurnKeepsNonces(c: Config, p: Pool, i: nat, stored: Row, id: SwapId, s: Session)
    requires NonceInv(p, id, s) && Enabled(p, Turn(i, stored))
    ensures NonceInv(Next(c, p, Turn(i, stored)), id, s)
  {
    var e := p.tasks[i].head;
    if Refused(p.w, e) {
      ToBeginChanges(p.tasks, i, Nil, id, s);
    } else {
      ToBeginChanges(p.tasks, i, p.tasks[i].tail, id, s);
      EffectKeepsNonces(p.w, if e.Wrote? then Wrote(stored) else e, id, s);
    }
  }

  lemma MoveKeepsNonces(c: Config, p: Pool, m: Move, id: SwapId, s: Session)
    requires NonceInv(p, id, s) && Enabled(p, m)
    ensures NonceInv(Next(c, p, m), id, s)
  {
    match m
    case Enter(call, a) => EnterKeepsNonces(c, p, call, a, id, s);
    case Turn(i, stored) => TurnKeepsNonces(c, p, i, stored, id, s);
    case Die(i) => ToBeginChanges(p.tasks, i, Nil, id, s);
    case Reboot =>
  }

  lemma {:induction false} ReachableKeepsNonces(c: Config, p: Pool, moves: seq<Move>, p': Pool, id: SwapId, s: Session)
    requires NonceInv(p, id, s) && Reachable(c, p, moves, p')
    ensures NonceInv(p', id, s)
    decreases |moves|
  {
    if moves != [] {
      MoveKeepsNonces(c, p, moves[0], id, s);
      ReachableKeepsNonces(c, Next(c, p, moves[0]), moves[1..], p', id, s);
    }
  }

  /** However start, advance and cancel calls interleave, each session of each swap signs at most once. */
  lemma SignsAtMostOnceInterleaved(c: Config, moves: seq<Move>, p: Pool, id: SwapId, s: Session)
    requires Reachable(c, EMPTY_POOL, moves, p)
    ensures Count(p.w.trace, id, SignOf(s)) <= 1
  {
    ReachableKeepsNonces(c, EMPTY_POOL, moves, p, id, s);
  }

  // ------------------------------------------------------------------
  // What interleaving breaks
  // ------------------------------------------------------------------

  /** The later of two answers about one hash does not take back that it is spent. */
  predicate Agree(e: Effect, e': Effect) {
    e.Checked? && e'.Checked? && e.hash == e'.hash && e.status == Spent ==> e'.status == Spent
  }

  /** Webcash never takes back that a hash is spent. */
  ghost predicate Lasting(t: seq<Effect>) {
    forall i, j :: 0 <= i < j < |t| ==> Agree(t[i], t[j])
  }

  lemma LastingSnoc(t: seq<Effect>, e: Effect)
    requires Lasting(t) && (e.Checked? && SpentSeen(t, e.hash) ==> e.status == Spent)
    ensures Lasting(t + [e])
  {}

  ghost predicate BothSigned(p: Pool, id: SwapId) {
    && Count(p.w.trace, id, SignOf(Settle)) > 0 && Count(p.w.trace, id, SignOf(Refund)) > 0
    && Lasting(p.w.trace)
  }

  ghost predicate Leads(c: Config, p: Pool, id: SwapId) {
    exists moves, p' :: ReachableAsWritten(c, p, moves, p') && BothSigned(p', id)
  }

  lemma LeadsFrom(c: Config, p: Pool, m: Move, id: SwapId)
    requires Enabled(p, m) && AsWritten(p, m) && Leads(c, Next(c, p, m), id)
    ensures Leads(c, p, id)
  {
    var moves, p' :| ReachableAsWritten(c, Next(c, p, m), moves, p') && BothSigned(p', id);
    assert ([m] + moves)[1..] == moves;
    assert ReachableAsWritten(c, p, [m] + moves, p');
  }

  /** A row of this swap in this phase, with its refund session open. */
  predicate Holds(w: World, id: SwapId, phase: Phase) {
    && id in w.rows && w.rows[id].id == id && Coherent(w.rows[id]) && w.rows[id].phase == phase
    && (id, Refund) in w.live
  }

  ghost predicate SettleSigned(w: World, id: SwapId) {
    Count(w.trace, id, SignOf(Settle)) > 0 && Lasting(w.trace)
  }

  lemma StaysSigned(w: World, e: Effect, id: SwapId)
    requires SettleSigned(w, id) && !e.Checked?
    ensures SettleSigned(Do(w, e), id)
  {
    CountSnoc(w.trace, e, id, SignOf(Settle));
    LastingSnoc(w.trace, e);
  }

  lemma RefundLeads(c: Config, p: Pool, id: SwapId, a: Answers)
    requires Holds(p.w, id, Invalidated) && SettleSigned(p.w, id) && a.signerOk
    ensures Leads(c, p, id)
  {
    var row, e := p.w.rows[id], SignRefund(Decode(p.w.rows[id]));
    var p1 := Next(c, p, Enter(AdvanceCall(id), a));
    assert p1.tasks[|p.tasks|].Cons? && p1.tasks[|p.tasks|].head == e;
    var p2 := Next(c, p1, Turn(|p.tasks|, row));
    StaysSigned(p1.w, e, id);
    CountSnoc(p1.w.trace, e, id, SignOf(Refund));
    assert ReachableAsWritten(c, p2, [], p2);
    LeadsFrom(c, p1, Turn(|p.tasks|, row), id);
    LeadsFrom(c, p, Enter(AdvanceCall(id), a), id);
  }

  /** Two effects of one task: an audit entry and a row in the next phase. */
  lemma StoringLeads(c: Config, p: Pool, i: nat, entry: Entry, row: Row, rest: List<Effect>, id: SwapId, a: Answers)
    requires i < |p.tasks| && p.tasks[i] == Cons(Appended(entry), Cons(Wrote(row), rest))
    requires row.id == id && Coherent(row) && row.phase in {Aborted, Invalidated}
    requires (id, Refund) in p.w.live && SettleSigned(p.w, id) && a.signerOk
    requires Merged(p.w.rows, row) == row
    ensures Leads(c, p, id)
    decreases if row.phase == Aborted then 1 else 0
  {
    var p1 := Next(c, p, Turn(i, row));
    assert p1.tasks[i] == Cons(Wrote(row), rest);
    var p2 := Next(c, p1, Turn(i, row));
    StaysSigned(p.w, Appended(entry), id);
    StaysSigned(p1.w, Wrote(row), id);
    if row.phase == Aborted {
      InvalidateLeads(c, p2, id, a);
    } else {
      RefundLeads(c, p2, id, a);
    }
    LeadsFrom(c, p1, Turn(i, row), id);
    LeadsFrom(c, p, Turn(i, row), id);
  }

  lemma InvalidateLeads(c: Config, p: Pool, id: SwapId, a: Answers)
    requires Holds(p.w, id, Aborted) && SettleSigned(p.w, id) && a.signerOk
    ensures Leads(c, p, id)
    decreases 1, 0
  {
    var s := Decode(p.w.rows[id]);
    var e := PhaseEntry(s, Invalidated, AckPayload(true), a);
    var row := Persisted(p.w.rows, Advance(s, Invalidated, a.clock(1), c.hash(e)), a.clock(2));
    var p1 := Next(c, p, Enter(AdvanceCall(id), a));
    assert p1.tasks[|p.tasks|] == Cons(Appended(e), Cons(Wrote(row), Nil));
    StoringLeads(c, p1, |p.tasks|, e, row, Nil, id, a);
    LeadsFrom(c, p, Enter(AdvanceCall(id), a), id);
  }

  lemma SigningLeads(c: Config, p: Pool, i: nat, k: nat, entry: Entry, row: Row, rest: List<Effect>, s: State, a: Answers)
    requires i < k < |p.tasks| && p.tasks[i] == Cons(Appended(entry), Cons(Wrote(row), rest))
    requires p.tasks[k].Cons? && p.tasks[k].head == SignSettle(s)
    requires row.id == s.id && Coherent(row) && row.phase == Aborted
    requires (s.id, Settle) in p.w.live && (s.id, Refund) in p.w.live
    requires Lasting(p.w.trace) && a.signerOk
    requires Merged(p.w.rows, row) == row
    ensures Leads(c, p, s.id)
  {
    var p1 := Next(c, p, Turn(k, row));
    assert p1.tasks[i] == p.tasks[i];
    LastingSnoc(p.w.trace, SignSettle(s));
    CountSnoc(p.w.trace, SignSettle(s), s.id, SignOf(Settle));
    StoringLeads(c, p1, i, entry, row, rest, s.id, a);
    LeadsFrom(c, p, Turn(k, row), s.id);
  }

  /** While a task that saw the hash unspent is about to store its abort, another call sees it spent and signs. */
  lemma SettleLeads(c: Config, p: Pool, i: nat, entry: Entry, row: Row, rest: List<Effect>, id: SwapId, a: Answers)
    requires i < |p.tasks| && p.tasks[i] == Cons(Appended(entry), Cons(Wrote(row), rest))
    requires row.id == id && Coherent(row) && row.phase == Aborted
    requires Holds(p.w, id, InsertPushed) && (id, Settle) in p.w.live
    requires Lasting(p.w.trace) && a.status == Spent && a.signerOk
    requires Merged(p.w.rows, row) == row
    ensures Leads(c, p, id)
  {
    var s, k := Decode(p.w.rows[id]), |p.tasks|;
    var e := Appended(PhaseEntry(s, Settled, EmptyPayload, a));
    var p1 := Next(c, p, Enter(AdvanceCall(id), a));
    var es := p1.tasks[k];
    assert es.Cons? && es.head == Checked(id, s.bob.hB, Spent);
    assert es.tail.Cons? && es.tail.head == e && es.tail.tail.Cons? && es.tail.tail.head == SignSettle(s);
    var p2 := Next(c, p1, Turn(k, row));
    var p3 := Next(c, p2, Turn(k, row));
    assert p3.tasks[i] == p.tasks[i] && p3.tasks[k].Cons? && p3.tasks[k].head == SignSettle(s);
    LastingSnoc(p1.w.trace, es.head);
    LastingSnoc(p2.w.trace, e);
    SigningLeads(c, p3, i, k, entry, row, rest, s, a);
    LeadsFrom(c, p2, Turn(k, row), id);
    LeadsFrom(c, p1, Turn(k, row), id);
    LeadsFrom(c, p, Enter(AdvanceCall(id), a), id);
  }

  /**
   * Serialising the calls of a swap is needed: from any swap in flight whose
   * retries are used up, two advance calls at once, one that saw the hash
   * unspent and one that saw it spent afterwards, can end with both sessions
   * signed, though webcash takes nothing back.
   */
  lemma BothSignaturesInterleaved(c: Config, p: Pool, id: SwapId, unspent: Answers, spent: Answers)
    requires InFlight(p.w, id) && p.w.rows[id].phase == InsertPushed && p.w.rows[id].attempts >= c.retry
    requires Lasting(p.w.trace) && !SpentSeen(p.w.trace, p.w.rows[id].hB)
    requires unspent.status != Spent && spent.status == Spent && spent.signerOk
    ensures Leads(c, p, id)
  {
    var w, s, k := p.w, Decode(p.w.rows[id]), |p.tasks|;
    var e := PhaseEntry(s, Aborted, AbortPayload(s.attempts), unspent);
    var row := Persisted(w.rows, Advance(s, Aborted, unspent.clock(1), c.hash(e)), unspent.clock(2));
    var rest := Cons(Pushed(id, s.parties.bobFp, Invalidate, [s.bob.hB]), Nil);
    var p1 := Next(c, p, Enter(AdvanceCall(id), unspent));
    assert p1.tasks[k] == Cons(Checked(id, s.bob.hB, unspent.status), Cons(Appended(e), Cons(Wrote(row), rest)));
    var p2 := Next(c, p1, Turn(k, row));
    LastingSnoc(w.trace, Checked(id, s.bob.hB, unspent.status));
    SettleLeads(c, p2, k, e, row, rest, id, spent);
    LeadsFrom(c, p1, Turn(k, row), id);
    LeadsFrom(c, p, Enter(AdvanceCall(id), unspent), id);
  }
}
