// The orchestrator with its mutable collaborators: every entry point performs
// its script, effect by effect (referee/src/api/orchestrator.rs).

module SwapOrchestrator {
  import opened Prelude
  import opened SwapState
  import opened SwapProtocol
  import opened SwapHistory
  import opened SwapProgress

  class Orchestrator {
    const config: Config
    var rows: map<SwapId, Row>
    var log: seq<Entry>
    var live: set<(SwapId, Session)>
    ghost var trace: seq<Effect>

    /** Collaborator calls that still succeed before one fails. */
    var budget: nat

    ghost function World(): SwapProtocol.World
      reads this
    {
      SwapProtocol.World(rows, log, live, trace)
    }

    constructor (config: Config, budget: nat)
      ensures this.config == config && this.budget == budget && World() == EMPTY_WORLD
    {
      this.config, this.budget := config, budget;
      rows, log, live, trace := map[], [], {}, [];
    }

    // ----------------------------------------------------------------
    // Collaborators. Each call fails without an effect, or has exactly one.
    // ----------------------------------------------------------------

    twostate predicate Happened(e: Effect, r: Reply)
      reads this
    {
      if old(budget) == 0 then r == Failed(Stopped) && budget == 0 && World() == old(World())
      else r == Done && budget == old(budget) - 1 && World() == Do(old(World()), e)
    }

    method BeginSession(id: SwapId, s: Session) returns (r: Reply)
      modifies this
      ensures Happened(Began(id, s), r)
    {
      if budget == 0 { return Failed(Stopped); }
      budget := budget - 1;
      live := live + {(id, s)};
      trace := trace + [Began(id, s)];
      return Done;
    }

    method DiscardSession(id: SwapId, s: Session) returns (r: Reply)
      modifies this
      ensures Happened(Discarded(id, s), r)
    {
      if budget == 0 { return Failed(Stopped); }
      budget := budget - 1;
      live := live - {(id, s)};
      trace := trace + [Discarded(id, s)];
      return Done;
    }

    /** Removes the live session first; without one, or with a malformed key or nonce, nothing is signed. */
    method PartialSign(sign: Effect, a: Answers) returns (r: Reply)
      requires sign.Signed?
      modifies this
      ensures (sign.id, sign.session) !in old(live) ==>
        r == Failed(Musig2) && budget == old(budget) && World() == old(World())
      ensures (sign.id, sign.session) in old(live) && a.signerOk ==> Happened(sign, r)
      ensures (sign.id, sign.session) in old(live) && !a.signerOk ==>
        (World(), r, budget) == Exec(old(World()), Cons(Discarded(sign.id, sign.session), Nil), Failed(Musig2), old(budget))
    {
      if (sign.id, sign.session) !in live { return Failed(Musig2); }
      if !a.signerOk {
        :- DiscardSession(sign.id, sign.session);
        return Failed(Musig2);
      }
      if budget == 0 { return Failed(Stopped); }
      budget := budget - 1;
      live := live - {(sign.id, sign.session)};
      trace := trace + [sign];
      return Done;
    }

    method AppendAudit(e: Entry) returns (r: Reply)
      modifies this
      ensures Happened(Appended(e), r)
    {
      if budget == 0 { return Failed(Stopped); }
      budget := budget - 1;
      log := log + [e];
      trace := trace + [Appended(e)];
      return Done;
    }

    method Upsert(row: Row) returns (r: Reply)
      modifies this
      ensures Happened(Wrote(row), r)
    {
      if budget == 0 { return Failed(Stopped); }
      budget := budget - 1;
      rows := rows[row.id := row];
      trace := trace + [Wrote(row)];
      return Done;
    }

    /** Calls that leave rows, log and sessions alone: verifier, webcash, push transport, RGB server. */
    method Outside(e: Effect) returns (r: Reply)
      requires e.Minted? || e.MintedHtlc? || e.Verified? || e.Checked? || e.Pushed? || e.ClosedHtlc?
      modifies this
      ensures Happened(e, r)
    {
      if budget == 0 { return Failed(Stopped); }
      budget := budget - 1;
      trace := trace + [e];
      return Done;
    }

    method Persist(s: State, now: nat) returns (r: Reply)
      modifies this
      ensures Happened(Wrote(Persisted(old(rows), s, now)), r)
      ensures r == Done ==> s.id in rows && rows[s.id].blob == s && rows[s.id].updatedAt == now
      ensures r == Done && s.phase == Init ==> rows[s.id].createdAt == s.enteredAt
      ensures r == Done && s.phase != Init && s.id in old(rows) ==>
        && rows[s.id].createdAt == old(rows)[s.id].createdAt
        && rows[s.id].cancelReason == old(rows)[s.id].cancelReason
        && rows[s.id].canceledBy == old(rows)[s.id].canceledBy
        && rows[s.id].htlcContract == old(rows)[s.id].htlcContract
    {
      var row := DeriveFrom(s, s.phase, now);
      if s.phase == Init {
        row := row.(createdAt := s.enteredAt);
      } else if s.id in rows {
        var existing := rows[s.id];
        row := row.(createdAt := existing.createdAt, cancelReason := existing.cancelReason,
                    canceledBy := existing.canceledBy, htlcContract := existing.htlcContract);
      }
      r := Upsert(row);
    }

    // ----------------------------------------------------------------
    // advance_swap
    // ----------------------------------------------------------------

    /** What is left of a script does from here what the whole script does from the start. */
    twostate predicate OnTrack(script: Script, todo: List<Effect>)
      reads this
    {
      Exec(old(World()), script.effects, script.reply, old(budget)) == Exec(World(), todo, script.reply, budget)
    }

    method CloseHtlcIfAny(id: SwapId, how: CloseKind, a: Answers, ghost r: Row, ghost reply: Reply) returns (done: Reply)
      requires id in rows && rows[id].htlcContract == r.htlcContract && r.id == id
      modifies this
      ensures var es := CloseHtlc(r, how, a);
        (World(), if done.Failed? then done else reply, budget) == Exec(old(World()), es, reply, old(budget))
      ensures done == Done || done == Failed(Stopped)
    {
      if rows[id].htlcContract.Some? && a.lucky(0) {
        done := Outside(ClosedHtlc(id, rows[id].htlcContract.value, how));
      } else {
        done := Done;
      }
    }

    /** The end both terminal paths share: store the row, drop the other session, close the HTLC record. */
    method Conclude(id: SwapId, next: State, now: nat, drop: Session, how: CloseKind, outcome: Outcome, a: Answers)
      returns (reply: Reply)
      requires id in rows && rows[id].id == id && next.id == id && next.phase != Init
      modifies this
      ensures (World(), reply, budget) == Exec(old(World()),
        Cons(Wrote(Persisted(old(rows), next, now)), Cons(Discarded(id, drop), CloseHtlc(old(rows[id]), how, a))),
        Advanced(Some(outcome)), old(budget))
    {
      ghost var r := rows[id];
      ghost var script := Script(
        Cons(Wrote(Persisted(rows, next, now)), Cons(Discarded(id, drop), CloseHtlc(r, how, a))),
        Advanced(Some(outcome)));
      :- Persist(next, now);
      assert OnTrack(script, script.effects.tail);
      :- DiscardSession(id, drop);
      assert OnTrack(script, script.effects.tail.tail);
      :- CloseHtlcIfAny(id, how, a, r, script.reply);
      return Advanced(Some(outcome));
    }

    method Settle(id: SwapId, s: State, a: Answers) returns (reply: Reply)
      requires id in rows && rows[id].id == id && Decode(rows[id]) == s && s.id == id && s.phase == InsertPushed
      modifies this
      ensures var script := SettleScript(config, old(World()), old(rows[id]), s, a);
        (World(), reply, budget) == Exec(old(World()), script.effects, script.reply, old(budget))
    {
      ghost var r := rows[id];
      ghost var script := SettleScript(config, World(), r, s, a);
      var e := PhaseEntry(s, Settled, EmptyPayload, a);
      :- Outside(Checked(id, s.bob.hB, Spent));
      assert OnTrack(script, script.effects.tail);
      :- AppendAudit(e);
      assert OnTrack(script, script.effects.tail.tail);
      assert SettleScript(config, World(), rows[id], s, a) == script;
      reply := ReleaseSettlement(id, s, Advance(s, Settled, a.clock(1), config.hash(e)), a);
    }

    /** The settle path from the partial signature on. */
    method ReleaseSettlement(id: SwapId, s: State, settled: State, a: Answers) returns (reply: Reply)
      requires id in rows && rows[id].id == id && s.id == id
      requires settled == Advance(s, Settled, a.clock(1), config.hash(PhaseEntry(s, Settled, EmptyPayload, a)))
      modifies this
      ensures var script := SettleScript(config, old(World()), old(rows[id]), s, a);
        (World(), reply, budget) == Exec(old(World()), script.effects.tail.tail, script.reply, old(budget))
    {
      ghost var whole := SettleScript(config, World(), rows[id], s, a);
      ghost var script := Script(whole.effects.tail.tail, whole.reply);
      :- PartialSign(SignSettle(s), a);
      assert OnTrack(script, script.effects.tail);
      :- Outside(ReleaseSettlePush(s));
      assert OnTrack(script, script.effects.tail.tail);
      reply := Conclude(id, settled, a.clock(2), Refund, CloseSettle, OutcomeSettled, a);
    }

    method RetryInsert(id: SwapId, s: State, a: Answers) returns (reply: Reply)
      requires s.id == id && s.phase == InsertPushed
      modifies this
      ensures var script := RetryScript(config, old(World()), s, a);
        (World(), reply, budget) == Exec(old(World()), script.effects, script.reply, old(budget))
    {
      ghost var script := RetryScript(config, World(), s, a);
      ghost var todo := script.effects;
      var e := PhaseEntry(s, InsertPushed, AttemptPayload(s.attempts + 1), a);

      :- Outside(Checked(id, s.bob.hB, a.status));
      todo := todo.tail;
      assert OnTrack(script, todo);
      :- Outside(InsertPush(s));
      todo := todo.tail;
      assert OnTrack(script, todo);
      :- AppendAudit(e);
      todo := todo.tail;
      assert OnTrack(script, todo);
      var retried := InsertPushedRetry(s, a.clock(1), config.hash(e));
      if retried.Err? { return Failed(retried.error); }
      :- Persist(retried.value, a.clock(2));
      todo := todo.tail;
      assert OnTrack(script, todo);
      return Advanced(None);
    }

    method Abort(id: SwapId, s: State, a: Answers) returns (reply: Reply)
      requires s.id == id && s.phase == InsertPushed
      modifies this
      ensures var script := AbortScript(config, old(World()), s, a);
        (World(), reply, budget) == Exec(old(World()), script.effects, script.reply, old(budget))
    {
      ghost var script := AbortScript(config, World(), s, a);
      ghost var todo := script.effects;
      var e := PhaseEntry(s, Aborted, AbortPayload(s.attempts), a);

      :- Outside(Checked(id, s.bob.hB, a.status));
      todo := todo.tail;
      assert OnTrack(script, todo);
      :- AppendAudit(e);
      todo := todo.tail;
      assert OnTrack(script, todo);
      var aborted := Advance(s, Aborted, a.clock(1), config.hash(e));
      :- Persist(aborted, a.clock(2));
      todo := todo.tail;
      assert OnTrack(script, todo);
      :- Outside(Pushed(id, s.parties.bobFp, Invalidate, [s.bob.hB]));
      todo := todo.tail;
      assert OnTrack(script, todo);
      return Advanced(None);
    }

    method AdvanceFromInsertPushed(id: SwapId, s: State, a: Answers) returns (reply: Reply)
      requires id in rows && rows[id].id == id && Decode(rows[id]) == s && s.id == id && s.phase == InsertPushed
      modifies this
      ensures var script := AdvanceScript(config, old(World()), id, a);
        (World(), reply, budget) == Exec(old(World()), script.effects, script.reply, old(budget))
    {
      if a.status == Spent {
        reply := Settle(id, s, a);
      } else if s.attempts < config.retry {
        reply := RetryInsert(id, s, a);
      } else {
        reply := Abort(id, s, a);
      }
    }

    method AdvanceFromAborted(id: SwapId, s: State, a: Answers) returns (reply: Reply)
      requires s.id == id
      modifies this
      ensures var script := InvalidateScript(config, old(World()), s, a);
        (World(), reply, budget) == Exec(old(World()), script.effects, script.reply, old(budget))
    {
      ghost var script := InvalidateScript(config, World(), s, a);
      ghost var todo := script.effects;
      var e := PhaseEntry(s, Invalidated, AckPayload(true), a);

      :- AppendAudit(e);
      todo := todo.tail;
      assert OnTrack(script, todo);
      :- Persist(Advance(s, Invalidated, a.clock(1), config.hash(e)), a.clock(2));
      todo := todo.tail;
      assert OnTrack(script, todo);
      return Advanced(None);
    }

    method AdvanceFromInvalidated(id: SwapId, s: State, a: Answers) returns (reply: Reply)
      requires id in rows && rows[id].id == id && Decode(rows[id]) == s && s.id == id && s.phase == Invalidated
      modifies this
      ensures var script := RefundScript(config, old(World()), old(rows[id]), s, a);
        (World(), reply, budget) == Exec(old(World()), script.effects, script.reply, old(budget))
    {
      ghost var r := rows[id];
      ghost var script := RefundScript(config, World(), r, s, a);
      ghost var todo := script.effects;
      var e := PhaseEntry(s, Refunded, EmptyPayload, a);

      :- PartialSign(SignRefund(s), a);
      todo := todo.tail;
      assert OnTrack(script, todo);
      :- Outside(ReleaseRefundPush(s));
      todo := todo.tail;
      assert OnTrack(script, todo);
      :- AppendAudit(e);
      todo := todo.tail;
      assert OnTrack(script, todo);
      var refunded := Advance(s, Refunded, a.clock(1), config.hash(e));
      reply := Conclude(id, refunded, a.clock(2), SwapState.Settle, CloseRefund, OutcomeRefunded, a);
    }

    method AdvanceSwap(id: SwapId, a: Answers) returns (reply: Reply)
      requires id in rows ==> rows[id].id == id && Coherent(rows[id])
      modifies this
      ensures var script := AdvanceScript(config, old(World()), id, a);
        (World(), reply, budget) == Exec(old(World()), script.effects, script.reply, old(budget))
    {
      if id !in rows { return Failed(BadRequest); }
      var r := rows[id];
      var s := Decode(r);
      match r.phase
      case Settled => return Advanced(Some(OutcomeSettled));
      case Refunded => return Advanced(Some(OutcomeRefunded));
      case Canceled => return Advanced(Some(OutcomeCanceled));
      case InsertPushed => reply := AdvanceFromInsertPushed(id, s, a);
      case Aborted => reply := AdvanceFromAborted(id, s, a);
      case Invalidated => reply := AdvanceFromInvalidated(id, s, a);
      case _ => return Advanced(None);
    }

    // ----------------------------------------------------------------
    // cancel_swap
    // ----------------------------------------------------------------

    method CancelSwap(id: SwapId, requester: string, reason: string, a: Answers) returns (reply: Reply)
      requires id in rows ==> rows[id].id == id && Coherent(rows[id])
      modifies this
      ensures var script := CancelScript(config, old(World()), id, requester, reason, a);
        (World(), reply, budget) == Exec(old(World()), script.effects, script.reply, old(budget))
    {
      if id !in rows { return Failed(BadRequest); }
      var r := rows[id];
      if r.terminal { return Failed(InvalidTransition); }
      var isBob := requester == r.blob.parties.bobFp;
      if !isBob && requester != r.blob.parties.aliceFp { return Failed(BadRequest); }
      if !MayCancel(r.phase, isBob) { return Failed(InvalidTransition); }
      var key := if isBob then r.blob.parties.bobCancelKey else r.blob.parties.aliceCancelKey;
      if !a.sigOk(key, CancelMessage(id, requester, reason)) { return Failed(Crypto); }

      reply := RecordCancel(r, requester, reason, a);
    }

    method RecordCancel(r: Row, requester: string, reason: string, a: Answers) returns (reply: Reply)
      requires r.id in rows && rows[r.id] == r
      modifies this
      ensures (World(), reply, budget) ==
        Exec(old(World()), CancelEffects(config, r, requester, reason, a), Done, old(budget))
    {
      ghost var script := Script(CancelEffects(config, r, requester, reason, a), Done);
      :- AppendAudit(CancelEntry(r, requester, reason, a));
      assert OnTrack(script, script.effects.tail);
      var row := CanceledRow(config, r, requester, reason, a);
      :- Upsert(row);
      assert OnTrack(script, script.effects.tail.tail);
      if r.attempts > 0 && a.lucky(1) {
        :- Outside(Pushed(r.id, r.aliceFp, Invalidate, [r.hB]));
      }
      ghost var todo := When(a.lucky(2), Discarded(r.id, SwapState.Settle),
                        When(a.lucky(3), Discarded(r.id, Refund), CloseHtlc(r, CloseCancel, a)));
      assert OnTrack(script, todo);
      reply := DropBoth(r, a);
    }

    method DropBoth(r: Row, a: Answers) returns (reply: Reply)
      requires r.id in rows && rows[r.id].htlcContract == r.htlcContract
      modifies this
      ensures (World(), reply, budget) == Exec(old(World()),
        When(a.lucky(2), Discarded(r.id, SwapState.Settle),
        When(a.lucky(3), Discarded(r.id, Refund), CloseHtlc(r, CloseCancel, a))), Done, old(budget))
    {
      ghost var rest := When(a.lucky(3), Discarded(r.id, Refund), CloseHtlc(r, CloseCancel, a));
      ghost var script := Script(When(a.lucky(2), Discarded(r.id, SwapState.Settle), rest), Done);
      if a.lucky(2) {
        :- DiscardSession(r.id, SwapState.Settle);
      }
      assert OnTrack(script, rest);
      if a.lucky(3) {
        :- DiscardSession(r.id, Refund);
      }
      assert OnTrack(script, CloseHtlc(r, CloseCancel, a));
      :- CloseHtlcIfAny(r.id, CloseCancel, a, r, Done);
      return Done;
    }

    // ----------------------------------------------------------------
    // start_swap
    // ----------------------------------------------------------------

    method StartSwap(id: SwapId, q: Request, a: Answers) returns (reply: Reply)
      requires id !in rows
      modifies this
      ensures var script := StartScript(config, id, q, a);
        (World(), reply, budget) == Exec(old(World()), script.effects, script.reply, old(budget))
    {
      ghost var script := StartScript(config, id, q, a);
      ghost var todo := script.effects;
      :- BeginSession(id, SwapState.Settle);
      todo := todo.tail;
      assert OnTrack(script, todo);
      :- BeginSession(id, Refund);
      todo := todo.tail;
      assert OnTrack(script, todo);
      var e := InitEntry(id, q, a);
      :- AppendAudit(e);
      todo := todo.tail;
      assert OnTrack(script, todo);
      var initial := Initiate(id, q.parties, q.bob, q.alice, q.nonces, a.clock(0), config.hash(e));
      :- Persist(initial, a.clock(1));
      todo := todo.tail;
      assert OnTrack(script, todo);
      reply := MintRecords(id, initial, q, a);
    }

    method MintRecords(id: SwapId, s: State, ghost q: Request, a: Answers) returns (reply: Reply)
      requires id in rows && rows[id] == InitRow(config, id, q, a) && s == InitState(config, id, q, a)
      modifies this
      ensures var script := StartScript(config, id, q, a);
        (World(), reply, budget) == Exec(old(World()), script.effects.tail.tail.tail.tail, script.reply, old(budget))
    {
      ghost var minted := MintedRow(config, id, q, a);
      ghost var rest := StartVerify(config, s, minted, a);
      ghost var script := Script(StartScript(config, id, q, a).effects.tail.tail.tail.tail, rest.reply);
      :- Outside(Minted(id));
      assert OnTrack(script, script.effects.tail);
      if a.htlc.Some? {
        :- Outside(MintedHtlc(id, a.htlc.value));
        assert OnTrack(script, script.effects.tail.tail);
        :- Upsert(rows[id].(htlcContract := a.htlc));
      }
      assert OnTrack(script, rest.effects);
      reply := StartVerification(id, s, minted, a);
    }

    method StartVerification(id: SwapId, s: State, ghost r: Row, a: Answers) returns (reply: Reply)
      requires s.id == id && s.phase == Init && id in rows && rows[id] == r
      modifies this
      ensures var script := StartVerify(config, s, r, a);
        (World(), reply, budget) == Exec(old(World()), script.effects, script.reply, old(budget))
    {
      ghost var script := StartVerify(config, s, r, a);
      ghost var todo := script.effects;
      var e := ZkpEntry(s, a);
      :- Outside(Verified(id, BobCircuit, s.bob.zkp, a.okBob));
      todo := todo.tail;
      assert OnTrack(script, todo);
      :- Outside(Verified(id, AliceCircuit, s.alice.zkp, a.okAlice));
      todo := todo.tail;
      assert OnTrack(script, todo);
      :- AppendAudit(e);
      todo := todo.tail;
      assert OnTrack(script, todo);
      var zkps := VerifyZkps(s, a.okBob && a.okAlice, a.clock(3), config.hash(e));
      if zkps.Err? { return Failed(zkps.error); }
      ghost var row := Persisted(map[id := r], zkps.value, a.clock(4));
      assert Persisted(rows, zkps.value, a.clock(4)) == row;
      :- Persist(zkps.value, a.clock(4));
      todo := todo.tail;
      assert OnTrack(script, todo);
      reply := StartFromPreCheck(id, zkps.value, row, a);
    }

    method StartFromPreCheck(id: SwapId, s: State, ghost r: Row, a: Answers) returns (reply: Reply)
      requires s.id == id && s.phase == ZkpsVerified && id in rows && rows[id] == r
      modifies this
      ensures var script := StartPreCheck(config, s, r, a);
        (World(), reply, budget) == Exec(old(World()), script.effects, script.reply, old(budget))
    {
      ghost var script := StartPreCheck(config, s, r, a);
      ghost var todo := script.effects;
      var e := PreCheckEntry(s, a);
      :- Outside(Checked(id, s.bob.hB, a.status));
      todo := todo.tail;
      assert OnTrack(script, todo);
      :- AppendAudit(e);
      todo := todo.tail;
      assert OnTrack(script, todo);
      var pre := PreCheck(s, a.status == Unspent, a.clock(6), config.hash(e));
      if pre.Err? { return Failed(pre.error); }
      ghost var row := Persisted(map[id := r], pre.value, a.clock(7));
      assert Persisted(rows, pre.value, a.clock(7)) == row;
      :- Persist(pre.value, a.clock(7));
      todo := todo.tail;
      assert OnTrack(script, todo);
      reply := StartFirstInsert(id, pre.value, row, a);
    }

    method StartFirstInsert(id: SwapId, s: State, ghost r: Row, a: Answers) returns (reply: Reply)
      requires s.id == id && s.phase == PreChecked && id in rows && rows[id] == r
      modifies this
      ensures var script := StartTail(config, s, r, a);
        (World(), reply, budget) == Exec(old(World()), script.effects, script.reply, old(budget))
    {
      ghost var script := StartTail(config, s, r, a);
      ghost var todo := script.effects;
      var e := FirstInsertEntry(s, a);
      :- Outside(InsertPush(s));
      todo := todo.tail;
      assert OnTrack(script, todo);
      :- AppendAudit(e);
      todo := todo.tail;
      assert OnTrack(script, todo);
      var pushed := InsertPushedFromPre(s, a.clock(9), config.hash(e));
      assert Persisted(rows, pushed, a.clock(10)) == Persisted(map[id := r], pushed, a.clock(10));
      :- Persist(pushed, a.clock(10));
      todo := todo.tail;
      assert OnTrack(script, todo);
      return Done;
    }

    // ----------------------------------------------------------------
    // run_to_completion
    // ----------------------------------------------------------------

    /** Advance calls that a fresh swap can need. */
    function MostCalls(): nat {
      2 + if config.retry > 1 then config.retry else 1
    }

    function MostInserts(): nat {
      if config.retry > 1 then config.retry else 1
    }

    /** `StartSwap`, as `RunToCompletion` sees it. */
    method Launch(id: SwapId, q: Request, a: Answers) returns (reply: Reply)
      requires id !in rows
      modifies this
      ensures reply == Done || reply.Failed?
      ensures Accepts(a) && old(budget) >= MOST_START_EFFECTS ==> reply == Done
      ensures reply == Done ==>
        && InFlight(World(), id) && rows[id].phase == InsertPushed && rows[id].attempts == 1
        && Count(trace, id, PushOf(Insert)) <= old(Count(trace, id, PushOf(Insert))) + 1
        && budget >= old(budget) - MOST_START_EFFECTS
    {
      StartSucceeds(config, World(), id, q, a, budget);
      reply := StartSwap(id, q, a);
    }

    /** `AdvanceSwap` of a swap in flight, as `RunToCompletion` sees it. */
    method AdvanceInFlight(id: SwapId, a: Answers) returns (reply: Reply)
      requires InFlight(World(), id)
      modifies this
      ensures reply == Advanced(None) ==> Progressed(config, old(World()), World(), id)
      ensures reply.Advanced? && reply.outcome.Some? ==>
        && reply.outcome.value in {OutcomeSettled, OutcomeRefunded}
        && id in rows && rows[id].phase == PhaseOf(reply.outcome.value)
      ensures reply.Advanced? || reply.Failed?
      ensures old(budget) >= MOST_EFFECTS && a.signerOk ==> !reply.Failed?
      ensures budget >= old(budget) - MOST_EFFECTS
      ensures Count(trace, id, PushOf(Insert)) <= old(Count(trace, id, PushOf(Insert)) + InsertsLeft(config, rows[id]))
    {
      AdvanceProgresses(config, World(), id, a, budget);
      TerminalReplyIsStored(config, World(), id, a, budget);
      AdvanceIsShort(config, World(), id, a, budget);
      reply := AdvanceSwap(id, a);
    }

    /**
     * Starts a swap and advances it until it is terminal; `env` answers the
     * successive advance calls. The loop needs no bound of its own.
     */
    method RunToCompletion(id: SwapId, q: Request, first: Answers, env: nat -> Answers)
      returns (reply: Reply, calls: nat)
      requires id !in rows
      modifies this
      ensures reply in {Advanced(Some(OutcomeSettled)), Advanced(Some(OutcomeRefunded))} || reply.Failed?
      ensures reply.Advanced? ==> id in rows && rows[id].phase == PhaseOf(reply.outcome.value)
      ensures calls <= MostCalls() && (reply.Advanced? ==> calls > 0)
      ensures calls > 0 ==>
        Count(trace, id, PushOf(Insert)) <= old(Count(trace, id, PushOf(Insert))) + MostInserts()
      ensures (Accepts(first) && (forall k :: env(k).signerOk)
               && old(budget) >= MOST_START_EFFECTS + MostCalls() * MOST_EFFECTS) ==> !reply.Failed?
    {
      calls := 0;
      ghost var pushes := Count(trace, id, PushOf(Insert));
      :- Launch(id, q, first);
      while true
        invariant InFlight(World(), id)
        invariant calls + CallsLeft(config, rows[id]) <= MostCalls()
        invariant Count(trace, id, PushOf(Insert)) + InsertsLeft(config, rows[id]) <= pushes + MostInserts()
        invariant old(budget) >= MOST_START_EFFECTS + MostCalls() * MOST_EFFECTS ==>
          budget >= CallsLeft(config, rows[id]) * MOST_EFFECTS
        decreases CallsLeft(config, rows[id])
      {
        var answers := env(calls);
        calls := calls + 1;
        reply := AdvanceInFlight(id, answers);
        if reply.Failed? || reply.outcome.Some? { return; }
      }
    }
  }
}
