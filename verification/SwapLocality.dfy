// A call only touches the swap it names, and only a start opens sessions: the
// rows and sessions of other swaps stay as they are wherever it stops.

module SwapLocality {
  import opened Prelude
  import opened SwapState
  import opened SwapProtocol
  import opened SwapRuns

  predicate About(es: List<Effect>, id: SwapId) {
    es.Nil? || (Subject(es.head) == id && About(es.tail, id))
  }

  /** No session is opened, and every effect is about one of these swaps. */
  predicate Calm(es: List<Effect>, ids: set<SwapId>) {
    es.Nil? || (!es.head.Began? && Subject(es.head) in ids && Calm(es.tail, ids))
  }

  lemma {:induction false} CalmIsAbout(es: List<Effect>, id: SwapId)
    requires Calm(es, {id})
    ensures About(es, id)
    decreases es
  {
    if es.Cons? { CalmIsAbout(es.tail, id); }
  }

  /** The row under this id is its own. */
  predicate OwnRow(w: World, id: SwapId) {
    id in w.rows ==> w.rows[id].id == id && w.rows[id].blob.id == id
  }

  lemma CalmTwo(e1: Effect, e2: Effect, rest: List<Effect>, ids: set<SwapId>)
    requires !e1.Began? && Subject(e1) in ids && !e2.Began? && Subject(e2) in ids && Calm(rest, ids)
    ensures Calm(Cons(e1, Cons(e2, rest)), ids)
  {}

  /** A start opens its two sessions and no others. */
  lemma StartOpens(c: Config, id: SwapId, q: Request, a: Answers)
    ensures var es := StartScript(c, id, q, a).effects;
      && es.Cons? && es.head == Began(id, Settle)
      && es.tail.Cons? && es.tail.head == Began(id, Refund)
      && Calm(es.tail.tail, {id})
  {
    var s, r := InitState(c, id, q, a), MintedRow(c, id, q, a);
    VerifyCalm(c, s, r, a);
    var es := StartScript(c, id, q, a).effects;
    var htlc := es.tail.tail.tail.tail.tail;
    assert Calm(htlc, {id});
    assert Calm(es.tail.tail.tail.tail, {id});
    CalmTwo(es.tail.tail.head, es.tail.tail.tail.head, es.tail.tail.tail.tail, {id});
  }

  lemma VerifyCalm(c: Config, s: State, r: Row, a: Answers)
    requires s.phase == Init
    ensures Calm(StartVerify(c, s, r, a).effects, {s.id})
  {
    var e := ZkpEntry(s, a);
    match VerifyZkps(s, a.okBob && a.okAlice, a.clock(3), c.hash(e)) {
      case Err(_) =>
        assert Calm(Cons(Appended(e), Nil), {s.id});
        CalmTwo(Verified(s.id, BobCircuit, s.bob.zkp, a.okBob), Verified(s.id, AliceCircuit, s.alice.zkp, a.okAlice), Cons(Appended(e), Nil), {s.id});
      case Ok(zkps) =>
        var row := Persisted(map[s.id := r], zkps, a.clock(4));
        PreCheckCalm(c, zkps, row, a);
        var rest := Cons(Appended(e), Cons(Wrote(row), StartPreCheck(c, zkps, row, a).effects));
        assert Calm(rest, {s.id});
        CalmTwo(Verified(s.id, BobCircuit, s.bob.zkp, a.okBob), Verified(s.id, AliceCircuit, s.alice.zkp, a.okAlice), rest, {s.id});
    }
  }

  lemma PreCheckCalm(c: Config, s: State, r: Row, a: Answers)
    requires s.phase == ZkpsVerified
    ensures Calm(StartPreCheck(c, s, r, a).effects, {s.id})
  {
    var e := PreCheckEntry(s, a);
    match PreCheck(s, a.status == Unspent, a.clock(6), c.hash(e)) {
      case Err(_) =>
      case Ok(pre) =>
        var row := Persisted(map[s.id := r], pre, a.clock(7));
        var tail := StartTail(c, pre, row, a).effects;
        assert Calm(tail.tail, {s.id});
        assert Calm(tail, {s.id});
        CalmTwo(Appended(e), Wrote(row), tail, {s.id});
    }
  }

  lemma CloseCalm(r: Row, how: CloseKind, a: Answers)
    ensures Calm(CloseHtlc(r, how, a), {r.id, r.blob.id})
  {}

  lemma FinalCalm(c: Config, w: World, r: Row, a: Answers)
    ensures Calm(SettleScript(c, w, r, Decode(r), a).effects, {r.id, r.blob.id})
    ensures Calm(RefundScript(c, w, r, Decode(r), a).effects, {r.id, r.blob.id})
  {
    var s := Decode(r);
    CloseCalm(r, CloseSettle, a);
    CloseCalm(r, CloseRefund, a);
    var es, fs := SettleScript(c, w, r, s, a).effects, RefundScript(c, w, r, s, a).effects;
    if (s.id, Settle) in w.live && a.signerOk {
      CalmTwo(es.tail.tail.tail.tail.head, es.tail.tail.tail.tail.tail.head, CloseHtlc(r, CloseSettle, a), {r.id, r.blob.id});
      CalmTwo(es.tail.tail.head, es.tail.tail.tail.head, es.tail.tail.tail.tail, {r.id, r.blob.id});
      CalmTwo(es.head, es.tail.head, es.tail.tail, {r.id, r.blob.id});
    } else {
      assert Calm(es.tail, {r.id, r.blob.id});
    }
    if (s.id, Refund) in w.live && a.signerOk {
      assert Calm(fs.tail.tail.tail.tail, {r.id, r.blob.id});
      CalmTwo(fs.tail.tail.head, fs.tail.tail.tail.head, fs.tail.tail.tail.tail, {r.id, r.blob.id});
      CalmTwo(fs.head, fs.tail.head, fs.tail.tail, {r.id, r.blob.id});
    }
  }

  lemma MiddleCalm(c: Config, w: World, r: Row, a: Answers)
    ensures r.phase == InsertPushed ==> Calm(RetryScript(c, w, Decode(r), a).effects, {r.id, r.blob.id})
    ensures Calm(AbortScript(c, w, Decode(r), a).effects, {r.id, r.blob.id})
    ensures Calm(InvalidateScript(c, w, Decode(r), a).effects, {r.id, r.blob.id})
  {
    var s := Decode(r);
    if r.phase == InsertPushed {
      var es := RetryScript(c, w, s, a).effects;
      assert Calm(es.tail.tail, {r.id, r.blob.id});
      CalmTwo(es.head, es.tail.head, es.tail.tail, {r.id, r.blob.id});
    }
    var es := AbortScript(c, w, s, a).effects;
    assert Calm(es.tail.tail, {r.id, r.blob.id});
    CalmTwo(es.head, es.tail.head, es.tail.tail, {r.id, r.blob.id});
  }

  /** The ids a stored row goes by. */
  function Names(w: World, id: SwapId): set<SwapId> {
    if id in w.rows then {w.rows[id].id, w.rows[id].blob.id} else {}
  }

  lemma AdvanceCalm(c: Config, w: World, id: SwapId, a: Answers)
    ensures Calm(AdvanceScript(c, w, id, a).effects, Names(w, id))
  {
    if id in w.rows {
      FinalCalm(c, w, w.rows[id], a);
      MiddleCalm(c, w, w.rows[id], a);
    }
  }

  lemma CancelCalm(c: Config, w: World, id: SwapId, requester: string, reason: string, a: Answers)
    ensures Calm(CancelScript(c, w, id, requester, reason, a).effects, Names(w, id))
  {
    if id in w.rows {
      var r, ids := w.rows[id], Names(w, id);
      var close := CloseHtlc(r, CloseCancel, a);
      CloseCalm(r, CloseCancel, a);
      var refund := When(a.lucky(3), Discarded(r.id, Refund), close);
      var discards := When(a.lucky(2), Discarded(r.id, Settle), refund);
      assert Calm(refund, ids);
      assert Calm(discards, ids);
      var push := When(r.attempts > 0 && a.lucky(1), Pushed(r.id, r.aliceFp, Invalidate, [r.hB]), discards);
      assert Calm(push, ids);
      CalmTwo(Appended(CancelEntry(r, requester, reason, a)), Wrote(CanceledRow(c, r, requester, reason, a)), push, ids);
    }
  }

  /** Every effect of a call is about the swap it names. */
  lemma CallAbout(c: Config, w: World, call: Call, a: Answers)
    requires OwnRow(w, call.id)
    ensures About(ScriptOf(c, w, call, a).effects, call.id)
  {
    var es := ScriptOf(c, w, call, a).effects;
    match call {
      case StartCall(id, request) =>
        StartOpens(c, id, request, a);
        CalmIsAbout(es.tail.tail, id);
      case AdvanceCall(id) =>
        AdvanceCalm(c, w, id, a);
        if id in w.rows {
          assert Names(w, id) == {id};
          CalmIsAbout(es, id);
        }
      case CancelCall(id, requester, reason) =>
        CancelCalm(c, w, id, requester, reason, a);
        if id in w.rows {
          assert Names(w, id) == {id};
          CalmIsAbout(es, id);
        }
    }
  }

  /** The rows and sessions of this swap are the same. */
  predicate SameFor(w: World, w': World, id: SwapId) {
    && (id in w.rows <==> id in w'.rows) && (id in w.rows ==> w'.rows[id] == w.rows[id])
    && forall s :: (id, s) in w.live <==> (id, s) in w'.live
  }

  lemma {:induction false} OthersStay(w: World, es: List<Effect>, reply: Reply, n: nat, owner: SwapId, id: SwapId)
    requires About(es, owner) && id != owner
    ensures SameFor(w, Exec(w, es, reply, n).0, id)
    decreases es
  {
    if es.Cons? && n > 0 { OthersStay(Do(w, es.head), es.tail, reply, n - 1, owner, id); }
  }
}
