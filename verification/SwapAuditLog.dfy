// When none of its calls fails, the audit log of a swap is one linear hash chain and the
// stored tip is the hash of its last entry (referee/src/audit/mod.rs).

module SwapAuditLog {
  import opened Prelude
  import opened SwapState
  import opened SwapProtocol
  import opened SwapInvariant
  import opened SwapRuns
  import opened SwapLocality

  /** `entries_for`: the entries of one swap, oldest first. */
  function EntriesOf(log: seq<Entry>, id: SwapId): seq<Entry> {
    if log == [] then []
    else
      var n := |log| - 1;
      EntriesOf(log[..n], id) + if log[n].id == id then [log[n]] else []
  }

  /** Each entry names the hash of the one before it, the first one names `prior`. */
  predicate Links(hash: Entry -> string, prior: string, es: seq<Entry>)
    decreases |es|
  {
    es == [] || (es[0].prior == prior && Links(hash, hash(es[0]), es[1..]))
  }

  /** The tip a reader of these entries arrives at. */
  function TipAfter(hash: Entry -> string, prior: string, es: seq<Entry>): string
    decreases |es|
  {
    if es == [] then prior else TipAfter(hash, hash(es[0]), es[1..])
  }

  lemma {:induction false} LinksJoin(hash: Entry -> string, prior: string, a: seq<Entry>, b: seq<Entry>)
    ensures Links(hash, prior, a + b) <==> Links(hash, prior, a) && Links(hash, TipAfter(hash, prior, a), b)
    ensures TipAfter(hash, prior, a + b) == TipAfter(hash, TipAfter(hash, prior, a), b)
    decreases |a|
  {
    if a == [] {
      assert a + b == b;
    } else {
      assert (a + b)[1..] == a[1..] + b;
      LinksJoin(hash, hash(a[0]), a[1..], b);
    }
  }

  lemma {:induction false} LinksByPosition(hash: Entry -> string, prior: string, es: seq<Entry>)
    requires Links(hash, prior, es)
    ensures forall k :: 0 < k < |es| ==> es[k].prior == hash(es[k - 1])
    ensures es != [] ==> es[0].prior == prior && TipAfter(hash, prior, es) == hash(es[|es| - 1])
    decreases |es|
  {
    if es != [] {
      LinksByPosition(hash, hash(es[0]), es[1..]);
      forall k | 0 < k < |es| ensures es[k].prior == hash(es[k - 1]) {
        if k > 1 { assert es[1..][k - 1].prior == hash(es[1..][k - 2]); }
      }
    }
  }

  lemma {:induction false} EntriesJoin(a: seq<Entry>, b: seq<Entry>, id: SwapId)
    ensures EntriesOf(a + b, id) == EntriesOf(a, id) + EntriesOf(b, id)
    decreases |b|
  {
    if b == [] {
      assert a + b == a;
    } else {
      var n := |b| - 1;
      assert (a + b)[..|a| + n] == a + b[..n];
      EntriesJoin(a, b[..n], id);
    }
  }

  lemma {:induction false} EntriesOfOneSwap(es: seq<Entry>, owner: SwapId, id: SwapId)
    requires forall k :: 0 <= k < |es| ==> es[k].id == owner
    ensures EntriesOf(es, id) == if owner == id then es else []
    decreases |es|
  {
    if es != [] {
      var n := |es| - 1;
      EntriesOfOneSwap(es[..n], owner, id);
      assert es == es[..n] + [es[n]];
    }
  }

  // ------------------------------------------------------------------
  // What a completed script leaves behind
  // ------------------------------------------------------------------

  function Appends(es: List<Effect>): seq<Entry> {
    match es
    case Nil => []
    case Cons(e, rest) => (if e.Appended? then [e.entry] else []) + Appends(rest)
  }

  function Writes(rows: map<SwapId, Row>, es: List<Effect>): map<SwapId, Row>
    decreases es
  {
    match es
    case Nil => rows
    case Cons(e, rest) => Writes(if e.Wrote? then rows[e.row.id := e.row] else rows, rest)
  }

  lemma {:induction false} CompletedScript(w: World, es: List<Effect>, reply: Reply, n: nat)
    requires !Exec(w, es, reply, n).1.Failed?
    ensures Exec(w, es, reply, n).1 == reply
    ensures Exec(w, es, reply, n).0.log == w.log + Appends(es)
    ensures Exec(w, es, reply, n).0.rows == Writes(w.rows, es)
    decreases es
  {
    if es.Cons? {
      CompletedScript(Do(w, es.head), es.tail, reply, n - 1);
    }
  }

  predicate Quiet(es: List<Effect>) {
    es.Nil? || (!es.head.Appended? && !es.head.Wrote? && Quiet(es.tail))
  }

  lemma {:induction false} QuietLeavesNothing(rows: map<SwapId, Row>, es: List<Effect>)
    requires Quiet(es)
    ensures Appends(es) == [] && Writes(rows, es) == rows
    decreases es
  {
    if es.Cons? { QuietLeavesNothing(rows, es.tail); }
  }

  /**
   * Completed from `rows`, the effects extend the chain of one swap from the
   * hash `prior`, and leave that swap's row at the new end of the chain.
   */
  ghost predicate Leaves(c: Config, rows: map<SwapId, Row>, es: List<Effect>, id: SwapId, prior: string) {
    && (forall k :: 0 <= k < |Appends(es)| ==> Appends(es)[k].id == id)
    && Links(c.hash, prior, Appends(es))
    && exists row: Row :: Writes(rows, es) == rows[id := row] && row.blob.tip == TipAfter(c.hash, prior, Appends(es))
  }

  lemma LeavesAtEnd(c: Config, rows: map<SwapId, Row>, row: Row, rest: List<Effect>)
    requires Quiet(rest)
    ensures Leaves(c, rows, Cons(Wrote(row), rest), row.id, row.blob.tip)
  {
    QuietLeavesNothing(rows[row.id := row], rest);
    assert Writes(rows, Cons(Wrote(row), rest)) == rows[row.id := row];
  }

  lemma QuietFirst(c: Config, rows: map<SwapId, Row>, e: Effect, rest: List<Effect>, id: SwapId, prior: string)
    requires !e.Appended? && !e.Wrote? && Leaves(c, rows, rest, id, prior)
    ensures Leaves(c, rows, Cons(e, rest), id, prior) && Appends(Cons(e, rest)) == Appends(rest)
  {
    assert Appends(Cons(e, rest)) == Appends(rest);
  }

  lemma WriteFirst(c: Config, rows: map<SwapId, Row>, row: Row, rest: List<Effect>, prior: string)
    requires Leaves(c, rows[row.id := row], rest, row.id, prior)
    ensures Leaves(c, rows, Cons(Wrote(row), rest), row.id, prior)
  {
    assert Appends(Cons(Wrote(row), rest)) == Appends(rest);
    var last: Row :| Writes(rows[row.id := row], rest) == rows[row.id := row][row.id := last]
                  && last.blob.tip == TipAfter(c.hash, prior, Appends(rest));
    assert Writes(rows, Cons(Wrote(row), rest)) == rows[row.id := last];
  }

  lemma AppendFirst(c: Config, rows: map<SwapId, Row>, e: Entry, rest: List<Effect>)
    requires Leaves(c, rows, rest, e.id, c.hash(e))
    ensures Leaves(c, rows, Cons(Appended(e), rest), e.id, e.prior) && Appends(Cons(Appended(e), rest)) != []
  {
    var entries := Appends(Cons(Appended(e), rest));
    assert entries == [e] + Appends(rest) && entries[1..] == Appends(rest);
    var last: Row :| Writes(rows, rest) == rows[e.id := last]
                  && last.blob.tip == TipAfter(c.hash, c.hash(e), Appends(rest));
    assert Writes(rows, Cons(Appended(e), rest)) == rows[e.id := last];
    assert last.blob.tip == TipAfter(c.hash, e.prior, entries);
  }

  /** A completed script leaves log and rows alone, or extends the chain of its swap. */
  ghost predicate Extends(c: Config, w: World, es: List<Effect>, id: SwapId) {
    Quiet(es) || (Appends(es) != [] && Leaves(c, w.rows, es, id, if id in w.rows then w.rows[id].blob.tip else ""))
  }

  lemma SettleExtends(c: Config, w: World, r: Row, a: Answers)
    requires r.id in w.rows && w.rows[r.id] == r && Coherent(r) && r.phase == InsertPushed
    requires !SettleScript(c, w, r, Decode(r), a).reply.Failed?
    ensures Extends(c, w, SettleScript(c, w, r, Decode(r), a).effects, r.id)
  {
    var s := Decode(r);
    var es := SettleScript(c, w, r, s, a).effects;
    var e := PhaseEntry(s, Settled, EmptyPayload, a);
    var row := Persisted(w.rows, Advance(s, Settled, a.clock(1), c.hash(e)), a.clock(2));
    LeavesAtEnd(c, w.rows, row, es.tail.tail.tail.tail.tail);
    QuietFirst(c, w.rows, ReleaseSettlePush(s), es.tail.tail.tail.tail, r.id, c.hash(e));
    QuietFirst(c, w.rows, SignSettle(s), es.tail.tail.tail, r.id, c.hash(e));
    AppendFirst(c, w.rows, e, es.tail.tail);
    QuietFirst(c, w.rows, es.head, es.tail, r.id, s.tip);
  }

  lemma RefundExtends(c: Config, w: World, r: Row, a: Answers)
    requires r.id in w.rows && w.rows[r.id] == r && Coherent(r) && r.phase == Invalidated
    requires !RefundScript(c, w, r, Decode(r), a).reply.Failed?
    ensures Extends(c, w, RefundScript(c, w, r, Decode(r), a).effects, r.id)
  {
    var s := Decode(r);
    var es := RefundScript(c, w, r, s, a).effects;
    var e := PhaseEntry(s, Refunded, EmptyPayload, a);
    var row := Persisted(w.rows, Advance(s, Refunded, a.clock(1), c.hash(e)), a.clock(2));
    LeavesAtEnd(c, w.rows, row, es.tail.tail.tail.tail);
    AppendFirst(c, w.rows, e, es.tail.tail.tail);
    QuietFirst(c, w.rows, ReleaseRefundPush(s), es.tail.tail, r.id, s.tip);
    QuietFirst(c, w.rows, SignRefund(s), es.tail, r.id, s.tip);
  }

  lemma RetryExtends(c: Config, w: World, r: Row, a: Answers)
    requires r.id in w.rows && w.rows[r.id] == r && Coherent(r) && r.phase == InsertPushed
    requires !RetryScript(c, w, Decode(r), a).reply.Failed?
    ensures Extends(c, w, RetryScript(c, w, Decode(r), a).effects, r.id)
  {
    var s := Decode(r);
    var es := RetryScript(c, w, s, a).effects;
    var e := PhaseEntry(s, InsertPushed, AttemptPayload(s.attempts + 1), a);
    LeavesAtEnd(c, w.rows, es.tail.tail.tail.head.row, Nil);
    AppendFirst(c, w.rows, e, es.tail.tail.tail);
    QuietFirst(c, w.rows, InsertPush(s), es.tail.tail, r.id, s.tip);
    QuietFirst(c, w.rows, es.head, es.tail, r.id, s.tip);
  }

  lemma AdvanceExtends(c: Config, w: World, id: SwapId, a: Answers)
    requires id in w.rows ==> w.rows[id].id == id && Coherent(w.rows[id])
    requires !AdvanceScript(c, w, id, a).reply.Failed?
    ensures Extends(c, w, AdvanceScript(c, w, id, a).effects, id)
  {
    var r := w.rows[id];
    var s := Decode(r);
    var es := AdvanceScript(c, w, id, a).effects;
    match r.phase
    case InsertPushed =>
      if a.status == Spent { SettleExtends(c, w, r, a); }
      else if s.attempts < c.retry { RetryExtends(c, w, r, a); }
      else {
        LeavesAtEnd(c, w.rows, es.tail.tail.head.row, es.tail.tail.tail);
        AppendFirst(c, w.rows, PhaseEntry(s, Aborted, AbortPayload(s.attempts), a), es.tail.tail);
        QuietFirst(c, w.rows, es.head, es.tail, id, s.tip);
      }
    case Aborted =>
      LeavesAtEnd(c, w.rows, es.tail.head.row, Nil);
      AppendFirst(c, w.rows, PhaseEntry(s, Invalidated, AckPayload(true), a), es.tail);
    case Invalidated => RefundExtends(c, w, r, a);
    case _ =>
  }

  lemma CancelExtends(c: Config, w: World, id: SwapId, requester: string, reason: string, a: Answers)
    requires id in w.rows ==> w.rows[id].id == id && Coherent(w.rows[id])
    requires !CancelScript(c, w, id, requester, reason, a).reply.Failed?
    ensures Extends(c, w, CancelScript(c, w, id, requester, reason, a).effects, id)
  {
    var r := w.rows[id];
    var es := CancelScript(c, w, id, requester, reason, a).effects;
    assert Quiet(CloseHtlc(r, CloseCancel, a));
    assert Quiet(When(a.lucky(3), Discarded(r.id, Refund), CloseHtlc(r, CloseCancel, a)));
    LeavesAtEnd(c, w.rows, CanceledRow(c, r, requester, reason, a), es.tail.tail);
    AppendFirst(c, w.rows, CancelEntry(r, requester, reason, a), es.tail);
  }

  // ------------------------------------------------------------------
  // start_swap appends four entries
  // ------------------------------------------------------------------

  lemma StartTailLeaves(c: Config, rows: map<SwapId, Row>, s: State, r: Row, a: Answers)
    requires s.phase == PreChecked
    ensures Leaves(c, rows, StartTail(c, s, r, a).effects, s.id, s.tip)
  {
    var es := StartTail(c, s, r, a).effects;
    LeavesAtEnd(c, rows, es.tail.tail.head.row, Nil);
    AppendFirst(c, rows, FirstInsertEntry(s, a), es.tail.tail);
    QuietFirst(c, rows, InsertPush(s), es.tail, s.id, s.tip);
  }

  lemma StartPreCheckLeaves(c: Config, rows: map<SwapId, Row>, s: State, r: Row, a: Answers)
    requires s.phase == ZkpsVerified && !StartPreCheck(c, s, r, a).reply.Failed?
    ensures Leaves(c, rows, StartPreCheck(c, s, r, a).effects, s.id, s.tip)
  {
    var e := PreCheckEntry(s, a);
    var pre := PreCheck(s, true, a.clock(6), c.hash(e)).value;
    var row := Persisted(map[s.id := r], pre, a.clock(7));
    var es := StartPreCheck(c, s, r, a).effects;
    StartTailLeaves(c, rows[s.id := row], pre, row, a);
    WriteFirst(c, rows, row, StartTail(c, pre, row, a).effects, c.hash(e));
    AppendFirst(c, rows, e, es.tail.tail);
    QuietFirst(c, rows, es.head, es.tail, s.id, s.tip);
  }

  lemma StartVerifyLeaves(c: Config, rows: map<SwapId, Row>, s: State, r: Row, a: Answers)
    requires s.phase == Init && !StartVerify(c, s, r, a).reply.Failed?
    ensures Leaves(c, rows, StartVerify(c, s, r, a).effects, s.id, s.tip)
  {
    var e := ZkpEntry(s, a);
    var zkps := VerifyZkps(s, true, a.clock(3), c.hash(e)).value;
    var row := Persisted(map[s.id := r], zkps, a.clock(4));
    var es := StartVerify(c, s, r, a).effects;
    StartPreCheckLeaves(c, rows[s.id := row], zkps, row, a);
    WriteFirst(c, rows, row, StartPreCheck(c, zkps, row, a).effects, c.hash(e));
    AppendFirst(c, rows, e, es.tail.tail.tail);
    QuietFirst(c, rows, es.tail.head, es.tail.tail, s.id, s.tip);
    QuietFirst(c, rows, es.head, es.tail, s.id, s.tip);
  }

  lemma StartExtends(c: Config, w: World, id: SwapId, q: Request, a: Answers)
    requires id !in w.rows && !StartScript(c, id, q, a).reply.Failed?
    ensures Extends(c, w, StartScript(c, id, q, a).effects, id)
  {
    var es := StartScript(c, id, q, a).effects;
    var s := InitState(c, id, q, a);
    var row0 := InitRow(c, id, q, a);
    var minted := MintedRow(c, id, q, a);
    var rows0 := w.rows[id := row0];
    var rest := StartVerify(c, s, minted, a).effects;
    var mint := es.tail.tail.tail.tail;
    StartVerifyLeaves(c, rows0[id := minted], s, minted, a);
    if a.htlc.Some? {
      WriteFirst(c, rows0, minted, rest, s.tip);
      QuietFirst(c, rows0, MintedHtlc(id, a.htlc.value), mint.tail.tail, id, s.tip);
    } else {
      assert rows0[id := minted] == rows0;
    }
    QuietFirst(c, rows0, Minted(id), mint.tail, id, s.tip);
    WriteFirst(c, w.rows, row0, mint, s.tip);
    AppendFirst(c, w.rows, InitEntry(id, q, a), es.tail.tail.tail);
    QuietFirst(c, w.rows, Began(id, Refund), es.tail.tail, id, "");
    QuietFirst(c, w.rows, Began(id, Settle), es.tail, id, "");
  }

  // ------------------------------------------------------------------
  // Runs in which no call of the swap fails
  // ------------------------------------------------------------------

  /** The log of a swap is one chain, and the stored tip is its end. */
  ghost predicate Linear(c: Config, w: World, id: SwapId) {
    var es := EntriesOf(w.log, id);
    && Links(c.hash, "", es)
    && TipAfter(c.hash, "", es) == (if id in w.rows then w.rows[id].blob.tip else "")
    && (id in w.rows <==> es != [])
  }

  /** No call of this swap fails; those of others may. */
  ghost predicate NoFailure(c: Config, w: World, steps: seq<Step>, id: SwapId)
    decreases |steps|
  {
    steps == [] ||
      (&& (IsCallOf(steps[0], id) ==> !After(c, w, steps[0]).1.Failed?)
       && NoFailure(c, After(c, w, steps[0]).0, steps[1..], id))
  }

  /** Wherever a call of another swap stops, it has logged nothing for this one. */
  lemma {:induction false} OthersLogNothing(w: World, es: List<Effect>, reply: Reply, n: nat, owner: SwapId, id: SwapId)
    requires About(es, owner) && id != owner
    ensures EntriesOf(Exec(w, es, reply, n).0.log, id) == EntriesOf(w.log, id)
    decreases es
  {
    if es.Cons? && n > 0 {
      var w1 := Do(w, es.head);
      if es.head.Appended? {
        assert (w.log + [es.head.entry])[..|w.log|] == w.log;
      }
      OthersLogNothing(w1, es.tail, reply, n - 1, owner, id);
    }
  }

  lemma OtherCallStaysLinear(c: Config, w: World, step: Step, id: SwapId)
    requires Inv(c, w) && Linear(c, w, id) && step.Step? && step.call.id != id
    ensures Linear(c, After(c, w, step).0, id)
  {
    assert IdInv(c, w, step.call.id);
    var script := ScriptOf(c, w, step.call, step.answers);
    CallAbout(c, w, step.call, step.answers);
    OthersStay(w, script.effects, script.reply, step.stop, step.call.id, id);
    OthersLogNothing(w, script.effects, script.reply, step.stop, step.call.id, id);
  }

  lemma OwnCallStaysLinear(c: Config, w: World, step: Step)
    requires step.Step? && Inv(c, w) && Plausible(w, step) && Linear(c, w, step.call.id) && !After(c, w, step).1.Failed?
    ensures Linear(c, After(c, w, step).0, step.call.id)
  {
    var script := ScriptOf(c, w, step.call, step.answers);
    CompletedScript(w, script.effects, script.reply, step.stop);
    CallExtends(c, w, step);
    ExtensionStaysLinear(c, w, After(c, w, step).0, script.effects, step.call.id);
  }

  lemma OwnChainGrows(c: Config, w: World, w': World, es: List<Effect>, id: SwapId)
    requires Linear(c, w, id) && Appends(es) != []
    requires Leaves(c, w.rows, es, id, if id in w.rows then w.rows[id].blob.tip else "")
    requires w'.log == w.log + Appends(es) && w'.rows == Writes(w.rows, es)
    ensures Linear(c, w', id)
  {
    EntriesJoin(w.log, Appends(es), id);
    EntriesOfOneSwap(Appends(es), id, id);
    LinksJoin(c.hash, "", EntriesOf(w.log, id), Appends(es));
  }

  lemma ExtensionStaysLinear(c: Config, w: World, w': World, es: List<Effect>, id: SwapId)
    requires Linear(c, w, id) && Extends(c, w, es, id)
    requires w'.log == w.log + Appends(es) && w'.rows == Writes(w.rows, es)
    ensures Linear(c, w', id)
  {
    if Quiet(es) {
      QuietLeavesNothing(w.rows, es);
      assert w'.log == w.log;
    } else {
      OwnChainGrows(c, w, w', es, id);
    }
  }

  lemma CallExtends(c: Config, w: World, step: Step)
    requires Inv(c, w) && Plausible(w, step) && step.Step?
    requires !ScriptOf(c, w, step.call, step.answers).reply.Failed?
    ensures Extends(c, w, ScriptOf(c, w, step.call, step.answers).effects, step.call.id)
  {
    assert IdInv(c, w, step.call.id);
    match step.call
    case StartCall(id, request) => StartExtends(c, w, id, request, step.answers);
    case AdvanceCall(id) => AdvanceExtends(c, w, id, step.answers);
    case CancelCall(id, requester, reason) => CancelExtends(c, w, id, requester, reason, step.answers);
  }

  lemma {:induction false} RunStaysLinear(c: Config, w: World, steps: seq<Step>, id: SwapId)
    requires Inv(c, w) && PlausibleRun(c, w, steps) && NoFailure(c, w, steps, id)
    requires Linear(c, w, id)
    ensures Linear(c, Run(c, w, steps), id)
    decreases |steps|
  {
    if steps != [] {
      if IsCallOf(steps[0], id) {
        OwnCallStaysLinear(c, w, steps[0]);
      } else if steps[0].Step? {
        OtherCallStaysLinear(c, w, steps[0], id);
      }
      StepKeepsInv(c, w, steps[0]);
      RunStaysLinear(c, After(c, w, steps[0]).0, steps[1..], id);
    }
  }

  /**
   * If none of its calls fails, whatever becomes of others, a swap's log is exactly
   * the chain that ends in its stored tip.
   */
  lemma LogIsLinearChain(c: Config, steps: seq<Step>, id: SwapId)
    requires PlausibleRun(c, EMPTY_WORLD, steps) && NoFailure(c, EMPTY_WORLD, steps, id)
    ensures var w := Run(c, EMPTY_WORLD, steps);
      var es := EntriesOf(w.log, id);
      && (id in w.rows <==> es != [])
      && (forall k :: 0 < k < |es| ==> es[k].prior == c.hash(es[k - 1]))
      && (es != [] ==> es[0].prior == "" && w.rows[id].blob.tip == c.hash(es[|es| - 1]))
  {
    RunStaysLinear(c, EMPTY_WORLD, steps, id);
    LinksByPosition(c.hash, "", EntriesOf(Run(c, EMPTY_WORLD, steps).log, id));
  }
}
