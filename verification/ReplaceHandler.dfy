// The replace request end to end: totals, namespace, HTLC hooks and the
// all-or-nothing commit (crates/server-core/src/lib.rs, `replace`).

module ReplaceHandler {
  import opened Prelude
  import opened Ledger
  import opened StorageKeys
  import opened Htlc
  import opened LedgerRuns
  import FdbStore

  const HTLC_STATE: string := "htlc_state"

  /** A parsed secret token: its namespace, public hash and the amount its wire form names. */
  datatype WireToken = WireToken(ns: Namespace, hash: string, amount: int)

  datatype Request = Request(
    terms: bool, inputs: seq<WireToken>, outputs: seq<WireToken>,
    witnesses: seq<WitnessEntry>, locks: seq<LockEntry>)

  /** What the audit log keeps of a replace. */
  datatype ReplacementRecord = ReplacementRecord(id: string, inputHashes: seq<string>, outputHashes: seq<string>, total: int)

  /** Codecs and identifiers from outside: hashing, JSON, number printing, the operation id, timestamps. */
  datatype Env = Env(
    asset: string, keys: KeyStyle, sha: string -> string,
    encodeLock: HtlcState -> string, decodeLock: string -> Option<HtlcState>,
    show: int -> string, wats: string -> int,
    encodeRecord: ReplacementRecord -> string, opId: string, createdAt: string, clock: nat -> string)

  /** Stored locks and amounts read back as they were written. */
  ghost predicate Reads(env: Env) {
    && Plain(env.asset)
    && (forall s :: env.decodeLock(env.encodeLock(s)) == Some(s))
    && (forall a :: env.wats(env.show(a)) == a)
  }

  datatype Refusal =
    | TermsNotAccepted | AmountOverflow | AmountMismatch | NamespaceMismatch
    | InputNotFound | Shut(error: HtlcError) | BadLock(error: HtlcError) | ReplaceFailed

  function KeyOf(env: Env, w: WireToken): Key { TokenKeyIn(env.keys, env.asset, w.ns, w.hash) }

  function KeysOf(env: Env, ws: seq<WireToken>): (r: seq<Key>)
    ensures |r| == |ws| && forall i :: 0 <= i < |ws| ==> r[i] == KeyOf(env, ws[i])
  {
    seq(|ws|, i requires 0 <= i < |ws| => KeyOf(env, ws[i]))
  }

  /** i64 addition that reports overflow, over the whole list. */
  function CheckedTotal(ws: seq<WireToken>): Option<int> {
    if ws == [] then Some(0)
    else
      var front := CheckedTotal(ws[..|ws| - 1]);
      if front.None? then None
      else
        var sum := front.value + ws[|ws| - 1].amount;
        if MIN_I64 <= sum <= MAX_I64 then Some(sum) else None
  }

  function Total(ws: seq<WireToken>): int {
    if ws == [] then 0 else Total(ws[..|ws| - 1]) + ws[|ws| - 1].amount
  }

  lemma {:induction false} CheckedTotalIsTotal(ws: seq<WireToken>)
    ensures CheckedTotal(ws).Some? ==> CheckedTotal(ws).value == Total(ws)
  {
    if ws != [] { CheckedTotalIsTotal(ws[..|ws| - 1]); }
  }

  /** A sum is refused exactly when one of its running totals leaves the i64 range. */
  lemma {:induction false} CheckedTotalExactly(ws: seq<WireToken>)
    ensures CheckedTotal(ws).Some? <==> forall n :: 0 < n <= |ws| ==> MIN_I64 <= Total(ws[..n]) <= MAX_I64
  {
    if ws != [] {
      var n := |ws| - 1;
      CheckedTotalExactly(ws[..n]);
      CheckedTotalIsTotal(ws[..n]);
      assert ws[..|ws|] == ws;
      assert forall m :: 0 < m <= n ==> ws[..n][..m] == ws[..m];
    }
  }

  /** The namespace of the first input; without inputs, the unscoped one. */
  function RequestNamespace(rq: Request): Namespace {
    if rq.inputs == [] then Namespace(None, None) else rq.inputs[0].ns
  }

  function LockOf(env: Env, f: Fields): Option<HtlcState> {
    if HTLC_STATE in f then env.decodeLock(f[HTLC_STATE]) else None
  }

  function LocksOf(env: Env, t: Tokens, ks: seq<Key>): (r: seq<Option<HtlcState>>)
    requires forall i :: 0 <= i < |ks| ==> ks[i] in t
    ensures |r| == |ks| && forall i :: 0 <= i < |ks| ==> r[i] == LockOf(env, t[ks[i]])
  {
    seq(|ks|, i requires 0 <= i < |ks| => LockOf(env, t[ks[i]]))
  }

  /** The record an output secret becomes, with its lock if it has one. */
  function RecordOf(env: Env, w: WireToken, lock: Option<HtlcState>): Fields {
    var plain := map[AMOUNT := env.show(w.amount), SPENT := "0", "created_at" := env.createdAt, "origin" := "replaced"];
    var scoped := if env.keys.Legacy? then plain
      else plain["contract_id" := Segment(w.ns.contract)]["issuer_fp" := Segment(w.ns.issuer)];
    if lock.Some? then scoped[HTLC_STATE := env.encodeLock(lock.value)] else scoped
  }

  /** A scoped record names the contract and issuer that its key is made of. */
  lemma RecordNamesItsKey(env: Env, w: WireToken, lock: Option<HtlcState>)
    requires env.keys.Namespaced?
    ensures var f := RecordOf(env, w, lock);
      && "contract_id" in f && "issuer_fp" in f && "origin" in f && f["origin"] == "replaced"
      && KeyOf(env, w) == env.asset + ":" + f["contract_id"] + ":" + f["issuer_fp"] + ":token:" + w.hash
  {
    var f := RecordOf(env, w, lock);
    var front := env.asset + ":" + f["contract_id"] + ":" + f["issuer_fp"];
    assert KeyOf(env, w) == front + ":" + "token:" + w.hash;
    assert ":" + "token:" == ":token:";
    assert front + ":" + "token:" + w.hash == front + (":" + "token:") + w.hash;
  }

  function HashesOf(ws: seq<WireToken>): (r: seq<string>)
    ensures |r| == |ws| && forall i :: 0 <= i < |ws| ==> r[i] == ws[i].hash
  {
    seq(|ws|, i requires 0 <= i < |ws| => ws[i].hash)
  }

  function RecordedAs(env: Env, rq: Request): ReplacementRecord {
    ReplacementRecord(env.opId, HashesOf(rq.inputs), HashesOf(rq.outputs), Total(rq.inputs))
  }

  function OpOf(env: Env, rq: Request, now: u64): ReplaceOp {
    ReplaceOp(KeysOf(env, rq.inputs),
      seq(|rq.outputs|, i requires 0 <= i < |rq.outputs| =>
        Output(KeyOf(env, rq.outputs[i]), RecordOf(env, rq.outputs[i], StampFor(env.sha, rq.locks, i, now)))),
      ReplacementKeyIn(env.keys, env.asset, RequestNamespace(rq), env.opId), env.encodeRecord(RecordedAs(env, rq)))
  }

  predicate SameNamespace(rq: Request) {
    forall i :: 0 <= i < |rq.inputs + rq.outputs| ==> (rq.inputs + rq.outputs)[i].ns == RequestNamespace(rq)
  }

  /** All tokens of a request are of one namespace, and of the unscoped one if it has no inputs. */
  lemma OneNamespace(rq: Request)
    ensures SameNamespace(rq) <==>
      && (forall x, y :: x in rq.inputs + rq.outputs && y in rq.inputs + rq.outputs ==> x.ns == y.ns)
      && (rq.inputs == [] ==> forall w <- rq.outputs :: w.ns == Namespace(None, None))
  {
    var all := rq.inputs + rq.outputs;
    if rq.inputs != [] { assert rq.inputs[0] in all; }
    assert forall i :: 0 <= i < |all| ==> all[i] in all;
    assert rq.inputs == [] ==> all == rq.outputs;
  }

  predicate Balanced(rq: Request) {
    CheckedTotal(rq.inputs).Some? && CheckedTotal(rq.inputs) == CheckedTotal(rq.outputs)
  }

  /** What the handler checks before the commit, on the ledger it reads. */
  predicate Admissible(env: Env, t: Tokens, rq: Request, now: u64) {
    && rq.terms && Balanced(rq) && SameNamespace(rq)
    && (forall i :: 0 <= i < |rq.inputs| ==> KeyOf(env, rq.inputs[i]) in t)
    && AllOpen(env.sha, LocksOf(env, t, KeysOf(env, rq.inputs)), rq.witnesses, now)
    && (forall e <- rq.locks :: e.output < |rq.outputs|)
  }

  method SumInputs(ws: seq<WireToken>) returns (r: Option<int>)
    ensures r == CheckedTotal(ws)
  {
    var total := 0;
    for i := 0 to |ws|
      invariant CheckedTotal(ws[..i]) == Some(total)
    {
      assert ws[..i + 1][..i] == ws[..i];
      var sum := total + ws[i].amount;
      if !(MIN_I64 <= sum <= MAX_I64) {
        Overflowed(ws, i + 1);
        return None;
      }
      total := sum;
    }
    assert ws[..|ws|] == ws;
    return Some(total);
  }

  lemma {:induction false} Overflowed(ws: seq<WireToken>, i: nat)
    requires i <= |ws| && CheckedTotal(ws[..i]).None?
    ensures CheckedTotal(ws).None?
    decreases |ws| - i
  {
    if i < |ws| {
      assert ws[..i + 1][..i] == ws[..i];
      Overflowed(ws, i + 1);
    } else {
      assert ws[..i] == ws;
    }
  }

  /** The audit entry a committed request leaves: who was spent, who was made, for how much in all. */
  ghost predicate Noted(env: Env, rq: Request, audit: map<Key, string>, audit': map<Key, string>) {
    exists note: ReplacementRecord ::
      && audit' == audit[ReplacementKeyIn(env.keys, env.asset, RequestNamespace(rq), env.opId) := env.encodeRecord(note)]
      && note.id == env.opId && note.total == Total(rq.inputs) && note.total == Total(rq.outputs)
      && |note.inputHashes| == |rq.inputs| && (forall i :: 0 <= i < |rq.inputs| ==> note.inputHashes[i] == rq.inputs[i].hash)
      && |note.outputHashes| == |rq.outputs| && (forall i :: 0 <= i < |rq.outputs| ==> note.outputHashes[i] == rq.outputs[i].hash)
  }

  lemma CommitIsNoted(env: Env, rq: Request, now: u64, audit: map<Key, string>)
    requires Balanced(rq)
    ensures var op := OpOf(env, rq, now); Noted(env, rq, audit, audit[op.auditKey := op.audit])
  {
    CheckedTotalIsTotal(rq.inputs);
    CheckedTotalIsTotal(rq.outputs);
    var note := RecordedAs(env, rq);
    assert OpOf(env, rq, now).audit == env.encodeRecord(note);
  }

  /** The checks that need no store: totals and namespaces. */
  method CheckRequest(rq: Request) returns (r: Result<(), Refusal>)
    ensures r.Ok? <==> Balanced(rq) && SameNamespace(rq)
  {
    var inputTotal := SumInputs(rq.inputs);
    if inputTotal.None? { return Err(AmountOverflow); }
    var outputTotal := SumInputs(rq.outputs);
    if outputTotal.None? { return Err(AmountOverflow); }
    if inputTotal != outputTotal { return Err(AmountMismatch); }
    if !SameNamespace(rq) { return Err(NamespaceMismatch); }
    return Ok(());
  }

  /** The locks of the records a store has answered with, or none if a record is missing. */
  method LocksFound(env: Env, records: seq<Option<Fields>>) returns (r: Option<seq<Option<HtlcState>>>)
    ensures r.Some? <==> forall i :: 0 <= i < |records| ==> records[i].Some?
    ensures r.Some? ==> |r.value| == |records|
    ensures r.Some? ==> forall i :: 0 <= i < |records| ==> r.value[i] == LockOf(env, records[i].value)
  {
    var locks := [];
    for i := 0 to |records|
      invariant |locks| == i
      invariant forall j :: 0 <= j < i ==> records[j].Some? && locks[j] == LockOf(env, records[j].value)
    {
      if records[i].None? { return None; }
      locks := locks + [LockOf(env, records[i].value)];
    }
    return Some(locks);
  }

  /** The two hooks of a request, and the operation it then asks for. */
  method PlanReplace(env: Env, rq: Request, records: seq<Option<Fields>>, now: u64) returns (r: Result<ReplaceOp, Refusal>)
    requires |records| == |rq.inputs|
    ensures r.Ok? <==>
      && (forall i :: 0 <= i < |records| ==> records[i].Some?)
      && AllOpen(env.sha, LocksIn(env, records), rq.witnesses, now)
      && (forall e <- rq.locks :: e.output < |rq.outputs|)
    ensures r.Ok? ==> r.value == OpOf(env, rq, now)
  {
    var locks := LocksFound(env, records);
    if locks.None? { return Err(InputNotFound); }
    assert locks.value == LocksIn(env, records);
    var checked := ValidateReplaceRequest(env.sha, locks.value, rq.witnesses, now);
    if checked.Err? { return Err(Shut(checked.error)); }
    var stamped := AugmentOutputRecords(env.sha, |rq.outputs|, rq.locks, now);
    if stamped.Err? { return Err(BadLock(stamped.error)); }
    var outputs := seq(|rq.outputs|, i requires 0 <= i < |rq.outputs| && |stamped.value| == |rq.outputs| =>
      Output(KeyOf(env, rq.outputs[i]), RecordOf(env, rq.outputs[i], stamped.value[i])));
    var op := ReplaceOp(KeysOf(env, rq.inputs), outputs,
      ReplacementKeyIn(env.keys, env.asset, RequestNamespace(rq), env.opId), env.encodeRecord(RecordedAs(env, rq)));
    assert op.outputs == OpOf(env, rq, now).outputs;
    return Ok(op);
  }

  function LocksIn(env: Env, records: seq<Option<Fields>>): (r: seq<Option<HtlcState>>)
    ensures |r| == |records|
  {
    seq(|records|, i requires 0 <= i < |records| => if records[i].Some? then LockOf(env, records[i].value) else None)
  }

  /** Records answer for a ledger: they are there exactly if its records are, with the same locks. */
  predicate AnswersFor(env: Env, t: Tokens, ks: seq<Key>, records: seq<Option<Fields>>) {
    && |records| == |ks|
    && forall i :: 0 <= i < |ks| ==>
         && (records[i].Some? <==> ks[i] in t)
         && (records[i].Some? ==> LockOf(env, records[i].value) == LockOf(env, t[ks[i]]))
  }

  lemma PlansExactlyAdmissible(env: Env, t: Tokens, rq: Request, records: seq<Option<Fields>>, now: u64)
    requires AnswersFor(env, t, KeysOf(env, rq.inputs), records) && rq.terms && Balanced(rq) && SameNamespace(rq)
    ensures Admissible(env, t, rq, now) <==>
      && (forall i :: 0 <= i < |records| ==> records[i].Some?)
      && AllOpen(env.sha, LocksIn(env, records), rq.witnesses, now)
      && (forall e <- rq.locks :: e.output < |rq.outputs|)
  {
    var ks := KeysOf(env, rq.inputs);
    assert forall i :: 0 <= i < |ks| ==> ks[i] == KeyOf(env, rq.inputs[i]);
    if forall i :: 0 <= i < |records| ==> records[i].Some? {
      assert LocksIn(env, records) == LocksOf(env, t, ks);
    }
  }

  /**
   * Handles one request. `between` is what other requests do to the store after
   * the inputs have been read and before the commit.
   */
  method Replace(env: Env, store: FdbStore.FdbStore, rq: Request, now: u64, between: seq<Step>)
    returns (r: Result<(), Refusal>)
    modifies store
    ensures !rq.terms ==> r.Err?
    ensures rq.terms && rq.inputs == [] && rq.outputs == [] ==> r.Ok? && store.tokens == old(store.tokens)
    ensures rq.inputs + rq.outputs != [] ==>
      (r.Ok? <==> Admissible(env, old(store.tokens), rq, now)
                  && Committable(Run(old(store.tokens), between), OpOf(env, rq, now)))
    ensures rq.inputs + rq.outputs != [] && r.Ok? ==>
      store.tokens == Applied(Run(old(store.tokens), between), OpOf(env, rq, now), env.clock)
    ensures r.Err? ==> store.tokens == old(store.tokens) || store.tokens == Run(old(store.tokens), between)
    ensures rq.inputs + rq.outputs != [] && r.Ok? ==> Noted(env, rq, old(store.audit), store.audit)
    ensures r.Err? || rq.inputs + rq.outputs == [] ==> store.audit == old(store.audit)
  {
    if !rq.terms { return Err(TermsNotAccepted); }
    if rq.inputs == [] && rq.outputs == [] { return Ok(()); }
    r := CheckRequest(rq);
    if r.Err? { return; }
    var records := store.GetTokens(KeysOf(env, rq.inputs));
    var planned := PlanReplace(env, rq, records, now);
    PlansExactlyAdmissible(env, store.tokens, rq, records, now);
    if planned.Err? { return Err(planned.error); }

    store.tokens := Run(store.tokens, between);

    var committed := store.ExecReplace(planned.value, env.clock);
    if committed.Err? { return Err(ReplaceFailed); }
    CommitIsNoted(env, rq, now, old(store.audit));
    return Ok(());
  }

  // ------------------------------------------------------------------
  // Locks
  // ------------------------------------------------------------------

  lemma KeptLock(env: Env, f: Fields, g: Fields)
    requires Keeps(f, g)
    ensures LockOf(env, g) == LockOf(env, f)
  {
    assert HTLC_STATE in f <==> HTLC_STATE in f.Keys - {SPENT, SPENT_AT};
    assert HTLC_STATE in g <==> HTLC_STATE in g.Keys - {SPENT, SPENT_AT};
  }

  /** What was checked on the records read still holds of the records the commit consumes, whatever ran in between. */
  lemma CheckedAtCommit(env: Env, t: Tokens, rq: Request, now: u64, between: seq<Step>)
    requires Admissible(env, t, rq, now)
    ensures Admissible(env, Run(t, between), rq, now)
  {
    var t', ks := Run(t, between), KeysOf(env, rq.inputs);
    RecordsAreImmutable(t, between);
    forall i | 0 <= i < |ks| ensures ks[i] in t' && LockOf(env, t'[ks[i]]) == LockOf(env, t[ks[i]]) {
      assert ks[i] == KeyOf(env, rq.inputs[i]);
      KeptLock(env, t[ks[i]], t'[ks[i]]);
    }
    assert LocksOf(env, t', ks) == LocksOf(env, t, ks);
  }

  /** A locked output is in the ledger with its lock, whatever other requests do later. */
  lemma LockStays(env: Env, t: Tokens, locking: Request, lockedAt: u64, i: nat, q: LockRequest, since: seq<Step>)
    requires Reads(env) && Committable(t, OpOf(env, locking, lockedAt))
    requires i < |locking.outputs| && LockFor(locking.locks, i) == Some(q)
    ensures var t1 := Run(Applied(t, OpOf(env, locking, lockedAt), env.clock), since);
      var k := KeyOf(env, locking.outputs[i]);
      k in t1 && LockOf(env, t1[k]) == Some(Stamp(env.sha, q, lockedAt))
  {
    var op := OpOf(env, locking, lockedAt);
    var t0 := Applied(t, op, env.clock);
    var t1 := Run(t0, since);
    var k := op.outputs[i].key;
    AppliedKeyByKey(t, op, env.clock);
    assert t0[k] == op.outputs[i].fields;
    RecordsAreImmutable(t0, since);
    KeptLock(env, t0[k], t1[k]);
  }

  /**
   * A token locked by one request and consumed by a later one: the later
   * request shows the preimage and its witness names the claim owner, or it
   * comes after the deadline and its witness names the refund owner. The owner
   * is only named: see `OutputOwnerIsNotChecked`.
   */
  lemma LockedOutputNeedsItsWitness(
      env: Env, t: Tokens, locking: Request, lockedAt: u64, i: nat, q: LockRequest,
      since: seq<Step>, spending: Request, now: u64, between: seq<Step>, j: nat)
    returns (w: Witness)
    requires Reads(env)
    requires Committable(t, OpOf(env, locking, lockedAt))
    requires i < |locking.outputs| && LockFor(locking.locks, i) == Some(q)
    requires var t1 := Run(Applied(t, OpOf(env, locking, lockedAt), env.clock), since);
      Admissible(env, t1, spending, now)
    requires j < |spending.inputs| && KeyOf(env, spending.inputs[j]) == KeyOf(env, locking.outputs[i])
    ensures WitnessFor(spending.witnesses, j) == Some(w) && Opens(env.sha, q, lockedAt, w, now)
  {
    LockStays(env, t, locking, lockedAt, i, q, since);
    var t1 := Run(Applied(t, OpOf(env, locking, lockedAt), env.clock), since);
    var k := KeyOf(env, locking.outputs[i]);
    var ks := KeysOf(env, spending.inputs);
    assert ks[j] == k;
    assert CheckInput(env.sha, LocksOf(env, t1, ks)[j], spending.witnesses, j, now).Ok?;
    w := WitnessFor(spending.witnesses, j).value;
    StampedLockOpens(env.sha, q, lockedAt, w, now);
  }

  // ------------------------------------------------------------------
  // The owner a witness names is not compared with the outputs
  // ------------------------------------------------------------------

  /** Nothing ties the outputs to the witnesses: any others with the same total pass in their place. */
  lemma OutputOwnerIsNotChecked(env: Env, t: Tokens, rq: Request, outputs: seq<WireToken>, now: u64)
    requires Admissible(env, t, rq, now)
    requires |outputs| == |rq.outputs| && CheckedTotal(outputs) == CheckedTotal(rq.outputs)
    requires forall w <- outputs :: w.ns == RequestNamespace(rq)
    ensures Admissible(env, t, rq.(outputs := outputs), now)
  {
    var other := rq.(outputs := outputs);
    var all, all' := rq.inputs + rq.outputs, other.inputs + other.outputs;
    forall i | 0 <= i < |all'| ensures all'[i].ns == RequestNamespace(other) {
      if i < |rq.inputs| {
        assert all[i].ns == RequestNamespace(rq);
      } else {
        assert all'[i] in outputs;
      }
    }
  }

  predicate IsOutputHash(rq: Request, h: string) {
    exists i :: 0 <= i < |rq.outputs| && rq.outputs[i].hash == h
  }

  /** The comments' rule for one lock: the path's owner, named by the witness, holds an output of the request. */
  predicate PathOwnerIsPaid(env: Env, s: HtlcState, w: Witness, rq: Request, now: u64) {
    || (ClaimPath(env.sha, s, w) && IsOutputHash(rq, s.claimOwner))
    || (RefundPath(s, w, now) && IsOutputHash(rq, s.refundOwner))
  }

  ghost predicate MeetsDocumentedRule(env: Env, t: Tokens, rq: Request, now: u64)
    requires forall i :: 0 <= i < |rq.inputs| ==> KeyOf(env, rq.inputs[i]) in t
  {
    forall i :: 0 <= i < |rq.inputs| && LockOf(env, t[KeyOf(env, rq.inputs[i])]).Some? ==>
      var w := WitnessFor(rq.witnesses, i);
      w.Some? && PathOwnerIsPaid(env, LockOf(env, t[KeyOf(env, rq.inputs[i])]).value, w.value, rq, now)
  }

  /** What a caller can compare beforehand: each witness for a locked input names the hash of an output. */
  ghost predicate WitnessesNameOutputs(env: Env, t: Tokens, rq: Request)
    requires forall i :: 0 <= i < |rq.inputs| ==> KeyOf(env, rq.inputs[i]) in t
  {
    forall i :: 0 <= i < |rq.inputs| && LockOf(env, t[KeyOf(env, rq.inputs[i])]).Some? ==>
      var w := WitnessFor(rq.witnesses, i);
      w.Some? && IsOutputHash(rq, w.value.owner)
  }

  /** An admitted request meets the documented rule exactly when its witnesses name its own outputs. */
  lemma DocumentedRuleExactly(env: Env, t: Tokens, rq: Request, now: u64)
    requires Admissible(env, t, rq, now)
    ensures MeetsDocumentedRule(env, t, rq, now) <==> WitnessesNameOutputs(env, t, rq)
  {
    forall i | 0 <= i < |rq.inputs| && LockOf(env, t[KeyOf(env, rq.inputs[i])]).Some?
      ensures var w := WitnessFor(rq.witnesses, i);
        w.Some? && (IsOutputHash(rq, w.value.owner) <==>
          PathOwnerIsPaid(env, LockOf(env, t[KeyOf(env, rq.inputs[i])]).value, w.value, rq, now))
    {
      var s := LockOf(env, t[KeyOf(env, rq.inputs[i])]).value;
      assert KeysOf(env, rq.inputs)[i] == KeyOf(env, rq.inputs[i]);
      assert CheckInput(env.sha, LocksOf(env, t, KeysOf(env, rq.inputs))[i], rq.witnesses, i, now).Ok?;
      AcceptsOnlyDocumented(env.sha, s, WitnessFor(rq.witnesses, i).value, now);
    }
  }

  lemma SingleTotal(w: WireToken)
    requires MIN_I64 <= w.amount <= MAX_I64
    ensures CheckedTotal([w]) == Some(w.amount) && Total([w]) == w.amount
  {
    assert [w][..|[w]| - 1] == [];
    assert CheckedTotal([]) == Some(0) && Total([]) == 0;
  }

  /** One spendable token for one new one of the same amount: all but its lock is in order. */
  lemma OneForOne(env: Env, t: Tokens, w: WireToken, newHash: string, shown: seq<WitnessEntry>, now: u64)
    requires MIN_I64 <= w.amount <= MAX_I64
    requires KeyOf(env, w) in t && !IsSpent(t[KeyOf(env, w)]) && KeyOf(env, w.(hash := newHash)) !in t
    ensures var rq := Request(true, [w], [w.(hash := newHash)], shown, []);
      && Balanced(rq) && SameNamespace(rq) && Total(rq.inputs) == w.amount
      && KeysOf(env, rq.inputs) == [KeyOf(env, w)] && Committable(t, OpOf(env, rq, now))
  {
    var out := w.(hash := newHash);
    var rq := Request(true, [w], [out], shown, []);
    SingleTotal(w);
    SingleTotal(out);
    assert KeysOf(env, rq.inputs) == [KeyOf(env, w)] && OutputKeys(OpOf(env, rq, now).outputs) == [KeyOf(env, out)];
  }

  /**
   * A locked token that is still unspent can be consumed by whoever opens it
   * and by nobody else: a request with one witness for it goes through exactly
   * if the witness opens the lock it was given.
   */
  lemma LockedTokenIsConsumedExactly(
      env: Env, t: Tokens, locking: Request, lockedAt: u64, i: nat, q: LockRequest,
      since: seq<Step>, newHash: string, shown: Witness, now: u64)
    requires Reads(env) && Committable(t, OpOf(env, locking, lockedAt))
    requires i < |locking.outputs| && LockFor(locking.locks, i) == Some(q)
    requires var t1 := Run(Applied(t, OpOf(env, locking, lockedAt), env.clock), since);
      var w := locking.outputs[i];
      && KeyOf(env, w) in t1 && !IsSpent(t1[KeyOf(env, w)]) && KeyOf(env, w.(hash := newHash)) !in t1
      && MIN_I64 <= w.amount <= MAX_I64
    ensures var t1 := Run(Applied(t, OpOf(env, locking, lockedAt), env.clock), since);
      var w := locking.outputs[i];
      var rq := Request(true, [w], [w.(hash := newHash)], [WitnessEntry(0, shown)], []);
      Admissible(env, t1, rq, now) && Committable(t1, OpOf(env, rq, now)) <==> Opens(env.sha, q, lockedAt, shown, now)
  {
    LockStays(env, t, locking, lockedAt, i, q, since);
    var t1 := Run(Applied(t, OpOf(env, locking, lockedAt), env.clock), since);
    var w := locking.outputs[i];
    var rq := Request(true, [w], [w.(hash := newHash)], [WitnessEntry(0, shown)], []);
    OneForOne(env, t1, w, newHash, rq.witnesses, now);
    assert WitnessFor(rq.witnesses, 0) == Some(shown);
    StampedLockOpens(env.sha, q, lockedAt, shown, now);
    var locks := LocksOf(env, t1, KeysOf(env, rq.inputs));
    assert locks[0] == Some(Stamp(env.sha, q, lockedAt));
    assert AllOpen(env.sha, locks, rq.witnesses, now) <==> CheckInput(env.sha, locks[0], rq.witnesses, 0, now).Ok?;
  }

  /** A locked token goes to an output that is not its claim owner's, though the witness names the claim owner. */
  lemma ClaimOwnerNeedNotBePaid(
      env: Env, t: Tokens, w: WireToken, s: HtlcState, preimage: string, newHash: string, now: u64)
    requires MIN_I64 <= w.amount <= MAX_I64
    requires KeyOf(env, w) in t && !IsSpent(t[KeyOf(env, w)]) && LockOf(env, t[KeyOf(env, w)]) == Some(s)
    requires IsHex(preimage) && env.sha(preimage) == s.committedH
    requires KeyOf(env, w.(hash := newHash)) !in t && newHash != s.claimOwner && newHash != s.refundOwner
    ensures var rq := Request(true, [w], [w.(hash := newHash)], [WitnessEntry(0, Witness(Some(preimage), s.claimOwner))], []);
      && Admissible(env, t, rq, now) && Committable(t, OpOf(env, rq, now))
      && !MeetsDocumentedRule(env, t, rq, now)
  {
    var out, shown := w.(hash := newHash), Witness(Some(preimage), s.claimOwner);
    var rq := Request(true, [w], [out], [WitnessEntry(0, shown)], []);
    OneForOne(env, t, w, newHash, rq.witnesses, now);
    assert WitnessFor(rq.witnesses, 0) == Some(shown);
    assert Evaluate(env.sha, s, shown, now) == Ok(Claim);
    assert rq.inputs[0] == w && !IsOutputHash(rq, s.claimOwner) && !IsOutputHash(rq, s.refundOwner);
  }

  // ------------------------------------------------------------------
  // Amounts
  // ------------------------------------------------------------------

  function BookOf(env: Env, ns: Namespace): Book {
    var start := TokenKeyIn(env.keys, env.asset, ns, "");
    Book(env.wats, k => start <= k)
  }

  /** A key belongs to the books of its own namespace and to no other. */
  lemma KeysArePartitioned(env: Env, ns: Namespace, w: WireToken)
    requires Plain(env.asset) && Fits(env.keys, ns) && Fits(env.keys, w.ns)
    ensures BookOf(env, ns).part(KeyOf(env, w)) <==> w.ns == ns
  {
    var start, k := TokenKeyIn(env.keys, env.asset, ns, ""), KeyOf(env, w);
    if start <= k {
      assert k == TokenKeyIn(env.keys, env.asset, ns, k[|start|..]);
      StyledKeyInjective(env.keys, env.asset, ns, k[|start|..], w.ns, w.hash);
    }
  }

  lemma RecordCarriesAmount(env: Env, ns: Namespace, w: WireToken, lock: Option<HtlcState>)
    requires Reads(env)
    ensures UnspentAmount(BookOf(env, ns), RecordOf(env, w, lock)) == w.amount
  {
    assert RecordOf(env, w, lock)[AMOUNT] == env.show(w.amount);
    assert RecordOf(env, w, lock)[SPENT] == "0";
  }

  lemma {:induction false} RecordedOutputs(env: Env, ns: Namespace, ws: seq<WireToken>, locks: seq<Option<HtlcState>>, outputs: seq<Output>)
    requires Reads(env) && Fits(env.keys, ns) && |outputs| == |locks| == |ws|
    requires forall i :: 0 <= i < |ws| ==> Fits(env.keys, ws[i].ns)
    requires forall i :: 0 <= i < |ws| ==> outputs[i] == Output(KeyOf(env, ws[i]), RecordOf(env, ws[i], locks[i]))
    ensures (forall i :: 0 <= i < |ws| ==> ws[i].ns == ns) ==> RecordTotal(BookOf(env, ns), outputs) == Total(ws)
    ensures (forall i :: 0 <= i < |ws| ==> ws[i].ns != ns) ==> RecordTotal(BookOf(env, ns), outputs) == 0
  {
    if ws != [] {
      var n := |ws| - 1;
      RecordedOutputs(env, ns, ws[..n], locks[..n], outputs[..n]);
      KeysArePartitioned(env, ns, ws[n]);
      RecordCarriesAmount(env, ns, ws[n], locks[n]);
      assert Total(ws) == Total(ws[..n]) + ws[n].amount;
    }
  }

  lemma {:induction false} ForeignInputsWeighNothing(env: Env, ns: Namespace, t: Tokens, ws: seq<WireToken>)
    requires Plain(env.asset) && Fits(env.keys, ns)
    requires forall i :: 0 <= i < |ws| ==> Fits(env.keys, ws[i].ns) && ws[i].ns != ns
    ensures StoredTotal(BookOf(env, ns), t, KeysOf(env, ws)) == 0
  {
    if ws != [] {
      var n := |ws| - 1;
      ForeignInputsWeighNothing(env, ns, t, ws[..n]);
      KeysArePartitioned(env, ns, ws[n]);
      assert KeysOf(env, ws)[..n] == KeysOf(env, ws[..n]);
    }
  }

  /**
   * In its own namespace a committed request drifts by the total it declares
   * less what its inputs hold in the store; in every other by nothing.
   */
  lemma DriftIsDeclaredLessStored(env: Env, t: Tokens, rq: Request, now: u64, ns: Namespace)
    requires Reads(env) && Fits(env.keys, ns)
    requires forall w <- rq.inputs + rq.outputs :: Fits(env.keys, w.ns)
    requires Balanced(rq) && SameNamespace(rq) && Committable(t, OpOf(env, rq, now))
    ensures var drift := FlowsOf(BookOf(env, ns), t, LedgerRuns.Replace(OpOf(env, rq, now), env.clock)).drift;
      drift == if ns == RequestNamespace(rq) then Total(rq.inputs) - StoredTotal(BookOf(env, ns), t, KeysOf(env, rq.inputs)) else 0
  {
    var op, all := OpOf(env, rq, now), rq.inputs + rq.outputs;
    forall i | 0 <= i < |rq.outputs|
      ensures Fits(env.keys, rq.outputs[i].ns) && rq.outputs[i].ns == RequestNamespace(rq)
    {
      assert all[|rq.inputs| + i] == rq.outputs[i];
    }
    forall i | 0 <= i < |rq.inputs|
      ensures Fits(env.keys, rq.inputs[i].ns) && rq.inputs[i].ns == RequestNamespace(rq)
    {
      assert all[i] == rq.inputs[i];
    }
    var locks := seq(|rq.outputs|, i requires 0 <= i => StampFor(env.sha, rq.locks, i, now));
    RecordedOutputs(env, ns, rq.outputs, locks, op.outputs);
    CheckedTotalIsTotal(rq.inputs);
    CheckedTotalIsTotal(rq.outputs);
    if ns != RequestNamespace(rq) { ForeignInputsWeighNothing(env, ns, t, rq.inputs); }
  }

  /** A committed request keeps its namespace's unspent total exactly when it declares what its inputs hold. */
  lemma ConservesExactlyWhenDeclared(env: Env, t: Tokens, rq: Request, now: u64)
    requires Reads(env) && Fits(env.keys, RequestNamespace(rq))
    requires forall w <- rq.inputs + rq.outputs :: Fits(env.keys, w.ns)
    requires Balanced(rq) && SameNamespace(rq) && Committable(t, OpOf(env, rq, now))
    ensures var b := BookOf(env, RequestNamespace(rq));
      Unspent(b, Applied(t, OpOf(env, rq, now), env.clock)) == Unspent(b, t)
      <==> Total(rq.inputs) == StoredTotal(b, t, KeysOf(env, rq.inputs))
  {
    var b, step := BookOf(env, RequestNamespace(rq)), LedgerRuns.Replace(OpOf(env, rq, now), env.clock);
    DriftIsDeclaredLessStored(env, t, rq, now, RequestNamespace(rq));
    StepBalance(b, t, step);
  }

  /**
   * Nothing compares the amount a wire token names with the amount stored for
   * its hash: any amount can be declared for a spendable token, and is what
   * the output then holds.
   */
  lemma WireAmountsAreTrusted(env: Env, t: Tokens, w: WireToken, newHash: string, now: u64)
    requires Reads(env) && Fits(env.keys, w.ns) && 0 <= w.amount <= MAX_I64
    requires KeyOf(env, w) in t && !IsSpent(t[KeyOf(env, w)]) && LockOf(env, t[KeyOf(env, w)]).None?
    requires KeyOf(env, w.(hash := newHash)) !in t
    ensures var rq := Request(true, [w], [w.(hash := newHash)], [], []);
      var b := BookOf(env, w.ns);
      && Admissible(env, t, rq, now) && Committable(t, OpOf(env, rq, now))
      && Unspent(b, Applied(t, OpOf(env, rq, now), env.clock))
           == Unspent(b, t) + w.amount - Amount(b, t[KeyOf(env, w)])
  {
    var rq := Request(true, [w], [w.(hash := newHash)], [], []);
    var b := BookOf(env, w.ns);
    OneForOne(env, t, w, newHash, [], now);
    assert forall x <- rq.inputs + rq.outputs :: x.ns == w.ns;
    OneInputDrift(env, t, rq, w, now);
    StepBalance(b, t, LedgerRuns.Replace(OpOf(env, rq, now), env.clock));
  }

  lemma OneInputDrift(env: Env, t: Tokens, rq: Request, w: WireToken, now: u64)
    requires Reads(env) && Fits(env.keys, w.ns) && rq.inputs == [w] && KeyOf(env, w) in t && !IsSpent(t[KeyOf(env, w)])
    requires forall x <- rq.inputs + rq.outputs :: x.ns == w.ns
    requires Balanced(rq) && SameNamespace(rq) && Committable(t, OpOf(env, rq, now))
    ensures var b := BookOf(env, w.ns);
      FlowsOf(b, t, LedgerRuns.Replace(OpOf(env, rq, now), env.clock)).drift == Total([w]) - Amount(b, t[KeyOf(env, w)])
  {
    var b := BookOf(env, w.ns);
    DriftIsDeclaredLessStored(env, t, rq, now, w.ns);
    KeysArePartitioned(env, w.ns, w);
    assert KeysOf(env, [w]) == [KeyOf(env, w)] && [KeyOf(env, w)][..0] == [];
    assert StoredTotal(b, t, [KeyOf(env, w)]) == Amount(b, t[KeyOf(env, w)]);
  }
}
