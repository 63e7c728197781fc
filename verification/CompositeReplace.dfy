// The replace handler over the composite store: it reads its inputs through the
// cache and commits in FoundationDB (crates/server-core/src/lib.rs,
// crates/storage/src/redis_fdb_backend.rs).

module CompositeReplace {
  import opened Prelude
  import opened Ledger
  import opened LedgerRuns
  import opened Htlc
  import opened ReplaceHandler
  import opened RedisFdbCache
  import Store = RedisFdbStore

  type Composite = Store.RedisFdbStore

  /** Records of the flavor need more than their amount to decode, or have no locks to lose. */
  ghost predicate LocksAreServed(v: Flavor, fdb: Tokens) {
    !(v.needed <= {AMOUNT}) || forall k <- fdb :: HTLC_STATE !in fdb[k]
  }

  /** Through the cache, a token is found exactly if it is in the ledger, with its durable lock. */
  lemma CacheAnswersFor(env: Env, v: Flavor, fdb: Tokens, redis: Tokens, ks: seq<Key>)
    requires CacheInv(fdb, redis) && LocksAreServed(v, fdb)
    ensures AnswersFor(env, fdb, ks, Answer(v, fdb, redis, ks))
  {
    var records := Answer(v, fdb, redis, ks);
    forall i | 0 <= i < |ks|
      ensures records[i].Some? <==> ks[i] in fdb
      ensures records[i].Some? ==> LockOf(env, records[i].value) == LockOf(env, fdb[ks[i]])
    {
      if ks[i] in fdb && !(v.needed <= {AMOUNT}) { VerdictsAreDurable(env, v, fdb, redis, ks, i); }
    }
  }

  predicate ProperSteps(steps: seq<Step>) {
    forall i :: 0 <= i < |steps| ==> Enabled(State(map[], map[], []), Durable(steps[i]))
  }

  /** Whatever other requests commit, the cache stays part of the ledger. */
  lemma {:induction false} RunKeepsCache(t: Tokens, redis: Tokens, steps: seq<Step>)
    requires CacheInv(t, redis) && ProperSteps(steps)
    ensures CacheInv(Run(t, steps), redis)
  {
    if steps != [] {
      var n := |steps| - 1;
      RunKeepsCache(t, redis, steps[..n]);
      DurableKeepsInv(State(Run(t, steps[..n]), redis, []), steps[n]);
    }
  }

  lemma PlannedIsProper(env: Env, rq: Request, now: u64)
    ensures forall i :: 0 <= i < |OpOf(env, rq, now).outputs| ==> Proper(OpOf(env, rq, now).outputs[i].fields)
  {}

  /**
   * The verdict and the commit are those of the handler over FoundationDB
   * alone, whatever the cache holds and whether Redis answers.
   */
  method Replace(env: Env, store: Composite, rq: Request, now: u64, between: seq<Step>, read: Store.Network, write: Store.Network)
    returns (r: Result<(), Refusal>)
    requires store.Valid() && LocksAreServed(store.flavor, store.fdb.tokens) && ProperSteps(between)
    modifies store`redis, store.fdb
    ensures store.Valid()
    ensures !rq.terms ==> r.Err?
    ensures rq.terms && rq.inputs == [] && rq.outputs == [] ==> r.Ok? && store.fdb.tokens == old(store.fdb.tokens)
    ensures rq.inputs + rq.outputs != [] ==>
      (r.Ok? <==> Admissible(env, old(store.fdb.tokens), rq, now)
                  && Committable(Run(old(store.fdb.tokens), between), OpOf(env, rq, now)))
    ensures rq.inputs + rq.outputs != [] && r.Ok? ==>
      store.fdb.tokens == Applied(Run(old(store.fdb.tokens), between), OpOf(env, rq, now), env.clock)
    ensures r.Err? ==>
      store.fdb.tokens == old(store.fdb.tokens) || store.fdb.tokens == Run(old(store.fdb.tokens), between)
    ensures rq.inputs + rq.outputs != [] && r.Ok? ==> Noted(env, rq, old(store.fdb.audit), store.fdb.audit)
    ensures r.Err? || rq.inputs + rq.outputs == [] ==> store.fdb.audit == old(store.fdb.audit)
  {
    if !rq.terms { return Err(TermsNotAccepted); }
    if rq.inputs == [] && rq.outputs == [] { return Ok(()); }
    r := CheckRequest(rq);
    if r.Err? { return; }
    ghost var t, seen := store.fdb.tokens, if read.readable then store.redis else map[];
    var ks := KeysOf(env, rq.inputs);
    var records := store.GetTokens(ks, read);
    var planned := PlanReplace(env, rq, records, now);
    CacheAnswersFor(env, store.flavor, t, seen, ks);
    PlansExactlyAdmissible(env, t, rq, records, now);
    if planned.Err? { return Err(planned.error); }

    RunKeepsCache(t, store.redis, between);
    store.fdb.tokens := Run(store.fdb.tokens, between);

    PlannedIsProper(env, rq, now);
    r := Commit(store, planned.value, env.clock, write);
    CommitIsNoted(env, rq, now, old(store.fdb.audit));
  }

  /** A batch of one operation. */
  method Commit(store: Composite, op: ReplaceOp, clock: nat -> string, net: Store.Network) returns (r: Result<(), Refusal>)
    requires store.Valid() && forall i :: 0 <= i < |op.outputs| ==> Proper(op.outputs[i].fields)
    modifies store`redis, store.fdb
    ensures store.Valid()
    ensures r.Ok? <==> Committable(old(store.fdb.tokens), op)
    ensures r.Ok? ==> store.fdb.tokens == Applied(old(store.fdb.tokens), op, clock)
    ensures r.Err? ==> store.fdb.tokens == old(store.fdb.tokens)
    ensures store.fdb.audit == if r.Ok? then old(store.fdb.audit)[op.auditKey := op.audit] else old(store.fdb.audit)
  {
    var results := store.BatchReplace([op], clock, net);
    assert [op][..0] == [];
    if results[0].Err? { return Err(ReplaceFailed); }
    return Ok(());
  }
}
