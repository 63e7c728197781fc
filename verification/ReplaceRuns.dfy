// Whole runs of issues, burns and replace requests: when amounts are conserved
// (crates/server-core/src/lib.rs, `replace`).

module ReplaceRuns {
  import opened Ledger
  import opened LedgerRuns
  import opened StorageKeys
  import opened ReplaceHandler
  import opened Htlc

  /** One operation of a run; each request comes with its own ids, timestamps and clock. */
  datatype Act =
    | Issue(records: seq<Output>)
    | Retire(key: Key, now: string)
    | Handle(env: Env, rq: Request, at: u64)

  /** A request of the same deployment: its tokens parsed, its keys and amounts written the same way. */
  ghost predicate Parsed(env: Env, act: Act) {
    act.Handle? ==>
      && Reads(act.env) && act.env.asset == env.asset && act.env.keys == env.keys && act.env.wats == env.wats
      && forall w <- act.rq.inputs + act.rq.outputs :: Fits(env.keys, w.ns)
  }

  /** A request that fails the handler's checks does nothing. */
  function StepOf(act: Act): Step {
    match act
    case Issue(records) => LedgerRuns.Insert(records)
    case Retire(key, now) => LedgerRuns.Burn(key, now)
    case Handle(env, rq, at) =>
      if Balanced(rq) && SameNamespace(rq) then LedgerRuns.Replace(OpOf(env, rq, at), env.clock)
      else LedgerRuns.Insert([])
  }

  function StepsOf(acts: seq<Act>): (r: seq<Step>)
    ensures |r| == |acts| && forall i :: 0 <= i < |acts| ==> r[i] == StepOf(acts[i])
  {
    seq(|acts|, i requires 0 <= i < |acts| => StepOf(acts[i]))
  }

  function AfterActs(t: Tokens, acts: seq<Act>): Tokens { Run(t, StepsOf(acts)) }

  /** In this namespace, what is unspent or burned after the run is what was unspent before or issued since. */
  ghost predicate Conserved(env: Env, ns: Namespace, t: Tokens, acts: seq<Act>) {
    var b, x := BookOf(env, ns), RunFlows(BookOf(env, ns), t, StepsOf(acts));
    Unspent(b, AfterActs(t, acts)) + x.burned == Unspent(b, t) + x.inserted
  }

  /** If the act is a request of this namespace that commits, it declares what its inputs hold in the store. */
  ghost predicate Declares(env: Env, ns: Namespace, t: Tokens, act: Act) {
    act.Handle? && Balanced(act.rq) && SameNamespace(act.rq)
    && RequestNamespace(act.rq) == ns && Committable(t, OpOf(act.env, act.rq, act.at)) ==>
      Total(act.rq.inputs) == StoredTotal(BookOf(env, ns), t, KeysOf(act.env, act.rq.inputs))
  }

  lemma DriftsUnlessDeclared(env: Env, ns: Namespace, t: Tokens, act: Act)
    requires Reads(env) && Fits(env.keys, ns) && Parsed(env, act)
    ensures FlowsOf(BookOf(env, ns), t, StepOf(act)).drift == 0 <==> Declares(env, ns, t, act)
  {
    match act
    case Issue(_) =>
    case Retire(_, _) =>
    case Handle(e, rq, at) =>
      if Balanced(rq) && SameNamespace(rq) && Committable(t, OpOf(e, rq, at)) {
        assert BookOf(e, ns) == BookOf(env, ns);
        DriftIsDeclaredLessStored(e, t, rq, at, ns);
      }
  }

  lemma ConservedWithoutDrift(env: Env, ns: Namespace, t: Tokens, acts: seq<Act>)
    ensures Conserved(env, ns, t, acts) <==> RunFlows(BookOf(env, ns), t, StepsOf(acts)).drift == 0
  {
    RunBalance(BookOf(env, ns), t, StepsOf(acts));
  }

  lemma LastAct(env: Env, ns: Namespace, t: Tokens, acts: seq<Act>, n: nat)
    requires n < |acts|
    ensures RunFlows(BookOf(env, ns), t, StepsOf(acts[..n + 1])).drift
      == RunFlows(BookOf(env, ns), t, StepsOf(acts[..n])).drift
         + FlowsOf(BookOf(env, ns), AfterActs(t, acts[..n]), StepOf(acts[n])).drift
  {
    assert StepsOf(acts[..n + 1])[..n] == StepsOf(acts[..n]);
  }

  ghost predicate ConservedUpTo(env: Env, ns: Namespace, t: Tokens, acts: seq<Act>, n: nat)
    requires n <= |acts|
  {
    forall k: nat :: k <= n ==> Conserved(env, ns, t, acts[..k])
  }

  ghost predicate DeclaredUpTo(env: Env, ns: Namespace, t: Tokens, acts: seq<Act>, n: nat)
    requires n <= |acts|
  {
    forall k: nat :: k < n ==> Declares(env, ns, AfterActs(t, acts[..k]), acts[k])
  }

  /** Running totals stay zero exactly if everything added is zero. */
  lemma {:induction false} TotalsStayZero(totals: seq<int>, parts: seq<int>)
    requires |totals| == |parts| + 1 && totals[0] == 0
    requires forall k :: 0 <= k < |parts| ==> totals[k + 1] == totals[k] + parts[k]
    ensures (forall k :: 0 <= k < |totals| ==> totals[k] == 0) <==> (forall k :: 0 <= k < |parts| ==> parts[k] == 0)
  {
    if parts != [] {
      var n := |parts| - 1;
      TotalsStayZero(totals[..n + 1], parts[..n]);
      assert totals[n + 1] == totals[n] + parts[n];
      if forall k :: 0 <= k < |totals| ==> totals[k] == 0 {
        forall k | 0 <= k < |parts| ensures parts[k] == 0 { assert totals[k + 1] == totals[k] + parts[k]; }
      }
      if forall k :: 0 <= k < |parts| ==> parts[k] == 0 {
        forall k | 0 <= k < |totals| ensures totals[k] == 0 { assert k <= n ==> totals[..n + 1][k] == totals[k]; }
      }
    }
  }

  ghost function DriftUpTo(env: Env, ns: Namespace, t: Tokens, acts: seq<Act>, k: nat): int
    requires k <= |acts|
  {
    RunFlows(BookOf(env, ns), t, StepsOf(acts[..k])).drift
  }

  ghost function DriftOf(env: Env, ns: Namespace, t: Tokens, acts: seq<Act>, k: nat): int
    requires k < |acts|
  {
    FlowsOf(BookOf(env, ns), AfterActs(t, acts[..k]), StepOf(acts[k])).drift
  }

  ghost function Drifts(env: Env, ns: Namespace, t: Tokens, acts: seq<Act>): (r: (seq<int>, seq<int>))
    ensures |r.0| == |acts| + 1 && forall k :: 0 <= k <= |acts| ==> r.0[k] == DriftUpTo(env, ns, t, acts, k)
    ensures |r.1| == |acts| && forall k :: 0 <= k < |acts| ==> r.1[k] == DriftOf(env, ns, t, acts, k)
  {
    (seq(|acts| + 1, k requires 0 <= k <= |acts| => DriftUpTo(env, ns, t, acts, k)),
     seq(|acts|, k requires 0 <= k < |acts| => DriftOf(env, ns, t, acts, k)))
  }

  lemma DriftsAddUp(env: Env, ns: Namespace, t: Tokens, acts: seq<Act>)
    ensures DriftUpTo(env, ns, t, acts, 0) == 0
    ensures forall k: nat :: k < |acts| ==>
      DriftUpTo(env, ns, t, acts, k + 1) == DriftUpTo(env, ns, t, acts, k) + DriftOf(env, ns, t, acts, k)
  {
    forall k: nat | k < |acts|
      ensures DriftUpTo(env, ns, t, acts, k + 1) == DriftUpTo(env, ns, t, acts, k) + DriftOf(env, ns, t, acts, k)
    {
      LastAct(env, ns, t, acts, k);
    }
  }

  lemma ConservedIsNoDrift(env: Env, ns: Namespace, t: Tokens, acts: seq<Act>)
    ensures ConservedUpTo(env, ns, t, acts, |acts|) <==>
      forall k: nat :: k <= |acts| ==> DriftUpTo(env, ns, t, acts, k) == 0
  {
    forall k: nat | k <= |acts|
      ensures Conserved(env, ns, t, acts[..k]) <==> DriftUpTo(env, ns, t, acts, k) == 0
    {
      ConservedWithoutDrift(env, ns, t, acts[..k]);
    }
  }

  lemma DeclaredIsNoDrift(env: Env, ns: Namespace, t: Tokens, acts: seq<Act>)
    requires Reads(env) && Fits(env.keys, ns) && forall act <- acts :: Parsed(env, act)
    ensures DeclaredUpTo(env, ns, t, acts, |acts|) <==>
      forall k: nat :: k < |acts| ==> DriftOf(env, ns, t, acts, k) == 0
  {
    forall k: nat | k < |acts|
      ensures Declares(env, ns, AfterActs(t, acts[..k]), acts[k]) <==> DriftOf(env, ns, t, acts, k) == 0
    {
      assert acts[k] in acts;
      DriftsUnlessDeclared(env, ns, AfterActs(t, acts[..k]), acts[k]);
    }
  }

  /**
   * Amounts of a namespace are conserved throughout a run, from any ledger,
   * exactly when each of its committed requests declares what its inputs hold
   * at its turn.
   */
  lemma ConservedThroughoutExactly(env: Env, ns: Namespace, t: Tokens, acts: seq<Act>)
    requires Reads(env) && Fits(env.keys, ns) && forall act <- acts :: Parsed(env, act)
    ensures ConservedUpTo(env, ns, t, acts, |acts|) <==> DeclaredUpTo(env, ns, t, acts, |acts|)
  {
    ConservedIsNoDrift(env, ns, t, acts);
    DeclaredIsNoDrift(env, ns, t, acts);
    DriftsAddUp(env, ns, t, acts);
    var (totals, parts) := Drifts(env, ns, t, acts);
    TotalsStayZero(totals, parts);
    assert forall k: nat :: k <= |acts| ==> totals[k] == DriftUpTo(env, ns, t, acts, k);
    assert forall k: nat :: k < |acts| ==> parts[k] == DriftOf(env, ns, t, acts, k);
  }

  /** From an empty ledger, honest requests never make or lose amounts: unspent plus burned is what was issued. */
  lemma HonestRunsConserve(env: Env, ns: Namespace, acts: seq<Act>)
    requires Reads(env) && Fits(env.keys, ns) && forall act <- acts :: Parsed(env, act)
    requires DeclaredUpTo(env, ns, map[], acts, |acts|)
    ensures var b := BookOf(env, ns);
      var x := RunFlows(b, map[], StepsOf(acts));
      Unspent(b, AfterActs(map[], acts)) + x.burned == x.inserted
  {
    ConservedThroughoutExactly(env, ns, map[], acts);
    assert acts[..|acts|] == acts && Conserved(env, ns, map[], acts[..|acts|]);
  }
}
