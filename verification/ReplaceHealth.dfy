// What health_check answers after a replace: the outputs are there, unspent and
// worth what the request declared, the inputs are spent and keep their amount
// (crates/server-core/src/lib.rs).

module ReplaceHealth {
  import opened Prelude
  import opened Ledger
  import opened StorageKeys
  import opened Htlc
  import opened ReplaceHandler
  import opened RedisFdbCache
  import opened HealthCheck

  function AskAbout(w: WireToken): Query { Query(w.ns, w.hash) }

  function DeploymentOf(env: Env): Deployment { Deployment(env.asset, env.keys) }

  /** Of the flavors that count, the amount is the one that was declared; RGB21 tokens are one of a kind. */
  predicate ShownAmount(env: Env, v: Flavor, w: WireToken, amount: Option<string>) {
    (v in {WEBCASH, RGB20} ==> amount == Some(env.show(w.amount))) && (v == RGB21 ==> amount == Some("0"))
  }

  /** Spent flag and amount as they must be for a new token. */
  predicate ShownNew(env: Env, v: Flavor, w: WireToken, found: HealthCheck.Lookup) {
    found.hash == w.hash && found.spent == Some(false) && ShownAmount(env, v, w, found.amount)
  }

  function KeyFor(dep: Deployment, q: Query): Key { TokenKeyIn(dep.keys, dep.asset, q.ns, q.hash) }

  lemma NewRecordShows(v: Flavor, t: Tokens, dep: Deployment, q: Query, env: Env, w: WireToken, lock: Option<HtlcState>)
    requires v in {WEBCASH, RGB20, RGB21}
    requires KeyFor(dep, q) in t && t[KeyFor(dep, q)] == RecordOf(env, w, lock)
    ensures Single(v, t, dep, q).hash == q.hash && Single(v, t, dep, q).spent == Some(false)
    ensures ShownAmount(env, v, w, Single(v, t, dep, q).amount)
  {
    var f := t[KeyFor(dep, q)];
    assert AMOUNT in f && f[AMOUNT] == env.show(w.amount) && f[SPENT] == "0";
  }

  lemma OutputsAreHealthy(env: Env, v: Flavor, t: Tokens, rq: Request, now: u64, i: nat)
    requires v in {WEBCASH, RGB20, RGB21} && Committable(t, OpOf(env, rq, now)) && i < |rq.outputs|
    ensures var w := rq.outputs[i];
      ShownNew(env, v, w, Single(v, Applied(t, OpOf(env, rq, now), env.clock), DeploymentOf(env), AskAbout(w)))
  {
    var op, w := OpOf(env, rq, now), rq.outputs[i];
    AppliedKeyByKey(t, op, env.clock);
    assert op.outputs[i].key == KeyFor(DeploymentOf(env), AskAbout(w));
    NewRecordShows(v, Applied(t, op, env.clock), DeploymentOf(env), AskAbout(w), env, w, StampFor(env.sha, rq.locks, i, now));
  }

  /** Marking a record changes the flag that is answered, and nothing else. */
  lemma MarkShows(v: Flavor, t: Tokens, t': Tokens, dep: Deployment, q: Query, now: string)
    requires var k := KeyFor(dep, q); k in t && !IsSpent(t[k]) && k in t' && t'[k] == MarkSpent(t[k], now)
    ensures Single(v, t, dep, q).spent == Some(false)
    ensures Single(v, t', dep, q) == Single(v, t, dep, q).(spent := Some(true))
  {
    var f, g := t[KeyFor(dep, q)], t'[KeyFor(dep, q)];
    assert AMOUNT in f <==> AMOUNT in g;
    assert AMOUNT in f ==> g[AMOUNT] == f[AMOUNT];
  }

  lemma SameRecordSameAnswer(v: Flavor, t: Tokens, t': Tokens, dep: Deployment, q: Query)
    requires var k := KeyFor(dep, q); (k in t <==> k in t') && (k in t ==> t'[k] == t[k])
    ensures Single(v, t', dep, q) == Single(v, t, dep, q)
  {}

  lemma InputsAreSpent(env: Env, v: Flavor, t: Tokens, rq: Request, now: u64, i: nat)
    requires v in {WEBCASH, RGB20, RGB21} && Committable(t, OpOf(env, rq, now)) && i < |rq.inputs|
    ensures var w := rq.inputs[i];
      var before := Single(v, t, DeploymentOf(env), AskAbout(w));
      && before.spent == Some(false)
      && Single(v, Applied(t, OpOf(env, rq, now), env.clock), DeploymentOf(env), AskAbout(w))
           == before.(spent := Some(true))
  {
    var op := OpOf(env, rq, now);
    AppliedKeyByKey(t, op, env.clock);
    assert op.inputs[i] == KeyFor(DeploymentOf(env), AskAbout(rq.inputs[i]));
    MarkShows(v, t, Applied(t, op, env.clock), DeploymentOf(env), AskAbout(rq.inputs[i]), env.clock(i));
  }

  lemma OtherKeys(env: Env, ws: seq<WireToken>, w: WireToken)
    requires Plain(env.asset) && Fits(env.keys, w.ns)
    requires forall x <- ws :: Fits(env.keys, x.ns) && AskAbout(x) != AskAbout(w)
    ensures forall i :: 0 <= i < |ws| ==> KeyOf(env, ws[i]) != KeyOf(env, w)
  {
    forall i | 0 <= i < |ws| ensures KeyOf(env, ws[i]) != KeyOf(env, w) {
      assert ws[i] in ws;
      StyledKeyInjective(env.keys, env.asset, ws[i].ns, ws[i].hash, w.ns, w.hash);
    }
  }

  /** Any other token is answered as before. */
  lemma OthersAreAsBefore(env: Env, v: Flavor, t: Tokens, rq: Request, now: u64, w: WireToken)
    requires Plain(env.asset) && Fits(env.keys, w.ns)
    requires forall x <- rq.inputs :: Fits(env.keys, x.ns) && AskAbout(x) != AskAbout(w)
    requires forall x <- rq.outputs :: Fits(env.keys, x.ns) && AskAbout(x) != AskAbout(w)
    requires Committable(t, OpOf(env, rq, now))
    ensures Single(v, Applied(t, OpOf(env, rq, now), env.clock), DeploymentOf(env), AskAbout(w))
         == Single(v, t, DeploymentOf(env), AskAbout(w))
  {
    var op := OpOf(env, rq, now);
    OtherKeys(env, rq.inputs, w);
    OtherKeys(env, rq.outputs, w);
    NotAmong(env, rq, now, KeyOf(env, w));
    AppliedKeyByKey(t, op, env.clock);
    SameRecordSameAnswer(v, t, Applied(t, op, env.clock), DeploymentOf(env), AskAbout(w));
  }

  lemma NotAmong(env: Env, rq: Request, now: u64, k: Key)
    requires forall i :: 0 <= i < |rq.inputs| ==> KeyOf(env, rq.inputs[i]) != k
    requires forall i :: 0 <= i < |rq.outputs| ==> KeyOf(env, rq.outputs[i]) != k
    ensures var op := OpOf(env, rq, now); k !in op.inputs && k !in OutputKeys(op.outputs)
  {}
}
