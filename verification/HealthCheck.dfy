// health_check lookups: tokens are grouped by namespace, each group is looked
// up at once through the composite store, and the answers are scattered back by
// index (crates/server-core/src/lib.rs, crates/storage/src/redis_fdb_backend.rs).

module HealthCheck {
  import opened Prelude
  import opened Ledger
  import opened StorageKeys
  import opened RedisFdbCache
  import Store = RedisFdbStore
  import FdbStore

  type Composite = Store.RedisFdbStore

  datatype Query = Query(ns: Namespace, hash: string)

  /** Spent flag (None for an unknown token) and stored amount. */
  datatype Lookup = Lookup(hash: string, spent: Option<bool>, amount: Option<string>)

  /** What the flavor reports as amount: the stored one, or nothing to count. */
  function AmountOf(v: Flavor, f: Fields): Option<string> {
    if AMOUNT !in v.needed then Some("0") else if AMOUNT in f then Some(f[AMOUNT]) else None
  }

  /** The answer of looking up one token alone, in the durable ledger. */
  function Single(v: Flavor, t: Tokens, dep: Deployment, q: Query): Lookup {
    var f := FdbStore.Get(t, TokenKeyIn(dep.keys, dep.asset, q.ns, q.hash));
    match f
    case None => Lookup(q.hash, None, None)
    case Some(fields) => Lookup(q.hash, Some(IsSpent(fields)), AmountOf(v, fields))
  }

  /** Which asset is served, and how its keys are written. */
  datatype Deployment = Deployment(asset: string, keys: KeyStyle)

  datatype Indexed = Indexed(index: nat, hash: string)

  type Groups = map<Namespace, seq<Indexed>>

  function GroupOf(g: Groups, ns: Namespace): seq<Indexed> { if ns in g then g[ns] else [] }

  /** Every index up to `n` is in the group of its namespace, with its own hash, and in no other. */
  ghost predicate Grouped(g: Groups, qs: seq<Query>, n: nat)
    requires n <= |qs|
  {
    && (forall i :: 0 <= i < n ==> qs[i].ns in g && Indexed(i, qs[i].hash) in g[qs[i].ns])
    && (forall ns, x :: ns in g && x in g[ns] ==> x.index < n && qs[x.index] == Query(ns, x.hash))
  }

  method GroupByNamespace(qs: seq<Query>) returns (g: Groups)
    ensures Grouped(g, qs, |qs|)
  {
    g := map[];
    for i := 0 to |qs|
      invariant Grouped(g, qs, i)
    {
      g := g[qs[i].ns := GroupOf(g, qs[i].ns) + [Indexed(i, qs[i].hash)]];
    }
  }

  /** Of a record answered through the cache, the amount is the durable one. */
  lemma AmountIsDurable(v: Flavor, fdb: Tokens, redis: Tokens, ks: seq<Key>, i: nat)
    requires CacheInv(fdb, redis) && i < |ks|
    ensures var r := Answer(v, fdb, redis, ks)[i];
      && (r.Some? <==> ks[i] in fdb)
      && (r.Some? ==> AmountOf(v, r.value) == AmountOf(v, fdb[ks[i]]))
  {
    if AMOUNT in v.needed { HealthAnswersAreDurable(v, fdb, redis, ks, i); }
  }

  /**
   * `get_tokens` and `check_tokens` of one bucket. Amounts come through the
   * cache, which the read may warm; spent flags come from FoundationDB.
   */
  method LookupBucket(store: Composite, dep: Deployment, ns: Namespace, hashes: seq<string>, net: Store.Network)
    returns (answers: seq<Lookup>)
    requires store.Valid()
    modifies store`redis
    ensures store.Valid() && |answers| == |hashes|
    ensures forall i :: 0 <= i < |hashes| ==>
      answers[i] == Single(store.flavor, store.fdb.tokens, dep, Query(ns, hashes[i]))
  {
    var ks := seq(|hashes|, i requires 0 <= i < |hashes| => TokenKeyIn(dep.keys, dep.asset, ns, hashes[i]));
    ghost var seen := if net.readable then store.redis else map[];
    var amounts := store.GetTokens(ks, net);
    var spents := store.fdb.CheckTokens(ks);
    answers := [];
    for i := 0 to |hashes|
      invariant store.Valid() && |answers| == i
      invariant forall j :: 0 <= j < i ==>
        answers[j] == Single(store.flavor, store.fdb.tokens, dep, Query(ns, hashes[j]))
    {
      AmountIsDurable(store.flavor, store.fdb.tokens, seen, ks, i);
      var amount := if amounts[i].Some? then AmountOf(store.flavor, amounts[i].value) else None;
      answers := answers + [Lookup(hashes[i], spents[i], amount)];
    }
  }

  /** Each answer of a bucket is the one wanted at its index. */
  ghost predicate InPlace(items: seq<Indexed>, answers: seq<Lookup>, want: seq<Lookup>) {
    && |answers| == |items|
    && forall j :: 0 <= j < |items| ==> items[j].index < |want| && answers[j] == want[items[j].index]
  }

  method Scatter(lookups: seq<Lookup>, items: seq<Indexed>, answers: seq<Lookup>, ghost want: seq<Lookup>)
    returns (r: seq<Lookup>)
    requires |want| == |lookups| && InPlace(items, answers, want)
    ensures |r| == |lookups|
    ensures forall i :: 0 <= i < |r| ==> r[i] == lookups[i] || r[i] == want[i]
    ensures forall j :: 0 <= j < |items| ==> r[items[j].index] == want[items[j].index]
  {
    r := lookups;
    for n := 0 to |items|
      invariant |r| == |lookups|
      invariant forall i :: 0 <= i < |r| ==> r[i] == lookups[i] || r[i] == want[i]
      invariant forall j :: 0 <= j < n ==> r[items[j].index] == want[items[j].index]
    {
      r := r[items[n].index := answers[n]];
    }
  }

  function Singles(v: Flavor, t: Tokens, dep: Deployment, qs: seq<Query>): (r: seq<Lookup>)
    ensures |r| == |qs| && forall i :: 0 <= i < |qs| ==> r[i] == Single(v, t, dep, qs[i])
  {
    seq(|qs|, i requires 0 <= i < |qs| => Single(v, t, dep, qs[i]))
  }

  /** Looks up one group and puts its answers where they belong. */
  method LookupGroup(store: Composite, dep: Deployment, qs: seq<Query>, g: Groups, ns: Namespace, before: seq<Lookup>, net: Store.Network)
    returns (lookups: seq<Lookup>)
    requires store.Valid() && Grouped(g, qs, |qs|) && ns in g && |before| == |qs|
    modifies store`redis
    ensures store.Valid() && |lookups| == |qs|
    ensures var want := Singles(store.flavor, store.fdb.tokens, dep, qs);
      && (forall i :: 0 <= i < |qs| ==> lookups[i] == before[i] || lookups[i] == want[i])
      && (forall i :: 0 <= i < |qs| && qs[i].ns == ns ==> lookups[i] == want[i])
  {
    var items := g[ns];
    var hashes := seq(|items|, i requires 0 <= i < |items| => items[i].hash);
    var answers := LookupBucket(store, dep, ns, hashes, net);
    ghost var want := Singles(store.flavor, store.fdb.tokens, dep, qs);
    forall j | 0 <= j < |items| ensures items[j].index < |want| && answers[j] == want[items[j].index] {
      assert items[j] in g[ns];
    }
    lookups := Scatter(before, items, answers, want);
    forall i | 0 <= i < |qs| && qs[i].ns == ns ensures lookups[i] == want[i] {
      assert Indexed(i, qs[i].hash) in items;
      var j :| 0 <= j < |items| && items[j] == Indexed(i, qs[i].hash);
      assert lookups[items[j].index] == want[items[j].index];
    }
  }

  /**
   * Over the composite store, whatever its cache holds, whether Redis answers,
   * and in whatever order the groups are visited: position `i` of the result
   * is the durable answer for token `i` alone; tokens may repeat.
   */
  method GroupedLookups(store: Composite, dep: Deployment, qs: seq<Query>, nets: Namespace -> Store.Network)
    returns (lookups: seq<Lookup>)
    requires store.Valid()
    modifies store`redis
    ensures store.Valid() && |lookups| == |qs|
    ensures forall i :: 0 <= i < |qs| ==> lookups[i] == Single(store.flavor, store.fdb.tokens, dep, qs[i])
  {
    var g := GroupByNamespace(qs);
    lookups := seq(|qs|, _ => Lookup("", None, None));
    var todo := g.Keys;
    ghost var want := Singles(store.flavor, store.fdb.tokens, dep, qs);
    while todo != {}
      invariant store.Valid() && todo <= g.Keys && |lookups| == |qs|
      invariant forall i :: 0 <= i < |qs| && qs[i].ns !in todo ==> lookups[i] == want[i]
      decreases |todo|
    {
      var ns :| ns in todo;
      lookups := LookupGroup(store, dep, qs, g, ns, lookups, nets(ns));
      todo := todo - {ns};
    }
  }
}
