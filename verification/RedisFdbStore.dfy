// The composite store's methods: durable first, then the mirror writes, which
// may be cut off at either command; reads warm the cache
// (crates/storage/src/redis_fdb_backend.rs).

module RedisFdbStore {
  import opened Prelude
  import opened Ledger
  import opened LedgerRuns
  import opened RedisFdbCache
  import FdbStore

  /** Which of the two Redis pipelines of a mirror write get through, and whether Redis answers reads. */
  datatype Network = Network(readable: bool, first: bool, second: bool)

  class RedisFdbStore {
    const flavor: Flavor
    const fdb: FdbStore.FdbStore
    var redis: Tokens

    ghost predicate Valid()
      reads this, fdb
    {
      CacheInv(fdb.tokens, redis)
    }

    constructor (flavor: Flavor)
      ensures Valid() && fresh(fdb) && fdb.tokens == map[] && redis == map[] && this.flavor == flavor
    {
      this.flavor := flavor;
      fdb := new FdbStore.FdbStore();
      redis := map[];
    }

    /** HSETNX of the amount field. */
    method CreateAmount(o: Output) returns (created: bool)
      requires Valid() && AMOUNT in o.fields && Stored(fdb.tokens, o)
      modifies this`redis
      ensures Valid()
      ensures created <==> AMOUNT !in Cached(old(redis), o.key)
      ensures redis == if created then old(redis)[o.key := Cached(old(redis), o.key)[AMOUNT := o.fields[AMOUNT]]] else old(redis)
    {
      var hash := Cached(redis, o.key);
      created := AMOUNT !in hash;
      if created {
        AmountIsConsistent(hash, o.fields, fdb.tokens[o.key]);
        redis := redis[o.key := hash[AMOUNT := o.fields[AMOUNT]]];
      }
    }

    /** One HSETNX per record: the amount, unless Redis has one. */
    method CreateAmounts(records: seq<Output>) returns (nx: seq<bool>)
      requires Valid() && AllPriced(records) && forall i :: 0 <= i < |records| ==> Stored(fdb.tokens, records[i])
      modifies this`redis
      ensures Valid() && Halfway(old(redis), redis, records)
      ensures |nx| == |records| && forall i :: 0 <= i < |records| ==> (nx[i] <==> Creates(old(redis), records, i))
    {
      nx := [];
      for i := 0 to |records|
        invariant Valid() && Halfway(old(redis), redis, records[..i])
        invariant |nx| == i && forall j :: 0 <= j < i ==> (nx[j] <==> Creates(old(redis), records, j))
      {
        CreatesAmount(old(redis), redis, records, i);
        var created := CreateAmount(records[i]);
        nx := nx + [created];
      }
      assert records[..|records|] == records;
    }

    /** One HSET per record whose amount was created. */
    method FillHashes(records: seq<Output>, nx: seq<bool>, ghost before: Tokens)
      requires Valid() && AllPriced(records) && forall i :: 0 <= i < |records| ==> Stored(fdb.tokens, records[i])
      requires Halfway(before, redis, records)
      requires |nx| == |records| && forall i :: 0 <= i < |records| ==> (nx[i] <==> Creates(before, records, i))
      modifies this`redis
      ensures Valid() && Filled(before, old(redis), redis, records)
    {
      for i := 0 to |records|
        invariant Valid() && Filled(before, old(redis), redis, records[..i])
      {
        FillsHash(before, old(redis), redis, records, i);
        if nx[i] {
          var hash := Cached(redis, records[i].key);
          RestIsConsistent(hash, records[i].fields, fdb.tokens[records[i].key]);
          redis := redis[records[i].key := hash + Rest(records[i].fields)];
        }
      }
      assert records[..|records|] == records;
    }

    /** The two pipelines of a mirror write, either of which may not get through. */
    method Mirror(records: seq<Output>, net: Network)
      requires Valid()
      requires forall i :: 0 <= i < |records| ==> Stored(fdb.tokens, records[i])
      modifies this`redis
      ensures Valid() && Mirrored(old(redis), redis, records, net)
    {
      StoredIsPriced(fdb.tokens, redis, records);
      if !net.first { return; }
      var nx := CreateAmounts(records);
      if !net.second { return; }
      ghost var half := redis;
      FillHashes(records, nx, old(redis));
      FilledMeansMirrored(old(redis), half, redis, records);
    }

    /** The durable insert decides; the cache write is best effort. */
    method InsertTokens(records: seq<Output>, net: Network) returns (r: Result<(), FdbStore.FdbError>)
      requires Valid() && forall i :: 0 <= i < |records| ==> Proper(records[i].fields)
      modifies this`redis, fdb`tokens
      ensures Valid()
      ensures r.Ok? <==> Insertable(old(fdb.tokens), records)
      ensures if r.Ok? then Mirrored(old(redis), redis, records, net) else redis == old(redis)
      ensures fdb.tokens == After(old(fdb.tokens), Insert(records))
    {
      ghost var before := fdb.tokens;
      r := fdb.InsertTokens(records);
      DurableKeepsInv(State(before, redis, []), Insert(records));
      if r.Ok? {
        forall i | 0 <= i < |records| ensures Stored(fdb.tokens, records[i]) {
          LookupAt(records, i);
        }
        Mirror(records, net);
      }
    }

    /** Every answer is the durable record but for a spent mark that has not reached the cache. */
    method GetTokens(ks: seq<Key>, net: Network) returns (found: seq<Option<Fields>>)
      requires Valid()
      modifies this`redis
      ensures Valid() && |found| == |ks|
      ensures found == Answer(flavor, fdb.tokens, if net.readable then old(redis) else map[], ks)
      ensures if net.readable && FromCache(flavor, old(redis), ks) then redis == old(redis)
        else Mirrored(old(redis), redis, FoundRecords(fdb.tokens, ks), net)
    {
      if net.readable && forall i :: 0 <= i < |ks| ==> Decodes(flavor, Cached(redis, ks[i])) {
        var cache := redis;
        return seq(|ks|, i requires 0 <= i < |ks| => Some(Cached(cache, ks[i])));
      }
      found := fdb.GetTokens(ks);
      if ks == [] { return; }
      var warm := [];
      for i := 0 to |ks|
        invariant warm == FoundRecords(fdb.tokens, ks[..i])
        invariant forall j :: 0 <= j < |warm| ==> Stored(fdb.tokens, warm[j])
      {
        assert ks[..i + 1][..i] == ks[..i];
        if found[i].Some? { warm := warm + [Output(ks[i], found[i].value)]; }
      }
      assert ks[..|ks|] == ks;
      Mirror(warm, net);
    }

    /** All operations durably, then the outputs of those that went through into the cache. */
    method BatchReplace(ops: seq<ReplaceOp>, clock: nat -> string, net: Network)
      returns (results: seq<Result<(), FdbStore.FdbError>>)
      requires Valid()
      requires forall n, i :: 0 <= n < |ops| && 0 <= i < |ops[n].outputs| ==> Proper(ops[n].outputs[i].fields)
      modifies this`redis, fdb
      ensures Valid() && |results| == |ops|
      ensures forall k :: Cached(redis, k) == HashAfterAll(Cached(old(redis), k), k, old(fdb.tokens), ops, clock, net)
      ensures fdb.tokens == FdbStore.AfterAll(old(fdb.tokens), ops, clock)
      ensures fdb.audit == FdbStore.AuditAfter(old(fdb.tokens), old(fdb.audit), ops, clock)
      ensures forall i :: 0 <= i < |ops| ==> (results[i].Ok? <==> FdbStore.Commits(old(fdb.tokens), ops, i, clock))
    {
      ghost var start := fdb.tokens;
      results := fdb.BatchReplace(ops, clock);
      BatchKeepsInv(start, redis, ops, clock);
      for n := 0 to |ops|
        invariant Valid() && fdb.tokens == FdbStore.AfterAll(start, ops, clock)
        invariant forall k :: Cached(redis, k) == HashAfterAll(Cached(old(redis), k), k, start, ops[..n], clock, net)
        invariant fdb.audit == FdbStore.AuditAfter(start, old(fdb.audit), ops, clock)
      {
        if results[n].Ok? {
          CommittedOutputsAreDurable(start, ops, n, clock);
          Mirror(ops[n].outputs, net);
        }
        assert ops[..n + 1][..n] == ops[..n];
      }
      assert ops[..|ops|] == ops;
    }
  }

  /** A record that is in the ledger as it is here, at most marked spent since. */
  predicate Stored(t: Tokens, o: Output) { o.key in t && Keeps(o.fields, t[o.key]) }

  lemma {:induction false} BatchGrows(t: Tokens, ops: seq<ReplaceOp>, n: nat, clock: nat -> string)
    requires n <= |ops|
    ensures Grows(FdbStore.AfterAll(t, ops[..n], clock), FdbStore.AfterAll(t, ops, clock))
    decreases |ops|
  {
    if n < |ops| {
      var last := |ops| - 1;
      var u, w := FdbStore.AfterAll(t, ops[..last], clock), FdbStore.AfterAll(t, ops, clock);
      assert ops[..last][..n] == ops[..n];
      BatchGrows(t, ops[..last], n, clock);
      StepGrows(u, Replace(ops[last], clock));
      var s := FdbStore.AfterAll(t, ops[..n], clock);
      forall k <- s ensures k in w && Keeps(s[k], w[k]) {
        KeepsTransitive(s[k], u[k], w[k]);
      }
    } else {
      assert ops[..n] == ops;
    }
  }

  lemma CommittedOutputsAreDurable(t: Tokens, ops: seq<ReplaceOp>, n: nat, clock: nat -> string)
    requires n < |ops| && FdbStore.Commits(t, ops, n, clock)
    ensures forall i :: 0 <= i < |ops[n].outputs| ==> Stored(FdbStore.AfterAll(t, ops, clock), ops[n].outputs[i])
  {
    var u := FdbStore.AfterAll(t, ops[..n], clock);
    assert ops[..n + 1][..n] == ops[..n];
    AppliedKeyByKey(u, ops[n], clock);
    BatchGrows(t, ops, n + 1, clock);
  }

  lemma {:induction false} BatchKeepsInv(t: Tokens, redis: Tokens, ops: seq<ReplaceOp>, clock: nat -> string)
    requires CacheInv(t, redis)
    requires forall n, i :: 0 <= n < |ops| && 0 <= i < |ops[n].outputs| ==> Proper(ops[n].outputs[i].fields)
    ensures CacheInv(FdbStore.AfterAll(t, ops, clock), redis)
  {
    if ops != [] {
      var last := |ops| - 1;
      BatchKeepsInv(t, redis, ops[..last], clock);
      DurableKeepsInv(State(FdbStore.AfterAll(t, ops[..last], clock), redis, []), Replace(ops[last], clock));
    }
  }

  // ------------------------------------------------------------------
  // What a mirror write leaves in Redis
  // ------------------------------------------------------------------

  /** The first of these records under a key. */
  function FirstRecord(records: seq<Output>, k: Key): Option<Fields> {
    if records == [] then None
    else
      var n := |records| - 1;
      var front := FirstRecord(records[..n], k);
      if front.Some? then front else if records[n].key == k then Some(records[n].fields) else None
  }

  /**
   * A hash that has an amount is left alone; another gets the amount first, and then
   * the rest if that gets through too.
   */
  function HashAfter(hash: Fields, record: Option<Fields>, net: Network): Fields {
    if record.None? || !net.first || AMOUNT in hash || AMOUNT !in record.value then hash
    else if net.second then hash[AMOUNT := record.value[AMOUNT]] + Rest(record.value)
    else hash[AMOUNT := record.value[AMOUNT]]
  }

  /** What Redis holds once these records have been mirrored. */
  ghost predicate Mirrored(before: Tokens, redis: Tokens, records: seq<Output>, net: Network) {
    forall k :: Cached(redis, k) == HashAfter(Cached(before, k), FirstRecord(records, k), net)
  }

  const CUT := Network(true, true, false)
  const WHOLE := Network(true, true, true)

  ghost predicate Halfway(before: Tokens, redis: Tokens, records: seq<Output>) {
    forall k :: Cached(redis, k) == HashAfter(Cached(before, k), FirstRecord(records, k), CUT)
  }

  /** This record is the first under its key, and Redis has no amount for it. */
  predicate Creates(before: Tokens, records: seq<Output>, j: nat)
    requires j < |records|
  {
    FirstRecord(records[..j], records[j].key).None? && AMOUNT !in Cached(before, records[j].key)
  }

  ghost predicate Filled(before: Tokens, half: Tokens, redis: Tokens, records: seq<Output>) {
    forall k :: Cached(redis, k) ==
      if FirstRecord(records, k).Some? then HashAfter(Cached(before, k), FirstRecord(records, k), WHOLE) else Cached(half, k)
  }

  lemma NextFirst(records: seq<Output>, i: nat, k: Key)
    requires i < |records|
    ensures FirstRecord(records[..i + 1], k) ==
      if FirstRecord(records[..i], k).Some? then FirstRecord(records[..i], k)
      else if records[i].key == k then Some(records[i].fields) else None
  {
    assert records[..i + 1][..i] == records[..i];
  }

  lemma {:induction false} FirstStays(records: seq<Output>, i: nat, k: Key)
    requires i <= |records| && FirstRecord(records[..i], k).Some?
    ensures FirstRecord(records, k) == FirstRecord(records[..i], k)
    decreases |records|
  {
    if i < |records| {
      var n := |records| - 1;
      assert records[..n][..i] == records[..i];
      FirstStays(records[..n], i, k);
    } else {
      assert records[..i] == records;
    }
  }

  lemma {:induction false} FirstIsThere(records: seq<Output>, k: Key)
    requires FirstRecord(records, k).Some?
    ensures exists i :: 0 <= i < |records| && records[i] == Output(k, FirstRecord(records, k).value)
  {
    var n := |records| - 1;
    if FirstRecord(records[..n], k).Some? {
      FirstIsThere(records[..n], k);
      var i :| 0 <= i < n && records[..n][i] == Output(k, FirstRecord(records[..n], k).value);
      assert records[i] == records[..n][i];
    }
  }

  predicate AllPriced(records: seq<Output>) {
    forall i :: 0 <= i < |records| ==> AMOUNT in records[i].fields
  }

  lemma StoredIsPriced(fdb: Tokens, redis: Tokens, records: seq<Output>)
    requires CacheInv(fdb, redis) && forall i :: 0 <= i < |records| ==> Stored(fdb, records[i])
    ensures AllPriced(records)
  {
    forall i | 0 <= i < |records| ensures AMOUNT in records[i].fields {
      assert AMOUNT in fdb[records[i].key].Keys - {SPENT, SPENT_AT};
    }
  }

  /** What the first command does to one record. */
  lemma CreatesAmount(before: Tokens, redis: Tokens, records: seq<Output>, i: nat)
    requires i < |records| && Halfway(before, redis, records[..i]) && AllPriced(records)
    ensures var o := records[i];
      var hash := Cached(redis, o.key);
      && (AMOUNT !in hash <==> Creates(before, records, i))
      && (AMOUNT in hash ==> Halfway(before, redis, records[..i + 1]))
      && (AMOUNT !in hash ==> Halfway(before, redis[o.key := hash[AMOUNT := o.fields[AMOUNT]]], records[..i + 1]))
  {
    var o := records[i];
    var first := FirstRecord(records[..i], o.key);
    if first.Some? {
      FirstIsThere(records[..i], o.key);
      var j :| 0 <= j < i && records[..i][j] == Output(o.key, first.value);
      assert AMOUNT in records[j].fields;
    }
    var redis' := if AMOUNT in Cached(redis, o.key) then redis else redis[o.key := Cached(redis, o.key)[AMOUNT := o.fields[AMOUNT]]];
    forall k ensures Cached(redis', k) == HashAfter(Cached(before, k), FirstRecord(records[..i + 1], k), CUT) {
      NextFirst(records, i, k);
    }
  }

  /** What the second command does to one record. */
  lemma FillsHash(before: Tokens, half: Tokens, redis: Tokens, records: seq<Output>, i: nat)
    requires i < |records| && Halfway(before, half, records) && Filled(before, half, redis, records[..i]) && AllPriced(records)
    ensures var o := records[i];
      var filled := redis[o.key := Cached(redis, o.key) + Rest(o.fields)];
      Filled(before, half, if Creates(before, records, i) then filled else redis, records[..i + 1])
  {
    var o := records[i];
    var redis' := if Creates(before, records, i) then redis[o.key := Cached(redis, o.key) + Rest(o.fields)] else redis;
    NextFirst(records, i, o.key);
    if FirstRecord(records[..i], o.key).None? { FirstStays(records, i + 1, o.key); }
    forall k
      ensures Cached(redis', k) ==
        if FirstRecord(records[..i + 1], k).Some? then HashAfter(Cached(before, k), FirstRecord(records[..i + 1], k), WHOLE)
        else Cached(half, k)
    {
      NextFirst(records, i, k);
    }
  }

  lemma FilledMeansMirrored(before: Tokens, half: Tokens, redis: Tokens, records: seq<Output>)
    requires Halfway(before, half, records) && Filled(before, half, redis, records)
    ensures Mirrored(before, redis, records, WHOLE)
  {}

  /** One hash after the committed operations of a batch have been mirrored, one after the other. */
  function HashAfterAll(hash: Fields, k: Key, t: Tokens, ops: seq<ReplaceOp>, clock: nat -> string, net: Network): Fields {
    if ops == [] then hash
    else
      var n := |ops| - 1;
      var front := HashAfterAll(hash, k, t, ops[..n], clock, net);
      if Committable(FdbStore.AfterAll(t, ops[..n], clock), ops[n]) then HashAfter(front, FirstRecord(ops[n].outputs, k), net)
      else front
  }

  // ------------------------------------------------------------------
  // A read that misses warms the cache
  // ------------------------------------------------------------------

  /** The records that are there, in the order they were asked for. */
  function FoundRecords(t: Tokens, ks: seq<Key>): seq<Output> {
    if ks == [] then []
    else
      var n := |ks| - 1;
      FoundRecords(t, ks[..n]) + if ks[n] in t then [Output(ks[n], t[ks[n]])] else []
  }

  lemma {:induction false} FoundIsFirst(t: Tokens, ks: seq<Key>, k: Key)
    ensures FirstRecord(FoundRecords(t, ks), k) == if k in ks && k in t then Some(t[k]) else None
  {
    if ks != [] {
      var n := |ks| - 1;
      var front, all := FoundRecords(t, ks[..n]), FoundRecords(t, ks);
      FoundIsFirst(t, ks[..n], k);
      assert k in ks <==> k in ks[..n] || k == ks[n];
      if ks[n] in t { assert all[..|all| - 1] == front; } else { assert all == front; }
    }
  }

  lemma FieldByField(f: Fields)
    requires AMOUNT in f
    ensures map[AMOUNT := f[AMOUNT]] + Rest(f) == f
  {}

  /**
   * Once a read that found nothing in the cache has warmed it undisturbed, the same
   * read is answered from the cache, as from the ledger.
   */
  lemma WarmReadIsServed(v: Flavor, fdb: Tokens, before: Tokens, redis: Tokens, ks: seq<Key>)
    requires CacheInv(fdb, before) && Mirrored(before, redis, FoundRecords(fdb, ks), WHOLE)
    requires forall i :: 0 <= i < |ks| ==> ks[i] in fdb && Decodes(v, fdb[ks[i]]) && Cached(before, ks[i]) == map[]
    ensures FromCache(v, redis, ks)
    ensures forall i :: 0 <= i < |ks| ==> Answer(v, fdb, redis, ks)[i] == Some(fdb[ks[i]])
  {
    forall i | 0 <= i < |ks| ensures Cached(redis, ks[i]) == fdb[ks[i]] {
      FoundIsFirst(fdb, ks, ks[i]);
      FieldByField(fdb[ks[i]]);
      assert map[][AMOUNT := fdb[ks[i]][AMOUNT]] == map[AMOUNT := fdb[ks[i]][AMOUNT]];
    }
  }
}
