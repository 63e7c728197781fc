// The composite store: FoundationDB is the ledger, Redis a cache that is
// written in two commands per record and may lose either
// (crates/storage/src/redis_fdb_backend.rs, crates/storage/src/redis_backend.rs).

module RedisFdbCache {
  import opened Prelude
  import opened Ledger
  import opened LedgerRuns
  import opened ReplaceHandler
  import FdbStore

  const CONTRACT: string := "contract_id"
  const ISSUER: string := "issuer_fp"

  /** The field names `from_fields` cannot do without. */
  datatype Flavor = Flavor(needed: set<string>)

  const WEBCASH := Flavor({AMOUNT})
  const RGB20 := Flavor({AMOUNT, CONTRACT, ISSUER})
  const RGB21 := Flavor({CONTRACT, ISSUER})

  predicate Decodes(v: Flavor, f: Fields) { f != map[] && v.needed <= f.Keys }

  /** A mirror write on its way to Redis: not started, or its HSETNX has created the amount field. */
  datatype Mirror = Mirror(key: Key, fields: Fields, created: bool)

  datatype State = State(fdb: Tokens, redis: Tokens, pending: seq<Mirror>)

  // ------------------------------------------------------------------
  // The invariant
  // ------------------------------------------------------------------

  /** Names that are written by the second command and never change. */
  function FixedNames(f: Fields): set<string> { f.Keys - {AMOUNT, SPENT, SPENT_AT} }

  /** A cached hash is part of the durable record, and all of it but the amount once anything but the amount is there. */
  predicate Consistent(c: Fields, f: Fields) {
    && (forall name <- c :: name != SPENT && name != SPENT_AT ==> name in f && c[name] == f[name])
    && (IsSpent(c) ==> IsSpent(f))
    && (c.Keys <= {AMOUNT} || FixedNames(f) <= c.Keys)
  }

  predicate Proper(f: Fields) { AMOUNT in f && SPENT in f }

  ghost predicate CacheInv(fdb: Tokens, redis: Tokens) {
    && (forall k <- fdb :: Proper(fdb[k]))
    && (forall k <- redis :: k in fdb && Consistent(redis[k], fdb[k]))
  }

  ghost predicate Inv(s: State) {
    && CacheInv(s.fdb, s.redis)
    && (forall i :: 0 <= i < |s.pending| ==>
          s.pending[i].key in s.fdb && Keeps(s.pending[i].fields, s.fdb[s.pending[i].key]))
  }

  // ------------------------------------------------------------------
  // Steps, in any order
  // ------------------------------------------------------------------

  datatype Move =
    | Durable(step: Step)     // FoundationDB executes one operation
    | Snapshot(key: Key)      // a record read from or written to FoundationDB is about to be mirrored
    | CreateAmount(i: nat)    // HSETNX key amount_wats
    | WriteRest(i: nat)       // HSET of the other fields
    | Lose(i: nat)            // a mirror write is never completed
    | Evict(key: Key)

  function Cached(redis: Tokens, k: Key): Fields { if k in redis then redis[k] else map[] }

  function Drop(ms: seq<Mirror>, i: nat): seq<Mirror>
    requires i < |ms|
  {
    ms[..i] + ms[i + 1..]
  }

  /** The second command writes every field but the amount. */
  function Rest(f: Fields): Fields { f - {AMOUNT} }

  predicate Enabled(s: State, m: Move) {
    match m
    case Durable(Insert(records)) => forall i :: 0 <= i < |records| ==> Proper(records[i].fields)
    case Durable(Replace(op, _)) => forall i :: 0 <= i < |op.outputs| ==> Proper(op.outputs[i].fields)
    case Durable(Burn(_, _)) => true
    case Snapshot(k) => k in s.fdb
    case CreateAmount(i) => i < |s.pending| && !s.pending[i].created
    case WriteRest(i) => i < |s.pending| && s.pending[i].created
    case Lose(i) => i < |s.pending|
    case Evict(_) => true
  }

  function Next(s: State, m: Move): State
    requires Enabled(s, m)
  {
    match m
    case Durable(step) => s.(fdb := After(s.fdb, step))
    case Snapshot(k) => s.(pending := s.pending + [Mirror(k, s.fdb[k], false)])
    case CreateAmount(i) =>
      var w := s.pending[i];
      var hash := Cached(s.redis, w.key);
      if AMOUNT in hash || AMOUNT !in w.fields then s.(pending := Drop(s.pending, i))
      else s.(redis := s.redis[w.key := hash[AMOUNT := w.fields[AMOUNT]]], pending := s.pending[i := w.(created := true)])
    case WriteRest(i) =>
      var w := s.pending[i];
      s.(redis := s.redis[w.key := Cached(s.redis, w.key) + Rest(w.fields)], pending := Drop(s.pending, i))
    case Lose(i) => s.(pending := Drop(s.pending, i))
    case Evict(k) => s.(redis := s.redis - {k})
  }

  ghost predicate Reachable(s: State, moves: seq<Move>, s': State)
    decreases |moves|
  {
    if moves == [] then s' == s
    else Enabled(s, moves[0]) && Reachable(Next(s, moves[0]), moves[1..], s')
  }

  // ------------------------------------------------------------------
  // Every step keeps the invariant
  // ------------------------------------------------------------------

  /** Consistency survives whatever the ledger does to the record. */
  lemma ConsistentLater(c: Fields, f: Fields, g: Fields)
    requires Consistent(c, f) && Keeps(f, g)
    ensures Consistent(c, g)
  {
    forall name <- c | name != SPENT && name != SPENT_AT ensures name in g && c[name] == g[name] {
      assert name in f.Keys - {SPENT, SPENT_AT};
    }
    assert FixedNames(g) == FixedNames(f) by {
      assert FixedNames(f) == f.Keys - {SPENT, SPENT_AT} - {AMOUNT};
      assert FixedNames(g) == g.Keys - {SPENT, SPENT_AT} - {AMOUNT};
    }
  }

  lemma AmountIsConsistent(c: Fields, w: Fields, f: Fields)
    requires Consistent(c, f) && Keeps(w, f) && AMOUNT in w
    ensures Consistent(c[AMOUNT := w[AMOUNT]], f)
  {
    assert AMOUNT in w.Keys - {SPENT, SPENT_AT};
  }

  lemma RestIsConsistent(c: Fields, w: Fields, f: Fields)
    requires Consistent(c, f) && Keeps(w, f) && SPENT in f
    ensures Consistent(c + Rest(w), f)
  {
    var u := c + Rest(w);
    forall name <- u | name != SPENT && name != SPENT_AT ensures name in f && u[name] == f[name] {
      if name in Rest(w) { assert name in w.Keys - {SPENT, SPENT_AT}; }
    }
    assert FixedNames(f) == FixedNames(w) by {
      assert FixedNames(f) == f.Keys - {SPENT, SPENT_AT} - {AMOUNT};
      assert FixedNames(w) == w.Keys - {SPENT, SPENT_AT} - {AMOUNT};
    }
    assert FixedNames(w) <= Rest(w).Keys;
    if SPENT in Rest(w) { assert u[SPENT] == w[SPENT]; }
  }

  /** What a ledger step stores under a key: the old record, marked or not, or a new one of its own. */
  lemma StepKeepsProper(t: Tokens, step: Step)
    requires forall k <- t :: Proper(t[k])
    requires Enabled(State(t, map[], []), Durable(step))
    ensures forall k <- After(t, step) :: Proper(After(t, step)[k])
  {
    match step
    case Insert(records) => InsertedProper(t, records);
    case Replace(op, clock) =>
      if Committable(t, op) { InsertedProper(Marked(t, op.inputs, clock), op.outputs); }
    case Burn(_, _) =>
  }

  lemma InsertedProper(t: Tokens, records: seq<Output>)
    requires forall k <- t :: Proper(t[k])
    requires forall i :: 0 <= i < |records| ==> Proper(records[i].fields)
    ensures forall k <- Inserted(t, records) :: Proper(Inserted(t, records)[k])
  {
    forall k <- Inserted(t, records) ensures Proper(Inserted(t, records)[k]) {
      if Lookup(records, k).Some? { LookupIsRecord(records, k); }
    }
  }

  lemma {:induction false} LookupIsRecord(records: seq<Output>, k: Key)
    requires Lookup(records, k).Some?
    ensures exists i :: 0 <= i < |records| && Lookup(records, k) == Some(records[i].fields)
  {
    var n := |records| - 1;
    if records[n].key != k {
      LookupIsRecord(records[..n], k);
      var i :| 0 <= i < n && Lookup(records[..n], k) == Some(records[..n][i].fields);
      assert Lookup(records, k) == Some(records[i].fields);
    }
  }

  lemma DurableKeepsInv(s: State, step: Step)
    requires Inv(s) && Enabled(s, Durable(step))
    ensures Inv(Next(s, Durable(step)))
  {
    StepGrows(s.fdb, step);
    StepKeepsProper(s.fdb, step);
    var t := After(s.fdb, step);
    forall k <- s.redis ensures k in t && Consistent(s.redis[k], t[k]) {
      ConsistentLater(s.redis[k], s.fdb[k], t[k]);
    }
    forall i | 0 <= i < |s.pending|
      ensures s.pending[i].key in t && Keeps(s.pending[i].fields, t[s.pending[i].key])
    {
      var k := s.pending[i].key;
      KeepsTransitive(s.pending[i].fields, s.fdb[k], t[k]);
    }
  }

  lemma MirrorKeepsInv(s: State, m: Move)
    requires Inv(s) && Enabled(s, m) && !m.Durable?
    ensures Inv(Next(s, m))
  {
    match m
    case CreateAmount(i) =>
      var w := s.pending[i];
      if AMOUNT !in Cached(s.redis, w.key) && AMOUNT in w.fields {
        AmountIsConsistent(Cached(s.redis, w.key), w.fields, s.fdb[w.key]);
      }
    case WriteRest(i) =>
      var w := s.pending[i];
      RestIsConsistent(Cached(s.redis, w.key), w.fields, s.fdb[w.key]);
    case _ =>
  }

  /** Under any interleaving and any loss the cache stays part of the ledger. */
  lemma {:induction false} ReachableKeepsInv(s: State, moves: seq<Move>, s': State)
    requires Inv(s) && Reachable(s, moves, s')
    ensures Inv(s')
    decreases |moves|
  {
    if moves != [] {
      match moves[0] {
        case Durable(step) => DurableKeepsInv(s, step);
        case _ => MirrorKeepsInv(s, moves[0]);
      }
      ReachableKeepsInv(Next(s, moves[0]), moves[1..], s');
    }
  }

  // ------------------------------------------------------------------
  // What readers see
  // ------------------------------------------------------------------

  /** All from Redis if every record decodes there, otherwise all from FoundationDB. */
  function Answer(v: Flavor, fdb: Tokens, redis: Tokens, ks: seq<Key>): (r: seq<Option<Fields>>)
    ensures |r| == |ks|
  {
    if forall i :: 0 <= i < |ks| ==> Decodes(v, Cached(redis, ks[i]))
    then seq(|ks|, i requires 0 <= i < |ks| => Some(Cached(redis, ks[i])))
    else seq(|ks|, i requires 0 <= i < |ks| => FdbStore.Get(fdb, ks[i]))
  }

  /** For a flavor that needs more than the amount, every answer is the durable record but for a late spent mark. */
  lemma AnswersAreDurable(v: Flavor, fdb: Tokens, redis: Tokens, ks: seq<Key>, i: nat)
    requires CacheInv(fdb, redis) && !(v.needed <= {AMOUNT}) && i < |ks|
    ensures var r := Answer(v, fdb, redis, ks)[i];
      && (r.None? <==> ks[i] !in fdb)
      && (r.Some? ==> SameFields(r.value, fdb[ks[i]]) && (IsSpent(r.value) ==> IsSpent(fdb[ks[i]])))
  {}

  predicate FromCache(v: Flavor, redis: Tokens, ks: seq<Key>) {
    forall i :: 0 <= i < |ks| ==> Decodes(v, Cached(redis, ks[i]))
  }

  /**
   * For every flavor, the answer for a stored token is its durable record
   * exactly unless it comes from a hash that holds the amount at most while
   * the record has further fixed fields.
   */
  lemma AnswerIsDurableExactly(v: Flavor, fdb: Tokens, redis: Tokens, ks: seq<Key>, i: nat)
    requires CacheInv(fdb, redis) && i < |ks| && ks[i] in fdb
    ensures var r := Answer(v, fdb, redis, ks)[i];
      && r.Some?
      && (SameFields(r.value, fdb[ks[i]]) <==>
            !(FromCache(v, redis, ks) && Cached(redis, ks[i]).Keys <= {AMOUNT}) || FixedNames(fdb[ks[i]]) == {})
  {
    var c, f := Cached(redis, ks[i]), fdb[ks[i]];
    assert SameFields(f, f);
    if FromCache(v, redis, ks) && c.Keys <= {AMOUNT} && FixedNames(f) != {} {
      var name :| name in FixedNames(f);
      assert name !in c.Keys;
    }
  }

  predicate SameFields(c: Fields, f: Fields) {
    && (forall name <- c :: name != SPENT && name != SPENT_AT ==> name in f && c[name] == f[name])
    && FixedNames(f) <= c.Keys
  }

  /** The amount is right whatever the flavor; so is the health answer, whose spent flag comes from FoundationDB. */
  lemma HealthAnswersAreDurable(v: Flavor, fdb: Tokens, redis: Tokens, ks: seq<Key>, i: nat)
    requires CacheInv(fdb, redis) && AMOUNT in v.needed && i < |ks|
    ensures AmountField(Answer(v, fdb, redis, ks)[i]) == AmountField(FdbStore.Get(fdb, ks[i]))
  {}

  function AmountField(r: Option<Fields>): Option<string> {
    if r.Some? && AMOUNT in r.value then Some(r.value[AMOUNT]) else None
  }

  /** The lock a cached record shows is the durable one, so every HTLC verdict is. */
  lemma VerdictsAreDurable(env: Env, v: Flavor, fdb: Tokens, redis: Tokens, ks: seq<Key>, i: nat)
    requires CacheInv(fdb, redis) && !(v.needed <= {AMOUNT}) && i < |ks| && ks[i] in fdb
    ensures Answer(v, fdb, redis, ks)[i].Some?
    ensures LockOf(env, Answer(v, fdb, redis, ks)[i].value) == LockOf(env, fdb[ks[i]])
  {
    AnswersAreDurable(v, fdb, redis, ks, i);
    assert HTLC_STATE in fdb[ks[i]] ==> HTLC_STATE in FixedNames(fdb[ks[i]]);
  }

  // ------------------------------------------------------------------
  // Late spent marks
  // ------------------------------------------------------------------

  predicate ServedUnspent(v: Flavor, s: State, k: Key) {
    var r := Answer(v, s.fdb, s.redis, [k])[0];
    r.Some? && !IsSpent(r.value)
  }

  /** A spent token is answered unspent exactly when the lookup comes from the cache and its hash lacks the mark. */
  lemma MarkIsLateExactly(v: Flavor, fdb: Tokens, redis: Tokens, ks: seq<Key>, i: nat)
    requires CacheInv(fdb, redis) && i < |ks| && ks[i] in fdb && IsSpent(fdb[ks[i]])
    ensures var r := Answer(v, fdb, redis, ks)[i];
      r.Some? && (!IsSpent(r.value) <==> FromCache(v, redis, ks) && !IsSpent(Cached(redis, ks[i])))
  {}

  ghost predicate CanServeUnspent(v: Flavor, s: State, k: Key) {
    exists moves, s' :: Reachable(s, moves, s') && ServedUnspent(v, s', k)
  }

  /** A copy of the record taken before it was spent is cached with more than its amount, or on its way. */
  predicate OldCopy(s: State, k: Key) {
    || (k in s.redis && !(s.redis[k].Keys <= {AMOUNT}) && !IsSpent(s.redis[k]))
    || (exists i :: 0 <= i < |s.pending| && s.pending[i].key == k && !IsSpent(s.pending[i].fields))
  }

  lemma ServesNow(v: Flavor, s: State, k: Key)
    requires ServedUnspent(v, s, k)
    ensures CanServeUnspent(v, s, k)
  {
    assert Reachable(s, [], s);
  }

  lemma ServesAfter(v: Flavor, s: State, m: Move, k: Key)
    requires Enabled(s, m) && CanServeUnspent(v, Next(s, m), k)
    ensures CanServeUnspent(v, s, k)
  {
    var moves, s' :| Reachable(Next(s, m), moves, s') && ServedUnspent(v, s', k);
    assert ([m] + moves)[1..] == moves;
    assert Reachable(s, [m] + moves, s');
  }

  /** Once every copy carries the mark, every step leaves it so. */
  lemma NoOldCopyStays(s: State, m: Move, k: Key)
    requires Inv(s) && Enabled(s, m) && k in s.fdb && IsSpent(s.fdb[k]) && !OldCopy(s, k)
    ensures var s' := Next(s, m); k in s'.fdb && IsSpent(s'.fdb[k]) && !OldCopy(s', k)
  {
    var s' := Next(s, m);
    match m
    case Durable(step) => StepGrows(s.fdb, step);
    case Snapshot(_) =>
    case CreateAmount(i) =>
    case WriteRest(i) =>
      var w := s.pending[i];
      if w.key == k { assert IsSpent(w.fields) && SPENT in Rest(w.fields); }
    case Lose(_) =>
    case Evict(_) =>
  }

  lemma {:induction false} NoOldCopyEver(s: State, moves: seq<Move>, s': State, k: Key)
    requires Inv(s) && Reachable(s, moves, s') && k in s.fdb && IsSpent(s.fdb[k]) && !OldCopy(s, k)
    ensures Inv(s') && k in s'.fdb && IsSpent(s'.fdb[k]) && !OldCopy(s', k)
    decreases |moves|
  {
    if moves != [] {
      NoOldCopyStays(s, moves[0], k);
      match moves[0] {
        case Durable(step) => DurableKeepsInv(s, step);
        case _ => MirrorKeepsInv(s, moves[0]);
      }
      NoOldCopyEver(Next(s, moves[0]), moves[1..], s', k);
    }
  }

  /** From its amount alone a webcash record is served, and so without its mark, at any time. */
  lemma AmountAloneIsServed(v: Flavor, s: State, k: Key)
    requires Inv(s) && k in s.fdb && v.needed <= {AMOUNT}
    ensures CanServeUnspent(v, s, k)
  {
    var s1 := Next(s, Evict(k));
    var s2 := Next(s1, Snapshot(k));
    var s3 := Next(s2, CreateAmount(|s1.pending|));
    assert s3.redis[k] == map[AMOUNT := s.fdb[k][AMOUNT]];
    assert FromCache(v, s3.redis, [k]);
    ServesNow(v, s3, k);
    ServesAfter(v, s2, CreateAmount(|s1.pending|), k);
    ServesAfter(v, s1, Snapshot(k), k);
    ServesAfter(v, s, Evict(k), k);
  }

  /**
   * An unmarked hash that lacks at most the amount is served, if need be once a
   * later mirror write restores the amount.
   */
  lemma UnmarkedHashIsServed(v: Flavor, s: State, k: Key)
    requires Inv(s) && k in s.fdb && k in s.redis && !IsSpent(s.redis[k])
    requires v.needed <= s.redis[k].Keys + {AMOUNT}
    ensures CanServeUnspent(v, s, k)
  {
    if AMOUNT in s.redis[k] {
      assert FromCache(v, s.redis, [k]);
      ServesNow(v, s, k);
    } else {
      var s1 := Next(s, Snapshot(k));
      var s2 := Next(s1, CreateAmount(|s.pending|));
      assert s2.redis[k] == s.redis[k][AMOUNT := s.fdb[k][AMOUNT]];
      assert s2.redis[k].Keys == s.redis[k].Keys + {AMOUNT} && AMOUNT in s2.redis[k];
      assert FromCache(v, s2.redis, [k]);
      ServesNow(v, s2, k);
      ServesAfter(v, s1, CreateAmount(|s.pending|), k);
      ServesAfter(v, s, Snapshot(k), k);
    }
  }

  lemma CopyHasNeeded(v: Flavor, w: Fields, f: Fields)
    requires Keeps(w, f) && Proper(f) && v.needed !! {SPENT, SPENT_AT} && v.needed <= f.Keys
    ensures v.needed <= w.Keys && AMOUNT in w
  {
    assert AMOUNT in f.Keys - {SPENT, SPENT_AT};
    assert forall name <- v.needed :: name in f.Keys - {SPENT, SPENT_AT};
  }

  /** A copy whose first command is done and whose hash is gone: its second command writes the rest. */
  lemma HalfCopyIsServed(v: Flavor, s: State, k: Key, i: nat)
    requires Inv(s) && k in s.fdb && k !in s.redis && i < |s.pending|
    requires var w := s.pending[i]; w.key == k && w.created && !IsSpent(w.fields) && v.needed <= w.fields.Keys
    ensures CanServeUnspent(v, s, k)
  {
    var s' := Next(s, WriteRest(i));
    assert s'.redis[k] == Rest(s.pending[i].fields);
    MirrorKeepsInv(s, WriteRest(i));
    UnmarkedHashIsServed(v, s', k);
    ServesAfter(v, s, WriteRest(i), k);
  }

  lemma WholeCopyIsServed(v: Flavor, s: State, k: Key, i: nat)
    requires Inv(s) && k in s.fdb && k !in s.redis && i < |s.pending|
    requires var w := s.pending[i];
      w.key == k && !w.created && !IsSpent(w.fields) && v.needed <= w.fields.Keys && AMOUNT in w.fields
    ensures CanServeUnspent(v, s, k)
  {
    var w := s.pending[i];
    var s1 := Next(s, CreateAmount(i));
    var s2 := Next(s1, WriteRest(i));
    assert s2.redis[k] == map[AMOUNT := w.fields[AMOUNT]] + Rest(w.fields);
    assert FromCache(v, s2.redis, [k]);
    ServesNow(v, s2, k);
    ServesAfter(v, s1, WriteRest(i), k);
    ServesAfter(v, s, CreateAmount(i), k);
  }

  /** A copy on its way gets through: the hash is evicted, then its commands run. */
  lemma PendingCopyIsServed(v: Flavor, s: State, k: Key, i: nat)
    requires Inv(s) && k in s.fdb && v.needed !! {SPENT, SPENT_AT} && v.needed <= s.fdb[k].Keys
    requires i < |s.pending| && s.pending[i].key == k && !IsSpent(s.pending[i].fields)
    ensures CanServeUnspent(v, s, k)
  {
    var s' := Next(s, Evict(k));
    MirrorKeepsInv(s, Evict(k));
    CopyHasNeeded(v, s.pending[i].fields, s.fdb[k]);
    if s.pending[i].created { HalfCopyIsServed(v, s', k, i); } else { WholeCopyIsServed(v, s', k, i); }
    ServesAfter(v, s, Evict(k), k);
  }

  /**
   * A durably spent token can still be answered unspent, now or later, exactly
   * when the flavor decodes from the amount alone, or a copy from before the
   * token was spent is cached or on its way to the cache.
   */
  lemma LateMarkExactly(v: Flavor, s: State, k: Key)
    requires Inv(s) && k in s.fdb && IsSpent(s.fdb[k])
    requires v.needed !! {SPENT, SPENT_AT} && v.needed <= s.fdb[k].Keys
    ensures CanServeUnspent(v, s, k) <==> v.needed <= {AMOUNT} || OldCopy(s, k)
  {
    if v.needed <= {AMOUNT} {
      AmountAloneIsServed(v, s, k);
    } else if k in s.redis && !(s.redis[k].Keys <= {AMOUNT}) && !IsSpent(s.redis[k]) {
      assert forall name <- v.needed :: name != AMOUNT ==> name in FixedNames(s.fdb[k]);
      UnmarkedHashIsServed(v, s, k);
    } else if OldCopy(s, k) {
      var i :| 0 <= i < |s.pending| && s.pending[i].key == k && !IsSpent(s.pending[i].fields);
      PendingCopyIsServed(v, s, k, i);
    } else {
      forall moves, s' | Reachable(s, moves, s') ensures !ServedUnspent(v, s', k) {
        NoOldCopyEver(s, moves, s', k);
        MarkIsLateExactly(v, s'.fdb, s'.redis, [k], 0);
      }
    }
  }

  /** A token cached and then burned: durably spent, answered unspent, for every flavor its record decodes for. */
  lemma LateSpentMark(v: Flavor, k: Key, f: Fields, now: string)
    requires Proper(f) && !IsSpent(f) && v.needed <= f.Keys
    ensures exists s' ::
      && Reachable(State(map[k := f], map[], []), [Snapshot(k), CreateAmount(0), WriteRest(0), Durable(Burn(k, now))], s')
      && k in s'.fdb && IsSpent(s'.fdb[k]) && ServedUnspent(v, s', k)
  {
    var s := State(map[k := f], map[], []);
    var s1 := Next(s, Snapshot(k));
    var s2 := Next(s1, CreateAmount(0));
    var s3 := Next(s2, WriteRest(0));
    var s4 := Next(s3, Durable(Burn(k, now)));
    var moves := [Snapshot(k), CreateAmount(0), WriteRest(0), Durable(Burn(k, now))];
    assert s3.redis[k] == f;
    assert FromCache(v, s4.redis, [k]) && IsSpent(s4.fdb[k]);
    assert moves[1..] == [CreateAmount(0), WriteRest(0), Durable(Burn(k, now))];
    assert moves[1..][1..] == [WriteRest(0), Durable(Burn(k, now))];
    assert moves[1..][1..][1..] == [Durable(Burn(k, now))] && moves[1..][1..][1..][1..] == [];
    assert Reachable(s3, [Durable(Burn(k, now))], s4);
    assert Reachable(s2, [WriteRest(0), Durable(Burn(k, now))], s4);
    assert Reachable(s1, [CreateAmount(0), WriteRest(0), Durable(Burn(k, now))], s4);
  }

  /**
   * A webcash record decodes from the amount alone, so between the two commands it
   * is served without its other fields.
   */
  lemma HalfWrittenWebcashIsServed(k: Key, f: Fields)
    requires Proper(f) && "origin" in f
    ensures var s := State(map[k := f], map[], []);
      var moves := [Snapshot(k), CreateAmount(0), Lose(0)];
      exists s' ::
        && Reachable(s, moves, s')
        && Answer(WEBCASH, s'.fdb, s'.redis, [k]) == [Some(map[AMOUNT := f[AMOUNT]])]
        && Answer(RGB20, s'.fdb, s'.redis, [k]) == Answer(RGB21, s'.fdb, s'.redis, [k]) == [Some(f)]
  {
    var s := State(map[k := f], map[], []);
    var s1 := Next(s, Snapshot(k));
    var s2 := Next(s1, CreateAmount(0));
    var s3 := Next(s2, Lose(0));
    var moves := [Snapshot(k), CreateAmount(0), Lose(0)];
    assert moves[1..] == [CreateAmount(0), Lose(0)] && moves[1..][1..] == [Lose(0)] && moves[1..][1..][1..] == [];
    assert Reachable(s2, [Lose(0)], s3);
    assert Reachable(s1, [CreateAmount(0), Lose(0)], s3);
    assert s3.redis[k] == map[AMOUNT := f[AMOUNT]];
    assert Decodes(WEBCASH, Cached(s3.redis, [k][0]));
    assert CONTRACT in RGB20.needed && CONTRACT in RGB21.needed && CONTRACT !in Cached(s3.redis, [k][0]);
  }
}
