// Whole runs of the ledger: what every step keeps, and where amounts go
// (crates/storage/src/fdb_backend.rs, crates/server-core/src/lib.rs).

module LedgerRuns {
  import opened Ledger
  import FdbStore

  datatype Step =
    | Insert(records: seq<Output>)
    | Replace(op: ReplaceOp, clock: nat -> string)
    | Burn(key: Key, now: string)

  /** What the FoundationDB store makes of one step; a refused step changes nothing. */
  function After(t: Tokens, step: Step): Tokens {
    match step
    case Insert(records) => if Insertable(t, records) then Inserted(t, records) else t
    case Replace(op, clock) => FdbStore.AfterReplace(t, op, clock)
    case Burn(key, now) => if Burnable(t, key) then Burned(t, key, now) else t
  }

  function Run(t: Tokens, steps: seq<Step>): Tokens {
    if steps == [] then t else After(Run(t, steps[..|steps| - 1]), steps[|steps| - 1])
  }

  // ------------------------------------------------------------------
  // Records never change but for their spent mark
  // ------------------------------------------------------------------

  predicate SameButSpent(f: Fields, g: Fields) {
    && f.Keys - {SPENT, SPENT_AT} == g.Keys - {SPENT, SPENT_AT}
    && forall name <- f :: name != SPENT && name != SPENT_AT ==> name in g && g[name] == f[name]
  }

  predicate Keeps(f: Fields, g: Fields) {
    SameButSpent(f, g) && (IsSpent(f) ==> g == f)
  }

  /** Every record is still there, at most marked spent; a spent record is frozen. */
  predicate Grows(t: Tokens, t': Tokens) {
    forall k <- t :: k in t' && Keeps(t[k], t'[k])
  }

  lemma KeepsTransitive(f: Fields, g: Fields, h: Fields)
    requires Keeps(f, g) && Keeps(g, h)
    ensures Keeps(f, h)
  {
    assert f.Keys - {SPENT, SPENT_AT} == h.Keys - {SPENT, SPENT_AT};
  }

  lemma InsertGrows(t: Tokens, records: seq<Output>)
    requires Insertable(t, records)
    ensures Grows(t, Inserted(t, records))
  {
    forall k <- t ensures Lookup(records, k).None? {
      forall i | 0 <= i < |records| ensures records[i].key != k { assert OutputKeys(records)[i] !in t; }
    }
  }

  lemma ReplaceGrows(t: Tokens, op: ReplaceOp, clock: nat -> string)
    requires Committable(t, op)
    ensures Grows(t, Applied(t, op, clock))
  {
    var t' := Applied(t, op, clock);
    AppliedKeyByKey(t, op, clock);
    forall k <- t ensures k in t' && Keeps(t[k], t'[k]) {
      if k in op.inputs {
        var i :| 0 <= i < |op.inputs| && op.inputs[i] == k;
        MarkKeeps(t[k], clock(i));
      } else {
        assert k !in OutputKeys(op.outputs);
      }
    }
  }

  lemma MarkKeeps(f: Fields, now: string)
    requires !IsSpent(f)
    ensures Keeps(f, MarkSpent(f, now))
  {}

  lemma StepGrows(t: Tokens, step: Step)
    ensures Grows(t, After(t, step))
  {
    match step
    case Insert(records) => if Insertable(t, records) { InsertGrows(t, records); }
    case Replace(op, clock) => if Committable(t, op) { ReplaceGrows(t, op, clock); }
    case Burn(key, now) => if Burnable(t, key) { MarkKeeps(t[key], now); }
  }

  /** Amounts, HTLC states and everything else but the spent mark are fixed once a record exists. */
  lemma {:induction false} RecordsAreImmutable(t: Tokens, steps: seq<Step>)
    ensures Grows(t, Run(t, steps))
  {
    if steps != [] {
      var u := Run(t, steps[..|steps| - 1]);
      RecordsAreImmutable(t, steps[..|steps| - 1]);
      StepGrows(u, steps[|steps| - 1]);
      forall k <- t ensures k in Run(t, steps) && Keeps(t[k], Run(t, steps)[k]) {
        KeepsTransitive(t[k], u[k], Run(t, steps)[k]);
      }
    }
  }

  /** A token is consumed by a replace or burn at most once in any run. */
  lemma SpentStaysSpent(t: Tokens, steps: seq<Step>, k: Key)
    requires k in t && IsSpent(t[k])
    ensures k in Run(t, steps) && IsSpent(Run(t, steps)[k])
    ensures forall op: ReplaceOp :: k in op.inputs ==> !Committable(Run(t, steps), op)
  {
    RecordsAreImmutable(t, steps);
    forall op: ReplaceOp | k in op.inputs ensures !Committable(Run(t, steps), op) {
      var i :| 0 <= i < |op.inputs| && op.inputs[i] == k;
    }
  }

  // ------------------------------------------------------------------
  // Totals over a partition of the keys
  // ------------------------------------------------------------------

  /** `wats` reads a stored amount; `part` picks the keys of one namespace. */
  datatype Book = Book(wats: string -> int, part: Key -> bool)

  function Amount(b: Book, f: Fields): int {
    if AMOUNT in f then b.wats(f[AMOUNT]) else 0
  }

  function UnspentAmount(b: Book, f: Fields): int { if IsSpent(f) then 0 else Amount(b, f) }

  /** What one key adds to the total of its part. */
  function Weight(b: Book, t: Tokens, k: Key): int {
    if k in t && b.part(k) then UnspentAmount(b, t[k]) else 0
  }

  ghost function SumOf(b: Book, t: Tokens, ks: set<Key>): int {
    if ks == {} then 0
    else
      var k :| k in ks;
      Weight(b, t, k) + SumOf(b, t, ks - {k})
  }

  /** All unspent tokens of the part. */
  ghost function Unspent(b: Book, t: Tokens): int { SumOf(b, t, t.Keys) }

  lemma {:induction false} SumTakesOut(b: Book, t: Tokens, ks: set<Key>, k: Key)
    requires k in ks
    ensures SumOf(b, t, ks) == Weight(b, t, k) + SumOf(b, t, ks - {k})
    decreases ks
  {
    var first :| first in ks && SumOf(b, t, ks) == Weight(b, t, first) + SumOf(b, t, ks - {first});
    if first != k {
      SumTakesOut(b, t, ks - {first}, k);
      SumTakesOut(b, t, ks - {k}, first);
      assert ks - {first} - {k} == ks - {k} - {first};
    }
  }

  lemma {:induction false} SumDependsOn(b: Book, t: Tokens, u: Tokens, ks: set<Key>)
    requires forall k <- ks :: Weight(b, t, k) == Weight(b, u, k)
    ensures SumOf(b, t, ks) == SumOf(b, u, ks)
    decreases ks
  {
    if ks != {} {
      var k :| k in ks;
      SumTakesOut(b, t, ks, k);
      SumTakesOut(b, u, ks, k);
      SumDependsOn(b, t, u, ks - {k});
    }
  }

  /** Writing one key moves the total by the change of its weight. */
  lemma UnspentAfterWrite(b: Book, t: Tokens, k: Key, f: Fields)
    ensures Unspent(b, t[k := f]) == Unspent(b, t) - Weight(b, t, k) + Weight(b, t[k := f], k)
  {
    var u := t[k := f];
    SumTakesOut(b, u, u.Keys, k);
    assert u.Keys - {k} == t.Keys - {k};
    SumDependsOn(b, t, u, t.Keys - {k});
    if k in t {
      SumTakesOut(b, t, t.Keys, k);
    } else {
      assert t.Keys - {k} == t.Keys;
    }
  }

  /** Stored unspent amounts of these keys. */
  function StoredTotal(b: Book, t: Tokens, ks: seq<Key>): int {
    if ks == [] then 0 else StoredTotal(b, t, ks[..|ks| - 1]) + Weight(b, t, ks[|ks| - 1])
  }

  /** Unspent amounts of these records. */
  function RecordTotal(b: Book, records: seq<Output>): int {
    if records == [] then 0
    else
      var last := records[|records| - 1];
      RecordTotal(b, records[..|records| - 1]) + if b.part(last.key) then UnspentAmount(b, last.fields) else 0
  }

  lemma {:induction false} MarkingTakesStored(b: Book, t: Tokens, ks: seq<Key>, clock: nat -> string)
    requires NoDup(ks) && AllUnspent(t, ks)
    ensures Unspent(b, Marked(t, ks, clock)) == Unspent(b, t) - StoredTotal(b, t, ks)
  {
    if ks == [] {
      assert Marked(t, ks, clock) == t;
    } else {
      var n := |ks| - 1;
      var front, last := ks[..n], ks[n];
      assert ks[..n + 1] == ks;
      MarkingTakesStored(b, t, front, clock);
      MarkedNext(t, ks, n, clock);
      UnspentAfterWrite(b, Marked(t, front, clock), last, MarkSpent(t[last], clock(n)));
    }
  }

  lemma FrontInsertable(t: Tokens, records: seq<Output>)
    requires Insertable(t, records) && records != []
    ensures Insertable(t, records[..|records| - 1])
  {
    assert OutputKeys(records[..|records| - 1]) == OutputKeys(records)[..|records| - 1];
  }

  lemma {:induction false} InsertingAddsRecords(b: Book, t: Tokens, records: seq<Output>)
    requires Insertable(t, records)
    ensures Unspent(b, Inserted(t, records)) == Unspent(b, t) + RecordTotal(b, records)
  {
    if records == [] {
      assert Inserted(t, records) == t;
    } else {
      var n := |records| - 1;
      var front, last := records[..n], records[n];
      assert records[..n + 1] == records;
      FdbStore.PresentAfterInserting(t, records, n);
      FrontInsertable(t, records);
      InsertingAddsRecords(b, t, front);
      InsertedNext(t, records, n);
      UnspentAfterWrite(b, Inserted(t, front), last.key, last.fields);
    }
  }

  // ------------------------------------------------------------------
  // The balance of a run
  // ------------------------------------------------------------------

  /** What entered, what was burned, and how far outputs exceed stored inputs. */
  datatype Flows = Flows(inserted: int, burned: int, drift: int)

  function Add(x: Flows, y: Flows): Flows {
    Flows(x.inserted + y.inserted, x.burned + y.burned, x.drift + y.drift)
  }

  function FlowsOf(b: Book, t: Tokens, step: Step): Flows {
    match step
    case Insert(records) => Flows(if Insertable(t, records) then RecordTotal(b, records) else 0, 0, 0)
    case Replace(op, _) =>
      Flows(0, 0, if Committable(t, op) then RecordTotal(b, op.outputs) - StoredTotal(b, t, op.inputs) else 0)
    case Burn(key, _) => Flows(0, if Burnable(t, key) then Weight(b, t, key) else 0, 0)
  }

  function RunFlows(b: Book, t: Tokens, steps: seq<Step>): Flows {
    if steps == [] then Flows(0, 0, 0)
    else
      var n := |steps| - 1;
      Add(RunFlows(b, t, steps[..n]), FlowsOf(b, Run(t, steps[..n]), steps[n]))
  }

  lemma StepBalance(b: Book, t: Tokens, step: Step)
    ensures var x := FlowsOf(b, t, step);
      Unspent(b, After(t, step)) + x.burned == Unspent(b, t) + x.inserted + x.drift
  {
    match step
    case Insert(records) =>
      if Insertable(t, records) { InsertingAddsRecords(b, t, records); }
    case Replace(op, clock) =>
      if Committable(t, op) {
        var marked := Marked(t, op.inputs, clock);
        MarkingTakesStored(b, t, op.inputs, clock);
        assert Insertable(marked, op.outputs);
        InsertingAddsRecords(b, marked, op.outputs);
      }
    case Burn(key, now) =>
      if Burnable(t, key) { UnspentAfterWrite(b, t, key, MarkSpent(t[key], now)); }
  }

  /** For every run: unspent plus burned is what was there plus inserted plus the drift of its replaces. */
  lemma {:induction false} RunBalance(b: Book, t: Tokens, steps: seq<Step>)
    ensures var x := RunFlows(b, t, steps);
      Unspent(b, Run(t, steps)) + x.burned == Unspent(b, t) + x.inserted + x.drift
  {
    if steps != [] {
      var n := |steps| - 1;
      RunBalance(b, t, steps[..n]);
      StepBalance(b, Run(t, steps[..n]), steps[n]);
    }
  }
}
