// The token ledger every storage backend implements: field maps by key, and
// what an all-or-nothing replace, burn or insert means (crates/storage/src/lib.rs).

module Ledger {
  import opened Prelude

  type Key = string

  /** The fields of one token record (`HashRecord::to_fields`). */
  type Fields = map<string, string>

  type Tokens = map<Key, Fields>

  const SPENT: string := "spent"
  const SPENT_AT: string := "spent_at"
  const AMOUNT: string := "amount_wats"

  predicate IsSpent(f: Fields) { SPENT in f && f[SPENT] == "1" }

  function MarkSpent(f: Fields, now: string): Fields {
    f[SPENT := "1"][SPENT_AT := now]
  }

  datatype Output = Output(key: Key, fields: Fields)

  datatype ReplaceOp = ReplaceOp(inputs: seq<Key>, outputs: seq<Output>, auditKey: Key, audit: string)

  function OutputKeys(outputs: seq<Output>): (r: seq<Key>)
    ensures |r| == |outputs|
    ensures forall i :: 0 <= i < |outputs| ==> r[i] == outputs[i].key
  {
    seq(|outputs|, i requires 0 <= i < |outputs| => outputs[i].key)
  }

  predicate NoDup(ks: seq<Key>) {
    forall i, j :: 0 <= i < j < |ks| ==> ks[i] != ks[j]
  }

  /** Every key holds an unspent token. */
  predicate AllUnspent(t: Tokens, ks: seq<Key>) {
    forall i :: 0 <= i < |ks| ==> ks[i] in t && !IsSpent(t[ks[i]])
  }

  predicate AllAbsent(t: Tokens, ks: seq<Key>) {
    forall i :: 0 <= i < |ks| ==> ks[i] !in t
  }

  /** When an all-or-nothing replace goes through. */
  predicate Committable(t: Tokens, op: ReplaceOp) {
    && NoDup(op.inputs) && NoDup(OutputKeys(op.outputs))
    && AllUnspent(t, op.inputs) && AllAbsent(t, OutputKeys(op.outputs))
  }

  /** An output key that is also an input key is present, so all keys of a committable replace differ. */
  lemma CommittableKeysDiffer(t: Tokens, op: ReplaceOp)
    requires Committable(t, op)
    ensures NoDup(op.inputs + OutputKeys(op.outputs))
  {
    var outs := OutputKeys(op.outputs);
    forall i, j | 0 <= i < |op.inputs| && 0 <= j < |outs|
      ensures op.inputs[i] != outs[j]
    {
      assert op.inputs[i] in t && outs[j] !in t;
    }
  }

  /** The turn at which a key was processed. */
  function TurnOf(ks: seq<Key>, k: Key): (r: Option<nat>)
    ensures r.Some? ==> r.value < |ks| && ks[r.value] == k
    ensures r.Some? <==> k in ks
  {
    if ks == [] then None
    else if ks[|ks| - 1] == k then Some(|ks| - 1)
    else TurnOf(ks[..|ks| - 1], k)
  }

  function Lookup(records: seq<Output>, k: Key): (r: Option<Fields>)
    ensures r.Some? <==> exists i :: 0 <= i < |records| && records[i].key == k
  {
    if records == [] then None
    else if records[|records| - 1].key == k then Some(records[|records| - 1].fields)
    else Lookup(records[..|records| - 1], k)
  }

  lemma {:induction false} LookupAt(records: seq<Output>, i: nat)
    requires NoDup(OutputKeys(records)) && i < |records|
    ensures Lookup(records, records[i].key) == Some(records[i].fields)
  {
    var last := |records| - 1;
    assert OutputKeys(records)[i] == records[i].key && OutputKeys(records)[last] == records[last].key;
    if i < last {
      assert OutputKeys(records[..last]) == OutputKeys(records)[..last];
      LookupAt(records[..last], i);
    }
  }

  /** Inserting records; a fresh one adds its key. */
  function Inserted(t: Tokens, records: seq<Output>): Tokens {
    map k | k in t.Keys + (set r <- records :: r.key) ::
      if Lookup(records, k).Some? then Lookup(records, k).value else t[k]
  }

  /** Marking keys spent, each with the clock reading of its turn. */
  function Marked(t: Tokens, ks: seq<Key>, clock: nat -> string): Tokens {
    map k | k in t :: if TurnOf(ks, k).Some? then MarkSpent(t[k], clock(TurnOf(ks, k).value)) else t[k]
  }

  /** The ledger after a committed replace. */
  function Applied(t: Tokens, op: ReplaceOp, clock: nat -> string): Tokens {
    Inserted(Marked(t, op.inputs, clock), op.outputs)
  }

  predicate Insertable(t: Tokens, records: seq<Output>) {
    NoDup(OutputKeys(records)) && AllAbsent(t, OutputKeys(records))
  }

  predicate Burnable(t: Tokens, k: Key) { k in t && !IsSpent(t[k]) }

  function Burned(t: Tokens, k: Key, now: string): Tokens
    requires k in t
  {
    t[k := MarkSpent(t[k], now)]
  }

  /** `g` is `f` marked as spent at this time; all its other fields are as they were. */
  predicate SpentAt(f: Fields, g: Fields, now: string) {
    && IsSpent(g) && SPENT_AT in g && g[SPENT_AT] == now && g.Keys == f.Keys + {SPENT, SPENT_AT}
    && forall name <- f :: name != SPENT && name != SPENT_AT ==> g[name] == f[name]
  }

  lemma MarkIsSpentAt(f: Fields, now: string)
    ensures SpentAt(f, MarkSpent(f, now), now)
  {}

  // ------------------------------------------------------------------
  // Key by key
  // ------------------------------------------------------------------

  /** What a committed replace does to each key, and to no other. */
  lemma AppliedKeyByKey(t: Tokens, op: ReplaceOp, clock: nat -> string)
    requires Committable(t, op)
    ensures var t' := Applied(t, op, clock);
      && (forall i :: 0 <= i < |op.inputs| ==>
            op.inputs[i] in t' && t'[op.inputs[i]] == MarkSpent(t[op.inputs[i]], clock(i))
            && SpentAt(t[op.inputs[i]], t'[op.inputs[i]], clock(i)))
      && (forall i :: 0 <= i < |op.outputs| ==>
            op.outputs[i].key in t' && t'[op.outputs[i].key] == op.outputs[i].fields)
      && (forall k :: k !in op.inputs && k !in OutputKeys(op.outputs) ==>
            (k in t' <==> k in t) && (k in t ==> t'[k] == t[k]))
  {
    var t', outs := Applied(t, op, clock), OutputKeys(op.outputs);
    forall i | 0 <= i < |op.inputs|
      ensures op.inputs[i] in t' && t'[op.inputs[i]] == MarkSpent(t[op.inputs[i]], clock(i))
      ensures SpentAt(t[op.inputs[i]], MarkSpent(t[op.inputs[i]], clock(i)), clock(i))
    {
      MarkIsSpentAt(t[op.inputs[i]], clock(i));
      assert forall j :: 0 <= j < |outs| ==> outs[j] !in t;
      assert TurnOf(op.inputs, op.inputs[i]) == Some(i);
    }
    forall i | 0 <= i < |op.outputs|
      ensures op.outputs[i].key in t' && t'[op.outputs[i].key] == op.outputs[i].fields
    {
      LookupAt(op.outputs, i);
    }
    forall k | k !in op.inputs && k !in outs
      ensures (k in t' <==> k in t) && (k in t ==> t'[k] == t[k])
    {
      forall i | 0 <= i < |op.outputs| ensures op.outputs[i].key != k { assert outs[i] != k; }
    }
  }

  // ------------------------------------------------------------------
  // One record at a time
  // ------------------------------------------------------------------

  lemma MarkedNext(t: Tokens, ks: seq<Key>, i: nat, clock: nat -> string)
    requires i < |ks| && ks[i] in t && ks[i] !in ks[..i]
    ensures Marked(t, ks[..i + 1], clock) == Marked(t, ks[..i], clock)[ks[i] := MarkSpent(t[ks[i]], clock(i))]
  {
    assert ks[..i + 1][..i] == ks[..i];
  }

  lemma InsertedNext(t: Tokens, records: seq<Output>, i: nat)
    requires i < |records|
    ensures Inserted(t, records[..i + 1]) == Inserted(t, records[..i])[records[i].key := records[i].fields]
  {
    assert records[..i + 1][..i] == records[..i];
    assert records[..i + 1] == records[..i] + [records[i]];
  }

  lemma NoDupNext(ks: seq<Key>, i: nat)
    requires i < |ks|
    ensures NoDup(ks[..i + 1]) <==> NoDup(ks[..i]) && ks[i] !in ks[..i]
  {
    assert forall a :: 0 <= a < i ==> ks[..i + 1][a] == ks[..i][a];
  }
}
