// The DynamoDB backend: one transaction whose conditions are all checked on
// the state before it (crates/storage/src/dynamodb_backend.rs).

module DynamoStore {
  import opened Ledger
  import FdbStore

  datatype Attr = S(s: string) | N(n: string) | Bool(b: bool)

  type Item = map<string, Attr>

  type Table = map<Key, Item>

  const PK: string := "pk"

  // ------------------------------------------------------------------
  // Items and field maps
  // ------------------------------------------------------------------

  function ToAttr(name: string, value: string): Attr {
    if name == AMOUNT then N(value) else if name == SPENT then Bool(value == "1") else S(value)
  }

  function ItemFor(key: Key, f: Fields): Item {
    (map name | name in f :: ToAttr(name, f[name])) + if PK in f then map[] else map[PK := S(key)]
  }

  function FromAttr(a: Attr): string {
    match a
    case S(s) => s
    case N(n) => n
    case Bool(b) => if b then "1" else "0"
  }

  function ItemToFields(item: Item): Fields {
    map name | name in item && name != PK :: FromAttr(item[name])
  }

  /** Field maps as `to_fields` makes them. */
  predicate Encodable(f: Fields) {
    PK !in f && SPENT in f && f[SPENT] in {"0", "1"}
  }

  lemma ItemRoundTrip(key: Key, f: Fields)
    requires Encodable(f)
    ensures ItemToFields(ItemFor(key, f)) == f
    ensures PK in ItemFor(key, f) && ItemFor(key, f)[PK] == S(key)
    ensures ItemFor(key, f)[SPENT].Bool? && (AMOUNT in f ==> ItemFor(key, f)[AMOUNT] == N(f[AMOUNT]))
  {}

  /** The ledger a table stands for. */
  function Abs(t: Table): Tokens {
    map k | k in t :: ItemToFields(t[k])
  }

  /** Every stored item carries its spent flag as a BOOL. */
  predicate Flagged(t: Table) {
    forall k <- t :: SPENT in t[k] && t[k][SPENT].Bool?
  }

  // ------------------------------------------------------------------
  // TransactWriteItems
  // ------------------------------------------------------------------

  datatype TxItem =
    | Update(key: Key, now: string)  // SET spent = true, spent_at = now, if the item exists with spent = false
    | Put(key: Key, item: Item)      // if there is no such item

  predicate ConditionHolds(t: Table, x: TxItem) {
    match x
    case Update(key, _) => key in t && SPENT in t[key] && t[key][SPENT] == Bool(false)
    case Put(key, _) => key !in t
  }

  function Write(t: Table, x: TxItem): Table {
    match x
    case Update(key, now) =>
      t[key := (if key in t then t[key] else map[PK := S(key)])[SPENT := Bool(true)][SPENT_AT := S(now)]]
    case Put(key, item) => t[key := item]
  }

  function WriteAll(t: Table, xs: seq<TxItem>): Table {
    if xs == [] then t else Write(WriteAll(t, xs[..|xs| - 1]), xs[|xs| - 1])
  }

  predicate DistinctItems(xs: seq<TxItem>) {
    forall i, j :: 0 <= i < j < |xs| ==> xs[i].key != xs[j].key
  }

  /** The service refuses two operations on one item, and any condition that fails on the current state. */
  predicate Accepted(t: Table, xs: seq<TxItem>) {
    DistinctItems(xs) && forall i :: 0 <= i < |xs| ==> ConditionHolds(t, xs[i])
  }

  class DynamoStore {
    var table: Table
    var audit: map<Key, string>

    method TransactWriteItems(xs: seq<TxItem>, auditKey: Key, record: string) returns (ok: bool)
      modifies this
      ensures ok <==> Accepted(old(table), xs)
      ensures ok ==> table == WriteAll(old(table), xs) && audit == old(audit)[auditKey := record]
      ensures !ok ==> table == old(table) && audit == old(audit)
    {
      ok := Accepted(table, xs);
      if ok {
        table := WriteAll(table, xs);
        audit := audit[auditKey := record];
      }
    }

    method ExecReplace(op: ReplaceOp, now: string) returns (ok: bool)
      modifies this
      ensures ok <==> Accepted(old(table), Transaction(op, now))
      ensures ok ==> table == WriteAll(old(table), Transaction(op, now)) && audit == old(audit)[op.auditKey := op.audit]
      ensures !ok ==> table == old(table) && audit == old(audit)
    {
      var xs := [];
      for i := 0 to |op.inputs|
        invariant xs == Updates(op.inputs[..i], now)
      {
        xs := xs + [Update(op.inputs[i], now)];
        assert op.inputs[..i + 1] == op.inputs[..i] + [op.inputs[i]];
      }
      assert op.inputs[..|op.inputs|] == op.inputs;
      for i := 0 to |op.outputs|
        invariant xs == Updates(op.inputs, now) + Puts(op.outputs[..i])
      {
        xs := xs + [Put(op.outputs[i].key, ItemFor(op.outputs[i].key, op.outputs[i].fields))];
        assert op.outputs[..i + 1] == op.outputs[..i] + [op.outputs[i]];
      }
      assert op.outputs[..|op.outputs|] == op.outputs;
      ok := TransactWriteItems(xs, op.auditKey, op.audit);
    }
  }

  function Updates(inputs: seq<Key>, now: string): seq<TxItem> {
    seq(|inputs|, i requires 0 <= i < |inputs| => Update(inputs[i], now))
  }

  function Puts(outputs: seq<Output>): seq<TxItem> {
    seq(|outputs|, i requires 0 <= i < |outputs| => Put(outputs[i].key, ItemFor(outputs[i].key, outputs[i].fields)))
  }

  function Transaction(op: ReplaceOp, now: string): seq<TxItem> {
    Updates(op.inputs, now) + Puts(op.outputs)
  }

  // ------------------------------------------------------------------
  // Agreement with the sequential executor
  // ------------------------------------------------------------------

  /** Every input that is there carries its spent flag as a BOOL; other items may not. */
  predicate InputsFlagged(t: Table, op: ReplaceOp) {
    forall i :: 0 <= i < |op.inputs| && op.inputs[i] in t ==>
      SPENT in t[op.inputs[i]] && t[op.inputs[i]][SPENT].Bool?
  }

  lemma FlagIsSpent(t: Table, k: Key)
    requires k in t && SPENT in t[k] && t[k][SPENT].Bool?
    ensures IsSpent(Abs(t)[k]) <==> t[k][SPENT] == Bool(true)
  {}

  lemma TransactionKeys(op: ReplaceOp, now: string)
    ensures var xs := Transaction(op, now);
      forall i :: 0 <= i < |xs| ==> xs[i].key == (op.inputs + OutputKeys(op.outputs))[i]
  {}

  lemma AcceptedIsCommittable(t: Table, op: ReplaceOp, now: string)
    requires Accepted(t, Transaction(op, now))
    ensures Committable(Abs(t), op) && InputsFlagged(t, op)
  {
    var xs, outs := Transaction(op, now), OutputKeys(op.outputs);
    TransactionKeys(op, now);
    forall i | 0 <= i < |op.inputs|
      ensures op.inputs[i] in t && !IsSpent(Abs(t)[op.inputs[i]])
      ensures SPENT in t[op.inputs[i]] && t[op.inputs[i]][SPENT].Bool?
    {
      assert ConditionHolds(t, xs[i]);
    }
    forall i | 0 <= i < |outs| ensures outs[i] !in t {
      assert ConditionHolds(t, xs[|op.inputs| + i]);
    }
    forall i, j | 0 <= i < j < |op.inputs| ensures op.inputs[i] != op.inputs[j] {
      assert xs[i].key != xs[j].key;
    }
    forall i, j | 0 <= i < j < |outs| ensures outs[i] != outs[j] {
      assert xs[|op.inputs| + i].key != xs[|op.inputs| + j].key;
    }
  }

  lemma CommittableIsAccepted(t: Table, op: ReplaceOp, now: string)
    requires Committable(Abs(t), op) && InputsFlagged(t, op)
    ensures Accepted(t, Transaction(op, now))
  {
    var xs, outs := Transaction(op, now), OutputKeys(op.outputs);
    TransactionKeys(op, now);
    CommittableKeysDiffer(Abs(t), op);
    forall i | 0 <= i < |xs| ensures ConditionHolds(t, xs[i]) {
      if i < |op.inputs| { FlagIsSpent(t, op.inputs[i]); }
      else { assert xs[i].key == outs[i - |op.inputs|]; }
    }
  }

  /** On any table: conditions on the state before demand what reading one's own writes demands, and the flags. */
  lemma AcceptsExactlyCommittable(t: Table, op: ReplaceOp, now: string)
    ensures Accepted(t, Transaction(op, now)) <==> Committable(Abs(t), op) && InputsFlagged(t, op)
  {
    if Accepted(t, Transaction(op, now)) { AcceptedIsCommittable(t, op, now); }
    if Committable(Abs(t), op) && InputsFlagged(t, op) { CommittableIsAccepted(t, op, now); }
  }

  lemma WriteAllSnoc(t: Table, xs: seq<TxItem>, x: TxItem)
    ensures WriteAll(t, xs + [x]) == Write(WriteAll(t, xs), x)
  {
    assert (xs + [x])[..|xs|] == xs;
  }

  lemma AbsUpdate(t: Table, k: Key, now: string)
    requires k in t
    ensures Abs(Write(t, Update(k, now))) == Abs(t)[k := MarkSpent(Abs(t)[k], now)]
  {
    var item := t[k][SPENT := Bool(true)][SPENT_AT := S(now)];
    assert ItemToFields(item) == MarkSpent(ItemToFields(t[k]), now);
  }

  lemma AbsPut(t: Table, o: Output)
    requires Encodable(o.fields)
    ensures Abs(Write(t, Put(o.key, ItemFor(o.key, o.fields)))) == Abs(t)[o.key := o.fields]
  {
    ItemRoundTrip(o.key, o.fields);
  }

  lemma {:induction false} UpdatesMark(t: Table, inputs: seq<Key>, now: string)
    requires NoDup(inputs) && forall i :: 0 <= i < |inputs| ==> inputs[i] in t
    ensures Abs(WriteAll(t, Updates(inputs, now))) == Marked(Abs(t), inputs, _ => now)
  {
    if inputs == [] {
      assert Marked(Abs(t), inputs, _ => now) == Abs(t);
    } else {
      var n := |inputs| - 1;
      var front, last := inputs[..n], inputs[n];
      UpdatesMark(t, front, now);
      UpdatesKeep(t, front, now, last);
      assert Updates(inputs, now) == Updates(front, now) + [Update(last, now)];
      WriteAllSnoc(t, Updates(front, now), Update(last, now));
      AbsUpdate(WriteAll(t, Updates(front, now)), last, now);
      MarkedSnoc(Abs(t), inputs, now);
    }
  }

  lemma MarkedSnoc(t: Tokens, inputs: seq<Key>, now: string)
    requires NoDup(inputs) && inputs != [] && inputs[|inputs| - 1] in t
    ensures var n := |inputs| - 1;
      Marked(t, inputs, _ => now) == Marked(t, inputs[..n], _ => now)[inputs[n] := MarkSpent(t[inputs[n]], now)]
  {
    MarkedNext(t, inputs, |inputs| - 1, _ => now);
    assert inputs[..|inputs| - 1 + 1] == inputs;
  }

  lemma {:induction false} UpdatesKeep(t: Table, inputs: seq<Key>, now: string, k: Key)
    requires k in t && k !in inputs
    ensures k in WriteAll(t, Updates(inputs, now)) && WriteAll(t, Updates(inputs, now))[k] == t[k]
  {
    if inputs != [] {
      var n := |inputs| - 1;
      assert Updates(inputs, now)[..n] == Updates(inputs[..n], now);
      UpdatesKeep(t, inputs[..n], now, k);
    }
  }

  lemma PutsSnoc(xs: seq<TxItem>, outputs: seq<Output>)
    requires outputs != []
    ensures var n := |outputs| - 1;
      xs + Puts(outputs) == xs + Puts(outputs[..n]) + [Put(outputs[n].key, ItemFor(outputs[n].key, outputs[n].fields))]
  {}

  lemma InsertedLast(t: Tokens, outputs: seq<Output>)
    requires outputs != []
    ensures var n := |outputs| - 1;
      Inserted(t, outputs) == Inserted(t, outputs[..n])[outputs[n].key := outputs[n].fields]
  {
    InsertedNext(t, outputs, |outputs| - 1);
    assert outputs[..|outputs| - 1 + 1] == outputs;
  }

  lemma {:induction false} PutsInsert(t: Table, xs: seq<TxItem>, outputs: seq<Output>)
    requires forall i :: 0 <= i < |outputs| ==> Encodable(outputs[i].fields)
    ensures Abs(WriteAll(t, xs + Puts(outputs))) == Inserted(Abs(WriteAll(t, xs)), outputs)
  {
    if outputs == [] {
      assert xs + Puts(outputs) == xs;
    } else {
      var n := |outputs| - 1;
      var front, last := outputs[..n], outputs[n];
      var x := Put(last.key, ItemFor(last.key, last.fields));
      PutsInsert(t, xs, front);
      PutsSnoc(xs, outputs);
      WriteAllSnoc(t, xs + Puts(front), x);
      AbsPut(WriteAll(t, xs + Puts(front)), last);
      InsertedLast(Abs(WriteAll(t, xs)), outputs);
    }
  }

  /**
   * On any table, DynamoDB reaches the token state that FoundationDB reaches
   * exactly unless a committable operation has an input without its flag; and
   * flagged tables stay flagged.
   */
  lemma AgreesWithFdb(t: Table, op: ReplaceOp, now: string)
    requires forall i :: 0 <= i < |op.outputs| ==> Encodable(op.outputs[i].fields)
    ensures var t' := if Accepted(t, Transaction(op, now)) then WriteAll(t, Transaction(op, now)) else t;
      && (Abs(t') == FdbStore.AfterReplace(Abs(t), op, _ => now) <==> (Committable(Abs(t), op) ==> InputsFlagged(t, op)))
      && (Flagged(t) ==> Flagged(t'))
  {
    AcceptsExactlyCommittable(t, op, now);
    if Committable(Abs(t), op) && InputsFlagged(t, op) {
      TransactionApplies(t, op, now);
      PutsAreFlagged(op, now);
      if Flagged(t) { StaysFlagged(t, Transaction(op, now)); }
    }
    if Committable(Abs(t), op) && !InputsFlagged(t, op) { CommitShows(Abs(t), op, now); }
  }

  /** A commit with inputs is visible in the ledger. */
  lemma CommitShows(t: Tokens, op: ReplaceOp, now: string)
    requires Committable(t, op) && op.inputs != []
    ensures Applied(t, op, _ => now) != t
  {
    AppliedKeyByKey(t, op, _ => now);
    assert IsSpent(Applied(t, op, _ => now)[op.inputs[0]]);
  }

  lemma TransactionApplies(t: Table, op: ReplaceOp, now: string)
    requires Committable(Abs(t), op) && forall i :: 0 <= i < |op.outputs| ==> Encodable(op.outputs[i].fields)
    ensures Abs(WriteAll(t, Transaction(op, now))) == Applied(Abs(t), op, _ => now)
  {
    UpdatesMark(t, op.inputs, now);
    PutsInsert(t, Updates(op.inputs, now), op.outputs);
  }

  lemma PutsAreFlagged(op: ReplaceOp, now: string)
    requires forall i :: 0 <= i < |op.outputs| ==> Encodable(op.outputs[i].fields)
    ensures var xs := Transaction(op, now);
      forall i :: 0 <= i < |xs| && xs[i].Put? ==> SPENT in xs[i].item && xs[i].item[SPENT].Bool?
  {}

  lemma {:induction false} StaysFlagged(t: Table, xs: seq<TxItem>)
    requires Flagged(t)
    requires forall i :: 0 <= i < |xs| && xs[i].Put? ==> SPENT in xs[i].item && xs[i].item[SPENT].Bool?
    ensures Flagged(WriteAll(t, xs))
  {
    if xs != [] { StaysFlagged(t, xs[..|xs| - 1]); }
  }

  /** An item without the flag counts as unspent elsewhere but never meets the condition here. */
  lemma MissingFlagIsRefused(t: Table, op: ReplaceOp, now: string, i: nat)
    requires i < |op.inputs| && op.inputs[i] in t && SPENT !in t[op.inputs[i]]
    ensures !IsSpent(Abs(t)[op.inputs[i]]) && !Accepted(t, Transaction(op, now))
  {
    assert !ConditionHolds(t, Transaction(op, now)[i]);
  }
}
