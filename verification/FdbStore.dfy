// The FoundationDB backend: read, check and write inside one serializable
// transaction that is dropped on error (crates/storage/src/fdb_backend.rs).

module FdbStore {
  import opened Prelude
  import opened Ledger

  datatype FdbError =
    | InputNotFound(input: Key)
    | InputAlreadySpent(input: Key)
    | OutputAlreadyExists(output: Key)

  class FdbStore {
    var tokens: Tokens
    var audit: map<Key, string>

    constructor ()
      ensures tokens == map[] && audit == map[]
    {
      tokens, audit := map[], map[];
    }

    /** All records or none; a record that repeats a key, in the store or in the batch, is an error. */
    method InsertTokens(records: seq<Output>) returns (r: Result<(), FdbError>)
      modifies this`tokens
      ensures r.Ok? <==> Insertable(old(tokens), records)
      ensures tokens == if r.Ok? then Inserted(old(tokens), records) else old(tokens)
    {
      var trx :- PutOutputs(tokens, records);
      tokens := trx;
      return Ok(());
    }

    /** Commits exactly the committable replaces; any other leaves tokens and audit log alone. */
    method ExecReplace(op: ReplaceOp, clock: nat -> string) returns (r: Result<(), FdbError>)
      modifies this
      ensures r.Ok? <==> Committable(old(tokens), op)
      ensures r.Ok? ==> tokens == Applied(old(tokens), op, clock) && audit == old(audit)[op.auditKey := op.audit]
      ensures r.Err? ==> tokens == old(tokens) && audit == old(audit)
      ensures r.Err? && !r.error.OutputAlreadyExists? ==> FirstBadInput(old(tokens), op.inputs, r.error)
    {
      var trx :- MarkInputs(op.inputs, clock);
      assert trx.Keys == tokens.Keys;
      trx :- PutOutputs(trx, op.outputs);
      tokens := trx;
      audit := audit[op.auditKey := op.audit];
      return Ok(());
    }

    /** The first loop: read each input through the transaction, then mark it. */
    method MarkInputs(inputs: seq<Key>, clock: nat -> string) returns (r: Result<Tokens, FdbError>)
      ensures r.Ok? <==> NoDup(inputs) && AllUnspent(tokens, inputs)
      ensures r.Ok? ==> r.value == Marked(tokens, inputs, clock)
      ensures r.Err? ==> !r.error.OutputAlreadyExists? && FirstBadInput(tokens, inputs, r.error)
    {
      var trx := tokens;
      assert Marked(tokens, inputs[..0], clock) == tokens;
      for i := 0 to |inputs|
        invariant trx == Marked(tokens, inputs[..i], clock)
        invariant NoDup(inputs[..i]) && AllUnspent(tokens, inputs[..i])
      {
        var k := inputs[i];
        SeenThroughMarks(tokens, inputs, i, clock);
        if k !in trx { return Err(InputNotFound(k)); }
        if IsSpent(trx[k]) { return Err(InputAlreadySpent(k)); }
        MarkedNext(tokens, inputs, i, clock);
        trx := trx[k := MarkSpent(trx[k], clock(i))];
      }
      assert inputs[..|inputs|] == inputs;
      return Ok(trx);
    }

    /** The second loop: each output must be new to the transaction, earlier outputs included. */
    method PutOutputs(start: Tokens, outputs: seq<Output>) returns (r: Result<Tokens, FdbError>)
      ensures r.Ok? <==> Insertable(start, outputs)
      ensures r.Ok? ==> r.value == Inserted(start, outputs)
      ensures r.Err? ==> r.error.OutputAlreadyExists?
    {
      var trx := start;
      assert OutputKeys(outputs[..0]) == [];
      assert Inserted(start, outputs[..0]) == start;
      for i := 0 to |outputs|
        invariant trx == Inserted(start, outputs[..i])
        invariant Insertable(start, outputs[..i])
      {
        PresentAfterInserting(start, outputs, i);
        if outputs[i].key in trx { return Err(OutputAlreadyExists(outputs[i].key)); }
        trx := trx[outputs[i].key := outputs[i].fields];
        InsertedNext(start, outputs, i);
      }
      assert outputs[..|outputs|] == outputs;
      return Ok(trx);
    }

    method ExecBurn(k: Key, auditKey: Key, record: string, now: string) returns (r: Result<(), FdbError>)
      modifies this
      ensures r.Ok? <==> Burnable(old(tokens), k)
      ensures r.Ok? ==> tokens == Burned(old(tokens), k, now) && audit == old(audit)[auditKey := record]
      ensures r.Err? ==> tokens == old(tokens) && audit == old(audit)
    {
      if k !in tokens { return Err(InputNotFound(k)); }
      if IsSpent(tokens[k]) { return Err(InputAlreadySpent(k)); }
      tokens := tokens[k := MarkSpent(tokens[k], now)];
      audit := audit[auditKey := record];
      return Ok(());
    }

    method ReplaceOne(op: ReplaceOp, clock: nat -> string) returns (r: Result<(), FdbError>)
      modifies this
      ensures tokens == AfterReplace(old(tokens), op, clock)
      ensures r.Ok? <==> Committable(old(tokens), op)
      ensures audit == if r.Ok? then old(audit)[op.auditKey := op.audit] else old(audit)
    {
      r := ExecReplace(op, clock);
    }

    /** One transaction per operation, in order; one result each. */
    method BatchReplace(ops: seq<ReplaceOp>, clock: nat -> string) returns (results: seq<Result<(), FdbError>>)
      modifies this
      ensures |results| == |ops|
      ensures tokens == AfterAll(old(tokens), ops, clock)
      ensures audit == AuditAfter(old(tokens), old(audit), ops, clock)
      ensures forall i :: 0 <= i < |ops| ==> (results[i].Ok? <==> Commits(old(tokens), ops, i, clock))
    {
      results := [];
      for n := 0 to |ops|
        invariant |results| == n && tokens == AfterAll(old(tokens), ops[..n], clock)
        invariant audit == AuditAfter(old(tokens), old(audit), ops[..n], clock)
        invariant forall i :: 0 <= i < n ==> (results[i].Ok? <==> Commits(old(tokens), ops, i, clock))
      {
        var r := ReplaceOne(ops[n], clock);
        results := results + [r];
        assert ops[..n + 1][..n] == ops[..n];
      }
      assert ops[..|ops|] == ops;
    }

    /** The records under these keys, missing ones as None. */
    method GetTokens(ks: seq<Key>) returns (found: seq<Option<Fields>>)
      ensures |found| == |ks|
      ensures forall i :: 0 <= i < |ks| ==> found[i] == Get(tokens, ks[i])
    {
      found := [];
      for i := 0 to |ks|
        invariant |found| == i && forall j :: 0 <= j < i ==> found[j] == Get(tokens, ks[j])
      {
        found := found + [if ks[i] in tokens then Some(tokens[ks[i]]) else None];
      }
    }

    /** The spent flags under these keys, None for missing tokens. */
    method CheckTokens(ks: seq<Key>) returns (spent: seq<Option<bool>>)
      ensures |spent| == |ks|
      ensures forall i :: 0 <= i < |ks| ==>
        spent[i] == if ks[i] in tokens then Some(IsSpent(tokens[ks[i]])) else None
    {
      var found := GetTokens(ks);
      spent := seq(|ks|, i requires 0 <= i < |found| => if found[i].Some? then Some(IsSpent(found[i].value)) else None);
    }
  }

  /** The input that stops the loop: everything before it is distinct and unspent. */
  predicate FirstBadInput(t: Tokens, inputs: seq<Key>, e: FdbError) {
    exists i :: 0 <= i < |inputs| && StopsAt(t, inputs, i, e)
  }

  predicate StopsAt(t: Tokens, inputs: seq<Key>, i: nat, e: FdbError)
    requires i < |inputs|
  {
    && NoDup(inputs[..i]) && AllUnspent(t, inputs[..i])
    && (e == if inputs[i] in t then InputAlreadySpent(inputs[i]) else InputNotFound(inputs[i]))
    && (inputs[i] in t ==> inputs[i] in inputs[..i] || IsSpent(t[inputs[i]]))
  }

  /** What the transaction reads for input `i` after marking those before it. */
  lemma SeenThroughMarks(t: Tokens, inputs: seq<Key>, i: nat, clock: nat -> string)
    requires i < |inputs| && NoDup(inputs[..i]) && AllUnspent(t, inputs[..i])
    ensures var trx, k := Marked(t, inputs[..i], clock), inputs[i];
      && (k in trx <==> k in t)
      && (k in t && IsSpent(trx[k]) <==> k in t && (k in inputs[..i] || IsSpent(t[k])))
      && (k in t && !IsSpent(trx[k]) ==> NoDup(inputs[..i + 1]) && AllUnspent(t, inputs[..i + 1]))
      && (!(k in t && !IsSpent(trx[k])) ==> !(NoDup(inputs) && AllUnspent(t, inputs)))
      && (k !in t ==> FirstBadInput(t, inputs, InputNotFound(k)))
      && (k in t && IsSpent(trx[k]) ==> FirstBadInput(t, inputs, InputAlreadySpent(k)))
  {
    var k := inputs[i];
    NoDupNext(inputs, i);
    if k !in t { assert StopsAt(t, inputs, i, InputNotFound(k)); }
    else if k in inputs[..i] || IsSpent(t[k]) { assert StopsAt(t, inputs, i, InputAlreadySpent(k)); }
    if k in inputs[..i] {
      var j :| 0 <= j < i && inputs[..i][j] == k;
      assert inputs[j] == inputs[i];
    }
  }

  function Get(t: Tokens, k: Key): Option<Fields> {
    if k in t then Some(t[k]) else None
  }

  /** One replace: applied if committable, otherwise without effect. */
  function AfterReplace(t: Tokens, op: ReplaceOp, clock: nat -> string): Tokens {
    if Committable(t, op) then Applied(t, op, clock) else t
  }

  function AfterAll(t: Tokens, ops: seq<ReplaceOp>, clock: nat -> string): Tokens {
    if ops == [] then t else AfterReplace(AfterAll(t, ops[..|ops| - 1], clock), ops[|ops| - 1], clock)
  }

  /** Committed operations, and no others, leave their record in the audit log. */
  function AuditAfter(t: Tokens, audit: map<Key, string>, ops: seq<ReplaceOp>, clock: nat -> string): map<Key, string> {
    if ops == [] then audit
    else
      var front, op := ops[..|ops| - 1], ops[|ops| - 1];
      if Committable(AfterAll(t, front, clock), op) then AuditAfter(t, audit, front, clock)[op.auditKey := op.audit]
      else AuditAfter(t, audit, front, clock)
  }

  /** Operation `i` of a batch finds everything it needs after those before it. */
  predicate Commits(t: Tokens, ops: seq<ReplaceOp>, i: nat, clock: nat -> string)
    requires i < |ops|
  {
    Committable(AfterAll(t, ops[..i], clock), ops[i])
  }

  /** A key is present in the transaction if it was before or an earlier record put it there. */
  lemma PresentAfterInserting(t: Tokens, records: seq<Output>, i: nat)
    requires i < |records|
    ensures records[i].key in Inserted(t, records[..i]) <==>
      records[i].key in t || records[i].key in OutputKeys(records[..i])
    ensures OutputKeys(records[..i + 1]) == OutputKeys(records[..i]) + [records[i].key]
    ensures Insertable(t, records[..i]) ==>
      (Insertable(t, records[..i + 1]) <==> records[i].key !in Inserted(t, records[..i]))
    ensures Insertable(t, records) ==> Insertable(t, records[..i + 1])
  {
    var ks := OutputKeys(records);
    assert OutputKeys(records[..i]) == ks[..i] && OutputKeys(records[..i + 1]) == ks[..i + 1];
    NoDupNext(ks, i);
    if records[i].key in OutputKeys(records[..i]) {
      var j :| 0 <= j < i && OutputKeys(records[..i])[j] == records[i].key;
      assert records[..i][j].key == records[i].key;
    }
  }
}
