// What the batched replaces of the webcash store do to the ledger: when they are
// the all-or-nothing replace, and what callers that were told `Done` can count on
// (crates/server/src/db/redis.rs, crates/server/src/actors/batcher.rs).

module BatcherLedger {
  import opened Ledger
  import opened LedgerRuns
  import opened Batcher
  import FdbStore
  import R = RedisStore

  // ------------------------------------------------------------------
  // The script is the general one with four fields per output
  // ------------------------------------------------------------------

  function EntriesFor(o: NewToken): R.Entries {
    [(AMOUNT, o.amount), (SPENT, "0"), ("created_at", o.createdAt), ("origin", o.origin)]
  }

  function General(op: Op): R.RedisOp {
    R.RedisOp(op.inputs,
      seq(|op.outputs|, i requires 0 <= i < |op.outputs| => R.RedisOutput(op.outputs[i].key, EntriesFor(op.outputs[i]))),
      op.auditKey, op.audit)
  }

  /** The all-or-nothing replace it is meant to be. */
  function Meant(op: Op): ReplaceOp { R.Meant(General(op)) }

  lemma EntriesAreFields(o: NewToken)
    ensures R.FieldsOf(EntriesFor(o)) == TokenFields(o)
  {
    var e := EntriesFor(o);
    assert e[..3] == [e[0], e[1], e[2]] && e[..3][..2] == [e[0], e[1]] && e[..3][..2][..1] == [e[0]];
    assert R.FieldsOf([e[0]]) == map[AMOUNT := o.amount] by { assert [e[0]][..0] == []; }
    assert R.FieldsOf([e[0], e[1]]) == map[AMOUNT := o.amount, SPENT := "0"] by { assert [e[0], e[1]][..1] == [e[0]]; }
  }

  lemma GeneralIsAligned(op: Op)
    ensures var es := R.EntriesOf(General(op).outputs); R.ProperOutputs(es) && R.Aligned(es) && R.LayoutRight(es)
  {
    R.LayoutRightExactlyAligned(R.EntriesOf(General(op).outputs));
  }

  lemma {:induction false} SamePuts(t: Tokens, op: Op, now: string, i: nat)
    requires i <= |op.outputs|
    ensures PutFrom(t, op.outputs, i) == R.PutFrom(t, R.CallFor(General(op), now), i)
    decreases |op.outputs| - i
  {
    if i < |op.outputs| {
      var o := op.outputs[i];
      GeneralIsAligned(op);
      R.PutOne(t, General(op), now, i);
      EntriesAreFields(o);
      if o.key !in t { SamePuts(t[o.key := TokenFields(o)], op, now, i + 1); }
    }
  }

  lemma SameScript(t: Tokens, op: Op, now: string)
    ensures Script(t, op, now) == R.Script(t, R.CallFor(General(op), now))
  {
    SamePuts(Marked(t, op.inputs, _ => now), op, now, 0);
  }

  // ------------------------------------------------------------------
  // Against the ledger
  // ------------------------------------------------------------------

  /** Reply and ledger are those of the all-or-nothing replace. */
  ghost predicate Agrees(t: Tokens, op: Op, now: string) {
    var (t', reply) := Script(t, op, now);
    (reply == R.Done <==> Committable(t, Meant(op))) && t' == FdbStore.AfterReplace(t, Meant(op), _ => now)
  }

  /**
   * The batched script is the all-or-nothing replace exactly when its inputs
   * are not ready; or no output is in the way and no input is repeated; or it
   * has no inputs and trips over its first output.
   */
  lemma ScriptAgreesExactly(t: Tokens, op: Op, now: string)
    ensures Agrees(t, op, now) <==>
      (AllUnspent(t, op.inputs) ==>
        if Insertable(t, Meant(op).outputs) then NoDup(op.inputs)
        else op.inputs == [] && op.outputs != [] && op.outputs[0].key in t)
  {
    SameScript(t, op, now);
    GeneralIsAligned(op);
    R.AgreesExactlyWhenFaithful(t, General(op), now);
  }

  /** What one script does, whatever it is given. */
  lemma ScriptDoes(t: Tokens, op: Op, now: string)
    ensures var (t', reply) := Script(t, op, now);
      && (reply == R.Done <==> AllUnspent(t, op.inputs) && Insertable(t, Meant(op).outputs))
      && (reply == R.Done ==> t' == Applied(t, Meant(op), _ => now))
      && (!AllUnspent(t, op.inputs) ==> t' == t)
  {
    SameScript(t, op, now);
    GeneralIsAligned(op);
    R.ScriptOutcome(t, General(op), now);
  }

  // ------------------------------------------------------------------
  // What a caller can count on
  // ------------------------------------------------------------------

  /** The record of a new token: worth what was asked for, not spent. */
  predicate Holds(t: Tokens, o: NewToken) {
    o.key in t && AMOUNT in t[o.key] && t[o.key][AMOUNT] == o.amount
  }

  lemma OutputIsHeld(t: Tokens, op: Op, now: string, i: nat)
    requires Insertable(t, Meant(op).outputs) && i < |op.outputs|
    ensures var t', o := Applied(t, Meant(op), _ => now), op.outputs[i];
      o.key !in t && Holds(t', o) && !IsSpent(t'[o.key])
  {
    var outs, o := Meant(op).outputs, op.outputs[i];
    assert outs[i] == Output(o.key, R.FieldsOf(EntriesFor(o)));
    InsertedAt(t, Marked(t, op.inputs, _ => now), outs, i);
    EntriesAreFields(o);
    NewIsUnspent(o);
  }

  lemma NewIsUnspent(o: NewToken)
    ensures var f := TokenFields(o); !IsSpent(f) && AMOUNT in f && f[AMOUNT] == o.amount
  {}

  lemma InsertedAt(t: Tokens, marked: Tokens, outs: seq<Output>, i: nat)
    requires Insertable(t, outs) && i < |outs|
    ensures outs[i].key !in t
    ensures outs[i].key in Inserted(marked, outs) && Inserted(marked, outs)[outs[i].key] == outs[i].fields
  {
    assert OutputKeys(outs)[i] == outs[i].key;
    LookupAt(outs, i);
  }

  lemma InputIsSpent(t: Tokens, op: Op, now: string, i: nat)
    requires AllUnspent(t, op.inputs) && Insertable(t, Meant(op).outputs) && i < |op.inputs|
    ensures var t', k := Applied(t, Meant(op), _ => now), op.inputs[i]; k in t' && IsSpent(t'[k])
  {
    var outs := Meant(op).outputs;
    forall j | 0 <= j < |outs| ensures outs[j].key != op.inputs[i] { assert OutputKeys(outs)[j] !in t; }
  }

  /**
   * A request that was answered `Done` has spent its inputs and stored its outputs,
   * each unspent and worth its amount.
   */
  lemma DoneIsDone(t: Tokens, op: Op, now: string)
    requires Script(t, op, now).1 == R.Done
    ensures var t' := Script(t, op, now).0;
      && (forall i :: 0 <= i < |op.inputs| ==>
            && op.inputs[i] in t && !IsSpent(t[op.inputs[i]])
            && op.inputs[i] in t' && IsSpent(t'[op.inputs[i]]))
      && (forall i :: 0 <= i < |op.outputs| ==>
            op.outputs[i].key !in t && Holds(t', op.outputs[i]) && !IsSpent(t'[op.outputs[i].key]))
  {
    ScriptDoes(t, op, now);
    forall i | 0 <= i < |op.inputs|
      ensures op.inputs[i] in Applied(t, Meant(op), _ => now) && IsSpent(Applied(t, Meant(op), _ => now)[op.inputs[i]])
    {
      InputIsSpent(t, op, now, i);
    }
    forall i | 0 <= i < |op.outputs|
      ensures op.outputs[i].key !in t && Holds(Applied(t, Meant(op), _ => now), op.outputs[i])
      ensures !IsSpent(Applied(t, Meant(op), _ => now)[op.outputs[i].key])
    {
      OutputIsHeld(t, op, now, i);
    }
  }

  lemma {:induction false} PutsGrow(t: Tokens, outputs: seq<NewToken>, i: nat)
    requires i <= |outputs|
    ensures forall k <- t :: k in PutFrom(t, outputs, i).0 && PutFrom(t, outputs, i).0[k] == t[k]
    decreases |outputs| - i
  {
    if i < |outputs| && outputs[i].key !in t { PutsGrow(t[outputs[i].key := TokenFields(outputs[i])], outputs, i + 1); }
  }

  /** No script drops a record or changes anything in it but its spent mark. */
  lemma ScriptGrows(t: Tokens, op: Op, now: string)
    ensures Grows(t, Script(t, op, now).0)
  {
    R.CheckInputsPasses(t, op.inputs);
    PutsGrow(Marked(t, op.inputs, _ => now), op.outputs, 0);
  }

  lemma {:induction false} LedgerGrows(t: Tokens, rs: seq<Timed>)
    ensures Grows(t, StateAfter(t, rs))
  {
    if rs != [] {
      var n := |rs| - 1;
      LedgerGrows(t, rs[..n]);
      ScriptGrows(StateAfter(t, rs[..n]), rs[n].op, rs[n].now);
      forall k <- t ensures Keeps(t[k], StateAfter(t, rs)[k]) {
        KeepsTransitive(t[k], StateAfter(t, rs[..n])[k], StateAfter(t, rs)[k]);
      }
    }
  }

  /** The request at one place of the queue, between those before and after it. */
  lemma RequestAt(t: Tokens, rs: seq<Timed>, i: nat)
    requires i < |rs|
    ensures var (t', reply) := Script(StateAfter(t, rs[..i]), rs[i].op, rs[i].now);
      RepliesTo(t, rs)[i] == reply && StateAfter(t, rs) == StateAfter(t', rs[i + 1..])
  {
    assert rs[..i + 1][..i] == rs[..i] && rs == rs[..i + 1] + rs[i + 1..];
    BatchesCompose(t, rs[..i + 1], rs[i + 1..]);
    assert |RepliesTo(t, rs[..i])| == i;
  }

  lemma HeldStays(t: Tokens, t': Tokens, o: NewToken)
    requires Holds(t, o) && Grows(t, t')
    ensures Holds(t', o)
  {}

  lemma SpentStays(t: Tokens, t': Tokens, k: Key)
    requires k in t && IsSpent(t[k]) && Grows(t, t')
    ensures k in t' && IsSpent(t'[k])
  {}

  /**
   * However the actor cut the queue into batches: a caller that was answered
   * `Done` finds its outputs in the ledger ever after, worth their amounts, and
   * its inputs spent.
   */
  lemma AnsweredIsKept(t: Tokens, rs: seq<Timed>, i: nat)
    requires i < |rs| && RepliesTo(t, rs)[i] == R.Done
    ensures var t', op := StateAfter(t, rs), rs[i].op;
      && (forall n :: 0 <= n < |op.outputs| ==> Holds(t', op.outputs[n]))
      && (forall n :: 0 <= n < |op.inputs| ==> op.inputs[n] in t' && IsSpent(t'[op.inputs[n]]))
  {
    var t0, op := StateAfter(t, rs[..i]), rs[i].op;
    var t1 := Script(t0, op, rs[i].now).0;
    RequestAt(t, rs, i);
    DoneIsDone(t0, op, rs[i].now);
    LedgerGrows(t1, rs[i + 1..]);
    forall n | 0 <= n < |op.outputs| ensures Holds(StateAfter(t, rs), op.outputs[n]) {
      HeldStays(t1, StateAfter(t, rs), op.outputs[n]);
    }
    forall n | 0 <= n < |op.inputs|
      ensures op.inputs[n] in StateAfter(t, rs) && IsSpent(StateAfter(t, rs)[op.inputs[n]])
    {
      SpentStays(t1, StateAfter(t, rs), op.inputs[n]);
    }
  }

  /** Of all requests that were answered `Done`, no two spent the same token. */
  lemma SpentOnce(t: Tokens, rs: seq<Timed>, i: nat, j: nat, m: nat, n: nat)
    requires i < j < |rs| && RepliesTo(t, rs)[i] == R.Done && RepliesTo(t, rs)[j] == R.Done
    requires m < |rs[i].op.inputs| && n < |rs[j].op.inputs|
    ensures rs[i].op.inputs[m] != rs[j].op.inputs[n]
  {
    var before := rs[..j];
    RequestAt(t, rs, i);
    RequestAt(t, before, i);
    assert before[i] == rs[i] && before[..i] == rs[..i];
    AnsweredIsKept(t, before, i);
    RequestAt(t, rs, j);
    DoneIsDone(StateAfter(t, before), rs[j].op, rs[j].now);
  }
}
