// The Redis backend: one Lua script per replace, fed a flat argument list
// (crates/storage/src/redis_backend.rs). A script is atomic but has no
// rollback, and it finds an output's fields by position.

module RedisStore {
  import opened Prelude
  import opened Ledger
  import FdbStore

  datatype Reply = Done | InputNotFound(k: Key) | InputSpent(k: Key) | OutputExists(k: Key) | WrongArity

  /** KEYS and ARGV of one evaluation; `payload` is ARGV from the seventh on. */
  datatype Call = Call(
    inputs: seq<Key>, outputs: seq<Key>, fieldsPerOutput: nat, now: string,
    auditKey: Key, audit: string, payload: seq<string>)

  /** The arguments the script reads for output `i`; ARGV ends where it ends. */
  function Slice(payload: seq<string>, f: nat, i: nat): seq<string> {
    var from := Min(i * (2 * f), |payload|);
    payload[from..Min(from + 2 * f, |payload|)]
  }

  /** HSET on a hash: name, value, name, value, ... */
  function HSet(h: Fields, args: seq<string>): Fields
    decreases |args|
  {
    if |args| < 2 then h else HSet(h[args[0] := args[1]], args[2..])
  }

  predicate WellFormedArgs(args: seq<string>) { args != [] && |args| % 2 == 0 }

  // ------------------------------------------------------------------
  // What the script computes
  // ------------------------------------------------------------------

  function CheckInputs(t: Tokens, inputs: seq<Key>): Reply {
    if inputs == [] then Done
    else if inputs[0] !in t then InputNotFound(inputs[0])
    else if IsSpent(t[inputs[0]]) then InputSpent(inputs[0])
    else CheckInputs(t, inputs[1..])
  }

  /** The output loop from output `i` on. */
  function PutFrom(t: Tokens, c: Call, i: nat): (Tokens, Reply)
    requires i <= |c.outputs|
    decreases |c.outputs| - i
  {
    if i == |c.outputs| then (t, Done)
    else if c.outputs[i] in t then (t, OutputExists(c.outputs[i]))
    else if !WellFormedArgs(Slice(c.payload, c.fieldsPerOutput, i)) then (t, WrongArity)
    else PutFrom(t[c.outputs[i] := HSet(map[], Slice(c.payload, c.fieldsPerOutput, i))], c, i + 1)
  }

  function Script(t: Tokens, c: Call): (Tokens, Reply) {
    var checked := CheckInputs(t, c.inputs);
    if checked != Done then (t, checked)
    else PutFrom(Marked(t, c.inputs, _ => c.now), c, 0)
  }

  /** The marking loop, as HSETs on one hash after the other. */
  method MarkEach(t: Tokens, inputs: seq<Key>, now: string) returns (marked: Tokens)
    requires AllUnspent(t, inputs)
    ensures marked == Marked(t, inputs, _ => now)
  {
    marked := t;
    assert Marked(t, inputs[..0], _ => now) == t;
    for i := 0 to |inputs|
      invariant marked == Marked(t, inputs[..i], _ => now)
    {
      MarkedAgain(t, inputs, i, now);
      marked := marked[inputs[i] := MarkSpent(marked[inputs[i]], now)];
    }
    assert inputs[..|inputs|] == inputs;
  }

  class RedisStore {
    var tokens: Tokens
    var audit: map<Key, string>

    method EvalReplace(c: Call) returns (reply: Reply)
      modifies this
      ensures (tokens, reply) == Script(old(tokens), c)
      ensures audit == if reply == Done then old(audit)[c.auditKey := c.audit] else old(audit)
    {
      var i := 0;
      while i < |c.inputs|
        invariant 0 <= i <= |c.inputs| && tokens == old(tokens) && audit == old(audit)
        invariant CheckInputs(tokens, c.inputs) == CheckInputs(tokens, c.inputs[i..])
        invariant AllUnspent(tokens, c.inputs[..i])
      {
        var k := c.inputs[i];
        if k !in tokens { return InputNotFound(k); }
        if IsSpent(tokens[k]) { return InputSpent(k); }
        assert c.inputs[i..][1..] == c.inputs[i + 1..];
        i := i + 1;
      }
      assert c.inputs[..i] == c.inputs;
      tokens := MarkEach(tokens, c.inputs, c.now);
      reply := PutEach(c);
      if reply == Done { audit := audit[c.auditKey := c.audit]; }
    }

    method PutEach(c: Call) returns (reply: Reply)
      modifies this`tokens
      ensures (tokens, reply) == PutFrom(old(tokens), c, 0)
    {
      for i := 0 to |c.outputs|
        invariant PutFrom(tokens, c, i) == PutFrom(old(tokens), c, 0)
      {
        var k := c.outputs[i];
        if k in tokens { return OutputExists(k); }
        var args := Slice(c.payload, c.fieldsPerOutput, i);
        if !WellFormedArgs(args) { return WrongArity; }
        tokens := tokens[k := HSet(map[], args)];
      }
      reply := Done;
    }
  }

  /** With one clock reading, marking a key again changes nothing. */
  lemma MarkedAgain(t: Tokens, ks: seq<Key>, i: nat, now: string)
    requires i < |ks| && ks[i] in t
    ensures var m := Marked(t, ks[..i], _ => now);
      Marked(t, ks[..i + 1], _ => now) == m[ks[i] := MarkSpent(m[ks[i]], now)]
  {
    assert ks[..i + 1][..i] == ks[..i];
    var m := Marked(t, ks[..i], _ => now);
    assert MarkSpent(MarkSpent(t[ks[i]], now), now) == MarkSpent(t[ks[i]], now);
    assert m[ks[i]] == t[ks[i]] || m[ks[i]] == MarkSpent(t[ks[i]], now);
  }

  // ------------------------------------------------------------------
  // The argument layout of batch_replace
  // ------------------------------------------------------------------

  /** An output's fields as `batch_replace` emits them: sorted name and value pairs. */
  type Entries = seq<(string, string)>

  predicate Distinct(e: Entries) { forall i, j :: 0 <= i < j < |e| ==> e[i].0 != e[j].0 }

  function FieldsOf(e: Entries): Fields {
    if e == [] then map[] else FieldsOf(e[..|e| - 1])[e[|e| - 1].0 := e[|e| - 1].1]
  }

  function Flat(e: Entries): (r: seq<string>)
    ensures |r| == 2 * |e|
  {
    if e == [] then [] else Flat(e[..|e| - 1]) + [e[|e| - 1].0, e[|e| - 1].1]
  }

  function Payload(es: seq<Entries>): seq<string> {
    if es == [] then [] else Payload(es[..|es| - 1]) + Flat(es[|es| - 1])
  }

  /** The field count of the first output stands for all. */
  function FieldsPerOutput(es: seq<Entries>): nat { if es == [] then 0 else |es[0]| }

  /** The script reads every output's own fields. */
  predicate LayoutRight(es: seq<Entries>) {
    forall i :: 0 <= i < |es| ==> ReadsOwnFields(es, i)
  }

  predicate ReadsOwnFields(es: seq<Entries>, i: nat)
    requires i < |es|
  {
    var args := Slice(Payload(es), FieldsPerOutput(es), i);
    WellFormedArgs(args) && HSet(map[], args) == FieldsOf(es[i])
  }

  /** Outputs that all have fields, no field twice. */
  predicate ProperOutputs(es: seq<Entries>) {
    forall i :: 0 <= i < |es| ==> es[i] != [] && Distinct(es[i])
  }

  /** All outputs but the last have as many fields as the first, and the last has no more. */
  predicate Aligned(es: seq<Entries>) {
    forall i :: 0 <= i < |es| ==> |es[i]| <= |es[0]| && (i < |es| - 1 ==> |es[i]| == |es[0]|)
  }

  lemma {:induction false} HSetSnoc(h: Fields, args: seq<string>, name: string, value: string)
    requires |args| % 2 == 0
    ensures HSet(h, args + [name, value]) == HSet(h, args)[name := value]
    decreases |args|
  {
    var all := args + [name, value];
    if args == [] {
      assert all[2..] == [];
    } else {
      assert all[2..] == args[2..] + [name, value];
      HSetSnoc(h[args[0] := args[1]], args[2..], name, value);
    }
  }

  lemma {:induction false} HSetFlat(e: Entries)
    ensures HSet(map[], Flat(e)) == FieldsOf(e)
  {
    if e != [] {
      HSetFlat(e[..|e| - 1]);
      HSetSnoc(map[], Flat(e[..|e| - 1]), e[|e| - 1].0, e[|e| - 1].1);
    }
  }

  lemma {:induction false} HSetSize(h: Fields, args: seq<string>)
    ensures |HSet(h, args)| <= |h| + |args| / 2
    decreases |args|
  {
    if |args| >= 2 {
      assert h[args[0] := args[1]].Keys <= h.Keys + {args[0]};
      HSetSize(h[args[0] := args[1]], args[2..]);
    }
  }

  lemma {:induction false} FieldsOfSize(e: Entries)
    requires Distinct(e)
    ensures |FieldsOf(e)| == |e|
    ensures forall name :: name in FieldsOf(e) <==> exists i :: 0 <= i < |e| && e[i].0 == name
  {
    if e != [] {
      FieldsOfSize(e[..|e| - 1]);
      assert e[|e| - 1].0 !in FieldsOf(e[..|e| - 1]);
    }
  }

  lemma {:induction false} PayloadLength(es: seq<Entries>, f: nat)
    requires forall i :: 0 <= i < |es| ==> |es[i]| <= f
    ensures |Payload(es)| <= 2 * f * |es|
    ensures |Payload(es)| == 2 * f * |es| ==> forall i :: 0 <= i < |es| ==> |es[i]| == f
    ensures (forall i :: 0 <= i < |es| ==> |es[i]| == f) ==> |Payload(es)| == 2 * f * |es|
  {
    if es != [] {
      PayloadLength(es[..|es| - 1], f);
      assert 2 * f * |es| == 2 * f * (|es| - 1) + 2 * f;
    }
  }

  lemma {:induction false} PayloadPrefix(es: seq<Entries>, i: nat)
    requires i < |es|
    ensures |Payload(es[..i])| + |Flat(es[i])| <= |Payload(es)|
    ensures Payload(es)[|Payload(es[..i])|..|Payload(es[..i])| + |Flat(es[i])|] == Flat(es[i])
  {
    var n := |es| - 1;
    assert Payload(es) == Payload(es[..n]) + Flat(es[n]);
    if i < n {
      PayloadPrefix(es[..n], i);
      assert es[..n][..i] == es[..i] && es[..n][i] == es[i];
    } else {
      assert es[..i] == es[..n];
    }
  }

  lemma SliceIs(payload: seq<string>, f: nat, i: nat, at: nat, len: nat)
    requires at == i * (2 * f) && at + len <= |payload| && len <= 2 * f
    requires len == 2 * f || at + len == |payload|
    ensures Slice(payload, f, i) == payload[at..at + len]
  {}

  lemma AlignedOffset(es: seq<Entries>, i: nat)
    requires Aligned(es) && i < |es|
    ensures |Payload(es[..i])| == i * (2 * |es[0]|)
  {
    assert forall k :: 0 <= k < i ==> es[..i][k] == es[k] && |es[k]| == |es[0]|;
    PayloadLength(es[..i], |es[0]|);
  }

  lemma AlignedReadsRight(es: seq<Entries>, i: nat)
    requires Aligned(es) && i < |es|
    ensures Slice(Payload(es), FieldsPerOutput(es), i) == Flat(es[i])
  {
    AlignedOffset(es, i);
    PayloadPrefix(es, i);
    var at, len := |Payload(es[..i])|, |Flat(es[i])|;
    if i == |es| - 1 {
      assert es[..|es| - 1] == es[..i];
      assert at + len == |Payload(es)|;
    }
    SliceIs(Payload(es), |es[0]|, i, at, len);
  }

  lemma RightMeansFits(es: seq<Entries>, i: nat)
    requires ProperOutputs(es) && LayoutRight(es) && i < |es|
    ensures 2 * |es[i]| <= |Slice(Payload(es), |es[0]|, i)| <= 2 * |es[0]|
  {
    assert ReadsOwnFields(es, i);
    HSetSize(map[], Slice(Payload(es), |es[0]|, i));
    FieldsOfSize(es[i]);
  }

  /** If the last output finds all its fields, the ones before it filled their slots. */
  lemma LastSliceLength(es: seq<Entries>)
    requires es != [] && es[|es| - 1] != []
    requires |Slice(Payload(es), |es[0]|, |es| - 1)| >= 2 * |es[|es| - 1]|
    ensures |Payload(es[..|es| - 1])| >= 2 * |es[0]| * (|es| - 1)
  {
    var n := |es| - 1;
    assert |Payload(es)| == |Payload(es[..n])| + 2 * |es[n]|;
    assert n * (2 * |es[0]|) == 2 * |es[0]| * n;
  }

  lemma RightMeansAligned(es: seq<Entries>)
    requires ProperOutputs(es) && LayoutRight(es)
    ensures Aligned(es)
  {
    if es == [] { return; }
    var f, n := |es[0]|, |es| - 1;
    forall i | 0 <= i < |es| ensures |es[i]| <= f { RightMeansFits(es, i); }
    RightMeansFits(es, n);
    LastSliceLength(es);
    PayloadLength(es[..n], f);
    assert forall i :: 0 <= i < n ==> es[..n][i] == es[i];
  }

  /** The script decodes its arguments right exactly for aligned outputs. */
  lemma LayoutRightExactlyAligned(es: seq<Entries>)
    requires ProperOutputs(es)
    ensures LayoutRight(es) <==> Aligned(es)
  {
    if LayoutRight(es) { RightMeansAligned(es); }
    if Aligned(es) { AlignedIsRight(es); }
  }

  lemma AlignedReadsOwnFields(es: seq<Entries>, i: nat)
    requires ProperOutputs(es) && Aligned(es) && i < |es|
    ensures ReadsOwnFields(es, i)
  {
    AlignedReadsRight(es, i);
    HSetFlat(es[i]);
  }

  lemma AlignedIsRight(es: seq<Entries>)
    requires ProperOutputs(es) && Aligned(es)
    ensures LayoutRight(es)
  {
    forall i | 0 <= i < |es| ensures ReadsOwnFields(es, i) { AlignedReadsOwnFields(es, i); }
  }

  // ------------------------------------------------------------------
  // Agreement with the all-or-nothing replace
  // ------------------------------------------------------------------

  datatype RedisOutput = RedisOutput(key: Key, entries: Entries)

  datatype RedisOp = RedisOp(inputs: seq<Key>, outputs: seq<RedisOutput>, auditKey: Key, audit: string)

  function EntriesOf(outputs: seq<RedisOutput>): (r: seq<Entries>)
    ensures |r| == |outputs| && forall i :: 0 <= i < |outputs| ==> r[i] == outputs[i].entries
  {
    seq(|outputs|, i requires 0 <= i < |outputs| => outputs[i].entries)
  }

  /** The call `batch_replace` issues. */
  function CallFor(op: RedisOp, now: string): Call {
    var es := EntriesOf(op.outputs);
    Call(op.inputs, seq(|op.outputs|, i requires 0 <= i < |op.outputs| => op.outputs[i].key),
         FieldsPerOutput(es), now, op.auditKey, op.audit, Payload(es))
  }

  /** The operation it is meant to be. */
  function Meant(op: RedisOp): ReplaceOp {
    ReplaceOp(op.inputs,
      seq(|op.outputs|, i requires 0 <= i < |op.outputs| => Output(op.outputs[i].key, FieldsOf(op.outputs[i].entries))),
      op.auditKey, op.audit)
  }

  lemma {:induction false} CheckInputsPasses(t: Tokens, inputs: seq<Key>)
    ensures CheckInputs(t, inputs) == Done <==> AllUnspent(t, inputs)
  {
    if inputs != [] {
      CheckInputsPasses(t, inputs[1..]);
      assert forall i :: 1 <= i < |inputs| ==> inputs[i] == inputs[1..][i - 1];
    }
  }

  /** One round of the output loop, given that it reads its fields right. */
  lemma PutOne(start: Tokens, op: RedisOp, now: string, i: nat)
    requires i < |op.outputs| && LayoutRight(EntriesOf(op.outputs))
    ensures var o := Meant(op).outputs[i];
      PutFrom(start, CallFor(op, now), i) ==
        if o.key in start then (start, OutputExists(o.key))
        else PutFrom(start[o.key := o.fields], CallFor(op, now), i + 1)
  {
    assert ReadsOwnFields(EntriesOf(op.outputs), i);
  }

  /** How far the output loop gets: to the end, or to the first key that is taken. */
  lemma PutFromStops(t: Tokens, op: RedisOp, now: string, i: nat, start: Tokens) returns (j: nat)
    requires i <= |op.outputs| && LayoutRight(EntriesOf(op.outputs))
    requires start == Inserted(t, Meant(op).outputs[..i]) && Insertable(t, Meant(op).outputs[..i])
    ensures i <= j <= |op.outputs| && Insertable(t, Meant(op).outputs[..j])
    ensures PutFrom(start, CallFor(op, now), i).0 == Inserted(t, Meant(op).outputs[..j])
    ensures PutFrom(start, CallFor(op, now), i).1 == Done <==> j == |op.outputs|
    ensures j < |op.outputs| ==> !Insertable(t, Meant(op).outputs) && op.outputs[j].key in Inserted(t, Meant(op).outputs[..j])
    decreases |op.outputs| - i
  {
    var outs := Meant(op).outputs;
    j := i;
    if i < |op.outputs| {
      FdbStore.PresentAfterInserting(t, outs, i);
      PutOne(start, op, now, i);
      if op.outputs[i].key !in start {
        InsertedNext(t, outs, i);
        j := PutFromStops(t, op, now, i + 1, start[outs[i].key := outs[i].fields]);
      }
    }
  }

  /** The output loop run on marked inputs. */
  lemma OutputsOutcome(t: Tokens, op: RedisOp, now: string)
    requires LayoutRight(EntriesOf(op.outputs))
    ensures var (t', reply) := PutFrom(Marked(t, op.inputs, _ => now), CallFor(op, now), 0);
      && (reply == Done <==> Insertable(t, Meant(op).outputs))
      && (reply == Done ==> t' == Applied(t, Meant(op), _ => now))
      && (reply != Done ==> exists j :: 0 <= j < |op.outputs| && StoppedAt(t, op, now, j, t'))
  {
    var outs, marked := Meant(op).outputs, Marked(t, op.inputs, _ => now);
    assert Inserted(marked, outs[..0]) == marked && Insertable(marked, outs[..0]);
    var j := PutFromStops(marked, op, now, 0, marked);
    assert outs[..|outs|] == outs;
    SameKeysInsertable(t, marked, outs);
    SameKeysInsertable(t, marked, outs[..j]);
    if j < |op.outputs| {
      assert StoppedAt(t, op, now, j, PutFrom(marked, CallFor(op, now), 0).0);
    }
  }

  /** What one evaluation does, given that it reads its arguments right. */
  lemma ScriptOutcome(t: Tokens, op: RedisOp, now: string)
    requires LayoutRight(EntriesOf(op.outputs))
    ensures var (t', reply) := Script(t, CallFor(op, now));
      && (reply == Done <==> AllUnspent(t, op.inputs) && Insertable(t, Meant(op).outputs))
      && (reply == Done ==> t' == Applied(t, Meant(op), _ => now))
      && (!AllUnspent(t, op.inputs) ==> t' == t)
      && (AllUnspent(t, op.inputs) && !Insertable(t, Meant(op).outputs) ==>
            exists j :: 0 <= j < |op.outputs| && StoppedAt(t, op, now, j, t'))
  {
    CheckInputsPasses(t, op.inputs);
    OutputsOutcome(t, op, now);
  }

  /** The script gave up at output `j`, leaving its inputs marked and the earlier outputs stored. */
  ghost predicate StoppedAt(t: Tokens, op: RedisOp, now: string, j: nat, t': Tokens)
    requires j < |op.outputs|
  {
    var outs, marked := Meant(op).outputs, Marked(t, op.inputs, _ => now);
    && Insertable(t, outs[..j]) && t' == Inserted(marked, outs[..j])
    && op.outputs[j].key in t'
  }

  lemma SameKeysInsertable(t: Tokens, u: Tokens, outs: seq<Output>)
    requires t.Keys == u.Keys
    ensures Insertable(t, outs) <==> Insertable(u, outs)
  {}

  lemma StopLeavesTraces(t: Tokens, op: RedisOp, now: string, j: nat, t': Tokens)
    requires AllUnspent(t, op.inputs) && j < |op.outputs| && StoppedAt(t, op, now, j, t')
    ensures t' == t <==> op.inputs == [] && op.outputs[0].key in t
  {
    var outs, marked := Meant(op).outputs, Marked(t, op.inputs, _ => now);
    var done := outs[..j];
    if op.inputs != [] {
      var k := op.inputs[0];
      forall i | 0 <= i < j ensures done[i].key != k { assert OutputKeys(done)[i] !in t; }
      assert Lookup(done, k).None?;
      assert k in t' && IsSpent(t'[k]) && !IsSpent(t[k]);
    } else {
      assert marked == t;
      if j == 0 {
        assert Inserted(t, done) == t;
      } else {
        assert OutputKeys(done)[0] == op.outputs[0].key && op.outputs[0].key !in t;
        assert done[0].key in t';
      }
    }
  }

  /** When the script does what the all-or-nothing replace does, reply and ledger. */
  predicate Faithful(t: Tokens, op: RedisOp) {
    AllUnspent(t, op.inputs) ==>
      if Insertable(t, Meant(op).outputs) then NoDup(op.inputs) && Aligned(EntriesOf(op.outputs))
      else op.inputs == [] && op.outputs != [] && op.outputs[0].key in t
  }

  ghost predicate Agrees(t: Tokens, op: RedisOp, now: string) {
    var (t', reply) := Script(t, CallFor(op, now));
    (reply == Done <==> Committable(t, Meant(op))) && t' == FdbStore.AfterReplace(t, Meant(op), _ => now)
  }

  /** The output loop never touches a key that is there; when it is done, every output holds its slice. */
  lemma {:induction false} PutFromWrites(t: Tokens, c: Call, i: nat)
    requires i <= |c.outputs|
    ensures var (t', reply) := PutFrom(t, c, i);
      && (forall k <- t :: k in t' && t'[k] == t[k])
      && (reply == Done ==> forall j :: i <= j < |c.outputs| ==>
            var args := Slice(c.payload, c.fieldsPerOutput, j);
            WellFormedArgs(args) && c.outputs[j] in t' && t'[c.outputs[j]] == HSet(map[], args))
    decreases |c.outputs| - i
  {
    if i < |c.outputs| && c.outputs[i] !in t {
      var args := Slice(c.payload, c.fieldsPerOutput, i);
      if WellFormedArgs(args) { PutFromWrites(t[c.outputs[i] := HSet(map[], args)], c, i + 1); }
    }
  }

  /** With inputs to mark, whatever the arguments say, the ledger does not stay as it was. */
  lemma MarksStay(t: Tokens, op: RedisOp, now: string)
    requires AllUnspent(t, op.inputs) && op.inputs != []
    ensures Script(t, CallFor(op, now)).0 != t
  {
    CheckInputsPasses(t, op.inputs);
    var marked, k := Marked(t, op.inputs, _ => now), op.inputs[0];
    PutFromWrites(marked, CallFor(op, now), 0);
    assert TurnOf(op.inputs, k).Some? && k in marked && IsSpent(marked[k]);
  }

  /** The first output always finds its fields, so it is stored unless its key is taken. */
  lemma FirstOutputIsStored(t: Tokens, op: RedisOp, now: string)
    requires ProperOutputs(EntriesOf(op.outputs)) && op.inputs == [] && op.outputs != []
    ensures Script(t, CallFor(op, now)).0 == t <==> op.outputs[0].key in t
  {
    var es, c := EntriesOf(op.outputs), CallFor(op, now);
    assert Marked(t, [], _ => now) == t;
    PayloadPrefix(es, 0);
    var args := Slice(c.payload, c.fieldsPerOutput, 0);
    assert |args| == 2 * |es[0]|;
    if op.outputs[0].key !in t { PutFromWrites(t[c.outputs[0] := HSet(map[], args)], c, 1); }
  }

  /** If the script is done and every output holds its own fields, it read them all right. */
  lemma AgreementMeansRight(t: Tokens, op: RedisOp, now: string)
    requires AllUnspent(t, op.inputs) && Committable(t, Meant(op)) && Agrees(t, op, now)
    ensures LayoutRight(EntriesOf(op.outputs))
  {
    var es, c, outs := EntriesOf(op.outputs), CallFor(op, now), Meant(op).outputs;
    CheckInputsPasses(t, op.inputs);
    var marked := Marked(t, op.inputs, _ => now);
    PutFromWrites(marked, c, 0);
    AppliedKeyByKey(t, Meant(op), _ => now);
    var t' := PutFrom(marked, c, 0).0;
    forall i | 0 <= i < |es| ensures ReadsOwnFields(es, i) {
      assert c.outputs[i] == outs[i].key && t'[outs[i].key] == outs[i].fields;
    }
  }

  /** Aligned outputs with nothing in the way: only a repeated input makes a difference. */
  lemma AlignedAgrees(t: Tokens, op: RedisOp, now: string)
    requires ProperOutputs(EntriesOf(op.outputs)) && Aligned(EntriesOf(op.outputs))
    requires AllUnspent(t, op.inputs) && Insertable(t, Meant(op).outputs) && NoDup(op.inputs)
    ensures Agrees(t, op, now)
  {
    LayoutRightExactlyAligned(EntriesOf(op.outputs));
    ScriptOutcome(t, op, now);
  }

  lemma UnreadyAgrees(t: Tokens, op: RedisOp, now: string)
    requires !AllUnspent(t, op.inputs)
    ensures Agrees(t, op, now)
  {
    CheckInputsPasses(t, op.inputs);
  }

  /**
   * The script agrees with FoundationDB, for all outputs that `to_fields` can
   * give, exactly when its inputs are not ready; or nothing is in the way, no
   * input is repeated and the outputs are aligned; or it has no inputs and
   * trips over its first output.
   */
  lemma AgreesExactlyWhenFaithful(t: Tokens, op: RedisOp, now: string)
    requires ProperOutputs(EntriesOf(op.outputs))
    ensures Agrees(t, op, now) <==> Faithful(t, op)
  {
    if !AllUnspent(t, op.inputs) {
      UnreadyAgrees(t, op, now);
    } else if Insertable(t, Meant(op).outputs) {
      if NoDup(op.inputs) && Aligned(EntriesOf(op.outputs)) { AlignedAgrees(t, op, now); }
      if Agrees(t, op, now) {
        if !NoDup(op.inputs) {
          MarksStay(t, op, now);
        } else {
          AgreementMeansRight(t, op, now);
          LayoutRightExactlyAligned(EntriesOf(op.outputs));
        }
      }
    } else if op.inputs != [] {
      MarksStay(t, op, now);
    } else {
      CheckInputsPasses(t, op.inputs);
      NothingInsertable(t, op, now);
    }
  }

  /**
   * Without inputs and with an output in the way, the script fails, and leaves
   * nothing behind only at its first output.
   */
  lemma NothingInsertable(t: Tokens, op: RedisOp, now: string)
    requires ProperOutputs(EntriesOf(op.outputs)) && op.inputs == [] && !Insertable(t, Meant(op).outputs)
    ensures op.outputs != [] && (Agrees(t, op, now) <==> op.outputs[0].key in t)
  {
    assert op.outputs != [];
    FirstOutputIsStored(t, op, now);
    assert Marked(t, [], _ => now) == t;
  }

  /** A plain output before a locked one: all is in order, yet the script gets it wrong. */
  lemma LockedAfterPlainDisagrees(t: Tokens, k: Key, plain: RedisOutput, locked: RedisOutput, auditKey: Key, now: string)
    requires ProperOutputs([plain.entries, locked.entries]) && |locked.entries| > |plain.entries|
    requires k in t && !IsSpent(t[k]) && plain.key !in t && locked.key !in t && plain.key != locked.key
    ensures var op := RedisOp([k], [plain, locked], auditKey, "");
      Committable(t, Meant(op)) && !Agrees(t, op, now)
  {
    var op := RedisOp([k], [plain, locked], auditKey, "");
    assert EntriesOf(op.outputs) == [plain.entries, locked.entries];
    assert OutputKeys(Meant(op).outputs) == [plain.key, locked.key];
    AgreesExactlyWhenFaithful(t, op, now);
    assert !Aligned([plain.entries, locked.entries]) by { assert |[plain.entries, locked.entries][1]| > |[plain.entries, locked.entries][0]|; }
  }

  /** In particular when all keys are distinct and no output exists. */
  lemma DistinctKeysAgree(t: Tokens, op: RedisOp, now: string)
    requires ProperOutputs(EntriesOf(op.outputs)) && Aligned(EntriesOf(op.outputs))
    requires NoDup(op.inputs + OutputKeys(Meant(op).outputs)) && AllAbsent(t, OutputKeys(Meant(op).outputs))
    ensures Script(t, CallFor(op, now)).0 == FdbStore.AfterReplace(t, Meant(op), _ => now)
    ensures Script(t, CallFor(op, now)).1 == Done <==> Committable(t, Meant(op))
  {
    var all := op.inputs + OutputKeys(Meant(op).outputs);
    forall i, j | 0 <= i < j < |op.inputs| ensures op.inputs[i] != op.inputs[j] { assert all[i] != all[j]; }
    forall i, j | 0 <= i < j < |op.outputs|
      ensures OutputKeys(Meant(op).outputs)[i] != OutputKeys(Meant(op).outputs)[j]
    {
      assert all[|op.inputs| + i] != all[|op.inputs| + j];
    }
    AgreesExactlyWhenFaithful(t, op, now);
  }
}
