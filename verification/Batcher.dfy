// Batch coalescing: an actor drains its queue into batches and runs each as one
// ordered pipeline of scripts (crates/server/src/actors/batcher.rs,
// crates/server/src/db/redis.rs).

module Batcher {
  import opened Ledger
  import RedisStore

  // ------------------------------------------------------------------
  // The script of the webcash store: three arguments per output
  // ------------------------------------------------------------------

  datatype NewToken = NewToken(key: Key, amount: string, createdAt: string, origin: string)

  datatype Op = Op(inputs: seq<Key>, outputs: seq<NewToken>, auditKey: Key, audit: string)

  /** ARGV from the sixth on: amount, creation time and origin of each output. */
  function Arguments(outputs: seq<NewToken>): (r: seq<string>)
    ensures |r| == 3 * |outputs|
  {
    if outputs == [] then []
    else
      var last := outputs[|outputs| - 1];
      Arguments(outputs[..|outputs| - 1]) + [last.amount, last.createdAt, last.origin]
  }

  function TokenFields(o: NewToken): Fields {
    map[AMOUNT := o.amount, SPENT := "0", "created_at" := o.createdAt, "origin" := o.origin]
  }

  lemma {:induction false} ArgumentsOf(outputs: seq<NewToken>, i: nat)
    requires i < |outputs|
    ensures var args := Arguments(outputs);
      args[3 * i] == outputs[i].amount && args[3 * i + 1] == outputs[i].createdAt && args[3 * i + 2] == outputs[i].origin
  {
    if i < |outputs| - 1 { ArgumentsOf(outputs[..|outputs| - 1], i); }
  }

  /** The output loop: stops at the first key that is taken, keeping what it wrote. */
  function PutFrom(t: Tokens, outputs: seq<NewToken>, i: nat): (Tokens, RedisStore.Reply)
    requires i <= |outputs|
    decreases |outputs| - i
  {
    if i == |outputs| then (t, RedisStore.Done)
    else if outputs[i].key in t then (t, RedisStore.OutputExists(outputs[i].key))
    else PutFrom(t[outputs[i].key := TokenFields(outputs[i])], outputs, i + 1)
  }

  function Script(t: Tokens, op: Op, now: string): (Tokens, RedisStore.Reply) {
    var checked := RedisStore.CheckInputs(t, op.inputs);
    if checked != RedisStore.Done then (t, checked)
    else PutFrom(Marked(t, op.inputs, _ => now), op.outputs, 0)
  }

  // ------------------------------------------------------------------
  // One at a time, in arrival order
  // ------------------------------------------------------------------

  /** A request and the clock reading of the batch it will be part of. */
  datatype Timed = Timed(op: Op, now: string)

  function StateAfter(t: Tokens, rs: seq<Timed>): Tokens {
    if rs == [] then t
    else
      var n := |rs| - 1;
      Script(StateAfter(t, rs[..n]), rs[n].op, rs[n].now).0
  }

  function RepliesTo(t: Tokens, rs: seq<Timed>): (r: seq<RedisStore.Reply>)
    ensures |r| == |rs|
  {
    if rs == [] then []
    else
      var n := |rs| - 1;
      RepliesTo(t, rs[..n]) + [Script(StateAfter(t, rs[..n]), rs[n].op, rs[n].now).1]
  }

  /** Where the queue is cut makes no difference. */
  lemma {:induction false} BatchesCompose(t: Tokens, a: seq<Timed>, b: seq<Timed>)
    ensures StateAfter(t, a + b) == StateAfter(StateAfter(t, a), b)
    ensures RepliesTo(t, a + b) == RepliesTo(t, a) + RepliesTo(StateAfter(t, a), b)
  {
    if b == [] {
      assert a + b == a;
    } else {
      var n := |b| - 1;
      assert (a + b)[..|a + b| - 1] == a + b[..n];
      BatchesCompose(t, a, b[..n]);
    }
  }

  /** The requests of one batch share one clock reading. */
  function Stamped(ops: seq<Op>, now: string): (r: seq<Timed>)
    ensures |r| == |ops|
  {
    seq(|ops|, i requires 0 <= i < |ops| => Timed(ops[i], now))
  }

  // ------------------------------------------------------------------
  // The store and the actor
  // ------------------------------------------------------------------

  class LegacyRedisStore {
    var tokens: Tokens
    var audit: map<Key, string>

    method EvalReplace(op: Op, now: string) returns (reply: RedisStore.Reply)
      modifies this
      ensures (tokens, reply) == Script(old(tokens), op, now)
      ensures audit == if reply == RedisStore.Done then old(audit)[op.auditKey := op.audit] else old(audit)
    {
      reply := RedisStore.CheckInputs(tokens, op.inputs);
      if reply != RedisStore.Done { return; }
      RedisStore.CheckInputsPasses(tokens, op.inputs);
      tokens := RedisStore.MarkEach(tokens, op.inputs, now);
      reply := PutEach(op.outputs, Arguments(op.outputs));
      if reply == RedisStore.Done { audit := audit[op.auditKey := op.audit]; }
    }

    method PutEach(outputs: seq<NewToken>, argv: seq<string>) returns (reply: RedisStore.Reply)
      requires argv == Arguments(outputs)
      modifies this`tokens
      ensures (tokens, reply) == PutFrom(old(tokens), outputs, 0)
    {
      for i := 0 to |outputs|
        invariant PutFrom(tokens, outputs, i) == PutFrom(old(tokens), outputs, 0)
      {
        var k := outputs[i].key;
        if k in tokens { return RedisStore.OutputExists(k); }
        ArgumentsOf(outputs, i);
        tokens := tokens[k := map[AMOUNT := argv[3 * i], SPENT := "0",
                                  "created_at" := argv[3 * i + 1], "origin" := argv[3 * i + 2]]];
      }
      reply := RedisStore.Done;
    }

    /** One pipeline: all scripts in order, one reply each. */
    method BatchReplace(ops: seq<Op>, now: string) returns (replies: seq<RedisStore.Reply>)
      modifies this
      ensures tokens == StateAfter(old(tokens), Stamped(ops, now))
      ensures replies == RepliesTo(old(tokens), Stamped(ops, now))
    {
      replies := [];
      ghost var rs := Stamped(ops, now);
      for i := 0 to |ops|
        invariant tokens == StateAfter(old(tokens), rs[..i]) && replies == RepliesTo(old(tokens), rs[..i])
      {
        var reply := EvalReplace(ops[i], now);
        replies := replies + [reply];
        assert rs[..i + 1][..i] == rs[..i];
      }
      assert rs[..|rs|] == rs;
    }
  }

  /** Requests with the reading of the batch that took them. */
  ghost predicate TimesOf(rs: seq<Timed>, queue: seq<Op>) {
    |rs| == |queue| && forall i :: 0 <= i < |queue| ==> rs[i].op == queue[i]
  }

  /**
   * The actor's loop until the channel closes: wait for one request, take
   * `ready(round)` more that are there already, run them as one batch and
   * answer each caller. Every request gets exactly one reply, and replies and
   * ledger are those of running the requests one at a time in arrival order.
   */
  method BatcherLoop(store: LegacyRedisStore, queue: seq<Op>, ready: nat -> nat, clock: nat -> string)
    returns (replies: seq<RedisStore.Reply>, ghost rs: seq<Timed>)
    modifies store
    ensures TimesOf(rs, queue) && |replies| == |queue|
    ensures store.tokens == StateAfter(old(store.tokens), rs)
    ensures replies == RepliesTo(old(store.tokens), rs)
  {
    replies, rs := [], [];
    var next, round := 0, 0;
    while next < |queue|
      invariant next <= |queue| && TimesOf(rs, queue[..next])
      invariant store.tokens == StateAfter(old(store.tokens), rs)
      invariant replies == RepliesTo(old(store.tokens), rs)
    {
      var end := if next + 1 + ready(round) < |queue| then next + 1 + ready(round) else |queue|;
      var batch := queue[next..end];
      var results := store.BatchReplace(batch, clock(round));
      ghost var stamped := Stamped(batch, clock(round));
      BatchesCompose(old(store.tokens), rs, stamped);
      replies := replies + results;
      rs := rs + stamped;
      next, round := end, round + 1;
    }
    assert queue[..next] == queue;
  }
}
