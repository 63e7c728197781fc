// What the history of effects says about one swap: how often a session was
// begun and signed, how far the settlement preconditions have been met, and
// which chain of audit entries a tip stands for.

module SwapHistory {
  import opened SwapState
  import opened SwapProtocol

  /** The kinds of event that are counted per swap. */
  datatype Kind = BeginOf(s: Session) | SignOf(s: Session) | PushOf(kind: PushKind)

  predicate Is(e: Effect, id: SwapId, q: Kind) {
    match q
    case BeginOf(s) => e == Began(id, s)
    case SignOf(s) => e.Signed? && e.id == id && e.session == s
    case PushOf(kind) => e.Pushed? && e.id == id && e.kind == kind
  }

  function Count(t: seq<Effect>, id: SwapId, q: Kind): nat {
    if t == [] then 0
    else Count(t[..|t| - 1], id, q) + if Is(t[|t| - 1], id, q) then 1 else 0
  }

  lemma CountSnoc(t: seq<Effect>, e: Effect, id: SwapId, q: Kind)
    ensures Count(t + [e], id, q) == Count(t, id, q) + if Is(e, id, q) then 1 else 0
  {
    assert (t + [e])[..|t|] == t;
  }

  lemma {:induction false} CountPositive(t: seq<Effect>, id: SwapId, q: Kind)
    ensures Count(t, id, q) > 0 <==> exists i :: 0 <= i < |t| && Is(t[i], id, q)
  {
    if t != [] {
      var n := |t| - 1;
      CountPositive(t[..n], id, q);
      if Count(t[..n], id, q) > 0 {
        var i :| 0 <= i < n && Is(t[..n][i], id, q);
        assert Is(t[i], id, q);
      }
      if i :| 0 <= i < |t| && Is(t[i], id, q) {
        assert i < n ==> Is(t[..n][i], id, q);
      }
    }
  }

  /** Webcash has once answered `Spent` for this hash, to whichever swap asked. */
  ghost predicate SpentSeen(t: seq<Effect>, h: string) {
    exists i :: 0 <= i < |t| && t[i].Checked? && t[i].hash == h && t[i].status == Spent
  }

  // ------------------------------------------------------------------
  // The settlement preconditions, in order
  // ------------------------------------------------------------------

  /** Step `k` of the path to a settle release, counted from 0. */
  predicate IsMilestone(e: Effect, id: SwapId, k: nat) {
    match k
    case 0 => e.Verified? && e.id == id && e.circuit == BobCircuit && e.ok
    case 1 => e.Verified? && e.id == id && e.circuit == AliceCircuit && e.ok
    case 2 => e.Checked? && e.id == id && e.status == Unspent
    case 3 => Is(e, id, PushOf(Insert))
    case 4 => e.Checked? && e.id == id && e.status == Spent
    case 5 => Is(e, id, SignOf(Settle))
    case _ => false
  }

  const MILESTONES: nat := 6

  /** How many milestones have happened, one after the other. */
  function Stage(t: seq<Effect>, id: SwapId): (k: nat)
    ensures k <= MILESTONES
  {
    if t == [] then 0
    else
      var k := Stage(t[..|t| - 1], id);
      if IsMilestone(t[|t| - 1], id, k) then k + 1 else k
  }

  lemma StageSnoc(t: seq<Effect>, e: Effect, id: SwapId)
    ensures Stage(t + [e], id) == Stage(t, id) + if IsMilestone(e, id, Stage(t, id)) then 1 else 0
  {
    assert (t + [e])[..|t|] == t;
  }

  /** Increasing positions of the first `|at|` milestones. */
  ghost predicate Witnesses(t: seq<Effect>, id: SwapId, at: seq<nat>) {
    && (forall k :: 0 <= k < |at| ==> at[k] < |t| && IsMilestone(t[at[k]], id, k))
    && (forall j, k :: 0 <= j < k < |at| ==> at[j] < at[k])
  }

  /** A stage is the number of milestones that can be found in order in the history. */
  lemma {:induction false} StageMeansOrdered(t: seq<Effect>, id: SwapId) returns (at: seq<nat>)
    ensures |at| == Stage(t, id) && Witnesses(t, id, at)
  {
    if t == [] {
      at := [];
    } else {
      var n := |t| - 1;
      at := StageMeansOrdered(t[..n], id);
      forall k | 0 <= k < |at|
        ensures at[k] < n && IsMilestone(t[at[k]], id, k)
      {
        assert t[..n][at[k]] == t[at[k]];
      }
      if IsMilestone(t[n], id, |at|) {
        at := at + [n];
      }
    }
  }

  // ------------------------------------------------------------------
  // Audit chains
  // ------------------------------------------------------------------

  /**
   * `path` lists log positions, oldest first: entries of one swap, from its
   * init entry along the phase graph, each naming the hash of the one before.
   */
  ghost predicate IsChain(hash: Entry -> string, log: seq<Entry>, id: SwapId, path: seq<nat>) {
    && |path| > 0
    && (forall k :: 0 <= k < |path| ==> path[k] < |log|)
    && (forall k :: 0 <= k < |path| ==> log[path[k]].id == id)
    && log[path[0]].phase == Init && log[path[0]].prior == ""
    && (forall k :: 0 < k < |path| ==>
          && path[k - 1] < path[k]
          && log[path[k]].prior == hash(log[path[k - 1]])
          && Edge(log[path[k - 1]].phase, log[path[k]].phase))
  }

  ghost predicate EndsAt(hash: Entry -> string, log: seq<Entry>, path: seq<nat>, phase: Phase, tip: string)
    requires |path| > 0 && path[|path| - 1] < |log|
  {
    log[path[|path| - 1]].phase == phase && hash(log[path[|path| - 1]]) == tip
  }

  /** The tip is the hash of a logged entry of this phase that a chain leads to. */
  ghost predicate Linked(hash: Entry -> string, log: seq<Entry>, id: SwapId, phase: Phase, tip: string) {
    exists path: seq<nat> :: IsChain(hash, log, id, path) && EndsAt(hash, log, path, phase, tip)
  }

  lemma LinkedMonotone(hash: Entry -> string, log: seq<Entry>, e: Entry, id: SwapId, phase: Phase, tip: string)
    requires Linked(hash, log, id, phase, tip)
    ensures Linked(hash, log + [e], id, phase, tip)
  {
    var path: seq<nat> :| IsChain(hash, log, id, path) && EndsAt(hash, log, path, phase, tip);
    assert IsChain(hash, log + [e], id, path) && EndsAt(hash, log + [e], path, phase, tip);
  }

  lemma LinkedInit(hash: Entry -> string, log: seq<Entry>, e: Entry)
    requires e.phase == Init && e.prior == ""
    ensures Linked(hash, log + [e], e.id, Init, hash(e))
  {
    assert IsChain(hash, log + [e], e.id, [|log|]) && EndsAt(hash, log + [e], [|log|], Init, hash(e));
  }

  lemma LinkedExtend(hash: Entry -> string, log: seq<Entry>, e: Entry, phase: Phase, tip: string)
    requires Linked(hash, log, e.id, phase, tip)
    requires e.prior == tip && Edge(phase, e.phase)
    ensures Linked(hash, log + [e], e.id, e.phase, hash(e))
  {
    var path: seq<nat> :| IsChain(hash, log, e.id, path) && EndsAt(hash, log, path, phase, tip);
    var path': seq<nat> := path + [|log|];
    assert path[|path| - 1] < |log|;
    forall k | 0 < k < |path'|
      ensures path'[k - 1] < path'[k]
      ensures (log + [e])[path'[k]].prior == hash((log + [e])[path'[k - 1]])
      ensures Edge((log + [e])[path'[k - 1]].phase, (log + [e])[path'[k]].phase)
    {
      if k < |path| { assert path'[k] == path[k] && path'[k - 1] == path[k - 1]; }
    }
    assert IsChain(hash, log + [e], e.id, path');
    assert EndsAt(hash, log + [e], path', e.phase, hash(e));
  }
}
