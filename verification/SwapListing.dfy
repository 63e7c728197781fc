// The history listing after any run of the referee: the rows it writes keep
// their parties and creation time, which is what the indexes of the in-memory
// store rely on (referee/src/store/mod.rs, referee/src/api/orchestrator.rs).

module SwapListing {
  import opened Prelude
  import opened SwapState
  import opened SwapProtocol
  import opened SwapInvariant
  import opened SwapRuns
  import opened SwapIndex

  /** The rows a history of effects has stored. */
  function RowsOf(t: seq<Effect>): map<SwapId, Row> {
    if t == [] then map[]
    else
      var n := |t| - 1;
      match t[n]
      case Wrote(row) => RowsOf(t[..n])[row.id := row]
      case _ => RowsOf(t[..n])
  }

  /** No write of the history changes parties or creation time of a row that is there. */
  ghost predicate OriginsKept(t: seq<Effect>) {
    forall n :: 0 <= n < |t| && t[n].Wrote? ==> KeepsOrigin(RowsOf(t[..n]), t[n].row)
  }

  predicate KeepsOrigin(rows: map<SwapId, Row>, r: Row) {
    r.id in rows ==> SameOrigin(rows[r.id], r)
  }

  ghost predicate Recorded(w: World) { RowsOf(w.trace) == w.rows && OriginsKept(w.trace) }

  lemma LegalStepRecords(c: Config, w: World, e: Effect)
    requires Inv(c, w) && Legal(c, w, e) && Recorded(w)
    ensures Recorded(Do(w, e))
  {
    var t := w.trace + [e];
    assert t[..|w.trace|] == w.trace;
    if e.Wrote? { assert IdInv(c, w, e.row.id); }
    forall n | 0 <= n < |t| && t[n].Wrote? ensures KeepsOrigin(RowsOf(t[..n]), t[n].row) {
      if n < |w.trace| { assert t[..n] == w.trace[..n] && t[n] == w.trace[n]; }
    }
  }

  lemma {:induction false} LegalScriptRecords(c: Config, w: World, es: List<Effect>, reply: Reply, n: nat)
    requires Inv(c, w) && AllLegal(c, w, es) && Recorded(w)
    ensures Recorded(Exec(w, es, reply, n).0)
    decreases es
  {
    if es.Cons? && n > 0 {
      LegalStepRecords(c, w, es.head);
      LegalStepKeepsInv(c, w, es.head);
      LegalScriptRecords(c, Do(w, es.head), es.tail, reply, n - 1);
    }
  }

  lemma {:induction false} RunRecords(c: Config, w: World, steps: seq<Step>)
    requires Inv(c, w) && PlausibleRun(c, w, steps) && Recorded(w)
    ensures Recorded(Run(c, w, steps))
    decreases |steps|
  {
    if steps != [] {
      if steps[0].Step? {
        StepLegal(c, w, steps[0]);
        var script := ScriptOf(c, w, steps[0].call, steps[0].answers);
        LegalScriptRecords(c, w, script.effects, script.reply, steps[0].stop);
      }
      StepKeepsInv(c, w, steps[0]);
      RunRecords(c, After(c, w, steps[0]).0, steps[1..]);
    }
  }

  /** In every run, calls cut off and restarts included, each write meets what the indexes rely on. */
  lemma WritesKeepOrigins(c: Config, steps: seq<Step>)
    requires PlausibleRun(c, EMPTY_WORLD, steps)
    ensures var w := Run(c, EMPTY_WORLD, steps); RowsOf(w.trace) == w.rows && OriginsKept(w.trace)
  {
    RunRecords(c, EMPTY_WORLD, steps);
  }

  lemma NextRows(t: seq<Effect>, n: nat)
    requires n < |t| && OriginsKept(t)
    ensures RowsOf(t[..n + 1]) == if t[n].Wrote? then RowsOf(t[..n])[t[n].row.id := t[n].row] else RowsOf(t[..n])
    ensures t[n].Wrote? ==> KeepsOrigin(RowsOf(t[..n]), t[n].row)
  {
    assert t[..n + 1][..n] == t[..n];
  }

  /** The store fed with a history of writes holds its rows, with both indexes right. */
  method Replay(t: seq<Effect>) returns (store: InMemoryStore)
    requires OriginsKept(t)
    ensures fresh(store) && store.Valid() && store.rows == RowsOf(t)
  {
    store := new InMemoryStore();
    for n := 0 to |t|
      invariant fresh(store) && store.Valid() && store.rows == RowsOf(t[..n])
    {
      NextRows(t, n);
      if t[n].Wrote? { store.Upsert(t[n].row); }
    }
    assert t[..|t|] == t;
  }

  /** So after every run a party's listing is the one the plain scan of the rows gives. */
  method ListAfterRun(c: Config, steps: seq<Step>, fp: string) returns (out: seq<Summary>)
    requires PlausibleRun(c, EMPTY_WORLD, steps)
    ensures IsListing(Run(c, EMPTY_WORLD, steps).rows, fp, out)
  {
    WritesKeepOrigins(c, steps);
    var store := Replay(Run(c, EMPTY_WORLD, steps).trace);
    out := store.ListByParty(fp);
  }
}
