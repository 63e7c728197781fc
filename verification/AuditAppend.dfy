// Lock-free appends to one swap's audit log: read the last sequence number,
// put if absent, step forward on conflict (referee/src/audit/dynamodb.rs).

module AuditAppend {
  import opened Prelude

  type Entry = string

  /** The items of one swap by sequence number. */
  type Table = map<nat, Entry>

  const APPEND_RETRIES: nat := 8

  /** Exactly the numbers 0 .. n-1 are taken. */
  ghost predicate Occupied(t: Table, n: nat) { forall k: nat :: k in t <==> k < n }

  /** Nothing that was logged is overwritten. */
  predicate Extends(t: Table, t': Table) { forall k <- t :: k in t' && t'[k] == t[k] }

  // ------------------------------------------------------------------
  // Any number of writers, one store call at a time
  // ------------------------------------------------------------------

  datatype Writer =
    | Idle(entry: Entry)
    | Trying(entry: Entry, seqNo: nat, attempts: nat)  // attempts already refused
    | Appended(entry: Entry, at: nat)
    | GaveUp(entry: Entry)
    | Failed(entry: Entry)  // the store reported an error; the put may or may not have happened

  datatype System = System(table: Table, writers: seq<Writer>)

  datatype Move =
    | Query(w: nat, seen: nat)  // the query sees the first `seen` items; it may be out of date
    | Put(w: nat)
    | PutUnanswered(w: nat, landed: bool)  // the answer is lost, and the append fails
    | PutRepeated(w: nat, landed: bool)    // the answer is lost, and the client library puts again
    | QueryFails(w: nat)

  predicate Enabled(s: System, n: nat, m: Move) {
    match m
    case Query(w, seen) => w < |s.writers| && s.writers[w].Idle? && seen <= n
    case Put(w) => w < |s.writers| && s.writers[w].Trying?
    case PutUnanswered(w, landed) =>
      w < |s.writers| && s.writers[w].Trying? && (landed ==> s.writers[w].seqNo !in s.table)
    case PutRepeated(w, landed) =>
      w < |s.writers| && s.writers[w].Trying? && (landed ==> s.writers[w].seqNo !in s.table)
    case QueryFails(w) => w < |s.writers| && s.writers[w].Idle?
  }

  /** The writer is where the move takes it from. */
  predicate InPlace(s: System, m: Move) {
    m.w < |s.writers| && if m.Query? || m.QueryFails? then s.writers[m.w].Idle? else s.writers[m.w].Trying?
  }

  function Next(s: System, m: Move): System
    requires InPlace(s, m)
  {
    var x := s.writers[m.w];
    match m
    case Query(w, seen) => s.(writers := s.writers[w := Trying(x.entry, seen, 0)])
    case QueryFails(w) => s.(writers := s.writers[w := Failed(x.entry)])
    case PutUnanswered(w, landed) =>
      System(if landed then s.table[x.seqNo := x.entry] else s.table, s.writers[w := Failed(x.entry)])
    case PutRepeated(w, landed) => s.(table := if landed then s.table[x.seqNo := x.entry] else s.table)
    case Put(w) =>
      if x.seqNo !in s.table then
        System(s.table[x.seqNo := x.entry], s.writers[w := Appended(x.entry, x.seqNo)])
      else if x.attempts + 1 == APPEND_RETRIES then s.(writers := s.writers[w := GaveUp(x.entry)])
      else s.(writers := s.writers[w := Trying(x.entry, x.seqNo + 1, x.attempts + 1)])
  }

  /** No writer is ahead of the log; what it was told is appended is there. */
  ghost predicate WriterInv(t: Table, n: nat, x: Writer) {
    match x
    case Trying(_, seqNo, attempts) => attempts <= seqNo <= n && attempts < APPEND_RETRIES
    case Appended(entry, at) => at < n && at in t && t[at] == entry
    case _ => true
  }

  ghost predicate Inv(s: System, n: nat) {
    && Occupied(s.table, n)
    && (forall i :: 0 <= i < |s.writers| ==> WriterInvIn(s, n, i))
    && (forall i, j :: 0 <= i < j < |s.writers| && s.writers[i].Appended? && s.writers[j].Appended? ==>
          s.writers[i].at != s.writers[j].at)
  }

  ghost predicate WriterInvIn(s: System, n: nat, i: nat)
    requires i < |s.writers| && Occupied(s.table, n)
  {
    WriterInv(s.table, n, s.writers[i])
  }

  /** Whether this move adds an entry. */
  function Grown(s: System, n: nat, m: Move): nat
    requires Enabled(s, n, m)
  {
    match m
    case Put(w) => if s.writers[w].seqNo !in s.table then 1 else 0
    case PutUnanswered(_, landed) => if landed then 1 else 0
    case PutRepeated(_, landed) => if landed then 1 else 0
    case _ => 0
  }

  lemma MoveKeepsInv(s: System, n: nat, m: Move)
    requires Inv(s, n) && Enabled(s, n, m)
    ensures Inv(Next(s, m), n + Grown(s, n, m))
    ensures Extends(s.table, Next(s, m).table)
    ensures m.Put? ==> (Next(s, m).writers[m.w].Appended? <==> Grown(s, n, m) == 1)
  {
    var s', n' := Next(s, m), n + Grown(s, n, m);
    assert WriterInvIn(s, n, m.w);
    assert Occupied(s'.table, n');
    forall i | 0 <= i < |s'.writers| ensures WriterInvIn(s', n', i) {
      assert WriterInvIn(s, n, i);
    }
    forall i, j | 0 <= i < j < |s'.writers| && s'.writers[i].Appended? && s'.writers[j].Appended?
      ensures s'.writers[i].at != s'.writers[j].at
    {
      assert WriterInvIn(s, n, i) && WriterInvIn(s, n, j);
    }
  }

  ghost predicate Reaches(s: System, n: nat, moves: seq<Move>, s': System, n': nat)
    decreases |moves|
  {
    if moves == [] then s' == s && n' == n
    else Enabled(s, n, moves[0]) && Reaches(Next(s, moves[0]), n + Grown(s, n, moves[0]), moves[1..], s', n')
  }

  /**
   * Under any interleaving of any number of writers, stale queries included:
   * the numbers taken are exactly 0 .. n-1, nothing is overwritten, and every
   * writer that was told so has its own entry in the log.
   */
  lemma {:induction false} InterleavedAppends(s: System, n: nat, moves: seq<Move>, s': System, n': nat)
    requires Inv(s, n) && Reaches(s, n, moves, s', n')
    ensures Inv(s', n') && n <= n' && Extends(s.table, s'.table)
    decreases |moves|
  {
    if moves != [] {
      MoveKeepsInv(s, n, moves[0]);
      InterleavedAppends(Next(s, moves[0]), n + Grown(s, n, moves[0]), moves[1..], s', n');
    }
  }

  function Successes(ws: seq<Writer>): nat {
    if ws == [] then 0 else Successes(ws[..|ws| - 1]) + if ws[|ws| - 1].Appended? then 1 else 0
  }

  /** Puts that were stored without their writer being told. */
  function Untold(moves: seq<Move>): nat
    decreases |moves|
  {
    if moves == [] then 0
    else (if (moves[0].PutUnanswered? || moves[0].PutRepeated?) && moves[0].landed then 1 else 0) + Untold(moves[1..])
  }

  lemma {:induction false} SuccessesUpdate(ws: seq<Writer>, i: nat, x: Writer)
    requires i < |ws| && !ws[i].Appended?
    ensures Successes(ws[i := x]) == Successes(ws) + if x.Appended? then 1 else 0
  {
    var n := |ws| - 1;
    if i < n {
      assert ws[i := x][..n] == ws[..n][i := x];
      SuccessesUpdate(ws[..n], i, x);
    } else {
      assert ws[i := x][..n] == ws[..n];
    }
  }

  /** The log grows by exactly the successful appends and the puts whose answer was lost. */
  lemma {:induction false} EachSuccessAddsOne(s: System, n: nat, moves: seq<Move>, s': System, n': nat)
    requires Inv(s, n) && Reaches(s, n, moves, s', n')
    ensures n' - n == Successes(s'.writers) - Successes(s.writers) + Untold(moves)
    decreases |moves|
  {
    if moves != [] {
      var m := moves[0];
      MoveKeepsInv(s, n, m);
      if !m.PutRepeated? { SuccessesUpdate(s.writers, m.w, Next(s, m).writers[m.w]); }
      EachSuccessAddsOne(Next(s, m), n + Grown(s, n, m), moves[1..], s', n');
    }
  }

  /** A client library that repeats an unanswered put meets its own entry, steps on, and logs it twice. */
  lemma RepeatedPutLogsTwice(e: Entry)
    ensures Reaches(System(map[], [Idle(e)]), 0, [Query(0, 0), PutRepeated(0, true), Put(0), Put(0)],
                    System(map[0 := e, 1 := e], [Appended(e, 1)]), 2)
  {
    var s := System(map[], [Idle(e)]);
    var s1 := Next(s, Query(0, 0));
    var s2 := Next(s1, PutRepeated(0, true));
    var s3 := Next(s2, Put(0));
    var s4 := Next(s3, Put(0));
    assert s4 == System(map[0 := e, 1 := e], [Appended(e, 1)]);
    var moves := [Query(0, 0), PutRepeated(0, true), Put(0), Put(0)];
    assert moves[1..] == [PutRepeated(0, true), Put(0), Put(0)] && moves[1..][1..] == [Put(0), Put(0)];
    assert moves[1..][1..][1..] == [Put(0)] && moves[1..][1..][1..][1..] == [];
    assert Reaches(s3, 1, [Put(0)], s4, 2);
    assert Reaches(s2, 1, [Put(0), Put(0)], s4, 2);
    assert Reaches(s1, 0, [PutRepeated(0, true), Put(0), Put(0)], s4, 2);
  }

  // ------------------------------------------------------------------
  // The retry loop
  // ------------------------------------------------------------------

  class DynamoDbAuditLog {
    var table: Table
    ghost var size: nat

    ghost predicate Valid() reads this { Occupied(table, size) }

    /** Other writers' entries land behind what is there. */
    method Others(entries: seq<Entry>)
      requires Valid()
      modifies this
      ensures Valid() && size == old(size) + |entries| && Extends(old(table), table)
    {
      for i := 0 to |entries|
        invariant Valid() && size == old(size) + i && Extends(old(table), table)
      {
        var at := NextSeq();
        table := table[at := entries[i]];
        size := size + 1;
      }
    }

    /** The last sequence number plus one. */
    method NextSeq() returns (n: nat)
      requires Valid()
      ensures n == size
    {
      n := 0;
      while n in table
        invariant n <= size
        decreases size - n
      {
        n := n + 1;
      }
    }

    method PutWithSeq(entry: Entry, seqNo: nat) returns (stored: bool)
      requires Valid() && seqNo <= size
      modifies this
      ensures Valid() && Extends(old(table), table)
      ensures stored <==> seqNo == old(size)
      ensures stored ==> size == old(size) + 1 && table == old(table)[seqNo := entry]
      ensures !stored ==> size == old(size) && table == old(table)
    {
      stored := seqNo !in table;
      if stored {
        table := table[seqNo := entry];
        size := size + 1;
      }
    }

    /**
     * Appends after a query that saw the first `seen` items; `others(i)` is
     * what other writers add before attempt `i`.
     */
    method Append(entry: Entry, seen: nat, others: nat -> seq<Entry>) returns (r: Option<nat>)
      requires Valid() && seen <= size
      modifies this
      ensures Valid() && Extends(old(table), table)
      ensures r.Some? ==> r.value < size && r.value in table && table[r.value] == entry && r.value !in old(table)
      ensures r.None? ==> size >= seen + APPEND_RETRIES
    {
      var seqNo := seen;
      for i := 0 to APPEND_RETRIES
        invariant Valid() && Extends(old(table), table)
        invariant seqNo == seen + i <= size
      {
        Others(others(i));
        var stored := PutWithSeq(entry, seqNo);
        if stored { return Some(seqNo); }
        seqNo := seqNo + 1;
      }
      r := None;
    }
  }
}
