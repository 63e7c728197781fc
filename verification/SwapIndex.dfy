// The in-memory swap store: rows, two ordered indexes by party, and the
// history listing built from them (referee/src/store/mod.rs).

module SwapIndex {
  import opened Prelude
  import opened SwapState

  const PAGE: nat := 1000

  datatype Role = Bob | Alice | Both

  datatype Summary = Summary(role: Role, row: Row)

  // ------------------------------------------------------------------
  // Index keys, newest first
  // ------------------------------------------------------------------

  datatype IndexKey = IndexKey(negCreated: int, id: SwapId)

  predicate IdLess(a: string, b: string) {
    b != "" && (a == "" || a[0] < b[0] || (a[0] == b[0] && IdLess(a[1..], b[1..])))
  }

  predicate KeyLess(a: IndexKey, b: IndexKey) {
    a.negCreated < b.negCreated || (a.negCreated == b.negCreated && IdLess(a.id, b.id))
  }

  lemma {:induction false} IdLessTotal(a: string, b: string)
    ensures a == b || IdLess(a, b) || IdLess(b, a)
    ensures !(IdLess(a, b) && IdLess(b, a)) && !IdLess(a, a)
  {
    if a != "" && b != "" {
      IdLessTotal(a[1..], b[1..]);
      IdLessTotal(a[1..], a[1..]);
      if a[0] == b[0] && a[1..] == b[1..] { assert a == [a[0]] + a[1..] && b == [b[0]] + b[1..]; }
    } else if a != "" {
      IdLessTotal(a[1..], a[1..]);
    }
  }

  predicate Newer(ks: seq<IndexKey>) {
    forall i, j :: 0 <= i < j < |ks| ==> ks[i].negCreated <= ks[j].negCreated && ks[i] != ks[j]
  }

  /** BTreeMap::insert of a key; the map iterates in key order. */
  function InsertKey(ks: seq<IndexKey>, k: IndexKey): seq<IndexKey> {
    if ks == [] then [k]
    else if ks[0] == k then ks
    else if KeyLess(k, ks[0]) then [k] + ks
    else [ks[0]] + InsertKey(ks[1..], k)
  }

  lemma {:induction false} InsertKeyMembers(ks: seq<IndexKey>, k: IndexKey, x: IndexKey)
    ensures x in InsertKey(ks, k) <==> x == k || x in ks
  {
    if ks != [] && ks[0] != k && !KeyLess(k, ks[0]) {
      InsertKeyMembers(ks[1..], k, x);
      assert ks == [ks[0]] + ks[1..];
    }
  }

  lemma {:induction false} InsertKeySorted(ks: seq<IndexKey>, k: IndexKey)
    requires Newer(ks) && k !in ks
    ensures Newer(InsertKey(ks, k))
  {
    if ks != [] && !KeyLess(k, ks[0]) {
      var rest := InsertKey(ks[1..], k);
      InsertKeySorted(ks[1..], k);
      forall j | 0 <= j < |rest| ensures ks[0].negCreated <= rest[j].negCreated && ks[0] != rest[j] {
        InsertKeyMembers(ks[1..], k, rest[j]);
        assert rest[j] in rest;
        if rest[j] != k {
          var i :| 0 <= i < |ks[1..]| && ks[1..][i] == rest[j];
          assert ks[i + 1] == rest[j];
        }
      }
    }
  }

  // ------------------------------------------------------------------
  // What a listing must be
  // ------------------------------------------------------------------

  predicate IsParty(r: Row, fp: string) { r.bobFp == fp || r.aliceFp == fp }

  function RoleOf(r: Row, fp: string): Role {
    if r.bobFp == fp then if r.aliceFp == fp then Both else Bob else Alice
  }

  function PartyRows(rows: map<SwapId, Row>, fp: string): set<SwapId> {
    set id | id in rows && IsParty(rows[id], fp)
  }

  function Ids(out: seq<Summary>): set<SwapId> { set s <- out :: s.row.id }

  predicate DistinctIds(out: seq<Summary>) {
    forall i, j :: 0 <= i < j < |out| ==> out[i].row.id != out[j].row.id
  }

  predicate NewestFirst(out: seq<Summary>) {
    forall i, j :: 0 <= i < j < |out| ==> out[i].row.createdAt >= out[j].row.createdAt
  }

  predicate OwnRows(rows: map<SwapId, Row>, fp: string, out: seq<Summary>) {
    forall i :: 0 <= i < |out| ==>
      && out[i].row.id in rows && out[i].row == rows[out[i].row.id]
      && IsParty(out[i].row, fp) && out[i].role == RoleOf(out[i].row, fp)
  }

  /**
   * The plain scan: each of the party's rows at most once and in its right
   * role, newest first, a full page or all of them, and none left out that is
   * newer than one returned.
   */
  ghost predicate IsListing(rows: map<SwapId, Row>, fp: string, out: seq<Summary>) {
    && OwnRows(rows, fp, out) && DistinctIds(out) && NewestFirst(out)
    && |out| == Min(PAGE, |PartyRows(rows, fp)|)
    && forall id, i :: id in PartyRows(rows, fp) && id !in Ids(out) && 0 <= i < |out| ==>
         rows[id].createdAt <= out[i].row.createdAt
  }

  // ------------------------------------------------------------------
  // Sorting and truncating
  // ------------------------------------------------------------------

  /** Stable: behind everything at least as new. */
  function InsertSummary(out: seq<Summary>, s: Summary): (r: seq<Summary>)
    ensures |r| == |out| + 1
  {
    if out == [] then [s]
    else if out[|out| - 1].row.createdAt >= s.row.createdAt then out + [s]
    else InsertSummary(out[..|out| - 1], s) + [out[|out| - 1]]
  }

  function SortNewest(out: seq<Summary>): (r: seq<Summary>)
    ensures |r| == |out|
  {
    if out == [] then [] else InsertSummary(SortNewest(out[..|out| - 1]), out[|out| - 1])
  }

  lemma {:induction false} InsertSummaryIsSorted(out: seq<Summary>, s: Summary)
    requires NewestFirst(out)
    ensures NewestFirst(InsertSummary(out, s))
    ensures multiset(InsertSummary(out, s)) == multiset(out) + multiset{s}
  {
    if out != [] {
      var n := |out| - 1;
      assert out == out[..n] + [out[n]];
      if out[n].row.createdAt < s.row.createdAt {
        InsertSummaryIsSorted(out[..n], s);
        var rest := InsertSummary(out[..n], s);
        forall i | 0 <= i < |rest| ensures rest[i].row.createdAt >= out[n].row.createdAt {
          assert rest[i] in multiset(rest);
        }
      }
    }
  }

  lemma {:induction false} SortNewestIsSorted(out: seq<Summary>)
    ensures NewestFirst(SortNewest(out)) && multiset(SortNewest(out)) == multiset(out)
  {
    if out != [] {
      var n := |out| - 1;
      SortNewestIsSorted(out[..n]);
      InsertSummaryIsSorted(SortNewest(out[..n]), out[n]);
      assert out == out[..n] + [out[n]];
    }
  }

  lemma {:induction false} DistinctIdsCount(out: seq<Summary>)
    requires DistinctIds(out)
    ensures |Ids(out)| == |out|
  {
    if out != [] {
      var n := |out| - 1;
      DistinctIdsCount(out[..n]);
      assert out == out[..n] + [out[n]];
      assert Ids(out) == Ids(out[..n]) + {out[n].row.id};
    }
  }

  lemma DistinctSnoc(out: seq<Summary>, s: Summary)
    requires DistinctIds(out) && s.row.id !in Ids(out)
    ensures DistinctIds(out + [s])
  {
    forall i | 0 <= i < |out| ensures out[i].row.id != s.row.id { assert out[i] in out; }
  }

  lemma {:induction false} IdsCountBound(out: seq<Summary>)
    ensures |Ids(out)| <= |out|
    ensures |Ids(out)| == |out| ==> DistinctIds(out)
  {
    if out != [] {
      var n := |out| - 1;
      IdsCountBound(out[..n]);
      assert out == out[..n] + [out[n]];
      assert Ids(out) == Ids(out[..n]) + {out[n].row.id};
      if |Ids(out)| == |out| {
        assert out[n].row.id !in Ids(out[..n]);
        DistinctSnoc(out[..n], out[n]);
      }
    }
  }

  /** Sorting keeps the rows and their distinctness. */
  lemma SortKeepsIds(out: seq<Summary>)
    requires DistinctIds(out)
    ensures Ids(SortNewest(out)) == Ids(out) && DistinctIds(SortNewest(out))
  {
    SortNewestIsSorted(out);
    forall s ensures s in SortNewest(out) <==> s in out {
      assert s in multiset(SortNewest(out)) <==> s in multiset(out);
    }
    DistinctIdsCount(out);
    IdsCountBound(SortNewest(out));
  }

  // ------------------------------------------------------------------
  // The two indexes
  // ------------------------------------------------------------------

  type Index = map<string, seq<IndexKey>>

  function Under(m: Index, fp: string): seq<IndexKey> { if fp in m then m[fp] else [] }

  function KeyFor(r: Row): IndexKey { IndexKey(-(r.createdAt as int), r.id) }

  /** The keys under a fingerprint are those of the rows where it has the role, newest first. */
  ghost predicate BobIndexed(rows: map<SwapId, Row>, m: Index, fp: string) {
    && Newer(Under(m, fp))
    && forall k :: k in Under(m, fp) <==> k.id in rows && rows[k.id].bobFp == fp && k == KeyFor(rows[k.id])
  }

  ghost predicate AliceIndexed(rows: map<SwapId, Row>, m: Index, fp: string) {
    && Newer(Under(m, fp))
    && forall k :: k in Under(m, fp) <==> k.id in rows && rows[k.id].aliceFp == fp && k == KeyFor(rows[k.id])
  }

  ghost predicate StoreInv(rows: map<SwapId, Row>, byBob: Index, byAlice: Index) {
    && (forall id <- rows :: rows[id].id == id)
    && (forall fp :: BobIndexed(rows, byBob, fp) && AliceIndexed(rows, byAlice, fp))
  }

  /** What every later write of a row leaves as it was. */
  predicate SameOrigin(r: Row, r': Row) {
    r.id == r'.id && r.bobFp == r'.bobFp && r.aliceFp == r'.aliceFp && r.createdAt == r'.createdAt
  }

  lemma FirstWriteKeepsInv(rows: map<SwapId, Row>, byBob: Index, byAlice: Index, r: Row)
    requires StoreInv(rows, byBob, byAlice) && r.id !in rows
    ensures StoreInv(rows[r.id := r], byBob[r.bobFp := InsertKey(Under(byBob, r.bobFp), KeyFor(r))],
                     byAlice[r.aliceFp := InsertKey(Under(byAlice, r.aliceFp), KeyFor(r))])
  {
    var rows', k := rows[r.id := r], KeyFor(r);
    var byBob', byAlice' := byBob[r.bobFp := InsertKey(Under(byBob, r.bobFp), k)], byAlice[r.aliceFp := InsertKey(Under(byAlice, r.aliceFp), k)];
    forall fp ensures BobIndexed(rows', byBob', fp) && AliceIndexed(rows', byAlice', fp) {
      assert BobIndexed(rows, byBob, fp) && AliceIndexed(rows, byAlice, fp);
      if fp == r.bobFp {
        InsertKeySorted(Under(byBob, fp), k);
        forall x { InsertKeyMembers(Under(byBob, fp), k, x); }
      }
      if fp == r.aliceFp {
        InsertKeySorted(Under(byAlice, fp), k);
        forall x { InsertKeyMembers(Under(byAlice, fp), k, x); }
      }
    }
  }

  lemma LaterWriteKeepsInv(rows: map<SwapId, Row>, byBob: Index, byAlice: Index, r: Row)
    requires StoreInv(rows, byBob, byAlice) && r.id in rows && SameOrigin(rows[r.id], r)
    ensures StoreInv(rows[r.id := r], byBob, byAlice)
  {
    var rows' := rows[r.id := r];
    forall fp ensures BobIndexed(rows', byBob, fp) && AliceIndexed(rows', byAlice, fp) {
      assert BobIndexed(rows, byBob, fp) && AliceIndexed(rows, byAlice, fp);
    }
  }

  // ------------------------------------------------------------------
  // The hits of one listing
  // ------------------------------------------------------------------

  function FirstPage(ks: seq<IndexKey>): seq<IndexKey> { ks[..Min(PAGE, |ks|)] }

  /** Every row under the Bob index, as Both if the party is on both sides. */
  function BobHits(rows: map<SwapId, Row>, ks: seq<IndexKey>, fp: string): seq<Summary> {
    if ks == [] then []
    else
      var front, id := BobHits(rows, ks[..|ks| - 1], fp), ks[|ks| - 1].id;
      if id in rows then front + [Summary(if rows[id].aliceFp == fp then Both else Bob, rows[id])] else front
  }

  /** Every row under the Alice index but those already listed as Both. */
  function AliceHits(rows: map<SwapId, Row>, ks: seq<IndexKey>, fp: string): seq<Summary> {
    if ks == [] then []
    else
      var front, id := AliceHits(rows, ks[..|ks| - 1], fp), ks[|ks| - 1].id;
      if id in rows && rows[id].bobFp != fp then front + [Summary(Alice, rows[id])] else front
  }

  function KeyIds(ks: seq<IndexKey>): set<SwapId> { set k <- ks :: k.id }

  predicate KeysOfRows(rows: map<SwapId, Row>, ks: seq<IndexKey>) {
    forall i :: 0 <= i < |ks| ==> ks[i].id in rows && ks[i] == KeyFor(rows[ks[i].id])
  }

  lemma LastIdIsNew(rows: map<SwapId, Row>, ks: seq<IndexKey>)
    requires KeysOfRows(rows, ks) && Newer(ks) && ks != []
    ensures ks[|ks| - 1].id !in KeyIds(ks[..|ks| - 1])
  {
    var n := |ks| - 1;
    forall i | 0 <= i < n ensures ks[..n][i].id != ks[n].id { assert ks[i] != ks[n]; }
  }

  lemma {:induction false} BobHitsOf(rows: map<SwapId, Row>, ks: seq<IndexKey>, fp: string)
    requires (forall id <- rows :: rows[id].id == id) && KeysOfRows(rows, ks) && Newer(ks)
    requires forall i :: 0 <= i < |ks| ==> rows[ks[i].id].bobFp == fp
    ensures |BobHits(rows, ks, fp)| == |ks|
    ensures forall i :: 0 <= i < |ks| ==> BobHits(rows, ks, fp)[i].row == rows[ks[i].id]
    ensures OwnRows(rows, fp, BobHits(rows, ks, fp)) && DistinctIds(BobHits(rows, ks, fp))
  {
    if ks != [] {
      var n := |ks| - 1;
      BobHitsOf(rows, ks[..n], fp);
      forall i | 0 <= i < n ensures ks[i].id != ks[n].id {}
    }
  }

  lemma {:induction false} AliceHitsOf(rows: map<SwapId, Row>, ks: seq<IndexKey>, fp: string)
    requires (forall id <- rows :: rows[id].id == id) && KeysOfRows(rows, ks) && Newer(ks)
    requires forall i :: 0 <= i < |ks| ==> rows[ks[i].id].aliceFp == fp
    ensures OwnRows(rows, fp, AliceHits(rows, ks, fp)) && DistinctIds(AliceHits(rows, ks, fp))
    ensures forall id :: id in Ids(AliceHits(rows, ks, fp)) <==> id in KeyIds(ks) && id in rows && rows[id].bobFp != fp
  {
    if ks != [] {
      var n := |ks| - 1;
      var front := AliceHits(rows, ks[..n], fp);
      AliceHitsOf(rows, ks[..n], fp);
      assert ks == ks[..n] + [ks[n]];
      assert KeyIds(ks) == KeyIds(ks[..n]) + {ks[n].id};
      LastIdIsNew(rows, ks);
      if rows[ks[n].id].bobFp != fp {
        var hit := Summary(Alice, rows[ks[n].id]);
        assert ks[n].id !in Ids(front);
        DistinctSnoc(front, hit);
        IdsAppend(front, [hit]);
        assert Ids([hit]) == {ks[n].id};
      }
    }
  }

  /** Everything one listing collects before it sorts. */
  function Merged(rows: map<SwapId, Row>, bob: seq<IndexKey>, alice: seq<IndexKey>, fp: string): seq<Summary> {
    BobHits(rows, FirstPage(bob), fp) + AliceHits(rows, FirstPage(alice), fp)
  }

  lemma PageIsOfRows(rows: map<SwapId, Row>, ks: seq<IndexKey>)
    requires Newer(ks) && forall k <- ks :: k.id in rows && k == KeyFor(rows[k.id])
    ensures KeysOfRows(rows, FirstPage(ks)) && Newer(FirstPage(ks))
    ensures forall i :: 0 <= i < |FirstPage(ks)| ==> FirstPage(ks)[i] in ks
  {}

  lemma BobPage(rows: map<SwapId, Row>, byBob: Index, fp: string)
    requires (forall id <- rows :: rows[id].id == id) && BobIndexed(rows, byBob, fp)
    ensures var b := BobHits(rows, FirstPage(Under(byBob, fp)), fp);
      && OwnRows(rows, fp, b) && DistinctIds(b) && Ids(b) == KeyIds(FirstPage(Under(byBob, fp)))
      && forall i :: 0 <= i < |b| ==> b[i].row.bobFp == fp
  {
    var bob := FirstPage(Under(byBob, fp));
    PageIsOfRows(rows, Under(byBob, fp));
    BobHitsOf(rows, bob, fp);
    var b := BobHits(rows, bob, fp);
    forall id ensures id in Ids(b) <==> id in KeyIds(bob) {
      if id in Ids(b) {
        var i :| 0 <= i < |b| && b[i].row.id == id;
        assert bob[i].id == id && bob[i] in bob;
      }
      if id in KeyIds(bob) {
        var i :| 0 <= i < |bob| && bob[i].id == id;
        assert b[i].row.id == id && b[i] in b;
      }
    }
  }

  lemma AlicePage(rows: map<SwapId, Row>, byAlice: Index, fp: string)
    requires (forall id <- rows :: rows[id].id == id) && AliceIndexed(rows, byAlice, fp)
    ensures var a := AliceHits(rows, FirstPage(Under(byAlice, fp)), fp);
      && OwnRows(rows, fp, a) && DistinctIds(a)
      && forall id :: id in Ids(a) <==> id in KeyIds(FirstPage(Under(byAlice, fp))) && id in rows && rows[id].bobFp != fp
  {
    PageIsOfRows(rows, Under(byAlice, fp));
    AliceHitsOf(rows, FirstPage(Under(byAlice, fp)), fp);
  }

  lemma MergedIsSound(rows: map<SwapId, Row>, byBob: Index, byAlice: Index, fp: string)
    requires StoreInv(rows, byBob, byAlice)
    ensures var out := Merged(rows, Under(byBob, fp), Under(byAlice, fp), fp);
      && OwnRows(rows, fp, out) && DistinctIds(out)
      && forall id :: id in Ids(out) <==>
           id in KeyIds(FirstPage(Under(byBob, fp)))
           || (id in KeyIds(FirstPage(Under(byAlice, fp))) && id in rows && rows[id].bobFp != fp)
  {
    assert BobIndexed(rows, byBob, fp) && AliceIndexed(rows, byAlice, fp);
    BobPage(rows, byBob, fp);
    AlicePage(rows, byAlice, fp);
    var b := BobHits(rows, FirstPage(Under(byBob, fp)), fp);
    var a := AliceHits(rows, FirstPage(Under(byAlice, fp)), fp);
    IdsAppend(b, a);
    forall i, j | 0 <= i < |b| && 0 <= j < |a| ensures b[i].row.id != a[j].row.id {
      assert a[j] in a && a[j].row.id in Ids(a);
      assert b[i].row == rows[b[i].row.id];
    }
  }

  lemma IdsAppend(b: seq<Summary>, a: seq<Summary>)
    ensures Ids(b + a) == Ids(b) + Ids(a)
  {
    forall id ensures id in Ids(b + a) <==> id in Ids(b) || id in Ids(a) {
      if id in Ids(b) {
        var s :| s in b && s.row.id == id;
        assert s in b + a;
      }
      if id in Ids(a) {
        var s :| s in a && s.row.id == id;
        assert s in b + a;
      }
    }
  }

  /** A page of an index is at least as new as every key beyond it. */
  lemma BeyondFirstPage(ks: seq<IndexKey>, k: IndexKey)
    requires Newer(ks) && k in ks && k !in FirstPage(ks)
    ensures |FirstPage(ks)| == PAGE
    ensures forall x <- FirstPage(ks) :: x.negCreated <= k.negCreated
  {
    var j :| 0 <= j < |ks| && ks[j] == k;
    assert forall i :: 0 <= i < |FirstPage(ks)| ==> FirstPage(ks)[i] == ks[i];
  }

  lemma {:induction false} KeyIdsCount(rows: map<SwapId, Row>, ks: seq<IndexKey>)
    requires KeysOfRows(rows, ks) && Newer(ks)
    ensures |KeyIds(ks)| == |ks|
  {
    if ks != [] {
      var n := |ks| - 1;
      KeyIdsCount(rows, ks[..n]);
      assert ks == ks[..n] + [ks[n]];
      assert KeyIds(ks) == KeyIds(ks[..n]) + {ks[n].id};
      LastIdIsNew(rows, ks);
    }
  }

  /** For a party row the merge misses, there is a whole page of collected rows at least as new. */
  lemma MissedRowsAreOutnumbered(rows: map<SwapId, Row>, byBob: Index, byAlice: Index, fp: string, id: SwapId)
    returns (newer: set<SwapId>)
    requires StoreInv(rows, byBob, byAlice) && id in PartyRows(rows, fp)
    requires id !in Ids(Merged(rows, Under(byBob, fp), Under(byAlice, fp), fp))
    ensures |newer| == PAGE && newer <= Ids(Merged(rows, Under(byBob, fp), Under(byAlice, fp), fp))
    ensures forall x <- newer :: x in rows && rows[x].createdAt >= rows[id].createdAt
  {
    MergedIsSound(rows, byBob, byAlice, fp);
    assert BobIndexed(rows, byBob, fp) && AliceIndexed(rows, byAlice, fp);
    if rows[id].bobFp == fp {
      newer := NewerBobPage(rows, byBob, byAlice, fp, id);
    } else {
      var alice := FirstPage(Under(byAlice, fp));
      var k := KeyFor(rows[id]);
      assert k in Under(byAlice, fp);
      assert k in alice ==> id in KeyIds(alice);
      BeyondFirstPage(Under(byAlice, fp), k);
      PageIsOfRows(rows, Under(byAlice, fp));
      KeyIdsCount(rows, alice);
      if both :| both in KeyIds(alice) && both in rows && rows[both].bobFp == fp && both !in KeyIds(FirstPage(Under(byBob, fp))) {
        var kb :| kb in alice && kb.id == both;
        assert kb in Under(byAlice, fp);
        newer := NewerBobPage(rows, byBob, byAlice, fp, both);
      } else {
        newer := KeyIds(alice);
        forall x <- newer ensures x in rows && rows[x].createdAt >= rows[id].createdAt {
          var kx :| kx in alice && kx.id == x;
          assert kx in Under(byAlice, fp);
        }
      }
    }
  }

  lemma NewerBobPage(rows: map<SwapId, Row>, byBob: Index, byAlice: Index, fp: string, id: SwapId)
    returns (newer: set<SwapId>)
    requires StoreInv(rows, byBob, byAlice) && id in rows && rows[id].bobFp == fp
    requires id !in KeyIds(FirstPage(Under(byBob, fp)))
    ensures |newer| == PAGE && newer <= Ids(Merged(rows, Under(byBob, fp), Under(byAlice, fp), fp))
    ensures forall x <- newer :: x in rows && rows[x].createdAt >= rows[id].createdAt
  {
    MergedIsSound(rows, byBob, byAlice, fp);
    assert BobIndexed(rows, byBob, fp);
    var bob, k := FirstPage(Under(byBob, fp)), KeyFor(rows[id]);
    assert k in Under(byBob, fp);
    assert k in bob ==> id in KeyIds(bob);
    BeyondFirstPage(Under(byBob, fp), k);
    PageIsOfRows(rows, Under(byBob, fp));
    KeyIdsCount(rows, bob);
    newer := KeyIds(bob);
    forall x <- newer ensures x in rows && rows[x].createdAt >= rows[id].createdAt {
      var kx :| kx in bob && kx.id == x;
      assert kx in Under(byBob, fp);
    }
  }

  // ------------------------------------------------------------------
  // The listing
  // ------------------------------------------------------------------

  function Truncated(out: seq<Summary>): seq<Summary> { out[..Min(PAGE, |out|)] }

  function Listing(rows: map<SwapId, Row>, byBob: Index, byAlice: Index, fp: string): seq<Summary> {
    Truncated(SortNewest(Merged(rows, Under(byBob, fp), Under(byAlice, fp), fp)))
  }

  /** In a sorted list, a page of rows at least as new as `c` pushes everything older behind the page. */
  lemma OlderComesAfterPage(sorted: seq<Summary>, newer: set<SwapId>, c: nat, i: nat)
    requires NewestFirst(sorted) && i < Min(PAGE, |sorted|)
    requires |newer| == PAGE && newer <= Ids(sorted)
    requires forall s <- sorted :: s.row.id in newer ==> s.row.createdAt >= c
    ensures sorted[i].row.createdAt >= c
  {
    if sorted[i].row.createdAt < c {
      forall id <- newer ensures id in Ids(sorted[..i]) {
        var s :| s in sorted && s.row.id == id;
        var j :| 0 <= j < |sorted| && sorted[j] == s;
        assert sorted[..i][j] == s;
      }
      SubsetSize(newer, Ids(sorted[..i]));
      IdsCountBound(sorted[..i]);
    }
  }

  lemma {:induction false} SubsetSize(a: set<SwapId>, b: set<SwapId>)
    requires a <= b
    ensures |a| <= |b|
    decreases a
  {
    if x :| x in a { SubsetSize(a - {x}, b - {x}); }
  }

  lemma OwnIdsAreParty(rows: map<SwapId, Row>, fp: string, out: seq<Summary>)
    requires OwnRows(rows, fp, out)
    ensures Ids(out) <= PartyRows(rows, fp)
  {}

  /** A full page, or every row of the party. */
  lemma ListingIsFull(rows: map<SwapId, Row>, byBob: Index, byAlice: Index, fp: string)
    requires StoreInv(rows, byBob, byAlice)
    ensures |Listing(rows, byBob, byAlice, fp)| == Min(PAGE, |PartyRows(rows, fp)|)
  {
    var out := Merged(rows, Under(byBob, fp), Under(byAlice, fp), fp);
    MergedIsSound(rows, byBob, byAlice, fp);
    DistinctIdsCount(out);
    OwnIdsAreParty(rows, fp, out);
    SubsetSize(Ids(out), PartyRows(rows, fp));
    if id :| id in PartyRows(rows, fp) && id !in Ids(out) {
      var newer := MissedRowsAreOutnumbered(rows, byBob, byAlice, fp, id);
      SubsetSize(newer, Ids(out));
    } else {
      assert Ids(out) == PartyRows(rows, fp);
    }
  }

  lemma ListedIds(sorted: seq<Summary>)
    ensures forall j :: 0 <= j < |Truncated(sorted)| ==> sorted[j].row.id in Ids(Truncated(sorted))
  {
    forall j | 0 <= j < |Truncated(sorted)| ensures sorted[j].row.id in Ids(Truncated(sorted)) {
      assert Truncated(sorted)[j] in Truncated(sorted);
    }
  }

  /** No row that is left out is newer than one that is listed. */
  lemma NothingNewerIsLeftOut(rows: map<SwapId, Row>, byBob: Index, byAlice: Index, fp: string, id: SwapId, i: nat)
    requires StoreInv(rows, byBob, byAlice) && id in PartyRows(rows, fp)
    requires id !in Ids(Listing(rows, byBob, byAlice, fp)) && i < |Listing(rows, byBob, byAlice, fp)|
    ensures rows[id].createdAt <= Listing(rows, byBob, byAlice, fp)[i].row.createdAt
  {
    var out := Merged(rows, Under(byBob, fp), Under(byAlice, fp), fp);
    var sorted := SortNewest(out);
    MergedIsSound(rows, byBob, byAlice, fp);
    SortNewestIsSorted(out);
    SortKeepsIds(out);
    if id in Ids(sorted) {
      var s :| s in sorted && s.row.id == id;
      SortedRowIsOwn(rows, fp, out, s);
      var j :| 0 <= j < |sorted| && sorted[j] == s;
      ListedIds(sorted);
    } else {
      var newer := MissedRowsAreOutnumbered(rows, byBob, byAlice, fp, id);
      forall s <- sorted | s.row.id in newer ensures s.row.createdAt >= rows[id].createdAt {
        SortedRowIsOwn(rows, fp, out, s);
      }
      OlderComesAfterPage(sorted, newer, rows[id].createdAt, i);
    }
  }

  lemma SortedRowIsOwn(rows: map<SwapId, Row>, fp: string, out: seq<Summary>, s: Summary)
    requires OwnRows(rows, fp, out) && s in SortNewest(out)
    ensures s in out && s.row.id in rows && s.row == rows[s.row.id] && IsParty(s.row, fp) && s.role == RoleOf(s.row, fp)
  {
    SortNewestIsSorted(out);
    assert s in multiset(out);
  }

  /** What the two indexes give is what the plain scan gives, self-swaps and ties included. */
  lemma ListingAgreesWithScan(rows: map<SwapId, Row>, byBob: Index, byAlice: Index, fp: string)
    requires StoreInv(rows, byBob, byAlice)
    ensures IsListing(rows, fp, Listing(rows, byBob, byAlice, fp))
  {
    var out, r := Merged(rows, Under(byBob, fp), Under(byAlice, fp), fp), Listing(rows, byBob, byAlice, fp);
    MergedIsSound(rows, byBob, byAlice, fp);
    SortNewestIsSorted(out);
    SortKeepsIds(out);
    forall i | 0 <= i < |r|
      ensures r[i].row.id in rows && r[i].row == rows[r[i].row.id] && IsParty(r[i].row, fp) && r[i].role == RoleOf(r[i].row, fp)
    {
      assert r[i] == SortNewest(out)[i];
      SortedRowIsOwn(rows, fp, out, r[i]);
    }
    ListingIsFull(rows, byBob, byAlice, fp);
    forall id, i | id in PartyRows(rows, fp) && id !in Ids(r) && 0 <= i < |r|
      ensures rows[id].createdAt <= r[i].row.createdAt
    {
      NothingNewerIsLeftOut(rows, byBob, byAlice, fp, id, i);
    }
  }

  class InMemoryStore {
    var rows: map<SwapId, Row>
    var byBob: Index
    var byAlice: Index

    ghost predicate Valid() reads this { StoreInv(rows, byBob, byAlice) }

    constructor ()
      ensures Valid() && rows == map[]
    {
      rows, byBob, byAlice := map[], map[], map[];
    }

    /** The first write of a row enters it into both indexes. */
    method Upsert(r: Row)
      requires Valid() && (r.id in rows ==> SameOrigin(rows[r.id], r))
      modifies this
      ensures Valid() && rows == old(rows)[r.id := r]
    {
      if r.id !in rows {
        FirstWriteKeepsInv(rows, byBob, byAlice, r);
        byBob := byBob[r.bobFp := InsertKey(Under(byBob, r.bobFp), KeyFor(r))];
        byAlice := byAlice[r.aliceFp := InsertKey(Under(byAlice, r.aliceFp), KeyFor(r))];
      } else {
        LaterWriteKeepsInv(rows, byBob, byAlice, r);
      }
      rows := rows[r.id := r];
    }

    method ListByParty(fp: string) returns (out: seq<Summary>)
      requires Valid()
      ensures IsListing(rows, fp, out)
    {
      out := [];
      var bob := FirstPage(Under(byBob, fp));
      for i := 0 to |bob|
        invariant out == BobHits(rows, bob[..i], fp)
      {
        assert bob[..i + 1][..i] == bob[..i];
        var id := bob[i].id;
        if id in rows {
          out := out + [Summary(if rows[id].aliceFp == fp then Both else Bob, rows[id])];
        }
      }
      assert bob[..|bob|] == bob;
      var alice := FirstPage(Under(byAlice, fp));
      for i := 0 to |alice|
        invariant out == BobHits(rows, bob, fp) + AliceHits(rows, alice[..i], fp)
      {
        assert alice[..i + 1][..i] == alice[..i];
        var id := alice[i].id;
        if id in rows && rows[id].bobFp != fp {
          out := out + [Summary(Alice, rows[id])];
        }
      }
      assert alice[..|alice|] == alice;
      out := SortNewest(out);
      out := Truncated(out);
      ListingAgreesWithScan(rows, byBob, byAlice, fp);
    }
  }
}
