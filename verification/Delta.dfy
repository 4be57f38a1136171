/**
 From one tick's torrent list to the client's rows: the delta the poller computes, the
 store that applies it, and the law that ties them together.
 */
module Delta {
  import opened Wire

  type Rows = map<string, Row>
  type Table = map<string, Torrent>

  function Hashes(ts: seq<Torrent>): set<string> {
    set t | t in ts :: t.wire.hash
  }

  ghost predicate UniqueHashes(ts: seq<Torrent>) {
    forall i, j :: 0 <= i < j < |ts| ==> ts[i].wire.hash != ts[j].wire.hash
  }

  /** The wire view of a server-side table. */
  function ViewOf(t: Table): Rows {
    map h | h in t :: t[h].wire
  }

  /** A table files every torrent under its own hash. */
  ghost predicate Filed(t: Table) {
    forall h :: h in t ==> t[h].wire.hash == h
  }

  function TableOf(ts: seq<Torrent>): Table {
    if ts == [] then map[] else TableOf(ts[..|ts| - 1])[ts[|ts| - 1].wire.hash := ts[|ts| - 1]]
  }

  // ---- the client's map, on values ----------------------------------------

  function UpsertOne(c: Rows, p: Patch): Rows
    requires WellTyped(p)
  {
    c[p.hash := Patched(if p.hash in c then c[p.hash] else NewRow(p.hash), p)]
  }

  function Upserted(c: Rows, ps: seq<Patch>): Rows
    requires forall i :: 0 <= i < |ps| ==> WellTyped(ps[i])
  {
    if ps == [] then c else UpsertOne(Upserted(c, ps[..|ps| - 1]), ps[|ps| - 1])
  }

  function SetOf(hs: seq<string>): set<string> {
    set h | h in hs
  }

  /** A delta: upserts first, then removals. */
  function DeltaApplied(c: Rows, ps: seq<Patch>, removed: seq<string>): Rows
    requires forall i :: 0 <= i < |ps| ==> WellTyped(ps[i])
  {
    Upserted(c, ps) - SetOf(removed)
  }

  function FullPatches(rows: seq<Row>): (ps: seq<Patch>)
    ensures |ps| == |rows| && forall i :: 0 <= i < |rows| ==> ps[i] == Full(rows[i]) && WellTyped(ps[i])
  {
    if rows == [] then [] else FullPatches(rows[..|rows| - 1]) + [Full(rows[|rows| - 1])]
  }

  function RowHashes(rows: seq<Row>): set<string> {
    set r | r in rows :: r.hash
  }

  /** A snapshot: upsert every row, then drop what it does not list. */
  function SnapshotApplied(c: Rows, rows: seq<Row>): Rows {
    var all := Upserted(c, FullPatches(rows));
    map h | h in all && h in RowHashes(rows) :: all[h]
  }

  function RowMap(rows: seq<Row>): Rows {
    if rows == [] then map[] else RowMap(rows[..|rows| - 1])[rows[|rows| - 1].hash := rows[|rows| - 1]]
  }

  // ---- laws ---------------------------------------------------------------

  /** A full patch replaces whatever the row held. */
  lemma {:induction false} FullReplaces(r: Row, kept: Row)
    requires r.hash == kept.hash
    ensures Patched(kept, Full(r)) == r
  {
    hide Patched, Get;
    forall f ensures Get(Patched(kept, Full(r)), f) == Get(r, f) {
      PatchedField(kept, Full(r), f);
      AllFieldsListed(f);
    }
    PatchedHash(kept, Full(r));
    SameFields(Patched(kept, Full(r)), r);
  }

  lemma {:induction false} PatchedHash(r: Row, p: Patch)
    requires WellTyped(p)
    ensures Patched(r, p).hash == r.hash
  {
  }

  lemma {:induction false} DiffTyped(p: Patch, t: Row, prev: Row)
    requires IsDiff(p.fields, t, prev)
    ensures WellTyped(p)
  {
    forall f | f in p.fields ensures Typed(f, p.fields[f]) {
    }
  }

  /** A diff takes the previous row to the next, and leaves the next as it is. */
  lemma {:induction false} DiffReplays(p: Patch, t: Row, prev: Row)
    requires IsDiff(p.fields, t, prev) && t.hash == prev.hash && WellTyped(p)
    ensures Patched(prev, p) == t && Patched(t, p) == t
    ensures p.fields == map[] ==> t == prev
  {
    hide Patched, Get, WellTyped;
    forall f
      ensures Get(Patched(prev, p), f) == Get(t, f) && Get(Patched(t, p), f) == Get(t, f)
      ensures p.fields == map[] ==> Get(t, f) == Get(prev, f)
    {
      PatchedField(prev, p, f);
      PatchedField(t, p, f);
    }
    PatchedHash(prev, p);
    PatchedHash(t, p);
    SameFields(Patched(prev, p), t);
    SameFields(Patched(t, p), t);
    if p.fields == map[] {
      SameFields(t, prev);
    }
  }

  lemma {:induction false} UpsertRowHash(c: Rows, ps: seq<Patch>)
    requires forall i :: 0 <= i < |ps| ==> WellTyped(ps[i])
    requires forall h :: h in c ==> c[h].hash == h
    ensures forall h :: h in Upserted(c, ps) ==> Upserted(c, ps)[h].hash == h
  {
    hide Patched, WellTyped;
    if ps != [] {
      var before, p := Upserted(c, ps[..|ps| - 1]), ps[|ps| - 1];
      UpsertRowHash(c, ps[..|ps| - 1]);
      PatchedHash(if p.hash in before then before[p.hash] else NewRow(p.hash), p);
    }
  }

  /** Upserting a full row files it, whatever was there. */
  lemma {:induction false} FullLands(c: Rows, r: Row)
    requires forall h :: h in c ==> c[h].hash == h
    ensures UpsertOne(c, Full(r)) == c[r.hash := r]
  {
    hide Patched, NewRow, Full;
    FullHash(r);
    NewRowHash(r.hash);
    FullReplaces(r, if r.hash in c then c[r.hash] else NewRow(r.hash));
  }

  lemma {:induction false} AppendPatch(c: Rows, ps: seq<Patch>, p: Patch)
    requires forall i :: 0 <= i < |ps| ==> WellTyped(ps[i])
    requires WellTyped(p)
    ensures forall i :: 0 <= i < |ps + [p]| ==> WellTyped((ps + [p])[i])
    ensures Upserted(c, ps + [p]) == UpsertOne(Upserted(c, ps), p)
  {
    hide WellTyped, UpsertOne;
    assert (ps + [p])[..|ps|] == ps;
  }

  lemma {:induction false} AppendRow(rows: seq<Row>, r: Row)
    ensures FullPatches(rows + [r]) == FullPatches(rows) + [Full(r)]
    ensures RowMap(rows + [r]) == RowMap(rows)[r.hash := r]
    ensures RowHashes(rows + [r]) == RowHashes(rows) + {r.hash}
  {
    hide Full, WellTyped;
    assert (rows + [r])[..|rows|] == rows;
  }

  lemma {:induction false} RowMapIs(rows: seq<Row>)
    ensures RowMap(rows).Keys == RowHashes(rows)
    ensures forall h :: h in RowMap(rows) ==> RowMap(rows)[h].hash == h
  {
    if rows != [] {
      hide RowHashes;
      RowMapIs(rows[..|rows| - 1]);
      assert rows[..|rows| - 1] + [rows[|rows| - 1]] == rows;
      AppendRow(rows[..|rows| - 1], rows[|rows| - 1]);
    }
  }

  lemma {:induction false} NothingLands(c: Rows)
    ensures Upserted(c, []) == c
    ensures FullPatches([]) == [] && RowMap([]) == map[] && TableOf([]) == map[] && ViewOf(map[]) == map[]
    ensures c + map[] == c
  {
    hide WellTyped;
  }

  lemma {:induction false} RowsLand(c: Rows, rows: seq<Row>)
    requires forall h :: h in c ==> c[h].hash == h
    ensures Upserted(c, FullPatches(rows)) == c + RowMap(rows)
  {
    hide *;
    NothingLands(c);
    if rows != [] {
      var before, r := rows[..|rows| - 1], rows[|rows| - 1];
      assert before + [r] == rows;
      RowsLand(c, before);
      RowMapIs(before);
      AppendRow(before, r);
      AppendPatch(c, FullPatches(before), Full(r));
      FullLands(c + RowMap(before), r);
    }
  }

  /** Applying a snapshot forgets everything that came before it. */
  lemma {:induction false} SnapshotErasesPast(c: Rows, rows: seq<Row>)
    requires forall h :: h in c ==> c[h].hash == h
    ensures SnapshotApplied(c, rows) == RowMap(rows)
  {
    hide Upserted, FullPatches, RowHashes, RowMap;
    RowsLand(c, rows);
    RowMapIs(rows);
  }

  lemma {:induction false} FullHash(r: Row)
    ensures Full(r).hash == r.hash
  {
  }

  lemma {:induction false} NewRowHash(h: string)
    ensures NewRow(h).hash == h
  {
  }

  /** What the poller owes for one torrent: nothing if its wire fields did not change,
      else the full row if it is new, else the fields that differ. */
  ghost predicate IsUpsertFor(p: Patch, t: Torrent, prev: Table) {
    && p.hash == t.wire.hash && WellTyped(p)
    && (if t.wire.hash in prev then IsDiff(p.fields, t.wire, prev[t.wire.hash].wire) && p.fields != map[]
        else p == Full(t.wire))
  }

  /** The upserts of a whole list, in its order. */
  ghost predicate AreUpserts(ps: seq<Patch>, ts: seq<Torrent>, prev: Table) {
    if ts == [] then ps == []
    else
      var before, t := ts[..|ts| - 1], ts[|ts| - 1];
      if t.wire.hash in prev && prev[t.wire.hash].wire == t.wire then AreUpserts(ps, before, prev)
      else ps != [] && IsUpsertFor(ps[|ps| - 1], t, prev) && AreUpserts(ps[..|ps| - 1], before, prev)
  }

  lemma {:induction false} UpsertsTyped(ps: seq<Patch>, ts: seq<Torrent>, prev: Table)
    requires AreUpserts(ps, ts, prev)
    ensures forall i :: 0 <= i < |ps| ==> WellTyped(ps[i])
  {
    hide WellTyped, Full;
    if ts != [] {
      var before, t := ts[..|ts| - 1], ts[|ts| - 1];
      if t.wire.hash in prev && prev[t.wire.hash].wire == t.wire {
        UpsertsTyped(ps, before, prev);
      } else {
        UpsertsTyped(ps[..|ps| - 1], before, prev);
      }
    }
  }

  /** A client row that is absent, as it was at the previous tick, or already as it is now. */
  ghost predicate Behind(c: Rows, t: Torrent, prev: Table) {
    var h := t.wire.hash;
    if h in prev then h in c && (c[h] == prev[h].wire || c[h] == t.wire)
    else h !in c || c[h] == t.wire
  }

  lemma {:induction false} HashesSplit(ts: seq<Torrent>)
    requires ts != []
    ensures Hashes(ts) == Hashes(ts[..|ts| - 1]) + {ts[|ts| - 1].wire.hash}
  {
    assert ts == ts[..|ts| - 1] + [ts[|ts| - 1]];
  }

  lemma {:induction false} TableKeys(ts: seq<Torrent>)
    ensures TableOf(ts).Keys == Hashes(ts) && Filed(TableOf(ts))
  {
    if ts != [] {
      HashesSplit(ts);
      TableKeys(ts[..|ts| - 1]);
    }
  }

  /** One torrent's upsert brings its row up to date from any state that is behind. */
  lemma {:induction false} UpsertLands(c: Rows, p: Patch, t: Torrent, prev: Table)
    requires IsUpsertFor(p, t, prev) && Behind(c, t, prev) && Filed(prev)
    ensures UpsertOne(c, p) == c[t.wire.hash := t.wire]
  {
    hide Patched, WellTyped, Full, NewRow, IsDiff;
    var h := t.wire.hash;
    NewRowHash(h);
    if h in prev {
      DiffReplays(p, t.wire, prev[h].wire);
    } else {
      FullReplaces(t.wire, if h in c then c[h] else NewRow(h));
    }
  }

  /** Upserting a list leaves every listed torrent's row current and no other row touched. */
  lemma {:induction false} UpsertsLand(c: Rows, ps: seq<Patch>, ts: seq<Torrent>, prev: Table)
    requires AreUpserts(ps, ts, prev) && UniqueHashes(ts) && Filed(prev)
    requires forall i :: 0 <= i < |ts| ==> Behind(c, ts[i], prev)
    requires forall i :: 0 <= i < |ps| ==> WellTyped(ps[i])
    ensures Upserted(c, ps) == c + ViewOf(TableOf(ts))
  {
    hide WellTyped, IsUpsertFor, UpsertOne, TableOf, ViewOf, Filed, Hashes, Upserted, Behind, UniqueHashes;
    if ts == [] {
      NothingLands(c);
    } else {
      var before, t := ts[..|ts| - 1], ts[|ts| - 1];
      assert before + [t] == ts;
      ListSplit(c, before, t, prev);
      if t.wire.hash in prev && prev[t.wire.hash].wire == t.wire {
        UpsertsLand(c, ps, before, prev);
        SameLands(c, before, t, prev);
      } else {
        var rest, p := ps[..|ps| - 1], ps[|ps| - 1];
        UpsertsLand(c, rest, before, prev);
        assert rest + [p] == ps;
        NextLands(c, rest, p, before, t, prev);
      }
    }
  }

  /** What holds of a list of torrents holds of all but the last, and of the last. */
  lemma {:induction false} ListSplit(c: Rows, before: seq<Torrent>, t: Torrent, prev: Table)
    requires UniqueHashes(before + [t])
    requires forall i :: 0 <= i < |before + [t]| ==> Behind(c, (before + [t])[i], prev)
    ensures UniqueHashes(before) && Behind(c, t, prev)
    ensures forall i :: 0 <= i < |before| ==> before[i].wire.hash != t.wire.hash
    ensures forall i :: 0 <= i < |before| ==> Behind(c, before[i], prev)
  {
    hide Behind;
    var all := before + [t];
    assert all[|before|] == t;
    assert forall i :: 0 <= i < |before| ==> before[i] == all[i];
  }

  lemma {:induction false} SameLands(c: Rows, before: seq<Torrent>, t: Torrent, prev: Table)
    requires Behind(c, t, prev) && t.wire.hash in prev && prev[t.wire.hash].wire == t.wire
    requires forall i :: 0 <= i < |before| ==> before[i].wire.hash != t.wire.hash
    ensures c + ViewOf(TableOf(before + [t])) == c + ViewOf(TableOf(before))
  {
    hide TableOf, ViewOf, Hashes;
    NotListed(before, t.wire.hash);
    ViewGrows(before, t);
  }

  lemma {:induction false} NextLands(c: Rows, rest: seq<Patch>, p: Patch, before: seq<Torrent>, t: Torrent, prev: Table)
    requires IsUpsertFor(p, t, prev) && Behind(c, t, prev) && Filed(prev)
    requires forall i :: 0 <= i < |before| ==> before[i].wire.hash != t.wire.hash
    requires forall i :: 0 <= i < |rest + [p]| ==> WellTyped((rest + [p])[i])
    requires forall i :: 0 <= i < |rest| ==> WellTyped(rest[i])
    requires WellTyped(p) && Upserted(c, rest) == c + ViewOf(TableOf(before))
    ensures Upserted(c, rest + [p]) == c + ViewOf(TableOf(before + [t]))
  {
    hide WellTyped, IsUpsertFor, UpsertOne, TableOf, ViewOf, Filed, Hashes, Upserted;
    NotListed(before, t.wire.hash);
    ViewGrows(before, t);
    AppendPatch(c, rest, p);
    UpsertLands(c + ViewOf(TableOf(before)), p, t, prev);
  }

  lemma {:induction false} ViewGrows(before: seq<Torrent>, t: Torrent)
    ensures ViewOf(TableOf(before + [t])) == ViewOf(TableOf(before))[t.wire.hash := t.wire]
    ensures ViewOf(TableOf(before)).Keys == Hashes(before)
  {
    assert (before + [t])[..|before|] == before;
    TableKeys(before);
  }

  lemma {:induction false} NotListed(ts: seq<Torrent>, h: string)
    requires forall i :: 0 <= i < |ts| ==> ts[i].wire.hash != h
    ensures h !in Hashes(ts)
  {
  }

  lemma {:induction false} TableHolds(ts: seq<Torrent>, i: nat)
    requires UniqueHashes(ts) && i < |ts|
    ensures ts[i].wire.hash in TableOf(ts) && TableOf(ts)[ts[i].wire.hash] == ts[i]
  {
    if i < |ts| - 1 {
      TableHolds(ts[..|ts| - 1], i);
    }
  }

  /** The delta law: the tick's delta takes the previous tick's rows to the next tick's,
      and applied once more to the next tick's rows it changes nothing. */
  lemma {:induction false} DeltaLaw(prev: Table, ts: seq<Torrent>, ps: seq<Patch>, removed: seq<string>)
    requires UniqueHashes(ts) && Filed(prev)
    requires AreUpserts(ps, ts, prev)
    requires SetOf(removed) == prev.Keys - Hashes(ts)
    ensures forall i :: 0 <= i < |ps| ==> WellTyped(ps[i])
    ensures DeltaApplied(ViewOf(prev), ps, removed) == ViewOf(TableOf(ts))
    ensures DeltaApplied(ViewOf(TableOf(ts)), ps, removed) == ViewOf(TableOf(ts))
  {
    hide WellTyped, AreUpserts, TableOf, Upserted, IsUpsertFor, UniqueHashes;
    UpsertsTyped(ps, ts, prev);
    TableKeys(ts);
    var next := TableOf(ts);
    forall i | 0 <= i < |ts| ensures Behind(ViewOf(prev), ts[i], prev) && Behind(ViewOf(next), ts[i], prev) {
      TableHolds(ts, i);
    }
    UpsertsLand(ViewOf(prev), ps, ts, prev);
    UpsertsLand(ViewOf(next), ps, ts, prev);
    assert (ViewOf(prev) + ViewOf(next)) - SetOf(removed) == ViewOf(next);
    assert (ViewOf(next) + ViewOf(next)) - SetOf(removed) == ViewOf(next);
  }

  // ---- the poller's loops -------------------------------------------------

  method ComputeDelta(prev: Table, ts: seq<Torrent>) returns (next: Table, upserts: seq<Patch>, removed: seq<string>)
    requires Filed(prev)
    ensures next == TableOf(ts)
    ensures AreUpserts(upserts, ts, prev)
    ensures SetOf(removed) == prev.Keys - Hashes(ts)
  {
    hide WellTyped, Full, IsDiff;
    next, upserts := map[], [];
    for i := 0 to |ts|
      invariant next == TableOf(ts[..i])
      invariant AreUpserts(upserts, ts[..i], prev)
    {
      assert ts[..i + 1][..i] == ts[..i];
      var t := ts[i];
      next := next[t.wire.hash := t];
      if t.wire.hash in prev {
        var changed, d := DiffFrom(t, prev[t.wire.hash]);
        DiffTyped(d, t.wire, prev[t.wire.hash].wire);
        DiffReplays(d, t.wire, prev[t.wire.hash].wire);
        NoDiff(d, t.wire, prev[t.wire.hash].wire);
        if changed {
          assert (upserts + [d])[..|upserts|] == upserts;
          upserts := upserts + [d];
        }
      } else {
        FullHash(t.wire);
        assert (upserts + [Full(t.wire)])[..|upserts|] == upserts;
        upserts := upserts + [Full(t.wire)];
      }
    }
    assert ts[..|ts|] == ts;
    TableKeys(ts);
    removed := [];
    var todo := prev.Keys;
    while todo != {}
      invariant todo <= prev.Keys
      invariant SetOf(removed) == (prev.Keys - todo) - next.Keys
      decreases todo
    {
      var h :| h in todo;
      if h !in next {
        SetOfAppend(removed, h);
        removed := removed + [h];
      }
      todo := todo - {h};
    }
  }

  lemma {:induction false} SetOfAppend(hs: seq<string>, h: string)
    ensures SetOf(hs + [h]) == SetOf(hs) + {h}
  {
  }

  lemma {:induction false} NoDiff(p: Patch, t: Row, prev: Row)
    requires IsDiff(p.fields, t, prev)
    ensures t == prev ==> p.fields == map[]
  {
  }
}
