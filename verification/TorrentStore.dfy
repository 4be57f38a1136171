/**
 The browser's torrent store: a map of row objects, reconciled in place so that a row
 keeps its identity for as long as its torrent is listed.
 */
module TorrentStores {
  import opened Wire
  import opened Delta

  class TorrentStore {
    var rows: map<string, TorrentRow>

    /** Every row is filed under its own hash, so no two keys share a row. */
    ghost predicate Valid()
      reads this
    {
      forall h :: h in rows ==> rows[h].hash == h
    }

    ghost function Contents(): Rows
      reads this, rows.Values
    {
      map h | h in rows :: rows[h].View()
    }

    constructor ()
      ensures Valid() && Contents() == map[]
    {
      rows := map[];
    }

    method Upsert(p: Patch)
      requires Valid() && WellTyped(p)
      modifies this, rows.Values
      ensures Valid() && Contents() == UpsertOne(old(Contents()), p)
      ensures rows.Keys == old(rows.Keys) + {p.hash}
      ensures forall h :: h in old(rows) ==> rows[h] == old(rows[h])
      ensures fresh(rows.Values - old(rows.Values))
    {
      hide WellTyped, Patched, NewRow, TorrentRow.View, Contents;
      ContentKeys();
      if p.hash in rows {
        UpdateRow(p);
      } else {
        AddRow(p);
      }
    }

    lemma {:induction false} ContentKeys()
      ensures Contents().Keys == rows.Keys
    {
    }

    /** Field-level update of a listed row. */
    method UpdateRow(p: Patch)
      requires Valid() && WellTyped(p) && p.hash in rows
      modifies rows.Values
      ensures Valid() && Contents() == old(Contents())[p.hash := Patched(old(Contents())[p.hash], p)]
    {
      hide WellTyped, Patched, NewRow, TorrentRow.View;
      assert forall h :: h in rows && h != p.hash ==> rows[h] != rows[p.hash];
      rows[p.hash].Apply(p);
    }

    /** A new row, patched from the defaults. */
    method AddRow(p: Patch)
      requires Valid() && WellTyped(p) && p.hash !in rows
      modifies this
      ensures Valid() && Contents() == old(Contents())[p.hash := Patched(NewRow(p.hash), p)]
      ensures rows.Keys == old(rows.Keys) + {p.hash}
      ensures forall h :: h in old(rows) ==> rows[h] == old(rows[h])
      ensures fresh(rows[p.hash])
    {
      hide WellTyped, Patched, NewRow, TorrentRow.View;
      var t := new TorrentRow(p.hash);
      t.Apply(p);
      rows := rows[p.hash := t];
    }

    method ApplyUpserts(ps: seq<Patch>)
      requires Valid() && forall i :: 0 <= i < |ps| ==> WellTyped(ps[i])
      modifies this, rows.Values
      ensures Valid() && Contents() == Upserted(old(Contents()), ps)
      ensures old(rows.Keys) <= rows.Keys && forall h :: h in old(rows) ==> rows[h] == old(rows[h])
      ensures fresh(rows.Values - old(rows.Values))
    {
      hide WellTyped, UpsertOne;
      for i := 0 to |ps|
        invariant Valid() && Contents() == Upserted(old(Contents()), ps[..i])
        invariant old(rows.Keys) <= rows.Keys && forall h :: h in old(rows) ==> rows[h] == old(rows[h])
        invariant fresh(rows.Values - old(rows.Values))
      {
        assert ps[..i + 1] == ps[..i] + [ps[i]];
        AppendPatch(old(Contents()), ps[..i], ps[i]);
        Upsert(ps[i]);
      }
      assert ps[..|ps|] == ps;
    }

    method Remove(hashes: seq<string>)
      requires Valid()
      modifies this
      ensures Valid() && Contents() == old(Contents()) - SetOf(hashes)
      ensures forall h :: h in rows ==> h in old(rows) && rows[h] == old(rows[h])
    {
      for i := 0 to |hashes|
        invariant rows == old(rows) - SetOf(hashes[..i])
      {
        assert hashes[..i + 1] == hashes[..i] + [hashes[i]];
        SetOfAppend(hashes[..i], hashes[i]);
        rows := rows - {hashes[i]};
      }
      assert hashes[..|hashes|] == hashes;
    }

    /** Reconcile with a full list: rows that stay are updated in place, the rest go. */
    method ApplySnapshot(list: seq<Row>)
      requires Valid()
      modifies this, rows.Values
      ensures Valid() && Contents() == SnapshotApplied(old(Contents()), list)
      ensures forall h :: h in rows && h in old(rows) ==> rows[h] == old(rows[h])
      ensures fresh(rows.Values - old(rows.Values))
    {
      hide Upserted, RowHashes, FullPatches;
      var seen := UpsertRows(list);
      DropUnseen(seen);
    }

    method DropUnseen(seen: set<string>)
      modifies this
      ensures rows == map h | h in old(rows) && h in seen :: old(rows)[h]
    {
      var todo := rows.Keys;
      while todo != {}
        invariant todo <= old(rows.Keys)
        invariant rows == map h | h in old(rows) && (h in seen || h in todo) :: old(rows)[h]
        decreases todo
      {
        var h :| h in todo;
        if h !in seen {
          rows := rows - {h};
        }
        todo := todo - {h};
      }
    }

    method UpsertRows(list: seq<Row>) returns (seen: set<string>)
      requires Valid()
      modifies this, rows.Values
      ensures Valid() && Contents() == Upserted(old(Contents()), FullPatches(list))
      ensures old(rows.Keys) <= rows.Keys && forall h :: h in old(rows) ==> rows[h] == old(rows[h])
      ensures fresh(rows.Values - old(rows.Values))
      ensures seen == RowHashes(list)
    {
      hide WellTyped, UpsertOne, Full, Contents, FullPatches, Upserted, RowHashes;
      NothingLands(Contents());
      assert RowHashes([]) == {} by { AppendRow([], NewRow("")); RowMapIs([]); NothingLands(map[]); }
      seen := {};
      for i := 0 to |list|
        invariant Valid() && Contents() == Upserted(old(Contents()), FullPatches(list[..i]))
        invariant old(rows.Keys) <= rows.Keys && forall h :: h in old(rows) ==> rows[h] == old(rows[h])
        invariant fresh(rows.Values - old(rows.Values))
        invariant seen == RowHashes(list[..i])
      {
        assert list[..i + 1] == list[..i] + [list[i]];
        AppendRow(list[..i], list[i]);
        AppendPatch(old(Contents()), FullPatches(list[..i]), Full(list[i]));
        FullHash(list[i]);
        seen := seen + {list[i].hash};
        Upsert(Full(list[i]));
      }
      assert list[..|list|] == list;
    }

    /** A delta message: upserts, then removals. */
    method ApplyDelta(ps: seq<Patch>, removed: seq<string>)
      requires Valid() && forall i :: 0 <= i < |ps| ==> WellTyped(ps[i])
      modifies this, rows.Values
      ensures Valid() && Contents() == DeltaApplied(old(Contents()), ps, removed)
    {
      hide WellTyped, Upserted;
      ApplyUpserts(ps);
      Remove(removed);
    }
  }
}
