/**
 Deduplication: the store writes a raw row only when a counter moved, and no reading
 of the series can tell, over every run with any faults, purges and restarts.
 */
module HistoryDedup {
  import opened Options
  import opened Series
  import opened HistoryStore
  import opened HistoryRuns
  import opened HistoryGc

  /** Hashes are unique within a poll and none of them is the global key. */
  ghost predicate ProperPoll(rs: seq<Reading>) {
    && (forall i, j :: 0 <= i < j < |rs| ==> rs[i].hash != rs[j].hash)
    && (forall i :: 0 <= i < |rs| ==> rs[i].hash != GLOBAL)
  }

  ghost predicate ProperPolls(evs: seq<Event>) {
    forall i :: 0 <= i < |evs| && evs[i].Poll? ==> ProperPoll(evs[i].rs)
  }

  /** What one poll says about every series, the global one included. */
  function Readings(rs: seq<Reading>): map<string, Counter> {
    if rs == [] then map[] else Readings(rs[..|rs| - 1])[rs[|rs| - 1].hash := rs[|rs| - 1].counter]
  }

  function AllReadings(rs: seq<Reading>): map<string, Counter> {
    Readings(rs)[GLOBAL := Total(rs)]
  }

  predicate Unchanged(last: map<string, Counter>, h: string, c: Counter) {
    h in last && last[h] == c
  }

  /** The readings of a committed poll that the database did not refuse. */
  function Offers(last: map<string, Counter>, all: map<string, Counter>, f: Faults): map<string, Counter> {
    map h | h in all && (Unchanged(last, h, all[h]) || h !in f.writes) :: all[h]
  }

  /** The series as they would be if every accepted reading were written. */
  function Offered(evs: seq<Event>): Ledger<Counter> {
    if evs == [] then map[]
    else
      var o, s := Offered(Before(evs)), Run(Before(evs));
      match Latest(evs)
      case Poll(ts, rs, f) => if f.commitFails then o else Record(o, Offers(s.last, AllReadings(rs), f), ts)
      case Maintain(ts, pf) => o - RowsGone(s, ts, pf)
      case _ => o
  }

  lemma {:induction false} ReadingKeys(rs: seq<Reading>)
    ensures Readings(rs).Keys == HashesOf(rs)
  {
    if rs != [] {
      HashesSplit(rs);
      ReadingKeys(rs[..|rs| - 1]);
    }
  }

  /** Exactly the readings that moved and were not refused are written. */
  lemma {:induction false} PendingIs(s: State, rs: seq<Reading>, ts: nat, f: Faults, h: string)
    requires ProperPoll(rs)
    ensures var p, all := WriteTorrents(s, rs, ts, f).pending, Readings(rs);
      && (h in p <==> h in all && !Unchanged(s.last, h, all[h]) && h !in f.writes)
      && (h in p ==> p[h] == all[h])
  {
    if rs != [] {
      var before, r := rs[..|rs| - 1], rs[|rs| - 1];
      PendingIs(s, before, ts, f, h);
      ReadingKeys(before);
      assert r.hash !in HashesOf(before);
    }
  }

  lemma {:induction false} AllPendingIs(s: State, rs: seq<Reading>, ts: nat, f: Faults, h: string)
    requires ProperPoll(rs)
    ensures var p, all := WriteAll(s, rs, ts, f).pending, AllReadings(rs);
      && (h in p <==> h in all && !Unchanged(s.last, h, all[h]) && h !in f.writes)
      && (h in p ==> p[h] == all[h])
  {
    PendingIs(s, rs, ts, f, h);
    PendingIs(s, rs, ts, f, GLOBAL);
    ReadingKeys(rs);
    assert GLOBAL !in HashesOf(rs);
  }

  /** The first poll that skipped an unchanged counter against a dedup entry that had outlived
      its rows, and was not made good by a later poll at the same time. A purge leaves such an
      entry when it deletes the rows of a hash that it did not list. */
  function Masked(evs: seq<Event>, h: string): Option<nat> {
    if evs == [] then None
    else
      var m, s := Masked(Before(evs), h), Run(Before(evs));
      match Latest(evs)
      case Poll(ts, rs, f) =>
        if f.commitFails then m
        else if h in WriteAll(s, rs, ts, f).pending then (if m == Some(ts) then None else m)
        else if m.None? && h in Offers(s.last, AllReadings(rs), f) && ColumnOf(Written(Before(evs)), h) == map[] then
          Some(ts)
        else m
      case Maintain(ts, pf) => if h in RowsGone(s, ts, pf) then None else m
      case _ => m
  }

  /** Nothing in the ledgers is later than the clock, and the dedup cache holds what is read
      from the clock on, if anything is. Unmasked, they read the same at x; masked, the offered
      rows start before the written ones. */
  ghost predicate DedupOk(written: Column<Counter>, offered: Column<Counter>, last: map<string, Counter>,
                          h: string, clock: nat, masked: Option<nat>, x: nat) {
    && (forall t :: t in written ==> t <= clock)
    && (forall t :: t in offered ==> t <= clock)
    && (h in last && written != map[] && clock <= x ==> CumAt(written, x) == Some(last[h]))
    && (masked.None? ==> CumAt(written, x) == CumAt(offered, x) && (written == map[] ==> offered == map[]))
    && (masked.Some? ==>
          && masked.value in offered
          && (forall t :: t in offered ==> masked.value <= t)
          && (forall t :: t in written ==> masked.value < t))
  }

  ghost predicate DedupIs(t0: nat, evs: seq<Event>, h: string, x: nat) {
    DedupOk(ColumnOf(Written(evs), h), ColumnOf(Offered(evs), h), Run(evs).last, h, Clock(t0, evs), Masked(evs, h), x)
  }

  lemma {:induction false} DedupInvariant(t0: nat, evs: seq<Event>, h: string, x: nat)
    requires Timely(t0, evs) && ProperPolls(evs)
    ensures DedupIs(t0, evs, h, x)
  {
    hide DedupOk, MaintainStep, CacheGone, RowsGone, WriteAll, SampleStep, Offers, AllReadings;
    if evs == [] {
      NothingIsDeduped(map[], h, t0, x);
    } else {
      var s := Run(Before(evs));
      var written, offered := ColumnOf(Written(Before(evs)), h), ColumnOf(Offered(Before(evs)), h);
      var m := Masked(Before(evs), h);
      DedupInvariant(t0, Before(evs), h, x);
      match Latest(evs)
      case Poll(ts, rs, f) =>
        assert ProperPoll(rs) by { assert evs[|evs| - 1].Poll?; }
        PollDedups(s, rs, ts, f, written, offered, h, Clock(t0, Before(evs)), m, x);
      case Maintain(now, pf) =>
        MaintainSeen(s, now, pf);
        NothingIsDeduped(s.last - CacheGone(s, now, pf), h, now, x);
        LaterClock(written, offered, s.last, s.last - CacheGone(s, now, pf), h, Clock(t0, Before(evs)), now, m, x);
      case Gauge(ts, values, fails) =>
        LaterClock(written, offered, s.last, s.last, h, Clock(t0, Before(evs)), ts, m, x);
      case Restart(ts) =>
        LaterClock(written, offered, s.last, map[], h, Clock(t0, Before(evs)), ts, m, x);
    }
  }

  lemma {:induction false} NothingIsDeduped(last: map<string, Counter>, h: string, clock: nat, x: nat)
    ensures DedupOk(map[], map[], last, h, clock, None, x)
  {
  }

  lemma {:induction false} LaterClock(written: Column<Counter>, offered: Column<Counter>, last: map<string, Counter>,
                                      fewer: map<string, Counter>, h: string, clock: nat, later: nat,
                                      masked: Option<nat>, x: nat)
    requires DedupOk(written, offered, last, h, clock, masked, x) && clock <= later
    requires h in fewer ==> h in last && fewer[h] == last[h]
    ensures DedupOk(written, offered, fewer, h, later, masked, x)
  {
  }

  lemma {:induction false} PollDedups(s: State, rs: seq<Reading>, ts: nat, f: Faults,
                                      written: Column<Counter>, offered: Column<Counter>, h: string, clock: nat,
                                      m: Option<nat>, x: nat)
    requires ProperPoll(rs) && clock <= ts
    requires DedupOk(written, offered, s.last, h, clock, m, x)
    ensures f.commitFails ==> DedupOk(written, offered, SampleStep(s, rs, ts, f).last, h, ts, m, x)
    ensures !f.commitFails ==>
      var p, o := WriteAll(s, rs, ts, f).pending, Offers(s.last, AllReadings(rs), f);
      var m' := if h in p then (if m == Some(ts) then None else m)
                else if m.None? && h in o && written == map[] then Some(ts) else m;
      DedupOk(if h in p then written[ts := p[h]] else written, if h in o then offered[ts := o[h]] else offered,
              SampleStep(s, rs, ts, f).last, h, ts, m', x)
  {
    hide WriteAll, AllReadings, SeedAll, RefreshAll, DedupOk;
    AllPendingIs(s, rs, ts, f, h);
    var p, o := WriteAll(s, rs, ts, f).pending, Offers(s.last, AllReadings(rs), f);
    var last := SampleStep(s, rs, ts, f).last;
    if f.commitFails || h !in o {
      LaterClock(written, offered, s.last, last, h, clock, ts, m, x);
    } else if h in p {
      WriteIsRead(written, offered, s.last, last, h, clock, ts, m, p[h], x);
    } else {
      SkipIsRead(written, offered, s.last, last, h, clock, ts, m, o[h], x);
    }
  }

  lemma {:induction false} WriteIsRead(written: Column<Counter>, offered: Column<Counter>, last: map<string, Counter>,
                                       next: map<string, Counter>, h: string, clock: nat, ts: nat, m: Option<nat>,
                                       v: Counter, x: nat)
    requires DedupOk(written, offered, last, h, clock, m, x) && clock <= ts
    requires h in next ==> next[h] == v
    ensures DedupOk(written[ts := v], offered[ts := v], next, h, ts, if m == Some(ts) then None else m, x)
  {
    hide CumAt;
    CumAtWrite(written, ts, v, x);
    CumAtWrite(offered, ts, v, x);
    if m == Some(ts) {
      assert forall t :: t in offered ==> t == ts;
      assert offered[ts := v] == map[ts := v] == written[ts := v];
    }
  }

  lemma {:induction false} SkipIsRead(written: Column<Counter>, offered: Column<Counter>, last: map<string, Counter>,
                                      next: map<string, Counter>, h: string, clock: nat, ts: nat, m: Option<nat>,
                                      v: Counter, x: nat)
    requires DedupOk(written, offered, last, h, clock, m, x) && clock <= ts
    requires h in last && last[h] == v && (h in next ==> next[h] == v)
    ensures DedupOk(written, offered[ts := v], next, h, ts, if m.None? && written == map[] then Some(ts) else m, x)
  {
    hide CumAt;
    CumAtWrite(offered, ts, v, x);
  }

  /** Skipping unchanged counters changes no reading: at every x the written rows read
      what the accepted polls said, if and only if no poll was masked. */
  lemma {:induction false} DedupIsInvisibleIff(t0: nat, evs: seq<Event>, h: string)
    requires Timely(t0, evs) && ProperPolls(evs)
    ensures (forall x: nat :: CumAt(ColumnOf(Written(evs), h), x) == CumAt(ColumnOf(Offered(evs), h), x)) <==>
      Masked(evs, h).None?
  {
    hide Written, Offered, Run, CumAt, LastIn;
    var w, o := ColumnOf(Written(evs), h), ColumnOf(Offered(evs), h);
    if Masked(evs, h).Some? {
      var t := Masked(evs, h).value;
      DedupInvariant(t0, evs, h, t);
      ReadsAfter(w, o, t);
      assert CumAt(ColumnOf(Written(evs), h), t) != CumAt(ColumnOf(Offered(evs), h), t);
    } else {
      forall x: nat ensures CumAt(w, x) == CumAt(o, x) {
        DedupInvariant(t0, evs, h, x);
      }
    }
  }

  lemma {:induction false} ReadsAfter(w: Column<Counter>, o: Column<Counter>, t: nat)
    requires t in o && forall u :: u in w ==> t < u
    ensures CumAt(w, t) != CumAt(o, t)
  {
  }

  /** No pass deletes the rows of the hash and keeps its dedup entry. */
  ghost predicate PurgesWhole(evs: seq<Event>, h: string) {
    evs == [] || (
      && PurgesWhole(Before(evs), h)
      && (Latest(evs).Maintain? && h in RowsGone(Run(Before(evs)), Latest(evs).ts, Latest(evs).pf) ==>
            h !in Latest(evs).pf.unlisted))
  }

  lemma {:induction false} WholeIsUnmasked(evs: seq<Event>, h: string)
    requires ProperPolls(evs) && PurgesWhole(evs, h)
    ensures Masked(evs, h).None? && (h in Run(evs).last ==> ColumnOf(Written(evs), h) != map[])
  {
    hide MaintainStep, Doomed, WriteAll, AllReadings, SeedAll, RefreshAll;
    if evs != [] {
      WholeIsUnmasked(Before(evs), h);
      var s := Run(Before(evs));
      match Latest(evs)
      case Poll(ts, rs, f) =>
        assert ProperPoll(rs) by { assert evs[|evs| - 1].Poll?; }
        AllPendingIs(s, rs, ts, f, h);
        var p := WriteAll(s, rs, ts, f).pending;
        if h in p && !f.commitFails {
          assert ts in ColumnOf(Written(evs), h);
        }
      case Maintain(now, pf) => MaintainSeen(s, now, pf);
      case Gauge(_, _, _) =>
      case Restart(_) =>
    }
  }

  /** While every pass lists the hash when it deletes its rows, dedup is invisible at every x. */
  lemma {:induction false} DedupIsInvisible(t0: nat, evs: seq<Event>, h: string, x: nat)
    requires Timely(t0, evs) && ProperPolls(evs) && PurgesWhole(evs, h)
    ensures CumAt(ColumnOf(Written(evs), h), x) == CumAt(ColumnOf(Offered(evs), h), x)
  {
    hide *;
    WholeIsUnmasked(evs, h);
    DedupIsInvisibleIff(t0, evs, h);
  }

  /** The input that fails: a pass deletes the rows of a stale hash without listing it, and a
      poll lists it again with its old counter. The reading is skipped and nothing holds it. */
  lemma {:induction false} UnlistedPurgeMasks(evs: seq<Event>, now: nat, pf: PassFaults, ts: nat, rs: seq<Reading>,
                                              f: Faults, h: string)
    requires h != GLOBAL && h in Doomed(Run(evs), now, pf) && h in pf.unlisted && !pf.rowsFail
    requires h in Run(evs).last && Reading(h, Run(evs).last[h]) in rs && ProperPoll(rs) && !f.commitFails
    ensures Masked(evs + [Maintain(now, pf)] + [Poll(ts, rs, f)], h) == Some(ts)
  {
    hide MaintainStep, Doomed, WriteAll, Run, Written, RefreshAll, SeedAll;
    var purged := evs + [Maintain(now, pf)];
    var all := purged + [Poll(ts, rs, f)];
    assert Before(purged) == evs && Before(all) == purged;
    MaintainSeen(Run(evs), now, pf);
    assert Run(purged) == MaintainStep(Run(evs), now, pf) by { RunNext(evs, Maintain(now, pf)); }
    assert ColumnOf(Written(purged), h) == map[] by { PurgedIsEmpty(evs, now, pf, h); }
    AllPendingIs(Run(purged), rs, ts, f, h);
    ReadingOf(rs, Reading(h, Run(evs).last[h]));
  }

  lemma {:induction false} PurgedIsEmpty(evs: seq<Event>, now: nat, pf: PassFaults, h: string)
    requires h in RowsGone(Run(evs), now, pf)
    ensures ColumnOf(Written(evs + [Maintain(now, pf)]), h) == map[]
  {
    hide RowsGone, Run;
    assert Before(evs + [Maintain(now, pf)]) == evs;
  }

  lemma {:induction false} ReadingOf(rs: seq<Reading>, r: Reading)
    requires ProperPoll(rs) && r in rs
    ensures r.hash in AllReadings(rs) && AllReadings(rs)[r.hash] == r.counter
    ensures r.hash in Readings(rs) && Readings(rs)[r.hash] == r.counter
  {
    hide Total;
    var before, last := rs[..|rs| - 1], rs[|rs| - 1];
    if r != last {
      assert r in before;
      ReadingOf(before, r);
    }
  }
}
