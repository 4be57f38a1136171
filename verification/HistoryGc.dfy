/**
 Garbage collection of removed torrents, over every run in nondecreasing time, with
 any outages, failed commits, partly failed refreshes and restarts.
 */
module HistoryGc {
  import opened Options
  import opened Series
  import opened Tiers
  import opened Gauges
  import opened HistoryStore
  import opened HistoryRuns

  function HashesOf(rs: seq<Reading>): set<string> {
    set r | r in rs :: r.hash
  }

  /** A completed refresh round: committed, with every write of it successful. */
  datatype Round = Round(ts: nat, present: set<string>)

  function Rounds(evs: seq<Event>): seq<Round> {
    if evs == [] then []
    else
      var before, s := Rounds(Before(evs)), Run(Before(evs));
      match Latest(evs)
      case Poll(ts, rs, f) => if RoundCompletes(s, rs, ts, f) then before + [Round(ts, HashesOf(rs))] else before
      case _ => before
  }

  /** The last poll that listed the hash, successful or not. */
  function LastNamed(t0: nat, evs: seq<Event>, h: string): nat {
    if evs == [] then t0
    else if Latest(evs).Poll? && h in HashesOf(Latest(evs).rs) then Latest(evs).ts
    else LastNamed(t0, Before(evs), h)
  }

  lemma {:induction false} HashesSplit(rs: seq<Reading>)
    requires rs != []
    ensures HashesOf(rs) == HashesOf(rs[..|rs| - 1]) + {rs[|rs| - 1].hash}
  {
    assert rs == rs[..|rs| - 1] + [rs[|rs| - 1]];
  }

  lemma {:induction false} SeedRow(seen: map<string, SeenRow>, rs: seq<Reading>, ts: nat, f: Faults, h: string)
    ensures var seeded := SeedAll(seen, rs, ts, f);
      && (h in seen ==> h in seeded && seeded[h] == seen[h])
      && (h !in seen ==> (h in seeded <==> h in HashesOf(rs) && h !in f.seeds))
      && (h !in seen && h in seeded ==> seeded[h] == SeenRow(ts, ts))
  {
    if rs != [] {
      HashesSplit(rs);
      SeedRow(seen, rs[..|rs| - 1], ts, f, h);
    }
  }

  lemma {:induction false} RefreshRow(seen: map<string, SeenRow>, rs: seq<Reading>, ts: nat, f: Faults, h: string)
    ensures var next := RefreshAll(seen, rs, ts, f);
      && (h in next <==> h in seen)
      && (h in seen ==> next[h] == if h in HashesOf(rs) && h !in f.refreshes then Refreshed(seen[h], ts) else seen[h])
  {
    if rs != [] {
      HashesSplit(rs);
      RefreshRow(seen, rs[..|rs| - 1], ts, f, h);
    }
  }

  /** What one Sample does to the seen row of one hash. */
  lemma {:induction false} SampleSeen(s: State, rs: seq<Reading>, ts: nat, f: Faults, h: string)
    ensures var s' := SampleStep(s, rs, ts, f);
      && (h in s.seen ==>
            && h in s'.seen
            && (s'.seen[h] == s.seen[h] || (h in HashesOf(rs) && s'.seen[h] == Refreshed(s.seen[h], ts))))
      && (h !in s.seen && h in s'.seen ==> h in HashesOf(rs) && s'.seen[h] == SeenRow(ts, ts))
      && (RoundCompletes(s, rs, ts, f) && h in HashesOf(rs) && h in s'.seen ==> s'.seen[h].lastSeen == ts)
  {
    hide WriteAll;
    SeedRow(s.seen, rs, ts, f, h);
    RefreshRow(SeedAll(s.seen, rs, ts, f), rs, ts, f, h);
    if RoundCompletes(s, rs, ts, f) && h in HashesOf(rs) {
      var r :| r in rs && r.hash == h;
      var i :| 0 <= i < |rs| && rs[i] == r;
      assert h !in f.refreshes;
    }
  }

  /** The refresh bookkeeping of one hash against the completed rounds. */
  ghost predicate SeenOk(s: State, rounds: seq<Round>, named: nat, clock: nat, h: string) {
    && (forall i :: 0 <= i < |rounds| && h in rounds[i].present && h in s.seen ==> rounds[i].ts <= s.seen[h].lastSeen)
    && (h in s.seen ==> s.seen[h].firstSeen <= s.seen[h].lastSeen <= named)
    && named <= clock
  }

  ghost predicate AnchorOk(s: State, rounds: seq<Round>, clock: nat) {
    && s.lastPoll == (if rounds == [] then 0 else rounds[|rounds| - 1].ts)
    && (forall i :: 0 <= i < |rounds| ==> rounds[i].ts <= clock)
    && (forall i, j :: 0 <= i < j < |rounds| ==> rounds[i].ts <= rounds[j].ts)
  }

  lemma {:induction false} SeenInvariant(t0: nat, evs: seq<Event>, h: string)
    requires Timely(t0, evs)
    ensures SeenOk(Run(evs), Rounds(evs), LastNamed(t0, evs, h), Clock(t0, evs), h)
    ensures AnchorOk(Run(evs), Rounds(evs), Clock(t0, evs))
  {
    hide SampleStep, RoundCompletes, HashesOf, MaintainStep, SeenGone;
    if evs != [] {
      var s := Run(Before(evs));
      SeenInvariant(t0, Before(evs), h);
      match Latest(evs)
      case Poll(ts, rs, f) =>
        PollSeen(s, Rounds(Before(evs)), LastNamed(t0, Before(evs), h), Clock(t0, Before(evs)), rs, ts, f, h);
      case Maintain(now, pf) => MaintainSeen(s, now, pf);
      case Gauge(_, _, _) =>
      case Restart(_) =>
    }
  }

  lemma {:induction false} PollSeen(s: State, rounds: seq<Round>, named: nat, clock: nat,
                                    rs: seq<Reading>, ts: nat, f: Faults, h: string)
    requires SeenOk(s, rounds, named, clock, h) && AnchorOk(s, rounds, clock) && clock <= ts
    ensures var s' := SampleStep(s, rs, ts, f);
      var rounds' := if RoundCompletes(s, rs, ts, f) then rounds + [Round(ts, HashesOf(rs))] else rounds;
      && SeenOk(s', rounds', if h in HashesOf(rs) then ts else named, ts, h)
      && AnchorOk(s', rounds', ts)
  {
    hide SampleStep, RoundCompletes, HashesOf;
    SampleSeen(s, rs, ts, f, h);
    SampleAnchor(s, rs, ts, f);
  }

  lemma {:induction false} SampleAnchor(s: State, rs: seq<Reading>, ts: nat, f: Faults)
    ensures SampleStep(s, rs, ts, f).lastPoll == if RoundCompletes(s, rs, ts, f) then ts else s.lastPoll
  {
    hide WriteAll, SeedAll, RefreshAll;
  }

  lemma {:induction false} MaintainSeen(s: State, now: int, pf: PassFaults)
    ensures MaintainStep(s, now, pf).seen == s.seen - SeenGone(s, now, pf)
    ensures MaintainStep(s, now, pf).last == s.last - CacheGone(s, now, pf)
    ensures MaintainStep(s, now, pf).lastPoll == s.lastPoll
    ensures MaintainStep(s, now, pf).samples.Keys == s.samples.Keys - RowsGone(s, now, pf)
  {
    hide MaintainStep, RowsGone, SeenGone, CacheGone, PassUnder, GaugePassUnder;
    SameDoomed(s, now, pf);
  }

  /** A pass takes rows, seen row or dedup entry of a hash only on positive evidence: every
      refresh round completed in the grace before the anchor left it out, the last one
      included, and its first sighting is older than that too. */
  lemma {:induction false} PurgeNeedsEvidence(t0: nat, evs: seq<Event>, now: nat, pf: PassFaults, h: string)
    requires Timely(t0, evs) && Clock(t0, evs) <= now
    requires var s, s' := Run(evs), MaintainStep(Run(evs), now, pf);
      || (h in s.samples && h !in s'.samples)
      || (h in s.seen && h !in s'.seen)
      || (h in s.last && h !in s'.last)
    ensures Rounds(evs) != [] && h !in Rounds(evs)[|Rounds(evs)| - 1].present
    ensures forall i :: 0 <= i < |Rounds(evs)| && Rounds(evs)[i].ts >= Run(evs).lastPoll - 300 ==>
              h !in Rounds(evs)[i].present
    ensures h in Run(evs).seen && Run(evs).seen[h].firstSeen < Run(evs).lastPoll - 300
  {
    hide Run, Rounds, MaintainStep;
    SeenInvariant(t0, evs, h);
    MaintainSeen(Run(evs), now, pf);
  }

  /** Nothing else is ever removed: a hash outside the stale set keeps its dedup entry,
      its seen row and whatever its tiers retain. */
  lemma {:induction false} OthersStay(s: State, now: nat, pf: PassFaults, h: string)
    requires h !in Doomed(s, now, pf)
    ensures RowsOf(MaintainStep(s, now, pf).samples, h) == PassUnder(RowsOf(s.samples, h), now, pf.samples)
    ensures h in s.seen ==> h in MaintainStep(s, now, pf).seen && MaintainStep(s, now, pf).seen[h] == s.seen[h]
    ensures h in s.last ==> h in MaintainStep(s, now, pf).last && MaintainStep(s, now, pf).last[h] == s.last[h]
  {
    hide MaintainStep, PassUnder, Doomed;
    MaintainRows(s, now, pf, h);
    MaintainSeen(s, now, pf);
  }

  /** A hash is doomed if and only if the anchor can be read and its last refresh lies more than 300 s
      before both the last completed round and the clock, so that a clock set back dooms nothing
      that was refreshed since, and neither does a store without a round. */
  lemma {:induction false} DoomedIff(s: State, now: int, pf: PassFaults, h: string)
    ensures h in Doomed(s, now, pf) <==>
      && !pf.anchorFails && s.lastPoll > 0 && now > 0
      && h in s.seen && s.seen[h].lastSeen + 300 < s.lastPoll && s.seen[h].lastSeen + 300 < now
  {
  }

  /** The global series is never purged, whatever hashes there are. */
  lemma {:induction false} GlobalStays(s: State, now: int, pf: PassFaults)
    ensures RowsOf(MaintainStep(s, now, pf).samples, "") == PassUnder(RowsOf(s.samples, ""), now, pf.samples)
  {
    hide MaintainStep, PassUnder, Doomed;
    MaintainRows(s, now, pf, "");
  }

  // ---- who can be collected -----------------------------------------------

  /** Some committed poll since the hash last lost its seen row listed it and recorded its first
      sighting. */
  predicate Sighted(evs: seq<Event>, h: string) {
    if evs == [] then false
    else
      match Latest(evs)
      case Poll(_, rs, f) => Sighted(Before(evs), h) || (!f.commitFails && h in HashesOf(rs) && h !in f.seeds)
      case Maintain(now, pf) => Sighted(Before(evs), h) && h !in SeenGone(Run(Before(evs)), now, pf)
      case _ => Sighted(Before(evs), h)
  }

  /** A sighted hash has a seen row, and no other has. */
  lemma {:induction false} SightedIsSeen(evs: seq<Event>, h: string)
    ensures Sighted(evs, h) <==> h in Run(evs).seen
  {
    hide MaintainStep, SeenGone, SeedAll, RefreshAll, WriteAll, RoundCompletes, HashesOf;
    if evs != [] {
      var s := Run(Before(evs));
      SightedIsSeen(Before(evs), h);
      match Latest(evs)
      case Poll(ts, rs, f) =>
        SeedRow(s.seen, rs, ts, f, h);
        RefreshRow(SeedAll(s.seen, rs, ts, f), rs, ts, f, h);
      case Maintain(now, pf) => MaintainSeen(s, now, pf);
      case Gauge(_, _, _) =>
      case Restart(_) =>
    }
  }

  /** When that sighting was. */
  function SightedAt(evs: seq<Event>, h: string): Option<nat> {
    if evs == [] then None
    else
      var at := SightedAt(Before(evs), h);
      match Latest(evs)
      case Poll(ts, rs, f) =>
        if at.None? && !f.commitFails && h in HashesOf(rs) && h !in f.seeds then Some(ts) else at
      case Maintain(now, pf) => if h in SeenGone(Run(Before(evs)), now, pf) then None else at
      case _ => at
  }

  /** The seen row keeps the time of the first recorded sighting for as long as it exists, through
      every refresh. (At time 0 a sighting counts as unknown and the next refresh fills it in.) */
  lemma {:induction false} FirstSeenIs(evs: seq<Event>, h: string)
    ensures h in Run(evs).seen <==> SightedAt(evs, h).Some?
    ensures h in Run(evs).seen && SightedAt(evs, h).value > 0 ==>
      Run(evs).seen[h].firstSeen == SightedAt(evs, h).value
  {
    hide MaintainStep, SeenGone, SeedAll, RefreshAll, WriteAll, RoundCompletes, HashesOf;
    if evs != [] {
      var s := Run(Before(evs));
      FirstSeenIs(Before(evs), h);
      match Latest(evs)
      case Poll(ts, rs, f) =>
        SeedRow(s.seen, rs, ts, f, h);
        RefreshRow(SeedAll(s.seen, rs, ts, f), rs, ts, f, h);
      case Maintain(now, pf) => MaintainSeen(s, now, pf);
      case Gauge(_, _, _) =>
      case Restart(_) =>
    }
  }

  /** The time of the last round completed since the last restart; 0 when there is none. */
  function LastRound(evs: seq<Event>): nat {
    if evs == [] then 0
    else
      match Latest(evs)
      case Poll(ts, rs, f) =>
        var due := ts - LastRound(Before(evs)) >= 60;
        var works := !f.commitFails && !f.prepareFails && !f.anchorFails;
        if due && works && (forall r :: r in rs ==> r.hash !in f.refreshes) then ts
        else LastRound(Before(evs))
      case Restart(_) => 0
      case _ => LastRound(Before(evs))
  }

  /** A poll completes a round exactly if it comes at least a minute after the last one since the
      restart and commits, and none of the round's writes fails. */
  lemma {:induction false} RoundsAreDue(evs: seq<Event>)
    ensures Run(evs).lastSeen == LastRound(evs)
    ensures evs != [] && Latest(evs).Poll? ==>
      var Poll(ts, rs, f) := Latest(evs);
      Rounds(evs) == Rounds(Before(evs)) +
        (if LastRound(evs) != LastRound(Before(evs)) then [Round(ts, HashesOf(rs))] else [])
  {
    hide WriteAll, SeedAll, RefreshAll, Stale;
    if evs != [] {
      RoundsAreDue(Before(evs));
      if Latest(evs).Poll? {
        NoneFails(Latest(evs).rs, Latest(evs).f);
      }
    }
  }

  /** When the hash was last sighted or refreshed. */
  function RefreshedAt(evs: seq<Event>, h: string): Option<nat> {
    if evs == [] then None
    else
      var at := RefreshedAt(Before(evs), h);
      match Latest(evs)
      case Poll(ts, rs, f) =>
        if f.commitFails || h !in HashesOf(rs) then at
        else if at.None? then (if h in f.seeds then None else Some(ts))
        else if ts - LastRound(Before(evs)) >= 60 && !f.prepareFails && h !in f.refreshes then Some(ts)
        else at
      case Maintain(now, pf) => if h in SeenGone(Run(Before(evs)), now, pf) then None else at
      case _ => at
  }

  /** The refresh time of a seen row is that of its first sighting or of the last poll that listed
      it a minute after the last round and did not fail to refresh it: never any other poll's. */
  lemma {:induction false} LastSeenIs(evs: seq<Event>, h: string)
    ensures h in Run(evs).seen <==> RefreshedAt(evs, h).Some?
    ensures h in Run(evs).seen ==> Run(evs).seen[h].lastSeen == RefreshedAt(evs, h).value
  {
    hide MaintainStep, SeenGone, SeedAll, RefreshAll, WriteAll, HashesOf, LastRound;
    if evs != [] {
      var s := Run(Before(evs));
      LastSeenIs(Before(evs), h);
      RoundsAreDue(Before(evs));
      match Latest(evs)
      case Poll(ts, rs, f) =>
        SeedRow(s.seen, rs, ts, f, h);
        RefreshRow(SeedAll(s.seen, rs, ts, f), rs, ts, f, h);
      case Maintain(now, pf) => MaintainSeen(s, now, pf);
      case Gauge(_, _, _) =>
      case Restart(_) =>
    }
  }

  lemma {:induction false} NoneFails(rs: seq<Reading>, f: Faults)
    ensures AnyRefreshFails(rs, f) <==> exists r :: r in rs && r.hash in f.refreshes
  {
    if r :| r in rs && r.hash in f.refreshes {
      var i :| 0 <= i < |rs| && rs[i] == r;
      assert rs[i].hash in f.refreshes;
    }
  }

  ghost predicate SeedRefused(e: Event, h: string) {
    e.Poll? && !e.f.commitFails && h in HashesOf(e.rs) && h in e.f.seeds
  }

  /** A pass that may delete the seen row of a hash and leave its rows or its dedup entry. */
  ghost predicate Orphans(e: Event, h: string) {
    e.Maintain? && !e.pf.seenFails && (e.pf.rowsFail || h in e.pf.unlisted)
  }

  /** While no first sighting of it is refused and no purge is cut short, everything known about
      a hash is sighted. */
  lemma {:induction false} KnownIsSighted(evs: seq<Event>, h: string)
    requires h != GLOBAL && forall e :: e in evs ==> !SeedRefused(e, h) && !Orphans(e, h)
    ensures h in Run(evs).samples || h in Run(evs).last ==> Sighted(evs, h)
  {
    hide MaintainStep, Doomed, SeedAll, RefreshAll, RoundCompletes, HashesOf, WriteAll;
    if evs != [] {
      var s := Run(Before(evs));
      assert Latest(evs) in evs && forall e :: e in Before(evs) ==> e in evs;
      KnownIsSighted(Before(evs), h);
      match Latest(evs)
      case Poll(ts, rs, f) => WrittenIsNamed(s, rs, ts, f, h);
      case Maintain(now, pf) => MaintainSeen(s, now, pf);
      case Gauge(_, _, _) =>
      case Restart(_) =>
    }
  }

  /** One poll adds rows and dedup entries only for what it lists, and the global series. */
  lemma {:induction false} WrittenIsNamed(s: State, rs: seq<Reading>, ts: nat, f: Faults, h: string)
    ensures h in WriteTorrents(s, rs, ts, f).samples ==> h in s.samples || h in HashesOf(rs)
    ensures h in WriteTorrents(s, rs, ts, f).pending ==> h in HashesOf(rs)
    ensures h in WriteAll(s, rs, ts, f).samples ==> h in s.samples || h in HashesOf(rs) || h == GLOBAL
    ensures h in WriteAll(s, rs, ts, f).pending ==> h in HashesOf(rs) || h == GLOBAL
  {
    if rs != [] {
      HashesSplit(rs);
      WrittenIsNamed(s, rs[..|rs| - 1], ts, f, h);
    }
  }

  /** No poll has listed the hash for longer than the grace before the last completed round. */
  ghost predicate Absent(t0: nat, evs: seq<Event>, h: string) {
    Rounds(evs) != [] && LastNamed(t0, evs, h) + 300 < Rounds(evs)[|Rounds(evs)| - 1].ts
  }

  /** An absent hash is collected in one pass without a failure, from every tier, the seen table
      and the dedup cache, if and only if it was sighted. One that is not keeps its dedup entry
      and whatever its tiers retain, pass after pass. */
  lemma {:induction false} AbsentIsPurgedIff(t0: nat, evs: seq<Event>, now: nat, h: string)
    requires Timely(t0, evs) && Clock(t0, evs) <= now && h != GLOBAL && Absent(t0, evs, h)
    ensures var s, s' := Run(evs), MaintainStep(Run(evs), now, NO_FAULTS);
      && (h in Stale(s, now) <==> Sighted(evs, h))
      && (Sighted(evs, h) ==> h !in s'.samples && h !in s'.seen && h !in s'.last)
      && (!Sighted(evs, h) ==>
            && RowsOf(s'.samples, h) == Pass(RowsOf(s.samples, h), now) && (h in s'.samples <==> h in s.samples)
            && (h in s'.last <==> h in s.last) && (h in s.last ==> s'.last[h] == s.last[h])
            && !Sighted(evs + [Maintain(now, NO_FAULTS)], h))
  {
    hide Run, Rounds, MaintainStep, LastNamed, Pass, PassUnder, Sighted;
    SeenInvariant(t0, evs, h);
    SightedIsSeen(evs, h);
    MaintainSeen(Run(evs), now, NO_FAULTS);
    if !Sighted(evs, h) {
      OthersStay(Run(evs), now, NO_FAULTS, h);
      CleanPass(RowsOf(Run(evs).samples, h), now);
      StaysUnsighted(evs, now, h);
    }
  }

  lemma {:induction false} StaysUnsighted(evs: seq<Event>, now: nat, h: string)
    requires !Sighted(evs, h)
    ensures !Sighted(evs + [Maintain(now, NO_FAULTS)], h)
  {
    assert Before(evs + [Maintain(now, NO_FAULTS)]) == evs;
  }

  /** Every hash known when no first sighting of it was ever refused and no purge of it cut
      short: absent for longer than the grace, it loses its rows in every tier, its seen row and its dedup entry in one
      pass. */
  lemma {:induction false} AbsentIsPurged(t0: nat, evs: seq<Event>, now: nat, h: string)
    requires Timely(t0, evs) && Clock(t0, evs) <= now && h != GLOBAL && Absent(t0, evs, h)
    requires forall e :: e in evs ==> !SeedRefused(e, h) && !Orphans(e, h)
    ensures var s := MaintainStep(Run(evs), now, NO_FAULTS);
      h !in s.samples && h !in s.seen && h !in s.last
  {
    hide Run, Rounds, MaintainStep, LastNamed, Sighted, SeedRefused, Orphans, Absent;
    KnownIsSighted(evs, h);
    AbsentIsPurgedIff(t0, evs, now, h);
    SightedIsSeen(evs, h);
    MaintainSeen(Run(evs), now, NO_FAULTS);
  }

  /** The input that fails: the database refuses a first sighting and commits the poll. The
      torrent has a row and a dedup entry but no seen row, and no pass ever collects it. */
  lemma {:induction false} RefusedSeedIsNeverPurged(h: string, c: Counter, now: int, pf: PassFaults)
    requires h != GLOBAL
    ensures var s := Run([Poll(0, [Reading(h, c)], Faults({}, {h}, {}, false, false, false))]);
      && h in s.samples && h in s.last && h !in s.seen
      && h in MaintainStep(s, now, pf).samples && h in MaintainStep(s, now, pf).last
  {
    hide MaintainStep;
    var f, rs := Faults({}, {h}, {}, false, false, false), [Reading(h, c)];
    var evs := [Poll(0, rs, f)];
    assert Before(evs) == [] && rs[..0] == [];
    assert Run(evs) == SampleStep(EMPTY, rs, 0, f);
    assert WriteTorrents(EMPTY, [], 0, f) == Writes(map[], map[]) && SeedAll(map[], [], 0, f) == map[];
    assert RefreshAll(map[], [], 0, f) == map[];
    assert h in WriteTorrents(EMPTY, rs, 0, f).pending;
    MaintainSeen(Run(evs), now, pf);
  }

  /** The other one: a pass deletes the seen row of a hash but not its rows. The next one, and
      by the same token every one until a poll sights the hash again, lets its rows age. */
  lemma {:induction false} FailedDeleteOrphans(s: State, now: int, pf: PassFaults, later: nat, pf': PassFaults,
                                               h: string)
    requires h in s.samples && h in Doomed(s, now, pf) && pf.rowsFail && !pf.seenFails
    ensures var once := MaintainStep(s, now, pf);
      var again := MaintainStep(once, later, pf');
      && h in once.samples && h !in once.seen && h in again.samples && h !in again.seen
      && RowsOf(again.samples, h) == PassUnder(RowsOf(once.samples, h), later, pf'.samples)
  {
    hide MaintainStep, PassUnder;
    MaintainSeen(s, now, pf);
    MaintainSeen(MaintainStep(s, now, pf), later, pf');
    OthersStay(MaintainStep(s, now, pf), later, pf', h);
  }

  /** While no poll lists it, a purged hash stays out of the dedup cache ... */
  lemma {:induction false} StaysForgotten(evs: seq<Event>, more: seq<Event>, h: string)
    requires h != GLOBAL && h !in Run(evs).last
    requires forall e :: e in more && e.Poll? ==> h !in HashesOf(e.rs)
    ensures h !in Run(evs + more).last
    decreases |more|
  {
    if more == [] {
      assert evs + more == evs;
    } else {
      hide WriteAll, MaintainStep, CacheGone, HashesOf, SeedAll, RefreshAll;
      var all := evs + more;
      assert Before(all) == evs + Before(more) && Latest(all) == Latest(more);
      StaysForgotten(evs, Before(more), h);
      if Latest(all).Maintain? {
        MaintainSeen(Run(Before(all)), Latest(all).ts, Latest(all).pf);
      }
      if Latest(all).Poll? {
        WrittenIsNamed(Run(Before(all)), Latest(all).rs, Latest(all).ts, Latest(all).f, h);
      }
    }
  }

  /** The same without a restart: a hash no poll lists keeps its dedup entry unless a pass
      collects it, which takes a sighting. */
  lemma {:induction false} UnsightedStays(evs: seq<Event>, more: seq<Event>, h: string)
    requires h != GLOBAL && !Sighted(evs, h) && h in Run(evs).last
    requires forall e :: e in more ==> !e.Restart? && (e.Poll? ==> h !in HashesOf(e.rs))
    ensures !Sighted(evs + more, h) && h in Run(evs + more).last && Run(evs + more).last[h] == Run(evs).last[h]
    decreases |more|
  {
    if more == [] {
      assert evs + more == evs;
    } else {
      hide WriteAll, MaintainStep, Stale, HashesOf, SeedAll, RefreshAll;
      var all := evs + more;
      assert Before(all) == evs + Before(more) && Latest(all) == Latest(more);
      assert Latest(more) in more && forall e :: e in Before(more) ==> e in more;
      UnsightedStays(evs, Before(more), h);
      var s := Run(Before(all));
      match Latest(all)
      case Poll(ts, rs, f) => WrittenIsNamed(s, rs, ts, f, h);
      case Maintain(now, pf) =>
        SightedIsSeen(Before(all), h);
        assert h !in Stale(s, now) by { StaleIsSeen(s, now); }
        MaintainSeen(s, now, pf);
      case Gauge(_, _, _) =>
    }
  }

  lemma {:induction false} StaleIsSeen(s: State, now: int)
    ensures Stale(s, now) <= s.seen.Keys
  {
  }

  /** ... and the first poll that lists it again and commits writes a baseline row,
      even when the counter is what it was before the purge. */
  lemma {:induction false} ReaddedGetsBaseline(t0: nat, evs: seq<Event>, now: nat, more: seq<Event>,
                                               ts: nat, rs: seq<Reading>, f: Faults, h: string)
    requires Timely(t0, evs) && Clock(t0, evs) <= now && h != GLOBAL && Absent(t0, evs, h) && Sighted(evs, h)
    requires forall e :: e in more && e.Poll? ==> h !in HashesOf(e.rs)
    requires h in HashesOf(rs) && h !in f.writes && !f.commitFails
    ensures ts in RowsOf(Run(evs + [Maintain(now, NO_FAULTS)] + more + [Poll(ts, rs, f)]).samples, h).raw
  {
    hide Run, Timely, Absent, Sighted, HashesOf;
    AbsentIsPurgedIff(t0, evs, now, h);
    var purged := evs + [Maintain(now, NO_FAULTS)];
    RunNext(evs, Maintain(now, NO_FAULTS));
    StaysForgotten(purged, more, h);
    RunNext(purged + more, Poll(ts, rs, f));
    NamedIsPending(Run(purged + more), rs, ts, f, h);
    PendingRows(Run(purged + more), rs, ts, f, h);
    assert h in WriteAll(Run(purged + more), rs, ts, f).pending;
  }

  lemma {:induction false} RunNext(evs: seq<Event>, e: Event)
    ensures Run(evs + [e]) == Step(Run(evs), e)
  {
    assert Before(evs + [e]) == evs && Latest(evs + [e]) == e;
  }

  lemma {:induction false} RunMaintain(evs: seq<Event>, now: nat)
    ensures Run(evs + [Maintain(now, NO_FAULTS)]) == MaintainStep(Run(evs), now, NO_FAULTS)
  {
    hide MaintainStep;
    RunNext(evs, Maintain(now, NO_FAULTS));
  }

  /** With an unchanged counter and no restart in between, the re-added torrent gets its
      baseline row if and only if it had been sighted; else its tiers stay as they are. */
  lemma {:induction false} ReaddedGetsBaselineIff(t0: nat, evs: seq<Event>, now: nat, more: seq<Event>,
                                                  ts: nat, rs: seq<Reading>, f: Faults, h: string, c: Counter)
    requires Timely(t0, evs) && Clock(t0, evs) <= now && h != GLOBAL && Absent(t0, evs, h)
    requires h in Run(evs).last && Run(evs).last[h] == c
    requires forall e :: e in more ==> !e.Restart? && (e.Poll? ==> h !in HashesOf(e.rs))
    requires (forall r :: r in rs && r.hash == h ==> r.counter == c) && h in HashesOf(rs)
    requires h !in f.writes && !f.commitFails
    ensures var kept := Run(evs + [Maintain(now, NO_FAULTS)] + more);
      var next := RowsOf(Run(evs + [Maintain(now, NO_FAULTS)] + more + [Poll(ts, rs, f)]).samples, h);
      if Sighted(evs, h) then ts in next.raw else next == RowsOf(kept.samples, h)
  {
    hide *;
    if Sighted(evs, h) {
      ReaddedGetsBaseline(t0, evs, now, more, ts, rs, f, h);
    } else {
      AbsentIsPurgedIff(t0, evs, now, h);
      RunMaintain(evs, now);
      UnsightedSkips(evs + [Maintain(now, NO_FAULTS)], more, ts, rs, f, h, c);
    }
  }

  lemma {:induction false} UnsightedSkips(evs: seq<Event>, more: seq<Event>, ts: nat, rs: seq<Reading>, f: Faults,
                                          h: string, c: Counter)
    requires h != GLOBAL && !Sighted(evs, h) && h in Run(evs).last && Run(evs).last[h] == c
    requires forall e :: e in more ==> !e.Restart? && (e.Poll? ==> h !in HashesOf(e.rs))
    requires (forall r :: r in rs && r.hash == h ==> r.counter == c) && !f.commitFails
    ensures RowsOf(Run(evs + more + [Poll(ts, rs, f)]).samples, h) == RowsOf(Run(evs + more).samples, h)
  {
    hide Run, Sighted, HashesOf, WriteAll, SeedAll, RefreshAll;
    UnsightedStays(evs, more, h);
    RunNext(evs + more, Poll(ts, rs, f));
    SameIsSkipped(Run(evs + more), rs, ts, f, h, c);
    PendingRows(Run(evs + more), rs, ts, f, h);
  }

  lemma {:induction false} SameIsSkipped(s: State, rs: seq<Reading>, ts: nat, f: Faults, h: string, c: Counter)
    requires h != GLOBAL && h in s.last && s.last[h] == c
    requires forall r :: r in rs && r.hash == h ==> r.counter == c
    ensures h !in WriteTorrents(s, rs, ts, f).pending && h !in WriteAll(s, rs, ts, f).pending
  {
    if rs != [] {
      assert rs[|rs| - 1] in rs && forall r :: r in rs[..|rs| - 1] ==> r in rs;
      SameIsSkipped(s, rs[..|rs| - 1], ts, f, h, c);
    }
  }

  lemma {:induction false} NamedIsPending(s: State, rs: seq<Reading>, ts: nat, f: Faults, h: string)
    requires h !in s.last && h !in f.writes
    ensures h in HashesOf(rs) ==> h in WriteTorrents(s, rs, ts, f).pending
    ensures h in HashesOf(rs) ==> h in WriteAll(s, rs, ts, f).pending
  {
    if rs != [] {
      HashesSplit(rs);
      NamedIsPending(s, rs[..|rs| - 1], ts, f, h);
    }
  }
}
