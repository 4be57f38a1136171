/**
 Whole runs of the history store, from an empty database: polls with any database
 faults, gauge samples, maintenance passes and restarts, in nondecreasing time.
 Tier exactness, gauge averages and dedup are stated about every such run.
 */
module HistoryRuns {
  import opened Series
  import opened Tiers
  import opened Gauges
  import opened HistoryStore

  datatype Event =
    | Poll(ts: nat, rs: seq<Reading>, f: Faults)
    | Gauge(ts: nat, values: map<string, int>, commitFails: bool)
    | Maintain(ts: nat, pf: PassFaults)
    | Restart(ts: nat)

  function Step(s: State, e: Event): State {
    match e
    case Poll(ts, rs, f) => SampleStep(s, rs, ts, f)
    case Gauge(ts, values, commitFails) => SampleGaugesStep(s, values, ts, commitFails)
    case Maintain(ts, pf) => MaintainStep(s, ts, pf)
    case Restart(_) => RestartStep(s)
  }

  function Before(evs: seq<Event>): seq<Event>
    requires evs != []
  {
    evs[..|evs| - 1]
  }

  function Latest(evs: seq<Event>): Event
    requires evs != []
  {
    evs[|evs| - 1]
  }

  function Run(evs: seq<Event>): State {
    if evs == [] then EMPTY else Step(Run(Before(evs)), Latest(evs))
  }

  function Clock(t0: nat, evs: seq<Event>): nat {
    if evs == [] then t0 else Latest(evs).ts
  }

  /** Time never goes back. */
  ghost predicate Timely(t0: nat, evs: seq<Event>) {
    evs == [] || (Timely(t0, Before(evs)) && Clock(t0, Before(evs)) <= Latest(evs).ts)
  }

  datatype Table = Samples | Metrics

  function FailedIn(pf: PassFaults, table: Table): Failed {
    if table.Samples? then pf.samples else pf.metrics
  }

  /** The last pass that rolled up every level of a table. */
  function LastFull(t0: nat, evs: seq<Event>, table: Table): nat {
    if evs == [] then t0
    else if Latest(evs).Maintain? && RollsAll(FailedIn(Latest(evs).pf, table)) then Latest(evs).ts
    else LastFull(t0, Before(evs), table)
  }

  /** The last pass that pruned tier i of it. */
  function LastPrune(t0: nat, evs: seq<Event>, table: Table, i: nat): nat {
    if evs == [] then t0
    else if Latest(evs).Maintain? && i !in FailedIn(Latest(evs).pf, table).prunes then Latest(evs).ts
    else LastPrune(t0, Before(evs), table, i)
  }

  function CutsOf(t0: nat, evs: seq<Event>, table: Table): Cuts {
    Cuts(LastPrune(t0, evs, table, 0) - 900, LastPrune(t0, evs, table, 1) - 86400,
         LastPrune(t0, evs, table, 2) - 604800, LastPrune(t0, evs, table, 3) - 31536000)
  }

  /** Whether a pass may roll up: samples at most 1800 s after the last full pass, and pruned at
      most 900 s after it; gauges at most 600 s after it. */
  predicate InTime(t0: nat, evs: seq<Event>, now: nat, table: Table) {
    var full := LastFull(t0, evs, table);
    if table.Samples? then now <= full + 1800 && LastPrune(t0, evs, table, 0) <= full + 900
    else now <= full + 600
  }

  /** Time never goes back, and every pass that rolls anything up is in time for it. */
  ghost predicate Scheduled(t0: nat, evs: seq<Event>, table: Table) {
    evs == [] || (
      && Scheduled(t0, Before(evs), table)
      && Clock(t0, Before(evs)) <= Latest(evs).ts
      && (Latest(evs).Maintain? && !RollsNone(FailedIn(Latest(evs).pf, table)) ==>
            InTime(t0, Before(evs), Latest(evs).ts, table)))
  }

  lemma {:induction false} PassesArePast(t0: nat, evs: seq<Event>, table: Table)
    requires Scheduled(t0, evs, table)
    ensures LastFull(t0, evs, table) <= Clock(t0, evs)
    ensures LastPrune(t0, evs, table, 0) <= Clock(t0, evs) && LastPrune(t0, evs, table, 1) <= Clock(t0, evs)
    ensures LastPrune(t0, evs, table, 2) <= Clock(t0, evs) && LastPrune(t0, evs, table, 3) <= Clock(t0, evs)
  {
    if evs != [] {
      PassesArePast(t0, Before(evs), table);
    }
  }

  /** While no statement of a table's part of a pass fails, every pass is full and prunes. */
  lemma {:induction false} CleanPasses(t0: nat, evs: seq<Event>, table: Table)
    requires forall e :: e in evs && e.Maintain? ==> FailedIn(e.pf, table) == NONE_FAILED
    ensures CutsOf(t0, evs, table) == CutsAt(LastFull(t0, evs, table))
  {
    if evs != [] {
      assert Latest(evs) in evs && forall e :: e in Before(evs) ==> e in evs;
      CleanPasses(t0, Before(evs), table);
    }
  }

  // ---- what was written ---------------------------------------------------

  type Ledger<V> = map<string, Column<V>>

  function ColumnOf<V>(l: Ledger<V>, h: string): Column<V> {
    if h in l then l[h] else map[]
  }

  function Record<V>(l: Ledger<V>, rows: map<string, V>, ts: nat): Ledger<V> {
    map h | h in l.Keys + rows.Keys :: if h in rows then ColumnOf(l, h)[ts := rows[h]] else l[h]
  }

  /** Every raw row committed since its hash was last purged, never pruned. */
  function Written(evs: seq<Event>): Ledger<Counter> {
    if evs == [] then map[]
    else
      var w, s := Written(Before(evs)), Run(Before(evs));
      match Latest(evs)
      case Poll(ts, rs, f) => if f.commitFails then w else Record(w, WriteAll(s, rs, ts, f).pending, ts)
      case Maintain(ts, pf) => w - RowsGone(s, ts, pf)
      case _ => w
  }

  /** What had been written when level n was last rolled up; level 0 is raw. */
  function Rolled(evs: seq<Event>, n: nat): Ledger<Counter>
    decreases |evs|, n
  {
    if n == 0 then Written(evs)
    else if evs == [] then map[]
    else
      match Latest(evs)
      case Maintain(ts, pf) =>
        if n - 1 in pf.samples.rollups then Rolled(Before(evs), n) - RowsGone(Run(Before(evs)), ts, pf)
        else Rolled(evs, n - 1)
      case _ => Rolled(Before(evs), n)
  }

  function RootsOf(evs: seq<Event>, h: string): Roots<Counter> {
    Roots(ColumnOf(Rolled(evs, 1), h), ColumnOf(Rolled(evs, 2), h), ColumnOf(Rolled(evs, 3), h))
  }

  /** The rows one Sample leaves are the old ones plus exactly its pending rows. */
  lemma {:induction false} PendingRows(s: State, rs: seq<Reading>, ts: nat, f: Faults, h: string)
    ensures var w := WriteAll(s, rs, ts, f);
      RowsOf(w.samples, h) == WithPending(RowsOf(s.samples, h), w.pending, h, ts)
  {
    hide WithPending, WriteRow, WriteTorrents;
    PendingTorrentRows(s, rs, ts, f, h);
    PendingRow(RowsOf(s.samples, h), WriteTorrents(s, rs, ts, f), s.last, Reading(GLOBAL, Total(rs)), ts, f, h);
  }

  /** A committed poll writes the sums over its torrents as the global row, unless they are what
      it wrote last or the database refuses the row. */
  lemma {:induction false} GlobalRowIsSum(s: State, rs: seq<Reading>, ts: nat, f: Faults)
    requires !f.commitFails && GLOBAL !in f.writes && forall r :: r in rs ==> r.hash != GLOBAL
    requires GLOBAL in s.last ==>
      s.last[GLOBAL].down != SumOf(Downs(rs)) || s.last[GLOBAL].up != SumOf(Ups(rs))
    ensures var raw := RowsOf(SampleStep(s, rs, ts, f).samples, GLOBAL).raw;
      && raw == RowsOf(s.samples, GLOBAL).raw[ts := Counter(SumOf(Downs(rs)), SumOf(Ups(rs)))]
      && SampleStep(s, rs, ts, f).last[GLOBAL] == raw[ts]
  {
    hide SeedAll, RefreshAll, WriteTorrents, Total, Downs, Ups, SumOf;
    TotalIs(rs);
    NoGlobalRow(s, rs, ts, f);
  }

  lemma {:induction false} NoGlobalRow(s: State, rs: seq<Reading>, ts: nat, f: Faults)
    requires forall r :: r in rs ==> r.hash != GLOBAL
    ensures RowsOf(WriteTorrents(s, rs, ts, f).samples, GLOBAL) == RowsOf(s.samples, GLOBAL)
  {
    if rs != [] {
      assert rs[|rs| - 1] in rs && forall r :: r in rs[..|rs| - 1] ==> r in rs;
      NoGlobalRow(s, rs[..|rs| - 1], ts, f);
    }
  }

  lemma {:induction false} PendingTorrentRows(s: State, rs: seq<Reading>, ts: nat, f: Faults, h: string)
    ensures var w := WriteTorrents(s, rs, ts, f);
      RowsOf(w.samples, h) == WithPending(RowsOf(s.samples, h), w.pending, h, ts)
  {
    if rs != [] {
      hide WithPending, WriteRow;
      PendingTorrentRows(s, rs[..|rs| - 1], ts, f, h);
      PendingRow(RowsOf(s.samples, h), WriteTorrents(s, rs[..|rs| - 1], ts, f), s.last, rs[|rs| - 1], ts, f, h);
    }
  }

  lemma {:induction false} PendingRow(base: Stack<Counter>, w: Writes, last: map<string, Counter>, r: Reading,
                                      ts: nat, f: Faults, h: string)
    requires RowsOf(w.samples, h) == WithPending(base, w.pending, h, ts)
    ensures var w' := WriteRow(w, last, r, ts, f);
      RowsOf(w'.samples, h) == WithPending(base, w'.pending, h, ts)
  {
    if h in w.pending {
      assert base.raw[ts := w.pending[h]][ts := r.counter] == base.raw[ts := r.counter];
    }
  }

  function WithPending(rows: Stack<Counter>, pending: map<string, Counter>, h: string, ts: nat): Stack<Counter> {
    if h in pending then rows.(raw := rows.raw[ts := pending[h]]) else rows
  }

  // ---- tier exactness -----------------------------------------------------

  /** Between passes: raw holds what was written, each coarser tier the rollup of what had been
      written when it was last rolled up, each up to where it was last pruned. */
  ghost predicate TiersOk(t0: nat, evs: seq<Event>, h: string) {
    && Levels(RowsOf(Run(evs).samples, h), CutsOf(t0, evs, Samples), RootsOf(evs, h), ColumnOf(Written(evs), h),
              LastFull(t0, evs, Samples))
    && CutBy(CutsOf(t0, evs, Samples), Clock(t0, evs))
  }

  lemma {:induction false} WriteKeepsLevels(s: Stack<Counter>, c: Cuts, w: Roots<Counter>, full: Column<Counter>,
                                            at: nat, ts: nat, v: Counter)
    requires Levels(s, c, w, full, at) && at <= ts && c.raw <= ts
    ensures Levels(s.(raw := s.raw[ts := v]), c, w, full[ts := v], at)
  {
    hide Roll;
    var full' := full[ts := v];
    forall t: nat | t < at ensures SameAt(w.m1, full', t) {
      assert SameAt(w.m1, full, t);
    }
    assert Cut(full', c.raw) == Cut(full, c.raw)[ts := v];
  }

  lemma {:induction false} NothingIsOk(c: Cuts, at: nat)
    ensures Levels(NO_ROWS, c, Roots(map[], map[], map[]), map[], at)
  {
    OlderSelf<Counter>(map[], at);
  }

  lemma {:induction false} PassOfNothing(now: int, f: Failed)
    ensures PassUnder<Counter>(NO_ROWS, now, f) == NO_ROWS
  {
    hide PrunesDone, RollupsDone, Roll;
    NothingRolls<Counter>(60);
    NothingRolls<Counter>(3600);
    NothingRolls<Counter>(86400);
    RollupsAre<Counter>(NO_ROWS, now, f.rollups);
    PrunesAre<Counter>(NO_ROWS, now, f.prunes);
  }

  /** What a pass does to the rows of one hash. */
  lemma {:induction false} MaintainRows(s: State, now: int, pf: PassFaults, h: string)
    ensures RowsOf(MaintainStep(s, now, pf).samples, h) ==
      if h in RowsGone(s, now, pf) then NO_ROWS else PassUnder(RowsOf(s.samples, h), now, pf.samples)
  {
    hide PassUnder, GaugePassUnder, MaintainStep, RowsGone;
    SameDoomed(s, now, pf);
    PassOfNothing(now, pf.samples);
  }

  lemma {:induction false} TierInvariant(t0: nat, evs: seq<Event>, h: string)
    requires Scheduled(t0, evs, Samples)
    ensures TiersOk(t0, evs, h)
  {
    hide TiersOk, InTime;
    if evs == [] {
      NothingWritten(t0, h);
    } else {
      TierInvariant(t0, Before(evs), h);
      match Latest(evs)
      case Poll(_, _, _) => PollKeepsTiers(t0, evs, h);
      case Maintain(_, _) => MaintainKeepsTiers(t0, evs, h);
      case Gauge(_, _, _) => OthersKeepTiers(t0, evs, h);
      case Restart(_) => OthersKeepTiers(t0, evs, h);
    }
  }

  lemma {:induction false} NothingWritten(t0: nat, h: string)
    ensures TiersOk(t0, [], h)
  {
    hide Levels;
    NothingIsOk(CutsOf(t0, [], Samples), t0);
  }

  lemma {:induction false} OthersKeepTiers(t0: nat, evs: seq<Event>, h: string)
    requires evs != [] && (Latest(evs).Gauge? || Latest(evs).Restart?) && Scheduled(t0, evs, Samples)
    requires TiersOk(t0, Before(evs), h)
    ensures TiersOk(t0, evs, h)
  {
    hide Levels, InTime, Rolled, Run, LastFull, LastPrune, Scheduled;
    NoPass(t0, evs, h);
  }

  lemma {:induction false} PollKeepsTiers(t0: nat, evs: seq<Event>, h: string)
    requires evs != [] && Latest(evs).Poll? && Scheduled(t0, evs, Samples)
    requires TiersOk(t0, Before(evs), h)
    ensures TiersOk(t0, evs, h)
  {
    hide Levels, WriteAll, InTime, Rolled, Run, LastFull, LastPrune, Scheduled;
    var s := Run(Before(evs));
    var Poll(ts, rs, f) := Latest(evs);
    NoPass(t0, evs, h);
    PolledRows(s, rs, ts, f, h);
    PendingRows(s, rs, ts, f, h);
    var pending := WriteAll(s, rs, ts, f).pending;
    if h in pending && !f.commitFails {
      WriteKeepsLevels(RowsOf(s.samples, h), CutsOf(t0, evs, Samples), RootsOf(evs, h),
                       ColumnOf(Written(Before(evs)), h), LastFull(t0, evs, Samples), ts, pending[h]);
    }
  }

  /** A step that is no pass leaves the roots and the cuts alone. */
  lemma {:induction false} NoPass(t0: nat, evs: seq<Event>, h: string)
    requires evs != [] && !Latest(evs).Maintain? && Scheduled(t0, evs, Samples)
    ensures RootsOf(evs, h) == RootsOf(Before(evs), h)
    ensures CutsOf(t0, evs, Samples) == CutsOf(t0, Before(evs), Samples)
    ensures LastFull(t0, evs, Samples) == LastFull(t0, Before(evs), Samples) <= Clock(t0, Before(evs)) <= Latest(evs).ts
    ensures Run(evs) == Step(Run(Before(evs)), Latest(evs))
  {
    hide Step, InTime;
    PassesArePast(t0, Before(evs), Samples);
  }

  lemma {:induction false} PolledRows(s: State, rs: seq<Reading>, ts: nat, f: Faults, h: string)
    ensures RowsOf(SampleStep(s, rs, ts, f).samples, h) ==
      if f.commitFails then RowsOf(s.samples, h) else RowsOf(WriteAll(s, rs, ts, f).samples, h)
  {
    hide WriteAll, SeedAll, RefreshAll;
  }

  lemma {:induction false} MaintainKeepsTiers(t0: nat, evs: seq<Event>, h: string)
    requires evs != [] && Latest(evs).Maintain? && Scheduled(t0, evs, Samples)
    requires TiersOk(t0, Before(evs), h)
    ensures TiersOk(t0, evs, h)
  {
    hide Levels, PassUnder, MaintainStep, RowsGone;
    var s, now, pf := Run(Before(evs)), Latest(evs).ts, Latest(evs).pf;
    MaintainRows(s, now, pf, h);
    PassKeepsLevels(RowsOf(s.samples, h), CutsOf(t0, Before(evs), Samples), RootsOf(Before(evs), h),
                    ColumnOf(Written(Before(evs)), h), LastFull(t0, Before(evs), Samples), now, pf.samples);
    assert CutsOf(t0, evs, Samples) == NextCuts(CutsOf(t0, Before(evs), Samples), now, pf.samples.prunes);
    RootsOfPass(evs, h);
    if h in RowsGone(s, now, pf) {
      NothingIsOk(CutsOf(t0, evs, Samples), LastFull(t0, evs, Samples));
    }
  }

  /** What a pass leaves of one level's root. */
  lemma {:induction false} RootOfPass(evs: seq<Event>, n: nat, h: string)
    requires evs != [] && Latest(evs).Maintain? && n > 0
    ensures var gone := h in RowsGone(Run(Before(evs)), Latest(evs).ts, Latest(evs).pf);
      ColumnOf(Rolled(evs, n), h) ==
        if n - 1 !in Latest(evs).pf.samples.rollups then ColumnOf(Rolled(evs, n - 1), h)
        else if gone then map[] else ColumnOf(Rolled(Before(evs), n), h)
  {
    hide RowsGone, Run;
  }

  lemma {:induction false} RootsOfPass(evs: seq<Event>, h: string)
    requires evs != [] && Latest(evs).Maintain?
    ensures var before := Before(evs);
      var gone := h in RowsGone(Run(before), Latest(evs).ts, Latest(evs).pf);
      && (gone ==> RootsOf(evs, h) == Roots(map[], map[], map[]) && ColumnOf(Written(evs), h) == map[])
      && (!gone ==>
            && ColumnOf(Written(evs), h) == ColumnOf(Written(before), h)
            && RootsOf(evs, h) ==
                 NextRoots(RootsOf(before, h), ColumnOf(Written(before), h), Latest(evs).pf.samples.rollups))
  {
    hide RowsGone, Run, Rolled;
    assert Rolled(evs, 0) == Written(evs) by { RawRoot(evs); }
    RootOfPass(evs, 1, h);
    RootOfPass(evs, 2, h);
    RootOfPass(evs, 3, h);
  }

  lemma {:induction false} RawRoot(evs: seq<Event>)
    ensures Rolled(evs, 0) == Written(evs)
  {
  }

  /** After every pass of a scheduled run none of whose statements on the samples fails, the 1m,
      1h and 1d tiers of every hash are the last-value-per-bucket rollup of all raw rows written
      since the hash was last purged, cut to the tier's retention, whatever failed in the
      passes before. */
  lemma {:induction false} TiersAreExact(t0: nat, evs: seq<Event>, h: string)
    requires Scheduled(t0, evs, Samples)
    requires evs != [] && Latest(evs).Maintain? && Latest(evs).pf.samples == NONE_FAILED
    ensures Exact(RowsOf(Run(evs).samples, h), ColumnOf(Written(evs), h), Latest(evs).ts)
  {
    hide Run, Written, Rolled, Scheduled, Cut, Roll, Older, RowsGone;
    TierInvariant(t0, evs, h);
    RawRoot(evs);
    RootOfPass(evs, 1, h);
    RootOfPass(evs, 2, h);
    RootOfPass(evs, 3, h);
  }

  /** Time never goes back, and each pass comes at most `gap` seconds after the last full one. */
  ghost predicate Frequent(t0: nat, evs: seq<Event>, gap: nat, table: Table) {
    evs == [] || (
      && Frequent(t0, Before(evs), gap, table)
      && Clock(t0, Before(evs)) <= Latest(evs).ts
      && (Latest(evs).Maintain? ==> Latest(evs).ts <= LastFull(t0, Before(evs), table) + gap))
  }

  lemma {:induction false} FrequentIsTimely(t0: nat, evs: seq<Event>, gap: nat, table: Table)
    requires Frequent(t0, evs, gap, table)
    ensures LastPrune(t0, evs, table, 0) <= LastFull(t0, evs, table) + gap
  {
    if evs != [] {
      FrequentIsTimely(t0, Before(evs), gap, table);
      FullIsPast(t0, Before(evs), table, gap);
    }
  }

  lemma {:induction false} FullIsPast(t0: nat, evs: seq<Event>, table: Table, gap: nat)
    requires Frequent(t0, evs, gap, table)
    ensures LastFull(t0, evs, table) <= Clock(t0, evs) && LastPrune(t0, evs, table, 0) <= Clock(t0, evs)
  {
    if evs != [] {
      FullIsPast(t0, Before(evs), table, gap);
    }
  }

  /** No pass fails in its part on the samples. */
  ghost predicate NeverFails(evs: seq<Event>) {
    forall e :: e in evs && e.Maintain? ==> e.pf.samples == NONE_FAILED
  }

  /** Full passes 900 s apart keep every tier exact whatever else fails, 1800 s when nothing does;
      600 s keep the gauges exact whatever fails. */
  lemma {:induction false} FrequentIsScheduled(t0: nat, evs: seq<Event>)
    ensures Frequent(t0, evs, 900, Samples) ==> Scheduled(t0, evs, Samples)
    ensures Frequent(t0, evs, 1800, Samples) && NeverFails(evs) ==> Scheduled(t0, evs, Samples)
    ensures Frequent(t0, evs, 600, Metrics) ==> Scheduled(t0, evs, Metrics)
  {
    if evs != [] {
      assert forall e :: e in Before(evs) ==> e in evs;
      FrequentIsScheduled(t0, Before(evs));
      if Frequent(t0, evs, 900, Samples) { FrequentIsTimely(t0, Before(evs), 900, Samples); }
      if NeverFails(evs) { CleanPasses(t0, Before(evs), Samples); }
    }
  }

  // ---- any schedule -------------------------------------------------------

  /** The rows of the level below that each tier of a hash was ever given. */
  function GivenTo(t0: nat, evs: seq<Event>, h: string): Roots<Counter> {
    if evs == [] then Roots(map[], map[], map[])
    else
      var before := GivenTo(t0, Before(evs), h);
      match Latest(evs)
      case Maintain(ts, pf) =>
        if h in RowsGone(Run(Before(evs)), ts, pf) then Roots(map[], map[], map[])
        else
          NextGiven(before, ColumnOf(Written(Before(evs)), h), Reach(CutsOf(t0, Before(evs), Samples), ts), ts,
                    pf.samples.rollups)
      case _ => before
  }

  ghost predicate GivenOk(t0: nat, evs: seq<Event>, h: string) {
    && Given(RowsOf(Run(evs).samples, h), CutsOf(t0, evs, Samples), GivenTo(t0, evs, h), ColumnOf(Written(evs), h))
    && CutBy(CutsOf(t0, evs, Samples), Clock(t0, evs))
  }

  lemma {:induction false} GivenInvariant(t0: nat, evs: seq<Event>, h: string)
    requires Timely(t0, evs)
    ensures GivenOk(t0, evs, h)
  {
    hide GivenOk;
    if evs == [] {
      NothingGiven(t0, h);
    } else {
      GivenInvariant(t0, Before(evs), h);
      if Latest(evs).Maintain? {
        PassGives(t0, evs, h);
      } else {
        OthersGiveNothing(t0, evs, h);
      }
    }
  }

  lemma {:induction false} NothingGiven(t0: nat, h: string)
    ensures GivenOk(t0, [], h)
  {
    hide Roll;
    NoneGiven(CutsOf(t0, [], Samples));
  }

  lemma {:induction false} NoneGiven(c: Cuts)
    ensures Given(NO_ROWS, c, Roots(map[], map[], map[]), map[])
  {
    hide Roll;
    NothingRolls<Counter>(60);
    NothingRolls<Counter>(3600);
    NothingRolls<Counter>(86400);
  }

  lemma {:induction false} WriteKeepsGiven(s: Stack<Counter>, c: Cuts, r: Roots<Counter>, full: Column<Counter>,
                                           ts: nat, v: Counter)
    requires Given(s, c, r, full) && c.raw <= ts
    ensures Given(s.(raw := s.raw[ts := v]), c, r, full[ts := v])
  {
    hide Roll;
  }

  lemma {:induction false} OthersGiveNothing(t0: nat, evs: seq<Event>, h: string)
    requires evs != [] && !Latest(evs).Maintain? && Timely(t0, evs)
    requires GivenOk(t0, Before(evs), h)
    ensures GivenOk(t0, evs, h)
  {
    hide Given, WriteAll, SeedAll, RefreshAll, Run, Written, GivenTo;
    StepIs(t0, evs, h);
    if Latest(evs).Poll? {
      var s := Run(Before(evs));
      var Poll(ts, rs, f) := Latest(evs);
      PolledRows(s, rs, ts, f, h);
      PendingRows(s, rs, ts, f, h);
      var pending := WriteAll(s, rs, ts, f).pending;
      if h in pending && !f.commitFails {
        WriteKeepsGiven(RowsOf(s.samples, h), CutsOf(t0, evs, Samples), GivenTo(t0, evs, h),
                        ColumnOf(Written(Before(evs)), h), ts, pending[h]);
      }
    }
  }

  lemma {:induction false} StepIs(t0: nat, evs: seq<Event>, h: string)
    requires evs != [] && !Latest(evs).Maintain?
    ensures GivenTo(t0, evs, h) == GivenTo(t0, Before(evs), h)
    ensures CutsOf(t0, evs, Samples) == CutsOf(t0, Before(evs), Samples)
    ensures Run(evs) == Step(Run(Before(evs)), Latest(evs))
    ensures Written(evs) ==
      if Latest(evs).Poll? && !Latest(evs).f.commitFails then
        Record(Written(Before(evs)),
               WriteAll(Run(Before(evs)), Latest(evs).rs, Latest(evs).ts, Latest(evs).f).pending, Latest(evs).ts)
      else Written(Before(evs))
  {
    hide Step, WriteAll, Record;
  }

  lemma {:induction false} PassGives(t0: nat, evs: seq<Event>, h: string)
    requires evs != [] && Latest(evs).Maintain? && Timely(t0, evs)
    requires GivenOk(t0, Before(evs), h)
    ensures GivenOk(t0, evs, h)
  {
    hide Given, PassUnder, MaintainStep, RowsGone, NextGiven, Reach;
    var s, now, pf := Run(Before(evs)), Latest(evs).ts, Latest(evs).pf;
    MaintainRows(s, now, pf, h);
    PassKeepsGiven(RowsOf(s.samples, h), CutsOf(t0, Before(evs), Samples), GivenTo(t0, Before(evs), h),
                   ColumnOf(Written(Before(evs)), h), now, pf.samples);
    assert CutsOf(t0, evs, Samples) == NextCuts(CutsOf(t0, Before(evs), Samples), now, pf.samples.prunes);
    if h in RowsGone(s, now, pf) {
      NoneGiven(CutsOf(t0, evs, Samples));
    }
  }

  /** After any pass of any run with no failing statement on the samples, however far apart the
      passes, however many rows were pending and whatever failed before, the tiers of a hash are
      exact if and only if at each level the rows that tier was never given are made up for. */
  lemma {:induction false} TiersAreExactIff(t0: nat, evs: seq<Event>, h: string)
    requires Timely(t0, evs)
    requires evs != [] && Latest(evs).Maintain? && Latest(evs).pf.samples == NONE_FAILED
    ensures var full, given := ColumnOf(Written(evs), h), GivenTo(t0, evs, h);
      var now := Latest(evs).ts;
      Exact(RowsOf(Run(evs).samples, h), full, now) <==>
        && MadeUpFor(given.m1, full, 60, now - 86400)
        && MadeUpFor(given.h1, Roll(full, 60), 3600, now - 604800)
        && MadeUpFor(given.d1, Roll(full, 3600), 86400, now - 31536000)
  {
    hide Run, Written, GivenTo, Exact, MadeUpFor, Given, Roll, Timely;
    GivenInvariant(t0, evs, h);
    assert CutsOf(t0, evs, Samples) == CutsAt(Latest(evs).ts);
    GivenIsExactIff(RowsOf(Run(evs).samples, h), GivenTo(t0, evs, h), ColumnOf(Written(evs), h), Latest(evs).ts);
  }
}
