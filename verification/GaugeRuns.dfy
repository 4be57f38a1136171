/**
 Gauge averages over whole runs: after every pass each tier holds the averages of
 everything ever sampled, and the average of a closed bucket never changes again.
 */
module GaugeRuns {
  import opened Series
  import opened Tiers
  import opened Gauges
  import opened HistoryStore
  import opened HistoryRuns

  /** Every gauge value ever committed. */
  function Sampled(evs: seq<Event>): Ledger<int> {
    if evs == [] then map[]
    else if Latest(evs).Gauge? && !Latest(evs).commitFails then
      Record(Sampled(Before(evs)), Latest(evs).values, Latest(evs).ts)
    else Sampled(Before(evs))
  }

  /** What had been sampled when level n was last averaged; level 0 is raw. */
  function Averaged(evs: seq<Event>, n: nat): Ledger<int>
    decreases |evs|, n
  {
    if n == 0 then Sampled(evs)
    else if evs == [] then map[]
    else if Latest(evs).Maintain? && n - 1 !in Latest(evs).pf.metrics.rollups then Averaged(evs, n - 1)
    else Averaged(Before(evs), n)
  }

  function RootsOf(evs: seq<Event>, m: string): Roots<int> {
    Roots(ColumnOf(Averaged(evs, 1), m), ColumnOf(Averaged(evs, 2), m), ColumnOf(Averaged(evs, 3), m))
  }

  ghost predicate GaugesOk(t0: nat, evs: seq<Event>, m: string) {
    && Averages(GaugesOf(Run(evs).metrics, m), CutsOf(t0, evs, Metrics), RootsOf(evs, m), ColumnOf(Sampled(evs), m),
                LastFull(t0, evs, Metrics))
    && CutBy(CutsOf(t0, evs, Metrics), Clock(t0, evs))
  }

  lemma {:induction false} WriteKeepsGauges(s: Stack<int>, c: Cuts, w: Roots<int>, full: Column<int>,
                                            at: nat, ts: nat, v: int)
    requires Averages(s, c, w, full, at) && at <= ts && c.raw <= ts
    ensures Averages(Gauged(s, ts, v), c, w, full[ts := v], at)
  {
    hide IdealM1, IdealH1, IdealD1;
    var full' := full[ts := v];
    forall t: nat | t < at ensures SameAt(w.m1, full', t) {
      assert SameAt(w.m1, full, t);
    }
    assert Cut(full', c.raw) == Cut(full, c.raw)[ts := v];
  }

  lemma {:induction false} NoGaugesOk(c: Cuts, at: nat)
    ensures Averages(NO_GAUGES, c, Roots(map[], map[], map[]), map[], at)
  {
    OlderSelf<int>(map[], at);
  }

  lemma {:induction false} PassOfNoGauges(now: int, f: Failed)
    ensures GaugePassUnder(NO_GAUGES, now, f) == NO_GAUGES
  {
    hide PrunesDone, GaugeRollupsDone, AvgRoll, CutoffOf;
    NothingAverages(60);
    NothingAverages(3600);
    NothingAverages(86400);
    GaugeRollupsAre(NO_GAUGES, now, f.rollups);
    PrunesAre(NO_GAUGES, now, f.prunes);
  }

  lemma {:induction false} NothingAverages(B: nat)
    requires B > 0
    ensures AvgRoll(map[], B) == map[]
  {
  }

  lemma {:induction false} GaugeInvariant(t0: nat, evs: seq<Event>, m: string)
    requires Scheduled(t0, evs, Metrics)
    ensures GaugesOk(t0, evs, m)
  {
    hide GaugesOk, InTime;
    if evs == [] {
      NothingSampled(t0, m);
    } else {
      GaugeInvariant(t0, Before(evs), m);
      if Latest(evs).Maintain? {
        PassKeepsGauges(t0, evs, m);
      } else {
        SampleKeepsGauges(t0, evs, m);
      }
    }
  }

  lemma {:induction false} NothingSampled(t0: nat, m: string)
    ensures GaugesOk(t0, [], m)
  {
    hide Averages;
    NoGaugesOk(CutsOf(t0, [], Metrics), t0);
  }

  lemma {:induction false} NoPass(t0: nat, evs: seq<Event>, m: string)
    requires evs != [] && !Latest(evs).Maintain? && Scheduled(t0, evs, Metrics)
    ensures RootsOf(evs, m) == RootsOf(Before(evs), m)
    ensures CutsOf(t0, evs, Metrics) == CutsOf(t0, Before(evs), Metrics)
    ensures LastFull(t0, evs, Metrics) == LastFull(t0, Before(evs), Metrics) <= Clock(t0, Before(evs)) <= Latest(evs).ts
    ensures Run(evs) == Step(Run(Before(evs)), Latest(evs))
  {
    hide Step, InTime;
    PassesArePast(t0, Before(evs), Metrics);
  }

  lemma {:induction false} SampleKeepsGauges(t0: nat, evs: seq<Event>, m: string)
    requires evs != [] && !Latest(evs).Maintain? && Scheduled(t0, evs, Metrics)
    requires GaugesOk(t0, Before(evs), m)
    ensures GaugesOk(t0, evs, m)
  {
    hide Averages, InTime, Averaged, Run, LastFull, LastPrune, Scheduled, WriteAll, SeedAll, RefreshAll;
    NoPass(t0, evs, m);
    if Latest(evs).Gauge? && !Latest(evs).commitFails && m in Latest(evs).values {
      WriteKeepsGauges(GaugesOf(Run(Before(evs)).metrics, m), CutsOf(t0, evs, Metrics), RootsOf(evs, m),
                       ColumnOf(Sampled(Before(evs)), m), LastFull(t0, evs, Metrics), Latest(evs).ts,
                       Latest(evs).values[m]);
    }
  }

  lemma {:induction false} PassKeepsGauges(t0: nat, evs: seq<Event>, m: string)
    requires evs != [] && Latest(evs).Maintain? && Scheduled(t0, evs, Metrics)
    requires GaugesOk(t0, Before(evs), m)
    ensures GaugesOk(t0, evs, m)
  {
    hide Averages, GaugePassUnder, MaintainStep;
    var s, now, pf := Run(Before(evs)), Latest(evs).ts, Latest(evs).pf;
    MaintainGauges(s, now, pf, m);
    PassKeepsAverages(GaugesOf(s.metrics, m), CutsOf(t0, Before(evs), Metrics), RootsOf(Before(evs), m),
                      ColumnOf(Sampled(Before(evs)), m), LastFull(t0, Before(evs), Metrics), now, pf.metrics);
    assert CutsOf(t0, evs, Metrics) == NextCuts(CutsOf(t0, Before(evs), Metrics), now, pf.metrics.prunes);
    RootsOfPass(evs, m);
  }

  lemma {:induction false} MaintainGauges(s: State, now: int, pf: PassFaults, m: string)
    ensures GaugesOf(MaintainStep(s, now, pf).metrics, m) == GaugePassUnder(GaugesOf(s.metrics, m), now, pf.metrics)
  {
    hide PassUnder, GaugePassUnder, Stale;
    PassOfNoGauges(now, pf.metrics);
  }

  lemma {:induction false} RootsOfPass(evs: seq<Event>, m: string)
    requires evs != [] && Latest(evs).Maintain?
    ensures RootsOf(evs, m) ==
      NextRoots(RootsOf(Before(evs), m), ColumnOf(Sampled(evs), m), Latest(evs).pf.metrics.rollups)
    ensures Sampled(evs) == Sampled(Before(evs))
  {
    hide Averaged;
    AveragedAt(evs, 0);
    AveragedAt(evs, 1);
    AveragedAt(evs, 2);
  }

  lemma {:induction false} AveragedAt(evs: seq<Event>, n: nat)
    requires evs != [] && Latest(evs).Maintain?
    ensures Averaged(evs, 0) == Sampled(evs)
    ensures Averaged(evs, n + 1) ==
      if n in Latest(evs).pf.metrics.rollups then Averaged(Before(evs), n + 1) else Averaged(evs, n)
  {
  }

  /** After every pass of a scheduled run none of whose statements on the gauges fails, each
      coarser tier holds, per bucket, the integer average of the complete set of its source
      rows, whatever failed in the passes before. */
  lemma {:induction false} AveragesAreExact(t0: nat, evs: seq<Event>, m: string)
    requires Scheduled(t0, evs, Metrics)
    requires evs != [] && Latest(evs).Maintain? && Latest(evs).pf.metrics == NONE_FAILED
    ensures var rows, full := GaugesOf(Run(evs).metrics, m), ColumnOf(Sampled(evs), m);
      AveragesExact(rows, full, Latest(evs).ts) && AveragesMean(rows, full, CutsAt(Latest(evs).ts))
  {
    hide AveragesMean, Run, Sampled, Averaged, Scheduled, Cut, Older, IdealM1, IdealH1, IdealD1;
    GaugeInvariant(t0, evs, m);
    RootsOfPass(evs, m);
    ExactMeans(GaugesOf(Run(evs).metrics, m), ColumnOf(Sampled(evs), m), Latest(evs).ts);
  }

  /** Nothing sampled after a pass lands before it. */
  lemma {:induction false} LaterRowsAreLater(t0: nat, evs: seq<Event>, more: seq<Event>, m: string, n: nat)
    requires Scheduled(t0, evs + more, Metrics)
    requires evs != [] && Latest(evs).Maintain? && RollsAll(Latest(evs).pf.metrics) && n <= 3
    ensures Older(ColumnOf(Sampled(evs), m), ColumnOf(Averaged(evs + more, n), m), Latest(evs).ts)
    ensures Latest(evs).ts <= Clock(t0, evs + more)
    decreases |more|, n
  {
    var T, full := Latest(evs).ts, ColumnOf(Sampled(evs), m);
    if more == [] {
      assert evs + more == evs;
      AllLevels(evs);
      OlderSelf(full, T);
    } else {
      hide Older, InTime;
      var all := evs + more;
      assert Before(all) == evs + Before(more) && Latest(all) == Latest(more);
      LaterRowsAreLater(t0, evs, Before(more), m, n);
      if n > 0 {
        LaterRowsAreLater(t0, evs, more, m, n - 1);
      } else if Latest(all).Gauge? && !Latest(all).commitFails && m in Latest(all).values {
        StillOlder(full, ColumnOf(Sampled(Before(all)), m), T, Latest(all).ts, Latest(all).values[m]);
      }
    }
  }

  lemma {:induction false} AllLevels(evs: seq<Event>)
    requires evs != [] && Latest(evs).Maintain? && RollsAll(Latest(evs).pf.metrics)
    ensures Averaged(evs, 0) == Averaged(evs, 1) == Averaged(evs, 2) == Averaged(evs, 3) == Sampled(evs)
  {
    hide Averaged;
    AveragedAt(evs, 0);
    AveragedAt(evs, 1);
    AveragedAt(evs, 2);
  }

  lemma {:induction false} StillOlder(full: Column<int>, c: Column<int>, T: nat, ts: nat, v: int)
    requires Older(full, c, T) && T <= ts
    ensures Older(full, c[ts := v], T)
  {
    var next := c[ts := v];
    forall t: nat | t < T ensures SameAt(full, next, t) {
      assert SameAt(full, c, t);
    }
  }

  /** A closed bucket keeps its average for as long as it is retained, whatever the run
      does after the pass that closed it, pruning of its source rows included. */
  lemma {:induction false} AveragesFreeze(t0: nat, evs: seq<Event>, more: seq<Event>, m: string, b: nat)
    requires Scheduled(t0, evs + more, Metrics)
    requires evs != [] && Latest(evs).Maintain? && RollsAll(Latest(evs).pf.metrics)
    ensures var rows, full := GaugesOf(Run(evs + more).metrics, m), ColumnOf(Sampled(evs), m);
      var T, cuts := Latest(evs).ts, CutsOf(t0, evs + more, Metrics);
      && (b + 60 <= T ==> SameAt(rows.m1, Cut(IdealM1(full), cuts.m1), b))
      && (b + 3600 <= T ==> SameAt(rows.h1, Cut(IdealH1(full), cuts.h1), b))
      && (b + 86400 <= T ==> SameAt(rows.d1, Cut(IdealD1(full), cuts.d1), b))
  {
    hide Run, Sampled, Averaged, Scheduled, Latest, Before, CutsOf, Clock, AgreeIn, IdealM1, IdealH1, IdealD1;
    var full, w, T := ColumnOf(Sampled(evs), m), RootsOf(evs + more, m), Latest(evs).ts;
    LaterRowsAreLater(t0, evs, more, m, 1);
    LaterRowsAreLater(t0, evs, more, m, 2);
    LaterRowsAreLater(t0, evs, more, m, 3);
    GaugeInvariant(t0, evs + more, m);
    if b + 60 <= T { ClosedBucketAgrees(full, w.m1, T, b, 60); }
    if b + 3600 <= T { ClosedBucketAgrees(full, w.h1, T, b, 3600); }
    if b + 86400 <= T { ClosedBucketAgrees(full, w.d1, T, b, 86400); }
  }

  lemma {:induction false} AvgAgreeAligned(was: Column<int>, full: Column<int>, B: nat, d: nat)
    requires B > 0 && Floor(d, B) == d
    requires AgreeIn(was, full, 0, d)
    ensures AgreeIn(AvgRoll(was, B), AvgRoll(full, B), 0, d)
  {
    hide Floor, LastIn, AvgRoll, Sum, Count, TruncDiv;
    forall b: nat | b < d ensures SameAt(AvgRoll(was, B), AvgRoll(full, B), b) {
      AvgRollAt(was, B, b);
      AvgRollAt(full, B, b);
      if Floor(b, B) == b {
        BucketBelow(b, d, B);
        assert forall t: nat :: b <= t < b + B ==> SameAt(was, full, t);
        AverageAgree(was, full, b, b + B);
      }
    }
  }

  /** Columns that agree before a bucket ends have the same average for it, at each level. */
  lemma {:induction false} ClosedBucketAgrees(full: Column<int>, was: Column<int>, T: nat, b: nat, B: nat)
    requires AgreeIn(full, was, 0, T) && b + B <= T
    requires B == 60 || B == 3600 || B == 86400
    ensures B == 60 ==> SameAt(IdealM1(full), IdealM1(was), b)
    ensures B == 3600 ==> SameAt(IdealH1(full), IdealH1(was), b)
    ensures B == 86400 ==> SameAt(IdealD1(full), IdealD1(was), b)
  {
    hide AvgRoll, Floor;
    AvgRollAt(if B == 60 then full else if B == 3600 then IdealM1(full) else IdealH1(full), B, b);
    AvgRollAt(if B == 60 then was else if B == 3600 then IdealM1(was) else IdealH1(was), B, b);
    if Floor(b, B) == b {
      var d := b + B;
      assert forall t: nat :: t < d ==> SameAt(full, was, t);
      AlignedEnd(b, B);
      AvgAgreeAligned(full, was, 60, d);
      if B > 60 {
        AvgAgreeAligned(IdealM1(full), IdealM1(was), 3600, d);
        if B > 3600 {
          AvgAgreeAligned(IdealH1(full), IdealH1(was), 86400, d);
        }
      }
    }
  }

  /** The end of an aligned bucket is aligned, at its own size and at the finer ones. */
  lemma {:induction false} AlignedEnd(b: nat, B: nat)
    requires (B == 60 || B == 3600 || B == 86400) && Floor(b, B) == b
    ensures Floor(b + B, 60) == b + B
    ensures B >= 3600 ==> Floor(b + B, 3600) == b + B
    ensures B == 86400 ==> Floor(b + B, 86400) == b + B
  {
    hide Floor;
    TierSizesNest();
    AlignedSum(b, B, B);
    AlignedNests(b + B, 60, B);
    if B == 86400 {
      AlignedNests(b + B, 3600, B);
    }
  }

  lemma {:induction false} TierSizesNest()
    ensures Floor(60, 60) == 60
    ensures Floor(3600, 60) == 3600 && Floor(3600, 3600) == 3600
    ensures Floor(86400, 60) == 86400 && Floor(86400, 3600) == 86400 && Floor(86400, 86400) == 86400
  {
    hide Floor;
    FloorIsQuotient(60, 60);
    FloorIsQuotient(3600, 60);
    FloorIsQuotient(3600, 3600);
    FloorIsQuotient(86400, 60);
    FloorIsQuotient(86400, 3600);
    FloorIsQuotient(86400, 86400);
  }
}
