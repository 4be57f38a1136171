/**
 Gauge series (cpu, load, peers, ...) are rolled up by average. An average can only
 be recomputed while every source row of its bucket still exists; this module shows
 that the windows, the bucket-aligned cutoff and the retentions guarantee exactly that.
 */
module Gauges {
  import opened Series
  import opened Tiers

  function Sum(c: Column<int>, lo: nat, hi: nat): int
    decreases hi
  {
    if hi <= lo then 0 else Sum(c, lo, hi - 1) + (if hi - 1 in c then c[hi - 1] else 0)
  }

  function Count(c: Column<int>, lo: nat, hi: nat): (n: nat)
    ensures n > 0 <==> LastIn(c, lo, hi).Some?
    decreases hi
  {
    if hi <= lo then 0 else Count(c, lo, hi - 1) + (if hi - 1 in c then 1 else 0)
  }

  /** Integer division that truncates toward zero, as the cast in the query does. */
  function TruncDiv(x: int, n: nat): int
    requires n > 0
  {
    if x >= 0 then x / n else -(-x / n)
  }

  /** The integer average of the rows of c in [lo, hi). */
  function Average(c: Column<int>, lo: nat, hi: nat): int
    requires LastIn(c, lo, hi).Some?
  {
    TruncDiv(Sum(c, lo, hi), Count(c, lo, hi))
  }

  /** The buckets that have rows. */
  function Starts(c: Column<int>, B: nat): (r: set<nat>)
    requires B > 0
    ensures forall b :: b in r ==> LastIn(c, b, b + B).Some?
  {
    set t | t in c && LastIn(c, Floor(t, B), Floor(t, B) + B).Some? :: Floor(t, B)
  }

  /** One row per bucket that has rows, holding their average. */
  function AvgRoll(c: Column<int>, B: nat): Column<int>
    requires B > 0
  {
    map b | b in Starts(c, B) :: Average(c, b, b + B)
  }

  /** The cutoff of a gauge rollup: `now - window` floored to a bucket boundary. */
  function CutoffOf(now: int, window: nat, B: nat): int
    requires B > 0
  {
    var x := now - window;
    if x >= 0 then Floor(x, B) else 0 - Floor(-x, B)
  }

  function GaugeRollup(s: Stack<int>, r: RollupSpec, now: int): Stack<int>
    requires r.bucket > 0
  {
    s.With(r.dst, s.At(r.dst) + AvgRoll(Cut(s.At(r.src), CutoffOf(now, r.window, r.bucket)), r.bucket))
  }

  function GaugeRollupAll(s: Stack<int>, now: int): Stack<int> {
    GaugeRollup(GaugeRollup(GaugeRollup(s, GAUGE_ROLLUPS[0], now), GAUGE_ROLLUPS[1], now), GAUGE_ROLLUPS[2], now)
  }

  function GaugePass(s: Stack<int>, now: int): Stack<int> {
    Prune(GaugeRollupAll(s, now), now)
  }

  /** What each tier would hold if nothing had ever been pruned: averages of the
      raw rows, averages of those, averages of those. */
  function IdealM1(full: Column<int>): Column<int> { AvgRoll(full, 60) }

  function IdealH1(full: Column<int>): Column<int> { AvgRoll(IdealM1(full), 3600) }

  function IdealD1(full: Column<int>): Column<int> { AvgRoll(IdealH1(full), 86400) }

  ghost predicate CoarseAverages(s: Stack<int>, full: Column<int>, at: int) {
    && s.m1 == Cut(IdealM1(full), at - 86400)
    && s.h1 == Cut(IdealH1(full), at - 604800)
    && s.d1 == Cut(IdealD1(full), at - 31536000)
  }

  ghost predicate AveragesExact(s: Stack<int>, full: Column<int>, at: int) {
    s.raw == Cut(full, at - 900) && CoarseAverages(s, full, at)
  }

  lemma {:induction false} StartsAt(c: Column<int>, B: nat, b: nat)
    requires B > 0
    ensures b in Starts(c, B) <==> Floor(b, B) == b && LastIn(c, b, b + B).Some?
  {
    hide Floor, LastIn;
    if b in Starts(c, B) {
      var t :| t in c && Floor(t, B) == b;
      FloorIsAligned(t, B);
    }
    if Floor(b, B) == b && LastIn(c, b, b + B).Some? {
      FloorUnique(b, LastIn(c, b, b + B).value, B);
    }
  }

  lemma {:induction false} AvgRollAt(c: Column<int>, B: nat, b: nat)
    requires B > 0
    ensures b in AvgRoll(c, B) <==> Floor(b, B) == b && LastIn(c, b, b + B).Some?
    ensures b in AvgRoll(c, B) ==> AvgRoll(c, B)[b] == Average(c, b, b + B)
  {
    hide Floor, LastIn, Average, Starts;
    StartsAt(c, B, b);
  }

  // ---- what an average is ------------------------------------------------

  function TimesIn(c: Column<int>, lo: nat, hi: nat): set<nat> {
    set t | t in c && lo <= t < hi
  }

  /** `row` is total / n rounded toward zero. */
  ghost predicate IsAverage(row: int, n: nat, total: int) {
    if total >= 0 then n * row <= total < n * row + n else n * row - n < total <= n * row
  }

  /** One row per bucket start with source rows, the average of all of them. */
  ghost predicate AveragesOf(dst: Column<int>, src: Column<int>, B: nat)
    requires B > 0
  {
    forall b: nat ::
      && (b in dst <==> b % B == 0 && TimesIn(src, b, b + B) != {})
      && (b in dst ==> IsAverage(dst[b], |TimesIn(src, b, b + B)|, Sum(src, b, b + B)))
  }

  lemma {:induction false} SumOfNone(c: Column<int>, lo: nat, hi: nat)
    requires TimesIn(c, lo, hi) == {}
    ensures Sum(c, lo, hi) == 0
    decreases hi
  {
    if lo < hi {
      assert hi - 1 !in TimesIn(c, lo, hi) && TimesIn(c, lo, hi - 1) <= TimesIn(c, lo, hi);
      SumOfNone(c, lo, hi - 1);
    }
  }

  lemma {:induction false} SumOfOneMore(c: Column<int>, lo: nat, hi: nat, t: nat, v: int)
    requires t !in c
    ensures Sum(c[t := v], lo, hi) == Sum(c, lo, hi) + (if lo <= t < hi then v else 0)
    decreases hi
  {
    if lo < hi {
      SumOfOneMore(c, lo, hi - 1, t, v);
    }
  }

  lemma {:induction false} CountIsSize(c: Column<int>, lo: nat, hi: nat)
    ensures Count(c, lo, hi) == |TimesIn(c, lo, hi)|
    decreases hi
  {
    hide TimesIn;
    if lo < hi {
      CountIsSize(c, lo, hi - 1);
    }
    TimesNext(c, lo, hi);
  }

  lemma {:induction false} TimesNext(c: Column<int>, lo: nat, hi: nat)
    ensures hi <= lo ==> TimesIn(c, lo, hi) == {}
    ensures lo < hi ==>
      var before := TimesIn(c, lo, hi - 1);
      && hi - 1 !in before
      && TimesIn(c, lo, hi) == (if hi - 1 in c then before + {hi - 1} else before)
      && |TimesIn(c, lo, hi)| == |before| + (if hi - 1 in c then 1 else 0)
  {
    if lo < hi {
      var before := TimesIn(c, lo, hi - 1);
      assert TimesIn(c, lo, hi) == if hi - 1 in c then before + {hi - 1} else before;
    } else {
      assert TimesIn(c, lo, hi) == {};
    }
  }

  lemma {:induction false} TruncDivIs(x: int, n: nat)
    requires n > 0
    ensures IsAverage(TruncDiv(x, n), n, x)
  {
    QuotientIs(if x >= 0 then x else -x, n);
  }

  lemma {:induction false} QuotientIs(x: nat, n: nat)
    requires n > 0
    ensures n * (x / n) <= x < n * (x / n) + n
    ensures n * (-(x / n)) == -(n * (x / n))
  {
  }

  lemma {:induction false} AverageIs(c: Column<int>, lo: nat, hi: nat)
    requires LastIn(c, lo, hi).Some?
    ensures TimesIn(c, lo, hi) != {} && IsAverage(Average(c, lo, hi), |TimesIn(c, lo, hi)|, Sum(c, lo, hi))
  {
    hide IsAverage, TruncDiv, Sum;
    assert LastIn(c, lo, hi).value in TimesIn(c, lo, hi);
    CountIsSize(c, lo, hi);
    TruncDivIs(Sum(c, lo, hi), Count(c, lo, hi));
  }

  lemma {:induction false} AvgRollIs(c: Column<int>, B: nat)
    requires B > 0
    ensures AveragesOf(AvgRoll(c, B), c, B)
  {
    hide AvgRoll, Average, IsAverage, Floor, LastIn, Sum;
    forall b: nat
      ensures b in AvgRoll(c, B) <==> b % B == 0 && TimesIn(c, b, b + B) != {}
      ensures b in AvgRoll(c, B) ==> IsAverage(AvgRoll(c, B)[b], |TimesIn(c, b, b + B)|, Sum(c, b, b + B))
    {
      AvgRollAt(c, B, b);
      AlignedIs(b, B);
      if LastIn(c, b, b + B).Some? { AverageIs(c, b, b + B); }
    }
  }

  lemma {:induction false} AlignedIs(b: nat, B: nat)
    requires B > 0
    ensures Floor(b, B) == b <==> b % B == 0
  {
    hide Floor;
    FloorIsQuotient(b, B);
  }

  lemma {:induction false} SumBounds(c: Column<int>, lo: nat, hi: nat, least: int, most: int)
    requires forall t :: t in TimesIn(c, lo, hi) ==> least <= c[t] <= most
    ensures |TimesIn(c, lo, hi)| * least <= Sum(c, lo, hi) <= |TimesIn(c, lo, hi)| * most
    decreases hi
  {
    hide TimesIn;
    TimesNext(c, lo, hi);
    if lo < hi {
      SumBounds(c, lo, hi - 1, least, most);
      OneMore(|TimesIn(c, lo, hi - 1)|, least);
      OneMore(|TimesIn(c, lo, hi - 1)|, most);
    }
  }

  lemma {:induction false} OneMore(n: nat, x: int)
    ensures (n + 1) * x == n * x + x
  {
  }

  /** An average lies between the least and the greatest of its rows; if all are v it is v. */
  lemma {:induction false} AverageIsBetween(c: Column<int>, lo: nat, hi: nat, row: int, least: int, most: int)
    requires TimesIn(c, lo, hi) != {} && IsAverage(row, |TimesIn(c, lo, hi)|, Sum(c, lo, hi))
    requires forall t :: t in TimesIn(c, lo, hi) ==> least <= c[t] <= most
    ensures least <= row <= most
  {
    hide Sum;
    SumBounds(c, lo, hi, least, most);
    var n := |TimesIn(c, lo, hi)|;
    Cancels(n, least, row);
    Cancels(n, row, most);
  }

  lemma {:induction false} Cancels(n: nat, x: int, y: int)
    requires n > 0
    ensures x > y ==> n * x >= n * y + n
    ensures (x >= 0 <==> n * x >= 0) && (y >= 0 <==> n * y >= 0)
  {
    var d := x - y;
    assert n * x == n * y + n * d;
    if d > 0 { assert n * d >= n; }
  }

  /** What one rollup statement stores: for every bucket with rows in its window the average of
      those, and every other row as it was. */
  lemma {:induction false} RollupStores(s: Stack<int>, r: RollupSpec, now: int, b: nat)
    requires r.bucket > 0 && r.src != r.dst
    ensures var win := Cut(s.At(r.src), CutoffOf(now, r.window, r.bucket));
      var before, after := s.At(r.dst), GaugeRollup(s, r, now).At(r.dst);
      if b % r.bucket == 0 && TimesIn(win, b, b + r.bucket) != {} then
        b in after && IsAverage(after[b], |TimesIn(win, b, b + r.bucket)|, Sum(win, b, b + r.bucket))
      else SameAt(before, after, b)
  {
    hide AvgRoll, IsAverage, Sum, Cut, CutoffOf;
    AvgRollIs(Cut(s.At(r.src), CutoffOf(now, r.window, r.bucket)), r.bucket);
  }

  /** Each tier is a cut of the averages of everything in the one below, nothing pruned. */
  ghost predicate AveragesMean(s: Stack<int>, full: Column<int>, c: Cuts) {
    exists m1, h1, d1 ::
      && AveragesOf(m1, full, 60) && AveragesOf(h1, m1, 3600) && AveragesOf(d1, h1, 86400)
      && s == Stack(Cut(full, c.raw), Cut(m1, c.m1), Cut(h1, c.h1), Cut(d1, c.d1))
  }

  ghost predicate IdealsMean(full: Column<int>) {
    && AveragesOf(IdealM1(full), full, 60)
    && AveragesOf(IdealH1(full), IdealM1(full), 3600)
    && AveragesOf(IdealD1(full), IdealH1(full), 86400)
  }

  lemma {:induction false} IdealsAreAverages(full: Column<int>)
    ensures IdealsMean(full)
  {
    hide AvgRoll, AveragesOf;
    AvgRollIs(full, 60);
    AvgRollIs(IdealM1(full), 3600);
    AvgRollIs(IdealH1(full), 86400);
  }

  lemma {:induction false} ExactMeans(s: Stack<int>, full: Column<int>, at: int)
    requires AveragesExact(s, full, at)
    ensures AveragesMean(s, full, CutsAt(at))
  {
    hide AveragesOf, IdealM1, IdealH1, IdealD1, Cut;
    IdealsAreAverages(full);
  }

  lemma {:induction false} AverageAgree(c: Column<int>, d: Column<int>, lo: nat, hi: nat)
    requires AgreeIn(c, d, lo, hi)
    ensures LastIn(c, lo, hi) == LastIn(d, lo, hi)
    ensures Sum(c, lo, hi) == Sum(d, lo, hi) && Count(c, lo, hi) == Count(d, lo, hi)
    decreases hi
  {
    LastInAgree(c, d, lo, hi);
    if lo < hi {
      assert SameAt(c, d, hi - 1);
      AverageAgree(c, d, lo, hi - 1);
    }
  }

  /** One level of the chain: the window starts on a bucket boundary no older than
      the source's retention, so a bucket is recomputed from all its rows or not at all. */
  lemma {:induction false} AvgStep(was: Column<int>, full: Column<int>, src: Column<int>, dst: Column<int>,
                                   B: nat, from: int, srcCut: int, dstCut: int, d: int)
    requires B > 0
    requires src == Cut(full, srcCut)
    requires dst == Cut(AvgRoll(was, B), dstCut)
    requires AgreeIn(was, full, 0, d) && was.Keys <= full.Keys
    requires from < 0 || Floor(from, B) == from
    requires srcCut <= from <= d && dstCut <= from
    ensures dst + AvgRoll(Cut(src, from), B) == Cut(AvgRoll(full, B), dstCut)
  {
    hide *;
    forall b: nat
      ensures SameAt(dst + AvgRoll(Cut(src, from), B), Cut(AvgRoll(full, B), dstCut), b)
    {
      AvgStepAt(was, full, src, dst, B, from, srcCut, dstCut, d, b);
    }
    SameEverywhere(dst + AvgRoll(Cut(src, from), B), Cut(AvgRoll(full, B), dstCut));
  }

  lemma {:induction false} AvgStepAt(was: Column<int>, full: Column<int>, src: Column<int>, dst: Column<int>,
                                     B: nat, from: int, srcCut: int, dstCut: int, d: int, b: nat)
    requires B > 0
    requires src == Cut(full, srcCut)
    requires dst == Cut(AvgRoll(was, B), dstCut)
    requires AgreeIn(was, full, 0, d) && was.Keys <= full.Keys
    requires from < 0 || Floor(from, B) == from
    requires srcCut <= from <= d && dstCut <= from
    ensures SameAt(dst + AvgRoll(Cut(src, from), B), Cut(AvgRoll(full, B), dstCut), b)
  {
    hide Floor, LastIn, AvgRoll, Sum, Count, TruncDiv;
    var win := Cut(src, from);
    AvgRollAt(win, B, b);
    AvgRollAt(full, B, b);
    AvgRollAt(was, B, b);
    if Floor(b, B) == b {
      if b >= from {
        assert forall t: nat :: b <= t < b + B ==> SameAt(win, full, t);
        AverageAgree(win, full, b, b + B);
      } else {
        BucketBelow(b, from, B);
        assert forall t: nat :: b <= t < b + B ==> SameAt(was, full, t);
        AverageAgree(was, full, b, b + B);
      }
    }
  }

  /** An aligned bucket that starts before an aligned cut ends before it. */
  lemma {:induction false} BucketBelow(b: nat, from: int, B: nat)
    requires B > 0 && Floor(b, B) == b
    requires from < 0 || Floor(from, B) == from
    requires b < from
    ensures b + B <= from
  {
    hide Floor;
    if from < b + B {
      FloorUnique(b, from, B);
    }
  }

  lemma {:induction false} AvgAgree(was: Column<int>, full: Column<int>, B: nat, d: int)
    requires B > 0
    requires AgreeIn(was, full, 0, d) && was.Keys <= full.Keys
    ensures AgreeIn(AvgRoll(was, B), AvgRoll(full, B), 0, d - B + 1)
    ensures AvgRoll(was, B).Keys <= AvgRoll(full, B).Keys
  {
    hide Floor, LastIn, AvgRoll, Sum, Count, TruncDiv;
    forall b: nat
      ensures b < d - B + 1 ==> SameAt(AvgRoll(was, B), AvgRoll(full, B), b)
      ensures b in AvgRoll(was, B) ==> b in AvgRoll(full, B)
    {
      AvgRollAt(was, B, b);
      AvgRollAt(full, B, b);
      if b < d - B + 1 {
        AverageAgree(was, full, b, b + B);
      }
    }
  }

  lemma {:induction false} CutoffIs(now: int, window: nat, B: nat)
    requires B > 0
    ensures CutoffOf(now, window, B) < 0 || Floor(CutoffOf(now, window, B), B) == CutoffOf(now, window, B)
    ensures now - window - B < CutoffOf(now, window, B) < now - window + B
    ensures now >= window ==> CutoffOf(now, window, B) <= now - window
    ensures now < window ==> CutoffOf(now, window, B) <= 0
  {
    hide Floor;
    if now >= window {
      FloorIsAligned(now - window, B);
    } else {
      FloorIsAligned(0, B);
      assert Floor(0, B) == 0;
    }
  }

  // ---- passes that fail in part ------------------------------------------

  /** The first n rollup statements; one that fails is skipped. */
  function GaugeRollupsDone(s: Stack<int>, n: nat, now: int, failed: set<nat>): Stack<int>
    requires n <= 3
  {
    if n == 0 then s
    else
      var before := GaugeRollupsDone(s, n - 1, now, failed);
      if n - 1 in failed then before else GaugeRollup(before, GAUGE_ROLLUPS[n - 1], now)
  }

  function GaugePassUnder(s: Stack<int>, now: int, f: Failed): Stack<int> {
    PrunesDone(GaugeRollupsDone(s, 3, now, f.rollups), 4, now, f.prunes)
  }

  function GaugeRollupUnless(s: Stack<int>, i: nat, now: int, failed: set<nat>): Stack<int>
    requires i < 3
  {
    if i in failed then s else GaugeRollup(s, GAUGE_ROLLUPS[i], now)
  }

  lemma {:induction false} GaugeRollupsAre(s: Stack<int>, now: int, failed: set<nat>)
    ensures GaugeRollupsDone(s, 3, now, failed) ==
      GaugeRollupUnless(GaugeRollupUnless(GaugeRollupUnless(s, 0, now, failed), 1, now, failed), 2, now, failed)
  {
    hide GaugeRollup;
    assert GaugeRollupsDone(s, 1, now, failed) == GaugeRollupUnless(s, 0, now, failed);
  }

  lemma {:induction false} CleanGaugePass(s: Stack<int>, now: int)
    ensures GaugePassUnder(s, now, NONE_FAILED) == GaugePass(s, now)
  {
    hide GaugeRollup, GaugeRollupsDone, PrunesDone;
    GaugeRollupsAre(s, now, {});
    PrunesAre(GaugeRollupAll(s, now), now, {});
  }

  /** Raw holds what was sampled, each coarser tier the averages of what had been sampled when
      it was last rolled up, each cut at its own age; all of it is the same before `at`. */
  ghost predicate Averages(s: Stack<int>, c: Cuts, w: Roots<int>, full: Column<int>, at: int) {
    && s.raw == Cut(full, c.raw)
    && s.m1 == Cut(IdealM1(w.m1), c.m1)
    && s.h1 == Cut(IdealH1(w.h1), c.h1)
    && s.d1 == Cut(IdealD1(w.d1), c.d1)
    && Older(w.d1, w.h1, at) && Older(w.h1, w.m1, at) && Older(w.m1, full, at)
  }

  lemma {:induction false} FirstAverage(s: Stack<int>, c: Cuts, w: Roots<int>, full: Column<int>, at: nat, now: nat)
    requires Averages(s, c, w, full, at) && CutBy(c, now) && now <= at + 600
    ensures Averages(GaugeRollup(s, GAUGE_ROLLUPS[0], now), c, w.(m1 := full), full, at)
  {
    hide AvgRoll, AgreeIn, Cut, CutoffOf, IdealH1, IdealD1, Floor;
    CutoffIs(now, 600, 60);
    AvgStep(w.m1, full, s.raw, s.m1, 60, CutoffOf(now, 600, 60), c.raw, c.m1, at);
    OlderTrans(w.h1, w.m1, full, at);
    OlderSelf(full, at);
  }

  lemma {:induction false} SecondAverage(s: Stack<int>, c: Cuts, w: Roots<int>, full: Column<int>, at: nat, now: nat)
    requires Averages(s, c, w, full, at) && CutBy(c, now) && now <= at + 600
    ensures Averages(GaugeRollup(s, GAUGE_ROLLUPS[1], now), c, w.(h1 := w.m1), full, at)
  {
    hide AvgRoll, AgreeIn, Cut, CutoffOf, IdealD1, Floor;
    CutoffIs(now, 10800, 3600);
    AvgAgree(w.h1, w.m1, 60, at);
    AvgStep(IdealM1(w.h1), IdealM1(w.m1), s.m1, s.h1, 3600, CutoffOf(now, 10800, 3600), c.m1, c.h1, at - 59);
    OlderTrans(w.d1, w.h1, w.m1, at);
    OlderSelf(w.m1, at);
  }

  lemma {:induction false} ThirdAverage(s: Stack<int>, c: Cuts, w: Roots<int>, full: Column<int>, at: nat, now: nat)
    requires Averages(s, c, w, full, at) && CutBy(c, now) && now <= at + 600
    ensures Averages(GaugeRollup(s, GAUGE_ROLLUPS[2], now), c, w.(d1 := w.h1), full, at)
  {
    hide AvgRoll, AgreeIn, Cut, CutoffOf, Floor;
    CutoffIs(now, 180000, 86400);
    AvgAgree(w.d1, w.h1, 60, at);
    AvgAgree(IdealM1(w.d1), IdealM1(w.h1), 3600, at - 59);
    AvgStep(IdealH1(w.d1), IdealH1(w.h1), s.h1, s.d1, 86400, CutoffOf(now, 180000, 86400), c.h1, c.d1, at - 3658);
    OlderSelf(w.h1, at);
  }

  lemma {:induction false} RollupsKeepAverages(s: Stack<int>, c: Cuts, w: Roots<int>, full: Column<int>, at: nat,
                                               now: nat, failed: set<nat>)
    requires Averages(s, c, w, full, at) && CutBy(c, now) && now <= at + 600
    ensures Averages(GaugeRollupsDone(s, 3, now, failed), c, NextRoots(w, full, failed), full, at)
  {
    hide Averages, GaugeRollup, CutBy, GaugeRollupsDone;
    GaugeRollupsAre(s, now, failed);
    var s1, w1 := GaugeRollupUnless(s, 0, now, failed), if 0 in failed then w else w.(m1 := full);
    if 0 !in failed { FirstAverage(s, c, w, full, at, now); }
    var s2, w2 := GaugeRollupUnless(s1, 1, now, failed), if 1 in failed then w1 else w1.(h1 := w1.m1);
    if 1 !in failed { SecondAverage(s1, c, w1, full, at, now); }
    if 2 !in failed { ThirdAverage(s2, c, w2, full, at, now); }
  }

  lemma {:induction false} PrunesKeepAverages(s: Stack<int>, c: Cuts, w: Roots<int>, full: Column<int>, at: nat,
                                              now: nat, failed: set<nat>)
    requires Averages(s, c, w, full, at) && CutBy(c, now)
    ensures Averages(PrunesDone(s, 4, now, failed), NextCuts(c, now, failed), w, full, at)
    ensures CutBy(NextCuts(c, now, failed), now)
  {
    hide Cut, IdealM1, IdealH1, IdealD1, Older, PrunesDone;
    PrunesAre(s, now, failed);
    CutTwice(full, c.raw, now - 900);
    CutTwice(IdealM1(w.m1), c.m1, now - 86400);
    CutTwice(IdealH1(w.h1), c.h1, now - 604800);
    CutTwice(IdealD1(w.d1), c.d1, now - 31536000);
  }

  /** What one pass does to the averages, whichever of its statements fail. */
  lemma {:induction false} PassKeepsAverages(s: Stack<int>, c: Cuts, w: Roots<int>, full: Column<int>, at: nat,
                                             now: nat, f: Failed)
    requires Averages(s, c, w, full, at) && CutBy(c, now) && (RollsNone(f) || now <= at + 600)
    ensures Averages(GaugePassUnder(s, now, f), NextCuts(c, now, f.prunes), NextRoots(w, full, f.rollups), full,
                     if RollsAll(f) then now else at)
    ensures CutBy(NextCuts(c, now, f.prunes), now)
    ensures var w' := NextRoots(w, full, f.rollups); IdealsMean(w'.m1) && IdealsMean(w'.h1) && IdealsMean(w'.d1)
  {
    hide Averages, IdealsMean, CutBy, GaugeRollupsDone, PrunesDone, GaugeRollup, NextCuts;
    IdealsAreAverages(NextRoots(w, full, f.rollups).m1);
    IdealsAreAverages(NextRoots(w, full, f.rollups).h1);
    IdealsAreAverages(NextRoots(w, full, f.rollups).d1);
    if RollsNone(f) {
      GaugeRollupsAre(s, now, f.rollups);
    } else {
      RollupsKeepAverages(s, c, w, full, at, now, f.rollups);
    }
    PrunesKeepAverages(GaugeRollupsDone(s, 3, now, f.rollups), c, NextRoots(w, full, f.rollups), full, at, now,
                       f.prunes);
    if RollsAll(f) {
      AllAveraged(GaugePassUnder(s, now, f), NextCuts(c, now, f.prunes), full, at, now);
    }
  }

  lemma {:induction false} AllAveraged(s: Stack<int>, c: Cuts, full: Column<int>, at: nat, now: nat)
    requires Averages(s, c, Roots(full, full, full), full, at)
    ensures Averages(s, c, Roots(full, full, full), full, now)
  {
    hide IdealM1, IdealH1, IdealD1;
    OlderSelf(full, now);
  }

  /** Gauge averages after one pass, at most 600 s after the previous one (at `at`):
      every tier holds the averages of everything ever written, cut to its retention. */
  lemma {:induction false} GaugePassIsExact(s: Stack<int>, was: Column<int>, full: Column<int>, at: nat, now: nat)
    requires s.raw == Cut(full, at - 900) && CoarseAverages(s, was, at)
    requires at <= now <= at + 600
    requires AgreeIn(was, full, 0, at) && was.Keys <= full.Keys
    ensures AveragesExact(GaugePass(s, now), full, now) && AveragesMean(GaugePass(s, now), full, CutsAt(now))
  {
    hide AveragesMean, IdealM1, IdealH1, IdealD1, AgreeIn, Cut, GaugePassUnder, GaugePass;
    OlderSelf(was, at);
    PassKeepsAverages(s, CutsAt(at), Roots(was, was, was), full, at, now, NONE_FAILED);
    CleanGaugePass(s, now);
    ExactMeans(GaugePass(s, now), full, now);
  }
}
