/**
 The resolution tiers raw -> 1m -> 1h -> 1d of one series, the rollup and pruning
 that one maintenance pass does to them, and why they stay exact.
 */
module Tiers {
  import opened Options
  import opened Series

  datatype Tier = Raw | M1 | H1 | D1

  datatype TierSpec = TierSpec(tier: Tier, bucket: nat, retain: nat)

  datatype RollupSpec = RollupSpec(src: Tier, dst: Tier, bucket: nat, window: nat)

  const TIERS: seq<TierSpec> := [
    TierSpec(Raw, 1, 900), TierSpec(M1, 60, 86400), TierSpec(H1, 3600, 604800), TierSpec(D1, 86400, 31536000)]

  const ROLLUPS: seq<RollupSpec> := [
    RollupSpec(Raw, M1, 60, 1800), RollupSpec(M1, H1, 3600, 10800), RollupSpec(H1, D1, 86400, 180000)]

  const GAUGE_ROLLUPS: seq<RollupSpec> := [
    RollupSpec(Raw, M1, 60, 600), RollupSpec(M1, H1, 3600, 10800), RollupSpec(H1, D1, 86400, 180000)]

  /** The four tiers of one series. */
  datatype Stack<V> = Stack(raw: Column<V>, m1: Column<V>, h1: Column<V>, d1: Column<V>) {
    function At(t: Tier): Column<V> {
      match t case Raw => raw case M1 => m1 case H1 => h1 case D1 => d1
    }

    function With(t: Tier, c: Column<V>): Stack<V> {
      match t
      case Raw => this.(raw := c)
      case M1 => this.(m1 := c)
      case H1 => this.(h1 := c)
      case D1 => this.(d1 := c)
    }
  }

  /** Insert-or-replace the last row of every bucket that has a source row in the window. */
  function Rollup<V>(s: Stack<V>, r: RollupSpec, now: int): Stack<V>
    requires r.bucket > 0
  {
    s.With(r.dst, s.At(r.dst) + Roll(Cut(s.At(r.src), now - r.window), r.bucket))
  }

  /** The whole chain, finest first: each level reads what the one before wrote. */
  function RollupAll<V>(s: Stack<V>, now: int): Stack<V> {
    Rollup(Rollup(Rollup(s, ROLLUPS[0], now), ROLLUPS[1], now), ROLLUPS[2], now)
  }

  function Prune<V>(s: Stack<V>, now: int): Stack<V> {
    Stack(Cut(s.raw, now - 900), Cut(s.m1, now - 86400), Cut(s.h1, now - 604800), Cut(s.d1, now - 31536000))
  }

  function Pass<V>(s: Stack<V>, now: int): Stack<V> {
    Prune(RollupAll(s, now), now)
  }

  /** The coarse tiers are the last-value-per-bucket rollup of `full`, cut to retention. */
  ghost predicate CoarseExact<V>(s: Stack<V>, full: Column<V>, at: int) {
    && s.m1 == Cut(Roll(full, 60), at - 86400)
    && s.h1 == Cut(Roll(full, 3600), at - 604800)
    && s.d1 == Cut(Roll(full, 86400), at - 31536000)
  }

  ghost predicate Exact<V>(s: Stack<V>, full: Column<V>, at: int) {
    s.raw == Cut(full, at - 900) && CoarseExact(s, full, at)
  }

  /** One level of the chain. `was` is what the destination was last rolled from,
      `full` is what the source has ever held. The window may start in the middle
      of a bucket and the source may already be pruned: as long as nothing changed
      below both, the destination comes out as the rollup of everything. */
  lemma {:induction false} RollStep<V>(was: Column<V>, full: Column<V>, src: Column<V>, dst: Column<V>,
                    B: nat, from: int, srcCut: int, dstCut: int, d: int)
    requires B > 0
    requires src == Cut(full, srcCut)
    requires dst == Cut(Roll(was, B), dstCut)
    requires AgreeIn(was, full, 0, d) && was.Keys <= full.Keys
    requires from <= d && srcCut <= d
    requires dstCut + B <= srcCut + 1 || dstCut + B <= from + 1
    ensures dst + Roll(Cut(src, from), B) == Cut(Roll(full, B), dstCut)
  {
    hide Floor, LastIn, Roll;
    forall b: nat
      ensures SameAt(dst + Roll(Cut(src, from), B), Cut(Roll(full, B), dstCut), b)
    {
      RollStepAt(was, full, src, dst, B, from, srcCut, dstCut, d, b);
    }
    SameEverywhere(dst + Roll(Cut(src, from), B), Cut(Roll(full, B), dstCut));
  }

  lemma {:induction false} RollStepAt<V>(was: Column<V>, full: Column<V>, src: Column<V>, dst: Column<V>,
                      B: nat, from: int, srcCut: int, dstCut: int, d: int, b: nat)
    requires B > 0
    requires src == Cut(full, srcCut)
    requires dst == Cut(Roll(was, B), dstCut)
    requires AgreeIn(was, full, 0, d) && was.Keys <= full.Keys
    requires from <= d && srcCut <= d
    requires dstCut + B <= srcCut + 1 || dstCut + B <= from + 1
    ensures SameAt(dst + Roll(Cut(src, from), B), Cut(Roll(full, B), dstCut), b)
  {
    hide Floor, LastIn, Roll;
    var win := Cut(src, from);
    RollAt(win, B, b);
    RollAt(full, B, b);
    RollAt(was, B, b);
    var last := LastIn(full, b, b + B);
    if last.Some? && last.value >= from && last.value >= srcCut {
      LastInIs(win, b, b + B, last.value);
    } else {
      assert LastIn(win, b, b + B).None?;
      assert forall t: nat :: t < d ==> SameAt(was, full, t);
      forall t: nat | b <= t < b + B ensures SameAt(was, full, t) {
        assert t < d || t !in was;
      }
      LastInAgree(was, full, b, b + B);
    }
  }

  /** Columns that agree below d roll up to columns that agree on the buckets closed by d. */
  lemma {:induction false} RollAgree<V>(was: Column<V>, full: Column<V>, B: nat, d: int)
    requires B > 0
    requires AgreeIn(was, full, 0, d) && was.Keys <= full.Keys
    ensures AgreeIn(Roll(was, B), Roll(full, B), 0, d - B + 1)
    ensures Roll(was, B).Keys <= Roll(full, B).Keys
  {
    hide Floor, LastIn, Roll;
    forall b: nat
      ensures b < d - B + 1 ==> SameAt(Roll(was, B), Roll(full, B), b)
      ensures b in Roll(was, B) ==> b in Roll(full, B)
    {
      RollAt(was, B, b);
      RollAt(full, B, b);
      if b < d - B + 1 {
        LastInAgree(was, full, b, b + B);
      }
    }
  }

  // ---- passes that fail in part ------------------------------------------

  /** The statements of one table's part of a pass that failed, by number. */
  datatype Failed = Failed(rollups: set<nat>, prunes: set<nat>)

  const NONE_FAILED := Failed({}, {})

  predicate RollsAll(f: Failed) { 0 !in f.rollups && 1 !in f.rollups && 2 !in f.rollups }

  predicate RollsNone(f: Failed) { 0 in f.rollups && 1 in f.rollups && 2 in f.rollups }

  function PruneTier<V>(s: Stack<V>, t: TierSpec, now: int): Stack<V> {
    s.With(t.tier, Cut(s.At(t.tier), now - t.retain))
  }

  /** The first n statements of the rollup and pruning sequences. */
  function RollupsDone<V>(s: Stack<V>, n: nat, now: int, failed: set<nat>): Stack<V>
    requires n <= 3
  {
    if n == 0 then s
    else
      var before := RollupsDone(s, n - 1, now, failed);
      if n - 1 in failed then before else Rollup(before, ROLLUPS[n - 1], now)
  }

  function PrunesDone<V>(s: Stack<V>, n: nat, now: int, failed: set<nat>): Stack<V>
    requires n <= 4
  {
    if n == 0 then s
    else
      var before := PrunesDone(s, n - 1, now, failed);
      if n - 1 in failed then before else PruneTier(before, TIERS[n - 1], now)
  }

  /** A statement that fails is skipped and the pass goes on. */
  function PassUnder<V>(s: Stack<V>, now: int, f: Failed): Stack<V> {
    PrunesDone(RollupsDone(s, 3, now, f.rollups), 4, now, f.prunes)
  }

  lemma {:induction false} CleanPass<V>(s: Stack<V>, now: int)
    ensures PassUnder(s, now, NONE_FAILED) == Pass(s, now)
  {
    hide RollupAll, RollupsDone, PrunesDone;
    AllRollups(s, now);
    PrunesAre(RollupAll(s, now), now, {});
  }

  lemma {:induction false} AllRollups<V>(s: Stack<V>, now: int)
    ensures RollupsDone(s, 3, now, {}) == RollupAll(s, now)
  {
    hide Rollup;
    RollupsAre(s, now, {});
  }

  function RollupUnless<V>(s: Stack<V>, i: nat, now: int, failed: set<nat>): Stack<V>
    requires i < 3
  {
    if i in failed then s else Rollup(s, ROLLUPS[i], now)
  }

  lemma {:induction false} RollupsAre<V>(s: Stack<V>, now: int, failed: set<nat>)
    ensures RollupsDone(s, 3, now, failed) ==
      RollupUnless(RollupUnless(RollupUnless(s, 0, now, failed), 1, now, failed), 2, now, failed)
  {
    hide Rollup;
    assert RollupsDone(s, 1, now, failed) == RollupUnless(s, 0, now, failed);
  }

  function CutUnless<V>(c: Column<V>, from: int, skip: bool): Column<V> {
    if skip then c else Cut(c, from)
  }

  lemma {:induction false} PrunesAre<V>(s: Stack<V>, now: int, failed: set<nat>)
    ensures PrunesDone(s, 4, now, failed) ==
      Stack(CutUnless(s.raw, now - 900, 0 in failed), CutUnless(s.m1, now - 86400, 1 in failed),
            CutUnless(s.h1, now - 604800, 2 in failed), CutUnless(s.d1, now - 31536000, 3 in failed))
  {
    hide Cut;
    var raw, m1 := CutUnless(s.raw, now - 900, 0 in failed), CutUnless(s.m1, now - 86400, 1 in failed);
    assert PrunesDone(s, 1, now, failed) == s.(raw := raw);
    assert PrunesDone(s, 2, now, failed) == s.(raw := raw, m1 := m1);
    assert PrunesDone(s, 3, now, failed) ==
      s.(raw := raw, m1 := m1, h1 := CutUnless(s.h1, now - 604800, 2 in failed));
  }

  /** Up to where each tier has been pruned, and what each coarser one was last rolled up from. */
  datatype Cuts = Cuts(raw: int, m1: int, h1: int, d1: int)

  datatype Roots<V> = Roots(m1: Column<V>, h1: Column<V>, d1: Column<V>)

  ghost predicate Older<V>(was: Column<V>, full: Column<V>, at: int) {
    AgreeIn(was, full, 0, at) && was.Keys <= full.Keys
  }

  /** Raw holds what was written, each coarser tier the rollup of what had been written when it
      was last rolled up, each cut at its own age; all of it is the same before `at`. */
  ghost predicate Levels<V>(s: Stack<V>, c: Cuts, w: Roots<V>, full: Column<V>, at: int) {
    && s.raw == Cut(full, c.raw)
    && s.m1 == Cut(Roll(w.m1, 60), c.m1)
    && s.h1 == Cut(Roll(w.h1, 3600), c.h1)
    && s.d1 == Cut(Roll(w.d1, 86400), c.d1)
    && Older(w.d1, w.h1, at) && Older(w.h1, w.m1, at) && Older(w.m1, full, at)
  }

  ghost predicate CutBy(c: Cuts, now: int) {
    c.raw <= now - 900 && c.m1 <= now - 86400 && c.h1 <= now - 604800 && c.d1 <= now - 31536000
  }

  function CutsAt(at: int): Cuts { Cuts(at - 900, at - 86400, at - 604800, at - 31536000) }

  function NextCuts(c: Cuts, now: int, failed: set<nat>): Cuts {
    Cuts(if 0 in failed then c.raw else now - 900, if 1 in failed then c.m1 else now - 86400,
         if 2 in failed then c.h1 else now - 604800, if 3 in failed then c.d1 else now - 31536000)
  }

  function NextRoots<V>(w: Roots<V>, full: Column<V>, failed: set<nat>): Roots<V> {
    var m1 := if 0 in failed then w.m1 else full;
    var h1 := if 1 in failed then w.h1 else m1;
    Roots(m1, h1, if 2 in failed then w.d1 else h1)
  }

  lemma {:induction false} OlderTrans<V>(a: Column<V>, b: Column<V>, c: Column<V>, at: int)
    requires Older(a, b, at) && Older(b, c, at)
    ensures Older(a, c, at)
  {
    forall t: nat | t < at ensures SameAt(a, c, t) {
      assert SameAt(a, b, t) && SameAt(b, c, t);
    }
  }

  lemma {:induction false} OlderSelf<V>(a: Column<V>, at: int)
    ensures Older(a, a, at)
  {
  }

  /** One level up from a level that is exact. */
  lemma {:induction false} LevelUp<V>(was: Column<V>, full: Column<V>, src: Column<V>, dst: Column<V>, B0: nat, B: nat,
                                      from: int, srcCut: int, dstCut: int, at: int)
    requires B0 > 0 && B > 0 && B % B0 == 0
    requires src == Cut(Roll(full, B0), srcCut) && dst == Cut(Roll(was, B), dstCut) && Older(was, full, at)
    requires from <= at - B0 + 1 && srcCut <= at - B0 + 1 && dstCut + B <= from + 1
    ensures dst + Roll(Cut(src, from), B) == Cut(Roll(full, B), dstCut)
  {
    hide Roll, Floor, LastIn, AgreeIn, Cut;
    RollAgree(was, full, B0, at);
    RollCompose(was, B0, B);
    RollCompose(full, B0, B);
    RollStep(Roll(was, B0), Roll(full, B0), src, dst, B, from, srcCut, dstCut, at - B0 + 1);
  }

  lemma {:induction false} FirstRollup<V>(s: Stack<V>, c: Cuts, w: Roots<V>, full: Column<V>, at: int, now: int)
    requires Levels(s, c, w, full, at) && CutBy(c, now) && now <= at + 1800 && c.raw <= at
    ensures Levels(Rollup(s, ROLLUPS[0], now), c, w.(m1 := full), full, at)
  {
    hide Roll, AgreeIn, Cut;
    RollStep(w.m1, full, s.raw, s.m1, 60, now - 1800, c.raw, c.m1, at);
    OlderTrans(w.h1, w.m1, full, at);
    OlderSelf(full, at);
  }

  lemma {:induction false} SecondRollup<V>(s: Stack<V>, c: Cuts, w: Roots<V>, full: Column<V>, at: int, now: int)
    requires Levels(s, c, w, full, at) && CutBy(c, now) && now <= at + 1800
    ensures Levels(Rollup(s, ROLLUPS[1], now), c, w.(h1 := w.m1), full, at)
  {
    hide Roll, AgreeIn, Cut;
    LevelUp(w.h1, w.m1, s.m1, s.h1, 60, 3600, now - 10800, c.m1, c.h1, at);
    OlderTrans(w.d1, w.h1, w.m1, at);
    OlderSelf(w.m1, at);
  }

  lemma {:induction false} ThirdRollup<V>(s: Stack<V>, c: Cuts, w: Roots<V>, full: Column<V>, at: int, now: int)
    requires Levels(s, c, w, full, at) && CutBy(c, now) && now <= at + 1800
    ensures Levels(Rollup(s, ROLLUPS[2], now), c, w.(d1 := w.h1), full, at)
  {
    hide Roll, AgreeIn, Cut;
    LevelUp(w.d1, w.h1, s.h1, s.d1, 3600, 86400, now - 180000, c.h1, c.d1, at);
    OlderSelf(w.h1, at);
  }

  lemma {:induction false} RollupsKeepLevels<V>(s: Stack<V>, c: Cuts, w: Roots<V>, full: Column<V>, at: int, now: int,
                                                failed: set<nat>)
    requires Levels(s, c, w, full, at) && CutBy(c, now) && now <= at + 1800 && c.raw <= at
    ensures Levels(RollupsDone(s, 3, now, failed), c, NextRoots(w, full, failed), full, at)
  {
    hide Levels, Rollup, CutBy, RollupsDone;
    RollupsAre(s, now, failed);
    var s1, w1 := RollupUnless(s, 0, now, failed), if 0 in failed then w else w.(m1 := full);
    if 0 !in failed { FirstRollup(s, c, w, full, at, now); }
    var s2, w2 := RollupUnless(s1, 1, now, failed), if 1 in failed then w1 else w1.(h1 := w1.m1);
    if 1 !in failed { SecondRollup(s1, c, w1, full, at, now); }
    if 2 !in failed { ThirdRollup(s2, c, w2, full, at, now); }
  }

  lemma {:induction false} PrunesKeepLevels<V>(s: Stack<V>, c: Cuts, w: Roots<V>, full: Column<V>, at: int, now: int,
                                               failed: set<nat>)
    requires Levels(s, c, w, full, at) && CutBy(c, now)
    ensures Levels(PrunesDone(s, 4, now, failed), NextCuts(c, now, failed), w, full, at)
    ensures CutBy(NextCuts(c, now, failed), now)
  {
    hide Cut, Roll, Older, PrunesDone;
    PrunesAre(s, now, failed);
    CutTwice(full, c.raw, now - 900);
    CutTwice(Roll(w.m1, 60), c.m1, now - 86400);
    CutTwice(Roll(w.h1, 3600), c.h1, now - 604800);
    CutTwice(Roll(w.d1, 86400), c.d1, now - 31536000);
  }

  /** What one pass does to the levels, whichever of its statements fail. Rolling anything up
      asks that everything written since `at` is still in the 1800 s window and not pruned;
      a pass that rolls all of it up brings every tier up to date. */
  lemma {:induction false} PassKeepsLevels<V>(s: Stack<V>, c: Cuts, w: Roots<V>, full: Column<V>, at: int, now: int,
                                              f: Failed)
    requires Levels(s, c, w, full, at) && CutBy(c, now)
    requires RollsNone(f) || (now <= at + 1800 && c.raw <= at)
    ensures Levels(PassUnder(s, now, f), NextCuts(c, now, f.prunes), NextRoots(w, full, f.rollups), full,
                   if RollsAll(f) then now else at)
    ensures CutBy(NextCuts(c, now, f.prunes), now)
  {
    hide Levels, CutBy, RollupsDone, PrunesDone, Rollup, NextCuts;
    if RollsNone(f) {
      RollupsAre(s, now, f.rollups);
    } else {
      RollupsKeepLevels(s, c, w, full, at, now, f.rollups);
    }
    PrunesKeepLevels(RollupsDone(s, 3, now, f.rollups), c, NextRoots(w, full, f.rollups), full, at, now, f.prunes);
    if RollsAll(f) {
      UpToDate(PassUnder(s, now, f), NextCuts(c, now, f.prunes), full, at, now);
    }
  }

  lemma {:induction false} UpToDate<V>(s: Stack<V>, c: Cuts, full: Column<V>, at: int, now: int)
    requires Levels(s, c, Roots(full, full, full), full, at)
    ensures Levels(s, c, Roots(full, full, full), full, now)
  {
    OlderSelf(full, now);
  }

  /** Tier exactness of one pass. The only thing asked of the schedule is that every
      row written since the last pass (at `at`) is still inside the 1800 s raw window. */
  lemma {:induction false} PassIsExact<V>(s: Stack<V>, was: Column<V>, full: Column<V>, at: int, now: int, d: int)
    requires s.raw == Cut(full, at - 900) && CoarseExact(s, was, at)
    requires at <= now
    requires AgreeIn(was, full, 0, d) && was.Keys <= full.Keys
    requires at - 900 <= d && now - 1800 <= d
    ensures Exact(Pass(s, now), full, now)
  {
    hide Roll, AgreeIn, Cut, PassUnder, Pass;
    OlderSelf(was, d);
    PassKeepsLevels(s, CutsAt(at), Roots(was, was, was), full, d, now, NONE_FAILED);
    CleanPass(s, now);
  }

  lemma {:induction false} CutTwice<V>(c: Column<V>, a: int, b: int)
    requires a <= b
    ensures Cut(Cut(c, a), b) == Cut(c, b)
  {
  }

  /** A series of one row, not yet rolled up. */
  function OneRow<V>(ts: nat, v: V): Stack<V> { Stack(map[ts := v], map[], map[], map[]) }

  lemma {:induction false} LatePassLosesRow<V>(ts: nat, v: V, now: int)
    requires now > ts + 1800
    ensures Pass(OneRow(ts, v), now) == Stack(map[], map[], map[], map[])
  {
  }

  /** A newer row with a value of its own changes the rollup in its own bucket and nowhere else. */
  lemma {:induction false} RollChanges<V>(was: Column<V>, ts: nat, v: V, B: nat, from: int)
    requires B > 0 && (forall t :: t in was ==> t < ts) && CumAt(was, ts) != Some(v)
    ensures Cut(Roll(was, B), from) == Cut(Roll(was[ts := v], B), from) <==> Floor(ts, B) < from
  {
    hide Floor, LastIn, Roll;
    var full, b0 := was[ts := v], Floor(ts, B);
    forall b: nat | b != b0 ensures SameAt(Roll(was, B), Roll(full, B), b) {
      RollAt(was, B, b);
      RollAt(full, B, b);
      if Floor(b, B) == b {
        OutsideBucket(ts, B, b);
        forall t: nat | b <= t < b + B ensures SameAt(was, full, t) {
        }
        LastInAgree(was, full, b, b + B);
      }
    }
    FloorIsAligned(ts, B);
    RollAt(full, B, b0);
    LastInIs(full, b0, b0 + B, ts);
    RollAt(was, B, b0);
    var u := LastIn(was, b0, b0 + B);
    if u.Some? { LastInIs(was, 0, ts + 1, u.value); }
    assert b0 in Roll(full, B) && Roll(full, B)[b0] == v && !SameAt(Roll(was, B), Roll(full, B), b0);
    CutsDiffer(Roll(was, B), Roll(full, B), b0, from);
  }

  lemma {:induction false} OutsideBucket(ts: nat, B: nat, b: nat)
    requires B > 0 && Floor(b, B) == b && b != Floor(ts, B)
    ensures !(b <= ts < b + B)
  {
    hide Floor;
    if b <= ts < b + B { FloorUnique(b, ts, B); }
  }

  /** Columns that differ at one place are told apart by exactly the cuts that keep it. */
  lemma {:induction false} CutsDiffer<V>(c: Column<V>, d: Column<V>, at: nat, from: int)
    requires at in d && !SameAt(c, d, at) && forall t: nat :: t != at ==> SameAt(c, d, t)
    ensures Cut(c, from) == Cut(d, from) <==> at < from
  {
    if at < from {
      forall t: nat ensures SameAt(Cut(c, from), Cut(d, from), t) {
        if t != at { assert SameAt(c, d, t); }
      }
      SameEverywhere(Cut(c, from), Cut(d, from));
    } else {
      assert at in Cut(d, from) && Cut(d, from)[at] == d[at];
      if at in c { assert Cut(c, from)[at] == c[at]; } else { assert at !in Cut(c, from); }
    }
  }

  /** A pass reads the raw rows of its window and of the retention, and no others. */
  lemma {:induction false} PassReads<V>(s: Stack<V>, raw: Column<V>, now: int)
    requires Cut(s.raw, now - 1800) == Cut(raw, now - 1800) && Cut(s.raw, now - 900) == Cut(raw, now - 900)
    ensures Pass(s, now) == Pass(s.(raw := raw), now)
  {
    hide Cut, Roll;
  }

  /** Raw rows that have all left the rollup window leave no trace of a pass. */
  lemma {:induction false} LatePassSkips<V>(s: Stack<V>, raw: Column<V>, now: int)
    requires forall t :: t in s.raw || t in raw ==> t < now - 1800
    ensures Pass(s, now) == Pass(s.(raw := raw), now)
  {
    hide Pass;
    assert Cut(s.raw, now - 1800) == map[] == Cut(raw, now - 1800);
    assert Cut(s.raw, now - 900) == map[] == Cut(raw, now - 900);
    PassReads(s, raw, now);
  }

  /** The oldest row time the next pass still sees: its window, or what was pruned already. */
  function Reach(c: Cuts, now: int): int {
    if c.raw > now - 1800 then c.raw else now - 1800
  }

  /** A series with one row not yet rolled up, newer than all that was and with a value that
      moved (which is when one is written): the next pass leaves the tiers exact if and only if
      it still sees the row, unless no tier would retain the row any longer. */
  lemma {:induction false} RowFoundIff<V>(s: Stack<V>, c: Cuts, was: Column<V>, ts: nat, v: V, now: int)
    requires Levels(s, c, Roots(was, was, was), was[ts := v], ts) && CutBy(c, now)
    requires (forall t :: t in was ==> t < ts) && CumAt(was, ts) != Some(v)
    ensures Exact(Pass(s, now), was[ts := v], now) <==> ts >= Reach(c, now) || Floor(ts, 86400) < now - 31536000
  {
    hide Pass, Roll, Floor, LastIn, CumAt, Cut, Older;
    var full := was[ts := v];
    if ts >= Reach(c, now) {
      LevelsMakeExact(s, c, was, full, ts, now);
    } else {
      var rolled := s.(raw := Cut(was, c.raw));
      SkipsRow(s, c, was, ts, v, now);
      ForgetRow(s, c, was, ts, v, Reach(c, now));
      LevelsMakeExact(rolled, c, was, was, Reach(c, now), now);
      RollChanges(was, ts, v, 60, now - 86400);
      RollChanges(was, ts, v, 3600, now - 604800);
      RollChanges(was, ts, v, 86400, now - 31536000);
      CutBefore(was, ts, v, now - 900);
    }
  }

  /** A pass that sees everything not yet rolled up leaves every tier exact. */
  lemma {:induction false} LevelsMakeExact<V>(s: Stack<V>, c: Cuts, was: Column<V>, full: Column<V>, at: int, now: int)
    requires Levels(s, c, Roots(was, was, was), full, at) && CutBy(c, now) && at >= Reach(c, now)
    ensures Exact(Pass(s, now), full, now)
  {
    hide Roll, Cut, Older, PassUnder, Pass;
    PassKeepsLevels(s, c, Roots(was, was, was), full, at, now, NONE_FAILED);
    CleanPass(s, now);
  }

  lemma {:induction false} ForgetRow<V>(s: Stack<V>, c: Cuts, was: Column<V>, ts: nat, v: V, at: int)
    requires Levels(s, c, Roots(was, was, was), was[ts := v], ts)
    ensures Levels(s.(raw := Cut(was, c.raw)), c, Roots(was, was, was), was, at)
  {
    hide Roll, Cut;
    OlderSelf(was, at);
  }

  lemma {:induction false} CutBefore<V>(was: Column<V>, ts: nat, v: V, from: int)
    requires ts < from
    ensures Cut(was[ts := v], from) == Cut(was, from)
  {
  }

  lemma {:induction false} SkipsRow<V>(s: Stack<V>, c: Cuts, was: Column<V>, ts: nat, v: V, now: int)
    requires s.raw == Cut(was[ts := v], c.raw) && ts < Reach(c, now) && CutBy(c, now)
    ensures Pass(s, now) == Pass(s.(raw := Cut(was, c.raw)), now)
  {
    hide Pass;
    var raw := Cut(was, c.raw);
    assert Cut(s.raw, now - 1800) == Cut(raw, now - 1800);
    assert Cut(s.raw, now - 900) == Cut(raw, now - 900);
    PassReads(s, raw, now);
  }

  /** The 1800 s bound is exact for any series with one row written since the last pass: the
      next pass leaves the tiers exact if and only if it comes within 1800 s of the row, unless
      no tier would retain the row any longer. */
  lemma {:induction false} RowSurvivesIff<V>(s: Stack<V>, was: Column<V>, ts: nat, v: V, at: nat, now: int)
    requires s.raw == Cut(was[ts := v], at - 900) && CoarseExact(s, was, at)
    requires (forall t :: t in was ==> t < at) && at <= ts <= now && CumAt(was, ts) != Some(v)
    ensures Exact(Pass(s, now), was[ts := v], now) <==>
      now <= ts + 1800 || Floor(ts, 86400) < now - 31536000
  {
    hide Pass, Roll, Floor, LastIn, CumAt, Cut, Exact, AgreeIn;
    AgreeBefore(was, ts, v);
    RowFoundIff(s, CutsAt(at), was, ts, v, now);
  }

  /** A rollup that fails tightens the bound to 900 s when the raw delete after it succeeds:
      with a pass at p in between that rolls nothing up and prunes raw, the next one leaves the
      tiers exact if and only if p was within 900 s of the row as well. */
  lemma {:induction false} FailedRollupIff<V>(s: Stack<V>, was: Column<V>, ts: nat, v: V, at: nat, p: int, now: int,
                                              f: Failed)
    requires s.raw == Cut(was[ts := v], at - 900) && CoarseExact(s, was, at)
    requires (forall t :: t in was ==> t < at) && at <= ts <= p <= now && CumAt(was, ts) != Some(v)
    requires RollsNone(f) && 0 !in f.prunes
    ensures Exact(Pass(PassUnder(s, p, f), now), was[ts := v], now) <==>
      (p <= ts + 900 && now <= ts + 1800) || Floor(ts, 86400) < now - 31536000
  {
    hide Pass, PassUnder, Roll, Floor, LastIn, CumAt, Cut, Exact, AgreeIn;
    AgreeBefore(was, ts, v);
    PassKeepsLevels(s, CutsAt(at), Roots(was, was, was), was[ts := v], ts, p, f);
    RowFoundIff(PassUnder(s, p, f), NextCuts(CutsAt(at), p, f.prunes), was, ts, v, now);
  }

  lemma {:induction false} AgreeBefore<V>(was: Column<V>, ts: nat, v: V)
    ensures AgreeIn(was, was[ts := v], 0, ts) && AgreeIn(was, was, 0, ts) && was.Keys <= was[ts := v].Keys
  {
  }

  /** The same for a series of one row. */
  lemma {:induction false} OneRowSurvivesIff<V>(ts: nat, v: V, now: int)
    requires ts <= now
    ensures Exact(Pass(OneRow(ts, v), now), map[ts := v], now) <==>
      now <= ts + 1800 || Floor(ts, 86400) < now - 31536000
  {
    hide Pass, Roll, Floor;
    var none: Column<V> := map[];
    NothingRolls<V>(60);
    NothingRolls<V>(3600);
    NothingRolls<V>(86400);
    assert none[ts := v] == map[ts := v];
    RowSurvivesIff(OneRow(ts, v), none, ts, v, ts, now);
  }

  lemma {:induction false} NothingRolls<V>(B: nat)
    requires B > 0
    ensures Roll<V>(map[], B) == map[]
  {
  }

  // ---- a pass at any time -------------------------------------------------

  /** Of everything written, what had been rolled up before or is still seen. */
  function Found<V>(was: Column<V>, full: Column<V>, from: int): Column<V> {
    map t | t in full && (t in was || t >= from) :: if t >= from then full[t] else was[t]
  }

  /** A row written that is not found, or not with its value. */
  predicate Lost<V(==)>(found: Column<V>, full: Column<V>, t: nat) {
    t in full && (t !in found || found[t] != full[t])
  }

  /** Every lost row that is the last of a bucket still retained has the value of the last
      found row of that bucket. */
  ghost predicate MadeUpFor<V>(found: Column<V>, full: Column<V>, B: nat, from: int)
    requires B > 0
  {
    forall t :: Lost(found, full, t) && Floor(t, B) >= from ==> Replaced(found, full, B, t)
  }

  ghost predicate Replaced<V>(found: Column<V>, full: Column<V>, B: nat, t: nat)
    requires B > 0 && t in full
  {
    var b := Floor(t, B);
    LastIn(full, b, b + B) == Some(t) ==>
      LastIn(found, b, b + B).Some? && found[LastIn(found, b, b + B).value] == full[t]
  }

  lemma {:induction false} LevelIff<V>(found: Column<V>, full: Column<V>, B: nat, from: int)
    requires B > 0 && found.Keys <= full.Keys
    ensures Cut(Roll(found, B), from) == Cut(Roll(full, B), from) <==> MadeUpFor(found, full, B, from)
  {
    hide Floor, LastIn, Roll;
    if Cut(Roll(found, B), from) == Cut(Roll(full, B), from) {
      forall t | Lost(found, full, t) && Floor(t, B) >= from ensures Replaced(found, full, B, t) {
        BucketReplaced(found, full, B, from, t);
      }
    }
    if MadeUpFor(found, full, B, from) {
      forall b: nat ensures SameAt(Cut(Roll(found, B), from), Cut(Roll(full, B), from), b) {
        BucketSame(found, full, B, from, b);
      }
      SameEverywhere(Cut(Roll(found, B), from), Cut(Roll(full, B), from));
    }
  }

  lemma {:induction false} BucketReplaced<V>(found: Column<V>, full: Column<V>, B: nat, from: int, t: nat)
    requires B > 0 && t in full && Floor(t, B) >= from
    requires Cut(Roll(found, B), from) == Cut(Roll(full, B), from)
    ensures Replaced(found, full, B, t)
  {
    hide Floor, LastIn, Roll;
    var b := Floor(t, B);
    FloorIsAligned(t, B);
    RollAt(full, B, b);
    RollAt(found, B, b);
    if LastIn(full, b, b + B) == Some(t) {
      assert b in Cut(Roll(full, B), from);
      assert Cut(Roll(full, B), from)[b] == full[t];
      assert b in Cut(Roll(found, B), from) && Cut(Roll(found, B), from)[b] == Roll(found, B)[b];
    }
  }

  lemma {:induction false} BucketSame<V>(found: Column<V>, full: Column<V>, B: nat, from: int, b: nat)
    requires B > 0 && found.Keys <= full.Keys && MadeUpFor(found, full, B, from)
    ensures SameAt(Cut(Roll(found, B), from), Cut(Roll(full, B), from), b)
  {
    hide Floor, LastIn, Roll, MadeUpFor;
    RollAt(full, B, b);
    RollAt(found, B, b);
    var last := LastIn(full, b, b + B);
    if b >= from && Floor(b, B) == b && last.Some? {
      var t := last.value;
      FloorUnique(b, t, B);
      if Lost(found, full, t) {
        assert Replaced(found, full, B, t) by { MadeUpAt(found, full, B, from, t); }
      } else {
        LastInIs(found, b, b + B, t);
      }
    }
  }

  lemma {:induction false} MadeUpAt<V>(found: Column<V>, full: Column<V>, B: nat, from: int, t: nat)
    requires B > 0 && MadeUpFor(found, full, B, from) && Lost(found, full, t) && Floor(t, B) >= from
    ensures Replaced(found, full, B, t)
  {
    hide Replaced;
  }

  /** Passes at any distance, any number of rows written in between: the next pass leaves the
      tiers exact if and only if at each level every lost row that is the last of a retained
      bucket is made up for by a found one. A row is found if it had been rolled up or the pass
      still sees it. */
  lemma {:induction false} PassIsExactIff<V>(s: Stack<V>, c: Cuts, was: Column<V>, full: Column<V>, at: int, now: int)
    requires Levels(s, c, Roots(was, was, was), full, at) && CutBy(c, now)
    ensures var found := Found(was, full, Reach(c, now));
      Exact(Pass(s, now), full, now) <==>
        && MadeUpFor(found, full, 60, now - 86400)
        && MadeUpFor(found, full, 3600, now - 604800)
        && MadeUpFor(found, full, 86400, now - 31536000)
  {
    hide Pass, Roll, Cut, Older, MadeUpFor, Found;
    var found := Found(was, full, Reach(c, now));
    FoundAgrees(was, full, at, Reach(c, now), now);
    OlderSelf(was, Reach(c, now));
    LevelsMakeExact(s.(raw := Cut(found, c.raw)), c, was, found, Reach(c, now), now);
    PassSees(s, c, was, full, now);
    LevelIff(found, full, 60, now - 86400);
    LevelIff(found, full, 3600, now - 604800);
    LevelIff(found, full, 86400, now - 31536000);
  }

  lemma {:induction false} FoundAgrees<V>(was: Column<V>, full: Column<V>, at: int, from: int, now: int)
    requires Older(was, full, at) && from <= now - 900
    ensures var found := Found(was, full, from);
      Older(was, found, from) && found.Keys <= full.Keys && Cut(found, now - 900) == Cut(full, now - 900)
  {
  }

  /** The pass reads the raw rows of its window only. */
  lemma {:induction false} PassSees<V>(s: Stack<V>, c: Cuts, was: Column<V>, full: Column<V>, now: int)
    requires s.raw == Cut(full, c.raw) && CutBy(c, now)
    ensures Pass(s, now) == Pass(s.(raw := Cut(Found(was, full, Reach(c, now)), c.raw)), now)
  {
    hide Pass;
    var raw := Cut(Found(was, full, Reach(c, now)), c.raw);
    assert Cut(s.raw, now - 1800) == Cut(raw, now - 1800);
    assert Cut(s.raw, now - 900) == Cut(raw, now - 900);
    PassReads(s, raw, now);
  }

  // ---- whatever the schedule ----------------------------------------------

  /** Raw holds what was written and each coarser tier the rollup of what it was ever given of
      the level below: rows of raw, minutes of them, hours of those. */
  ghost predicate Given<V>(s: Stack<V>, c: Cuts, r: Roots<V>, full: Column<V>) {
    && s.raw == Cut(full, c.raw)
    && s.m1 == Cut(Roll(r.m1, 60), c.m1)
    && s.h1 == Cut(Roll(r.h1, 3600), c.h1)
    && s.d1 == Cut(Roll(r.d1, 86400), c.d1)
    && r.m1.Keys <= full.Keys && r.h1.Keys <= Roll(r.m1, 60).Keys && r.d1.Keys <= Roll(r.h1, 3600).Keys
  }

  /** What one pass gives each tier: the rows its windows still reach. */
  function NextGiven<V>(r: Roots<V>, full: Column<V>, reach: int, now: int, failed: set<nat>): Roots<V> {
    var m1 := if 0 in failed then r.m1 else Found(r.m1, full, reach);
    var h1 := if 1 in failed then r.h1 else Found(r.h1, Roll(m1, 60), now - 10800);
    Roots(m1, h1, if 2 in failed then r.d1 else Found(r.d1, Roll(h1, 3600), now - 180000))
  }

  /** One level for any schedule: the destination becomes the rollup of what was found. */
  lemma {:induction false} FoundStep<V>(was: Column<V>, full: Column<V>, src: Column<V>, dst: Column<V>, B: nat,
                                        from: int, srcCut: int, dstCut: int)
    requires B > 0 && src == Cut(full, srcCut) && dst == Cut(Roll(was, B), dstCut) && was.Keys <= full.Keys
    requires dstCut + B <= from + 1
    ensures var found := Found(was, full, if srcCut > from then srcCut else from);
      && dst + Roll(Cut(src, from), B) == Cut(Roll(found, B), dstCut)
      && was.Keys <= found.Keys <= full.Keys
  {
    hide Roll, Floor, LastIn;
    var d := if srcCut > from then srcCut else from;
    var found := Found(was, full, d);
    var win := Cut(found, d);
    assert win == Cut(src, from) == Cut(win, from);
    assert forall t: nat :: t < d ==> SameAt(was, found, t);
    RollStep(was, found, win, dst, B, from, d, dstCut, d);
  }

  /** More rows fill more buckets. */
  lemma {:induction false} RollKeys<V>(a: Column<V>, b: Column<V>, B: nat)
    requires B > 0 && a.Keys <= b.Keys
    ensures Roll(a, B).Keys <= Roll(b, B).Keys
  {
    hide Roll, Floor, LastIn;
    RollAgree(a, b, B, 0);
  }

  lemma {:induction false} FirstGiven<V>(s: Stack<V>, c: Cuts, r: Roots<V>, full: Column<V>, now: int)
    requires Given(s, c, r, full) && CutBy(c, now)
    ensures Given(Rollup(s, ROLLUPS[0], now), c, r.(m1 := Found(r.m1, full, Reach(c, now))), full)
  {
    hide Roll, Cut, Found;
    FoundStep(r.m1, full, s.raw, s.m1, 60, now - 1800, c.raw, c.m1);
    RollKeys(r.m1, Found(r.m1, full, Reach(c, now)), 60);
  }

  lemma {:induction false} SecondGiven<V>(s: Stack<V>, c: Cuts, r: Roots<V>, full: Column<V>, now: int)
    requires Given(s, c, r, full) && CutBy(c, now)
    ensures Given(Rollup(s, ROLLUPS[1], now), c, r.(h1 := Found(r.h1, Roll(r.m1, 60), now - 10800)), full)
  {
    hide Roll, Cut, Found;
    FoundStep(r.h1, Roll(r.m1, 60), s.m1, s.h1, 3600, now - 10800, c.m1, c.h1);
    RollKeys(r.h1, Found(r.h1, Roll(r.m1, 60), now - 10800), 3600);
  }

  lemma {:induction false} ThirdGiven<V>(s: Stack<V>, c: Cuts, r: Roots<V>, full: Column<V>, now: int)
    requires Given(s, c, r, full) && CutBy(c, now)
    ensures Given(Rollup(s, ROLLUPS[2], now), c, r.(d1 := Found(r.d1, Roll(r.h1, 3600), now - 180000)), full)
  {
    hide Roll, Cut, Found;
    FoundStep(r.d1, Roll(r.h1, 3600), s.h1, s.d1, 86400, now - 180000, c.h1, c.d1);
  }

  lemma {:induction false} RollupsKeepGiven<V>(s: Stack<V>, c: Cuts, r: Roots<V>, full: Column<V>, now: int,
                                               failed: set<nat>)
    requires Given(s, c, r, full) && CutBy(c, now)
    ensures Given(RollupsDone(s, 3, now, failed), c, NextGiven(r, full, Reach(c, now), now, failed), full)
  {
    hide Given, Rollup, CutBy, RollupsDone, Found, Roll;
    RollupsAre(s, now, failed);
    var s1 := RollupUnless(s, 0, now, failed);
    var r1 := if 0 in failed then r else r.(m1 := Found(r.m1, full, Reach(c, now)));
    if 0 !in failed { FirstGiven(s, c, r, full, now); }
    var s2 := RollupUnless(s1, 1, now, failed);
    var r2 := if 1 in failed then r1 else r1.(h1 := Found(r1.h1, Roll(r1.m1, 60), now - 10800));
    if 1 !in failed { SecondGiven(s1, c, r1, full, now); }
    if 2 !in failed { ThirdGiven(s2, c, r2, full, now); }
  }

  /** What one pass does to the tiers, at any time and whichever of its statements fail. */
  lemma {:induction false} PassKeepsGiven<V>(s: Stack<V>, c: Cuts, r: Roots<V>, full: Column<V>, now: int, f: Failed)
    requires Given(s, c, r, full) && CutBy(c, now)
    ensures Given(PassUnder(s, now, f), NextCuts(c, now, f.prunes), NextGiven(r, full, Reach(c, now), now, f.rollups),
                  full)
    ensures CutBy(NextCuts(c, now, f.prunes), now)
  {
    hide CutBy, RollupsDone, PrunesDone, Rollup, NextGiven, Cut, Roll;
    RollupsKeepGiven(s, c, r, full, now, f.rollups);
    var s', r' := RollupsDone(s, 3, now, f.rollups), NextGiven(r, full, Reach(c, now), now, f.rollups);
    PrunesAre(s', now, f.prunes);
    CutsStay(c, now, f.prunes);
    CutTwice(full, c.raw, now - 900);
    CutTwice(Roll(r'.m1, 60), c.m1, now - 86400);
    CutTwice(Roll(r'.h1, 3600), c.h1, now - 604800);
    CutTwice(Roll(r'.d1, 86400), c.d1, now - 31536000);
  }

  lemma {:induction false} CutsStay(c: Cuts, now: int, failed: set<nat>)
    requires CutBy(c, now)
    ensures CutBy(NextCuts(c, now, failed), now)
    ensures c.raw <= now - 900 && c.m1 <= now - 86400 && c.h1 <= now - 604800 && c.d1 <= now - 31536000
  {
  }

  /** The tiers are exact if and only if at each level everything it was never given is made
      up for. */
  lemma {:induction false} GivenIsExactIff<V>(s: Stack<V>, r: Roots<V>, full: Column<V>, at: int)
    requires Given(s, CutsAt(at), r, full)
    ensures Exact(s, full, at) <==>
      && MadeUpFor(r.m1, full, 60, at - 86400)
      && MadeUpFor(r.h1, Roll(full, 60), 3600, at - 604800)
      && MadeUpFor(r.d1, Roll(full, 3600), 86400, at - 31536000)
  {
    hide Roll, Cut, MadeUpFor;
    RollKeys(r.m1, full, 60);
    RollCompose(full, 60, 3600);
    RollCompose(full, 3600, 86400);
    RollKeys(r.h1, Roll(full, 60), 3600);
    LevelIff(r.m1, full, 60, at - 86400);
    LevelIff(r.h1, Roll(full, 60), 3600, at - 604800);
    LevelIff(r.d1, Roll(full, 3600), 86400, at - 31536000);
  }
}
