/**
 The rebuild of the global series in every tier of the store: what it leaves, that it
 can be repeated, and that on an unpruned history it reads like the live series.
 */
module RebuildStore {
  import opened Options
  import opened Series
  import opened Tiers
  import opened HistoryStore
  import opened HistoryRuns
  import opened HistoryGc
  import opened HistoryDedup
  import opened Rebuild

  type Samples = map<string, Stack<Counter>>

  /** The per-torrent columns of one tier. */
  function TorrentColumns(samples: Samples, t: Tier): Columns {
    map h | h in samples && h != GLOBAL :: samples[h].At(t)
  }

  function CaughtUp(samples: Samples, now: int): Samples {
    map h | h in samples :: RollupAll(samples[h], now)
  }

  ghost function GlobalStack(samples: Samples): Stack<Counter> {
    Stack(GlobalOf(TorrentColumns(samples, Raw)), GlobalOf(TorrentColumns(samples, M1)),
          GlobalOf(TorrentColumns(samples, H1)), GlobalOf(TorrentColumns(samples, D1)))
  }

  ghost function Rebuilt(samples: Samples, now: int): Samples {
    var caught := CaughtUp(samples, now);
    caught[GLOBAL := GlobalStack(caught)]
  }

  function RowsIn(cols: Columns): set<Row> {
    set h, t | h in cols && t in cols[h] :: Row(h, t, cols[h][t])
  }

  lemma {:induction false} Earliest(rows: set<Row>) returns (r: Row)
    requires rows != {}
    ensures r in rows && forall q :: q in rows ==> r.ts <= q.ts
  {
    r :| r in rows;
    if rows != {r} {
      var q := Earliest(rows - {r});
      if q.ts < r.ts {
        r := q;
      }
    }
  }

  /** The ordered scan of one tier's per-torrent rows. */
  method ScanTier(cols: Columns) returns (rows: seq<Row>)
    ensures Scans(rows, cols)
  {
    hide RowsIn, Scans;
    rows := [];
    var todo := RowsIn(cols);
    while todo != {}
      invariant todo <= RowsIn(cols)
      invariant forall r :: r in RowsIn(cols) <==> r in todo || r in rows
      invariant forall i :: 0 <= i < |rows| ==> rows[i] !in todo
      invariant forall i, r :: 0 <= i < |rows| && r in todo ==> rows[i].ts <= r.ts
      invariant forall i, j :: 0 <= i < j < |rows| ==> rows[i].ts <= rows[j].ts && rows[i] != rows[j]
      decreases todo
    {
      ghost var e := Earliest(todo);
      var r :| r in todo && forall q :: q in todo ==> r.ts <= q.ts;
      rows := rows + [r];
      todo := todo - {r};
    }
    ListedAll(rows, cols);
  }

  lemma {:induction false} ListedAll(rows: seq<Row>, cols: Columns)
    requires forall r :: r in RowsIn(cols) <==> r in rows
    requires forall i, j :: 0 <= i < j < |rows| ==> rows[i].ts <= rows[j].ts && rows[i] != rows[j]
    ensures Scans(rows, cols)
  {
    forall i | 0 <= i < |rows| ensures IsRow(rows[i], cols) {
      assert rows[i] in RowsIn(cols);
    }
    forall h, t | h in cols && t in cols[h] ensures Listed(rows, h, t) {
      assert Row(h, t, cols[h][t]) in RowsIn(cols);
    }
    forall i, j | 0 <= i < j < |rows| ensures rows[i].hash != rows[j].hash || rows[i].ts != rows[j].ts {
      assert IsRow(rows[i], cols) && IsRow(rows[j], cols);
    }
  }

  ghost function StampsOf(emits: seq<Emit>): set<nat> {
    set e | e in emits :: e.ts
  }

  /** Insert the emitted rows. */
  method InsertEmits(emits: seq<Emit>, ghost cols: Columns) returns (col: Column<Counter>)
    requires Emitted(emits, cols)
    ensures col == GlobalOf(cols) && |col| == |emits|
  {
    hide TotalAt, TimesOf, Emitted, StampsOf;
    AllStamps(emits, cols);
    col := map[];
    for i := 0 to |emits|
      invariant |col| == i && col.Keys == StampsOf(emits[..i])
      invariant forall t :: t in col ==> col[t] == TotalAt(cols, t)
    {
      NextStamp(emits, cols, i);
      col := col[emits[i].ts := emits[i].total];
    }
  }

  lemma {:induction false} NextStamp(emits: seq<Emit>, cols: Columns, i: nat)
    requires Emitted(emits, cols) && i < |emits|
    ensures StampsOf(emits[..i + 1]) == StampsOf(emits[..i]) + {emits[i].ts} && emits[i].ts !in StampsOf(emits[..i])
    ensures emits[i].total == TotalAt(cols, emits[i].ts)
  {
    hide TotalAt, TimesOf;
    assert emits[..i + 1] == emits[..i] + [emits[i]];
  }

  lemma {:induction false} AllStamps(emits: seq<Emit>, cols: Columns)
    requires Emitted(emits, cols)
    ensures StampsOf(emits[..|emits|]) == TimesOf(cols) && StampsOf(emits[..0]) == {}
  {
    hide TotalAt, TimesOf;
  }

  method RebuildGlobal(s: Store, now: int, fails: bool) returns (written: nat)
    modifies s
    ensures fails ==> s.View() == old(s.View()) && written == 0
    ensures !fails ==> s.View() == old(s.View()).(samples := Rebuilt(old(s.samples), now))
    ensures !fails ==> var g := s.samples[GLOBAL]; written == |g.raw| + |g.m1| + |g.h1| + |g.d1|
  {
    hide RollupAll, GlobalOf, Scans, Emitted, TorrentColumns;
    var tx := CatchUp(s.samples, now);
    ghost var caught := tx;
    written := 0;
    var g := NO_ROWS;
    for i := 0 to |TIERS|
      invariant tx == caught && unchanged(s)
      invariant i > 0 ==> g.raw == GlobalOf(TorrentColumns(caught, Raw))
      invariant i > 1 ==> g.m1 == GlobalOf(TorrentColumns(caught, M1))
      invariant i > 2 ==> g.h1 == GlobalOf(TorrentColumns(caught, H1))
      invariant i > 3 ==> g.d1 == GlobalOf(TorrentColumns(caught, D1))
      invariant written == (if i > 0 then |g.raw| else 0) + (if i > 1 then |g.m1| else 0) +
                           (if i > 2 then |g.h1| else 0) + (if i > 3 then |g.d1| else 0)
    {
      var cols := TorrentColumns(tx, TIERS[i].tier);
      var rows := ScanTier(cols);
      var emits := RebuildTier(rows, cols);
      var col := InsertEmits(emits, cols);
      g := g.With(TIERS[i].tier, col);
      written := written + |emits|;
    }
    if fails {
      return 0;
    }
    s.samples := tx[GLOBAL := g];
  }

  method CatchUp(samples: Samples, now: int) returns (tx: Samples)
    ensures tx == CaughtUp(samples, now)
  {
    hide Rollup;
    tx := samples;
    for i := 0 to |ROLLUPS|
      invariant tx == map h | h in samples :: RollupsDone(samples[h], i, now, {})
    {
      tx := map h | h in tx :: Rollup(tx[h], ROLLUPS[i], now);
    }
    forall h | h in samples ensures tx[h] == RollupAll(samples[h], now) {
      AllRollups(samples[h], now);
    }
  }

  /** Each row of each rebuilt tier is, in either direction, the sum of what the torrents' rows
      of that tier read at its time. */
  lemma {:induction false} RebuiltRowsAreSums(samples: Samples, now: int, t: Tier, x: nat, order: seq<Reading>)
    requires var cols := TorrentColumns(CaughtUp(samples, now), t);
      x in TimesOf(cols) && Enumerates(order, ReadingsAt(cols, x))
    ensures var col := Rebuilt(samples, now)[GLOBAL].At(t);
      x in col && col[x] == Counter(SumOf(Downs(order)), SumOf(Ups(order)))
  {
    hide SumMap, Enumerates, ReadingsAt, TorrentColumns, CaughtUp, Downs, Ups, SumOf;
    SumOfListed(order, ReadingsAt(TorrentColumns(CaughtUp(samples, now), t), x));
  }

  // ---- repeating it -------------------------------------------------------

  /** A later, shorter window finds nothing new to roll up. */
  lemma {:induction false} RollAgain<V>(src: Column<V>, dst: Column<V>, B: nat, from: int, later: int)
    requires B > 0 && from <= later
    ensures var once := dst + Roll(Cut(src, from), B);
      once + Roll(Cut(src, later), B) == once
  {
    hide Floor, LastIn, Roll;
    var once := dst + Roll(Cut(src, from), B);
    forall b: nat ensures SameAt(once + Roll(Cut(src, later), B), once, b) {
      RollAt(Cut(src, from), B, b);
      RollAt(Cut(src, later), B, b);
      var last := LastIn(Cut(src, later), b, b + B);
      if last.Some? {
        forall u | last.value < u < b + B ensures u !in Cut(src, from) {
          assert u !in Cut(src, later);
        }
        LastInIs(Cut(src, from), b, b + B, last.value);
      }
    }
    SameEverywhere(once + Roll(Cut(src, later), B), once);
  }

  lemma {:induction false} RollupTwice<V>(s: Stack<V>, now: int, later: int)
    requires now <= later
    ensures RollupAll(RollupAll(s, now), later) == RollupAll(s, now)
  {
    hide Roll, Cut;
    var once := RollupAll(s, now);
    RollAgain(s.raw, s.m1, 60, now - 1800, later - 1800);
    RollAgain(once.m1, s.h1, 3600, now - 10800, later - 10800);
    RollAgain(once.h1, s.d1, 86400, now - 180000, later - 180000);
  }

  /** It leaves the torrents' tiers caught up: at that time or later no rollup adds to them. */
  lemma {:induction false} RebuiltIsCaughtUp(samples: Samples, now: int, later: int, h: string)
    requires h in samples && h != GLOBAL && now <= later
    ensures var rows := Rebuilt(samples, now)[h]; RollupAll(rows, later) == rows && rows.raw == samples[h].raw
  {
    hide Roll, Cut;
    RollupTwice(samples[h], now, later);
  }

  /** Running the rebuild again, then or later, changes nothing. */
  lemma {:induction false} RebuildIsIdempotent(samples: Samples, now: int, later: int)
    requires now <= later
    ensures Rebuilt(Rebuilt(samples, now), later) == Rebuilt(samples, now)
  {
    hide RollupAll, GlobalOf, TorrentColumns;
    var once := Rebuilt(samples, now);
    var again, caught := CaughtUp(once, later), CaughtUp(samples, now);
    forall h | h != GLOBAL ensures (h in again <==> h in caught) && (h in again ==> again[h] == caught[h]) {
      if h in samples { RollupTwice(samples[h], now, later); }
    }
    forall t: Tier ensures TorrentColumns(again, t) == TorrentColumns(caught, t) {
      SameColumns(again, caught, t);
    }
  }

  lemma {:induction false} SameColumns(a: Samples, b: Samples, t: Tier)
    requires forall h :: h != GLOBAL ==> (h in a <==> h in b) && (h in a ==> a[h] == b[h])
    ensures TorrentColumns(a, t) == TorrentColumns(b, t)
  {
  }

  // ---- the live series ----------------------------------------------------

  /** The rebuilt column reads the total at every x from its first row on. */
  lemma {:induction false} RebuiltReads(cols: Columns, x: nat)
    requires exists t :: t in TimesOf(cols) && t <= x
    ensures CumAt(GlobalOf(cols), x) == Some(TotalAt(cols, x))
    ensures forall order :: Enumerates(order, ReadingsAt(cols, x)) ==>
      CumAt(GlobalOf(cols), x) == Some(Counter(SumOf(Downs(order)), SumOf(Ups(order))))
  {
    hide TotalAt, SumMap;
    var t0 :| t0 in TimesOf(cols) && t0 <= x;
    var g := GlobalOf(cols);
    assert g.Keys == TimesOf(cols);
    var last := LastIn(g, 0, x + 1).value;
    SameBetween(cols, last, x);
    SameTotal(cols, last, x);
    TotalIsSum(cols, x);
  }

  lemma {:induction false} TotalIsSum(cols: Columns, x: nat)
    ensures forall order :: Enumerates(order, ReadingsAt(cols, x)) ==>
      TotalAt(cols, x) == Counter(SumOf(Downs(order)), SumOf(Ups(order)))
  {
    hide SumMap, Enumerates, ReadingsAt, Downs, Ups, SumOf;
    forall order | Enumerates(order, ReadingsAt(cols, x))
      ensures TotalAt(cols, x) == Counter(SumOf(Downs(order)), SumOf(Ups(order)))
    {
      SumOfListed(order, ReadingsAt(cols, x));
    }
  }

  lemma {:induction false} SameBetween(cols: Columns, last: nat, x: nat)
    requires last <= x && forall t :: last < t <= x ==> t !in TimesOf(cols)
    ensures ReadingsAt(cols, last) == ReadingsAt(cols, x)
  {
    hide CumAt, TimesOf;
    forall h | h in cols ensures CumAt(cols[h], last) == CumAt(cols[h], x) {
      NothingBetween(cols, h, last, x);
    }
  }

  lemma {:induction false} SameTotal(cols: Columns, x: nat, y: nat)
    requires ReadingsAt(cols, x) == ReadingsAt(cols, y)
    ensures TotalAt(cols, x) == TotalAt(cols, y)
  {
  }

  lemma {:induction false} NothingBetween(cols: Columns, h: string, last: nat, x: nat)
    requires h in cols && last <= x
    requires forall t :: last < t <= x ==> t !in TimesOf(cols)
    ensures CumAt(cols[h], last) == CumAt(cols[h], x)
  {
    var c := cols[h];
    assert forall t :: t in c ==> t in TimesOf(cols);
    if LastIn(c, 0, x + 1).Some? {
      LastInIs(c, 0, last + 1, LastIn(c, 0, x + 1).value);
    }
  }

  /** The hashes of the last poll of a run. */
  function LastNames(evs: seq<Event>): set<string> {
    if evs == [] then {}
    else if Latest(evs).Poll? then HashesOf(Latest(evs).rs)
    else LastNames(Before(evs))
  }

  /** The pass finds nothing to purge and no raw row past its retention. */
  ghost predicate PrunesNothing(s: State, now: nat, pf: PassFaults) {
    Doomed(s, now, pf) == {} && forall h, t :: h in s.samples && t in s.samples[h].raw ==> t >= now - 900
  }

  /** No torrent is ever removed, no pass prunes anything and the database refuses nothing. */
  ghost predicate CleanRun(evs: seq<Event>) {
    evs == [] || (
      && CleanRun(Before(evs))
      && match Latest(evs)
         case Poll(_, rs, f) =>
           ProperPoll(rs) && f.writes == {} && !f.commitFails && LastNames(Before(evs)) <= HashesOf(rs)
         case Maintain(now, pf) => PrunesNothing(Run(Before(evs)), now, pf)
         case _ => true)
  }

  lemma {:induction false} CleanIsProper(evs: seq<Event>)
    requires CleanRun(evs)
    ensures ProperPolls(evs) && forall h :: PurgesWhole(evs, h)
  {
    if evs != [] {
      CleanIsProper(Before(evs));
      forall i | 0 <= i < |evs| && evs[i].Poll? ensures ProperPoll(evs[i].rs) {
        if i < |evs| - 1 {
          assert Before(evs)[i] == evs[i];
        }
      }
    }
  }

  /** Nothing pruned: the raw rows are the written ones. */
  lemma {:induction false} RawIsWritten(evs: seq<Event>, h: string)
    requires CleanRun(evs)
    ensures RowsOf(Run(evs).samples, h).raw == ColumnOf(Written(evs), h)
  {
    if evs != [] {
      hide WriteAll, SeedAll, RefreshAll;
      RawIsWritten(Before(evs), h);
      match Latest(evs)
      case Poll(ts, rs, f) => PendingRows(Run(Before(evs)), rs, ts, f, h);
      case Maintain(now, pf) => PassKeepsRaw(Run(Before(evs)), now, pf, h);
      case Gauge(_, _, _) =>
      case Restart(_) =>
    }
  }

  lemma {:induction false} PassKeepsRaw(s: State, now: nat, pf: PassFaults, h: string)
    requires PrunesNothing(s, now, pf)
    ensures RowsOf(MaintainStep(s, now, pf).samples, h).raw == RowsOf(s.samples, h).raw
  {
    hide MaintainStep, Doomed, PassUnder;
    OthersStay(s, now, pf, h);
    YoungStay(RowsOf(s.samples, h), now, pf.samples);
  }

  lemma {:induction false} YoungStay(rows: Stack<Counter>, now: nat, f: Failed)
    requires forall t :: t in rows.raw ==> t >= now - 900
    ensures PassUnder(rows, now, f).raw == rows.raw
  {
    hide RollupsDone, PrunesDone, RollupUnless;
    RollupsAre(rows, now, f.rollups);
    RollupKeepsRaw(rows, 0, now, f.rollups);
    RollupKeepsRaw(RollupUnless(rows, 0, now, f.rollups), 1, now, f.rollups);
    RollupKeepsRaw(RollupUnless(RollupUnless(rows, 0, now, f.rollups), 1, now, f.rollups), 2, now, f.rollups);
    PrunesAre(RollupsDone(rows, 3, now, f.rollups), now, f.prunes);
    assert Cut(rows.raw, now - 900) == rows.raw;
  }

  lemma {:induction false} RollupKeepsRaw(rows: Stack<Counter>, i: nat, now: nat, failed: set<nat>)
    requires i < 3
    ensures RollupUnless(rows, i, now, failed).raw == rows.raw
  {
    hide Roll;
  }

  lemma {:induction false} SumOfPoll(rs: seq<Reading>)
    requires ProperPoll(rs)
    ensures SumMap(Readings(rs)) == Total(rs)
  {
    if rs != [] {
      var before, r := rs[..|rs| - 1], rs[|rs| - 1];
      SumOfPoll(before);
      ReadingKeys(before);
      assert r.hash !in HashesOf(before);
      SumUpdate(Readings(before), r.hash, r.counter);
    }
  }

  /** What the per-torrent series of a ledger read at x. */
  function TorrentsAt(l: Ledger<Counter>, x: nat): map<string, Counter> {
    map h | h in l && h != GLOBAL && CumAt(l[h], x).Some? :: CumAt(l[h], x).value
  }

  ghost predicate LiveOk(o: Ledger<Counter>, names: set<string>, clock: nat, x: nat) {
    && o.Keys <= names + {GLOBAL}
    && (forall h, t :: h in o && t in o[h] ==> t <= clock)
    && (CumAt(ColumnOf(o, GLOBAL), x) == None ==> TorrentsAt(o, x) == map[])
    && (CumAt(ColumnOf(o, GLOBAL), x).Some? ==> CumAt(ColumnOf(o, GLOBAL), x).value == SumMap(TorrentsAt(o, x)))
  }

  /** The live global series reads the sum of the torrents at every x. */
  lemma {:induction false} LiveInvariant(t0: nat, evs: seq<Event>, x: nat)
    requires Timely(t0, evs) && CleanRun(evs)
    ensures LiveOk(Offered(evs), LastNames(evs), Clock(t0, evs), x)
  {
    hide LiveOk, Run, SumMap, Total;
    if evs == [] {
      NothingLive(t0, x);
    } else {
      LiveInvariant(t0, Before(evs), x);
      match Latest(evs)
      case Poll(ts, rs, f) =>
        var o := Offered(Before(evs));
        assert Offers(Run(Before(evs)).last, AllReadings(rs), f) == AllReadings(rs);
        PollIsLive(o, LastNames(Before(evs)), Clock(t0, Before(evs)), rs, ts, x);
      case Maintain(now, pf) =>
        assert Doomed(Run(Before(evs)), now, pf) == {} && Offered(evs) == Offered(Before(evs));
        LaterIsLive(Offered(evs), LastNames(evs), Clock(t0, Before(evs)), now, x);
      case Gauge(ts, _, _) => LaterIsLive(Offered(evs), LastNames(evs), Clock(t0, Before(evs)), ts, x);
      case Restart(ts) => LaterIsLive(Offered(evs), LastNames(evs), Clock(t0, Before(evs)), ts, x);
    }
  }

  lemma {:induction false} NothingLive(clock: nat, x: nat)
    ensures LiveOk(map[], {}, clock, x)
  {
  }

  lemma {:induction false} LaterIsLive(o: Ledger<Counter>, names: set<string>, clock: nat, later: nat, x: nat)
    requires LiveOk(o, names, clock, x) && clock <= later
    ensures LiveOk(o, names, later, x)
  {
  }

  lemma {:induction false} PollIsLive(o: Ledger<Counter>, names: set<string>, clock: nat, rs: seq<Reading>, ts: nat,
                                      x: nat)
    requires LiveOk(o, names, clock, x) && clock <= ts
    requires ProperPoll(rs) && names <= HashesOf(rs)
    ensures LiveOk(Record(o, AllReadings(rs), ts), HashesOf(rs), ts, x)
  {
    hide SumMap, Total, LastIn, CumAt, Readings, Record, TorrentsAt, HashesOf;
    var next := Record(o, AllReadings(rs), ts);
    RecordKeys(o, names, rs, ts);
    forall h | h in next
      ensures h in AllReadings(rs)
      ensures CumAt(next[h], x) == if ts <= x then Some(AllReadings(rs)[h]) else CumAt(ColumnOf(o, h), x)
      ensures forall t :: t in next[h] ==> t <= ts
    {
      RecordReads(o, names, clock, rs, ts, x, h);
    }
    if ts <= x {
      SumOfPoll(rs);
      TorrentsOfPoll(next, rs, x);
    } else {
      TorrentsBefore(next, o, x);
    }
  }

  lemma {:induction false} RecordKeys(o: Ledger<Counter>, names: set<string>, rs: seq<Reading>, ts: nat)
    requires o.Keys <= names + {GLOBAL} && names <= HashesOf(rs)
    ensures Record(o, AllReadings(rs), ts).Keys == AllReadings(rs).Keys == HashesOf(rs) + {GLOBAL}
  {
    hide Readings, Total, HashesOf;
    ReadingKeys(rs);
  }

  lemma {:induction false} RecordReads(o: Ledger<Counter>, names: set<string>, clock: nat, rs: seq<Reading>, ts: nat,
                                       x: nat, h: string)
    requires o.Keys <= names + {GLOBAL} && names <= HashesOf(rs)
    requires forall h, t :: h in o && t in o[h] ==> t <= clock
    requires clock <= ts && h in Record(o, AllReadings(rs), ts)
    ensures h in AllReadings(rs)
    ensures var c := Record(o, AllReadings(rs), ts)[h];
      && CumAt(c, x) == (if ts <= x then Some(AllReadings(rs)[h]) else CumAt(ColumnOf(o, h), x))
      && forall t :: t in c ==> t <= ts
  {
    hide Readings, Total, HashesOf, CumAt, LastIn;
    RecordKeys(o, names, rs, ts);
    assert forall t :: t in ColumnOf(o, h) ==> t <= ts;
    CumAtWrite(ColumnOf(o, h), ts, AllReadings(rs)[h], x);
  }

  lemma {:induction false} TorrentsOfPoll(next: Ledger<Counter>, rs: seq<Reading>, x: nat)
    requires ProperPoll(rs) && next.Keys == HashesOf(rs) + {GLOBAL}
    requires forall h :: h in next ==> h in AllReadings(rs) && CumAt(next[h], x) == Some(AllReadings(rs)[h])
    ensures TorrentsAt(next, x) == Readings(rs)
  {
    hide CumAt, Total;
    ReadingKeys(rs);
    assert GLOBAL !in HashesOf(rs);
  }

  lemma {:induction false} TorrentsBefore(next: Ledger<Counter>, o: Ledger<Counter>, x: nat)
    requires o.Keys <= next.Keys
    requires forall h :: h in next ==> CumAt(next[h], x) == CumAt(ColumnOf(o, h), x)
    ensures TorrentsAt(next, x) == TorrentsAt(o, x)
  {
    hide CumAt;
    NoRows(x);
  }

  lemma {:induction false} NoRows(x: nat)
    ensures CumAt<Counter>(map[], x) == None
  {
  }

  /** With no removals and no pruning, the rebuilt raw series reads like the live one
      from the first per-torrent row on. */
  lemma {:induction false} RebuildMatchesLive(t0: nat, evs: seq<Event>, x: nat)
    requires Timely(t0, evs) && CleanRun(evs)
    requires exists t :: t in TimesOf(TorrentColumns(Run(evs).samples, Raw)) && t <= x
    ensures CumAt(GlobalOf(TorrentColumns(Run(evs).samples, Raw)), x) == CumAt(RowsOf(Run(evs).samples, GLOBAL).raw, x)
  {
    hide Run, Written, Offered, Rebuild.SumMap, LastIn, GlobalOf, CleanRun, Timely;
    var cols, o := TorrentColumns(Run(evs).samples, Raw), Offered(evs);
    RebuiltReads(cols, x);
    LiveInvariant(t0, evs, x);
    CleanIsProper(evs);
    forall h ensures CumAt(ColumnOf(o, h), x) == CumAt(RowsOf(Run(evs).samples, h).raw, x) {
      RawIsWritten(evs, h);
      DedupIsInvisible(t0, evs, h, x);
    }
    SameReadings(Run(evs).samples, o, x);
    var t :| t in TimesOf(cols) && t <= x;
    var h :| h in cols && t in cols[h];
    assert CumAt(cols[h], x).Some?;
    assert h in TorrentsAt(o, x);
  }

  lemma {:induction false} SameReadings(samples: Samples, o: Ledger<Counter>, x: nat)
    requires forall h :: CumAt(ColumnOf(o, h), x) == CumAt(RowsOf(samples, h).raw, x)
    ensures ReadingsAt(TorrentColumns(samples, Raw), x) == TorrentsAt(o, x)
  {
    hide CumAt;
    NoRows(x);
    var a, b := ReadingsAt(TorrentColumns(samples, Raw), x), TorrentsAt(o, x);
    forall h
      ensures h in a <==> h in b
      ensures h in a ==> a[h] == b[h]
    {
      assert CumAt(ColumnOf(o, h), x) == CumAt(RowsOf(samples, h).raw, x);
    }
  }
}
