/**
 The history store: its tables, the in-memory dedup cache and refresh throttle, and
 the steps that change them. `State` and the step functions are the specification;
 the class holds the same state in fields and is proved to take those steps.
 */
module HistoryStore {
  import opened Series
  import opened Tiers
  import opened Gauges

  /** One torrent of a poll, as the sampler sees it. */
  datatype Reading = Reading(hash: string, counter: Counter)

  datatype SeenRow = SeenRow(firstSeen: int, lastSeen: int)

  /** Where the database refused something during one Sample: rows that were not
      inserted, first sightings and refreshes that were not recorded, a statement
      that could not be prepared, an anchor that was not stored, a failed commit. */
  datatype Faults = Faults(writes: set<string>, seeds: set<string>, refreshes: set<string>,
                           prepareFails: bool, anchorFails: bool, commitFails: bool)

  const SEEN_GRACE := 300
  const REFRESH_EVERY := 60
  const GLOBAL := ""

  const NO_ROWS: Stack<Counter> := Stack(map[], map[], map[], map[])
  const NO_GAUGES: Stack<int> := Stack(map[], map[], map[], map[])

  datatype State = State(
    samples: map<string, Stack<Counter>>,
    metrics: map<string, Stack<int>>,
    seen: map<string, SeenRow>,
    lastPoll: int,                    // the stored GC anchor, 0 when there is none
    last: map<string, Counter>,       // dedup cache
    lastSeen: int)                    // refresh throttle

  const EMPTY := State(map[], map[], map[], 0, map[], 0)

  function RowsOf(samples: map<string, Stack<Counter>>, h: string): Stack<Counter> {
    if h in samples then samples[h] else NO_ROWS
  }

  function GaugesOf(metrics: map<string, Stack<int>>, m: string): Stack<int> {
    if m in metrics then metrics[m] else NO_GAUGES
  }

  // ---- Sample -------------------------------------------------------------

  /** The rows one Sample inserts, with what it remembers about them. */
  datatype Writes = Writes(samples: map<string, Stack<Counter>>, pending: map<string, Counter>)

  function WriteRow(w: Writes, last: map<string, Counter>, r: Reading, ts: nat, f: Faults): Writes {
    if r.hash in last && last[r.hash] == r.counter then w
    else if r.hash in f.writes then w
    else
      var rows := RowsOf(w.samples, r.hash);
      Writes(w.samples[r.hash := rows.(raw := rows.raw[ts := r.counter])], w.pending[r.hash := r.counter])
  }

  function Add(a: Counter, b: Counter): Counter { Counter(a.down + b.down, a.up + b.up) }

  function Total(rs: seq<Reading>): Counter {
    if rs == [] then Counter(0, 0) else Add(Total(rs[..|rs| - 1]), rs[|rs| - 1].counter)
  }

  function SumOf(xs: seq<int>): int {
    if xs == [] then 0 else SumOf(xs[..|xs| - 1]) + xs[|xs| - 1]
  }

  function Downs(rs: seq<Reading>): (r: seq<int>)
    ensures |r| == |rs| && forall i :: 0 <= i < |rs| ==> r[i] == rs[i].counter.down
  {
    seq(|rs|, i requires 0 <= i < |rs| => rs[i].counter.down)
  }

  function Ups(rs: seq<Reading>): (r: seq<int>)
    ensures |r| == |rs| && forall i :: 0 <= i < |rs| ==> r[i] == rs[i].counter.up
  {
    seq(|rs|, i requires 0 <= i < |rs| => rs[i].counter.up)
  }

  /** The global counter is the sum of the torrents', in either direction. */
  lemma {:induction false} TotalIs(rs: seq<Reading>)
    ensures Total(rs) == Counter(SumOf(Downs(rs)), SumOf(Ups(rs)))
  {
    hide Downs, Ups, SumOf;
    LastOfSums(rs);
    if rs != [] {
      TotalIs(rs[..|rs| - 1]);
    }
  }

  lemma {:induction false} LastOfSums(rs: seq<Reading>)
    ensures rs == [] ==> SumOf(Downs(rs)) == 0 == SumOf(Ups(rs))
    ensures rs != [] ==>
      var before, c := rs[..|rs| - 1], rs[|rs| - 1].counter;
      SumOf(Downs(rs)) == SumOf(Downs(before)) + c.down && SumOf(Ups(rs)) == SumOf(Ups(before)) + c.up
  {
    if rs != [] {
      var before := rs[..|rs| - 1];
      assert Downs(rs)[..|rs| - 1] == Downs(before) && Ups(rs)[..|rs| - 1] == Ups(before);
    }
  }

  function WriteTorrents(s: State, rs: seq<Reading>, ts: nat, f: Faults): Writes {
    if rs == [] then Writes(s.samples, map[])
    else WriteRow(WriteTorrents(s, rs[..|rs| - 1], ts, f), s.last, rs[|rs| - 1], ts, f)
  }

  /** Every torrent, then the global series as their sum. */
  function WriteAll(s: State, rs: seq<Reading>, ts: nat, f: Faults): Writes {
    WriteRow(WriteTorrents(s, rs, ts, f), s.last, Reading(GLOBAL, Total(rs)), ts, f)
  }

  /** First sightings: insert-or-ignore. */
  function SeedAll(seen: map<string, SeenRow>, rs: seq<Reading>, ts: nat, f: Faults): map<string, SeenRow> {
    if rs == [] then seen
    else
      var before, h := SeedAll(seen, rs[..|rs| - 1], ts, f), rs[|rs| - 1].hash;
      if h in before || h in f.seeds then before else before[h := SeenRow(ts, ts)]
  }

  function Refreshed(row: SeenRow, ts: nat): SeenRow {
    SeenRow(if row.firstSeen == 0 then ts else row.firstSeen, ts)
  }

  /** Refresh updates only rows that exist. */
  function RefreshAll(seen: map<string, SeenRow>, rs: seq<Reading>, ts: nat, f: Faults): map<string, SeenRow> {
    if rs == [] then seen
    else
      var before, h := RefreshAll(seen, rs[..|rs| - 1], ts, f), rs[|rs| - 1].hash;
      if h in f.refreshes || h !in before then before else before[h := Refreshed(before[h], ts)]
  }

  predicate AnyRefreshFails(rs: seq<Reading>, f: Faults) {
    exists i :: 0 <= i < |rs| && rs[i].hash in f.refreshes
  }

  predicate RefreshDue(s: State, ts: nat) { ts - s.lastSeen >= REFRESH_EVERY }

  /** The round counts as completed only if every one of its writes succeeded. */
  predicate RoundCompletes(s: State, rs: seq<Reading>, ts: nat, f: Faults) {
    RefreshDue(s, ts) && !f.prepareFails && !AnyRefreshFails(rs, f) && !f.anchorFails && !f.commitFails
  }

  function SampleStep(s: State, rs: seq<Reading>, ts: nat, f: Faults): State {
    if f.commitFails then s
    else
      var w := WriteAll(s, rs, ts, f);
      var seeded := SeedAll(s.seen, rs, ts, f);
      var done := RoundCompletes(s, rs, ts, f);
      State(w.samples, s.metrics,
            if RefreshDue(s, ts) && !f.prepareFails then RefreshAll(seeded, rs, ts, f) else seeded,
            if done then ts else s.lastPoll,
            s.last + w.pending,
            if done then ts else s.lastSeen)
  }

  function Gauged(rows: Stack<int>, ts: nat, v: int): Stack<int> {
    rows.(raw := rows.raw[ts := v])
  }

  function GaugeRows(metrics: map<string, Stack<int>>, m: map<string, int>, done: set<string>, ts: nat)
    : map<string, Stack<int>>
    requires done <= m.Keys
  {
    map k | k in metrics.Keys + done :: if k in done then Gauged(GaugesOf(metrics, k), ts, m[k]) else metrics[k]
  }

  lemma {:induction false} NextGauge(metrics: map<string, Stack<int>>, m: map<string, int>, done: set<string>,
                                     k: string, ts: nat)
    requires done <= m.Keys && k in m && k !in done
    ensures var tx := GaugeRows(metrics, m, done, ts);
      GaugeRows(metrics, m, done + {k}, ts) == tx[k := Gauged(GaugesOf(tx, k), ts, m[k])]
  {
    hide Gauged;
  }

  lemma {:induction false} NoGauges(metrics: map<string, Stack<int>>, m: map<string, int>, ts: nat)
    ensures GaugeRows(metrics, m, {}, ts) == metrics
  {
  }

  function SampleGaugesStep(s: State, m: map<string, int>, ts: nat, commitFails: bool): State {
    if commitFails then s else s.(metrics := GaugeRows(s.metrics, m, m.Keys, ts))
  }

  // ---- maintain -----------------------------------------------------------

  /** What the database refused during one pass: statements of either table's part, the read
      of the stored anchor, stale hashes that were not listed, and the two deletes of the
      purge. Every error is ignored and the pass goes on. */
  datatype PassFaults = PassFaults(samples: Failed, metrics: Failed, anchorFails: bool, unlisted: set<string>,
                                   rowsFail: bool, seenFails: bool)

  const NO_FAULTS := PassFaults(NONE_FAILED, NONE_FAILED, false, {}, false, false)

  /** The GC anchor: the last committed refresh round, never later than the clock. */
  function Anchor(s: State, now: int): int {
    if s.lastPoll > now then now else s.lastPoll
  }

  /** The hashes whose seen row is older than the grace before the anchor. */
  function Stale(s: State, now: int): set<string> {
    if Anchor(s, now) > 0 then set h | h in s.seen && s.seen[h].lastSeen < Anchor(s, now) - SEEN_GRACE else {}
  }

  function RollAndPrune(s: State, now: int, pf: PassFaults): State {
    s.(samples := map h | h in s.samples :: PassUnder(s.samples[h], now, pf.samples),
       metrics := map m | m in s.metrics :: GaugePassUnder(s.metrics[m], now, pf.metrics))
  }

  /** The hashes a pass finds stale; it finds none when the anchor cannot be read. */
  function Doomed(s: State, now: int, pf: PassFaults): set<string> {
    if pf.anchorFails then {} else Stale(s, now)
  }

  /** What each of its three deletes takes; the global series always stays. */
  function RowsGone(s: State, now: int, pf: PassFaults): set<string> {
    if pf.rowsFail then {} else Doomed(s, now, pf) - {GLOBAL}
  }

  function SeenGone(s: State, now: int, pf: PassFaults): set<string> {
    if pf.seenFails then {} else Doomed(s, now, pf)
  }

  function CacheGone(s: State, now: int, pf: PassFaults): set<string> {
    Doomed(s, now, pf) - pf.unlisted
  }

  /** Drop what is known about the stale hashes. */
  function Purge(s: State, now: int, pf: PassFaults): State {
    s.(samples := s.samples - RowsGone(s, now, pf), seen := s.seen - SeenGone(s, now, pf),
       last := s.last - CacheGone(s, now, pf))
  }

  function MaintainStep(s: State, now: int, pf: PassFaults): State {
    Purge(RollAndPrune(s, now, pf), now, pf)
  }

  /** The purge goes by the tables as they were when the pass began. */
  lemma {:induction false} SameDoomed(s: State, now: int, pf: PassFaults)
    ensures var r := RollAndPrune(s, now, pf);
      && MaintainStep(s, now, pf) == r.(samples := r.samples - RowsGone(s, now, pf),
                                        seen := s.seen - SeenGone(s, now, pf), last := s.last - CacheGone(s, now, pf))
      && r.samples.Keys == s.samples.Keys
  {
    hide PassUnder, GaugePassUnder;
    assert Stale(RollAndPrune(s, now, pf), now) == Stale(s, now);
  }

  /** A restart keeps the tables and forgets what was only in memory. */
  function RestartStep(s: State): State {
    s.(last := map[], lastSeen := 0)
  }

  // ---- the class ----------------------------------------------------------

  class Store {
    var samples: map<string, Stack<Counter>>
    var metrics: map<string, Stack<int>>
    var seen: map<string, SeenRow>
    var lastPoll: int
    var last: map<string, Counter>
    var lastSeen: int

    ghost function View(): State
      reads this
    {
      State(samples, metrics, seen, lastPoll, last, lastSeen)
    }

    /** Opens the tables of `db`; nothing that was only in memory survives. */
    constructor (db: State)
      ensures View() == RestartStep(db)
    {
      samples, metrics, seen, lastPoll := db.samples, db.metrics, db.seen, db.lastPoll;
      last, lastSeen := map[], 0;
    }

    /** One poll. Work happens on the transaction's copies; the tables, the dedup
        cache and the throttle move only when the commit succeeds. */
    method Sample(rs: seq<Reading>, ts: nat, f: Faults)
      modifies this
      ensures View() == SampleStep(old(View()), rs, ts, f)
    {
      var txSamples, pending := InsertRows(rs, ts, f);
      var txSeen := SeedSeen(rs, ts, f);
      var refreshed := false;
      if ts - lastSeen >= REFRESH_EVERY {
        txSeen, refreshed := RefreshSeen(txSeen, rs, ts, f);
        if refreshed && f.anchorFails {
          refreshed := false;
        }
      }
      if f.commitFails {
        return;
      }
      samples, seen := txSamples, txSeen;
      last := last + pending;
      if refreshed {
        lastPoll, lastSeen := ts, ts;
      }
    }

    /** The per-torrent rows and the global row as their running sum. */
    method InsertRows(rs: seq<Reading>, ts: nat, f: Faults)
      returns (tx: map<string, Stack<Counter>>, pending: map<string, Counter>)
      ensures Writes(tx, pending) == WriteAll(View(), rs, ts, f)
    {
      tx, pending := samples, map[];
      var sum := Counter(0, 0);
      for i := 0 to |rs|
        invariant Writes(tx, pending) == WriteTorrents(View(), rs[..i], ts, f)
        invariant sum == Total(rs[..i])
      {
        assert rs[..i + 1][..i] == rs[..i];
        sum := Add(sum, rs[i].counter);
        tx, pending := Write(tx, pending, rs[i], ts, f);
      }
      assert rs[..|rs|] == rs;
      tx, pending := Write(tx, pending, Reading(GLOBAL, sum), ts, f);
    }

    method SeedSeen(rs: seq<Reading>, ts: nat, f: Faults) returns (tx: map<string, SeenRow>)
      ensures tx == SeedAll(seen, rs, ts, f)
    {
      tx := seen;
      for i := 0 to |rs|
        invariant tx == SeedAll(seen, rs[..i], ts, f)
      {
        assert rs[..i + 1][..i] == rs[..i];
        if rs[i].hash !in tx && rs[i].hash !in f.seeds {
          tx := tx[rs[i].hash := SeenRow(ts, ts)];
        }
      }
      assert rs[..|rs|] == rs;
    }

    method RefreshSeen(seeded: map<string, SeenRow>, rs: seq<Reading>, ts: nat, f: Faults)
      returns (tx: map<string, SeenRow>, complete: bool)
      ensures tx == if f.prepareFails then seeded else RefreshAll(seeded, rs, ts, f)
      ensures complete == (!f.prepareFails && !AnyRefreshFails(rs, f))
    {
      tx, complete := seeded, true;
      if f.prepareFails {
        return tx, false;
      }
      for i := 0 to |rs|
        invariant tx == RefreshAll(seeded, rs[..i], ts, f)
        invariant complete == forall k :: 0 <= k < i ==> rs[k].hash !in f.refreshes
      {
        assert rs[..i + 1][..i] == rs[..i];
        if rs[i].hash in f.refreshes {
          complete := false;
        } else if rs[i].hash in tx {
          tx := tx[rs[i].hash := Refreshed(tx[rs[i].hash], ts)];
        }
      }
      assert rs[..|rs|] == rs;
    }

    /** Skip an unchanged counter; remember a row only if its insert succeeded. */
    method Write(txSamples: map<string, Stack<Counter>>, pending: map<string, Counter>, r: Reading, ts: nat, f: Faults)
      returns (txSamples': map<string, Stack<Counter>>, pending': map<string, Counter>)
      ensures Writes(txSamples', pending') == WriteRow(Writes(txSamples, pending), last, r, ts, f)
    {
      txSamples', pending' := txSamples, pending;
      if r.hash in last && last[r.hash] == r.counter {
        return;
      }
      if r.hash !in f.writes {
        var rows := RowsOf(txSamples, r.hash);
        txSamples' := txSamples[r.hash := rows.(raw := rows.raw[ts := r.counter])];
        pending' := pending[r.hash := r.counter];
      }
    }

    method SampleGauges(m: map<string, int>, ts: nat, commitFails: bool)
      modifies this
      ensures View() == SampleGaugesStep(old(View()), m, ts, commitFails)
    {
      hide Gauged, GaugeRows;
      var tx := metrics;
      var todo := m.Keys;
      assert m.Keys - todo == {};
      NoGauges(metrics, m, ts);
      while todo != {}
        invariant todo <= m.Keys && View() == old(View())
        invariant tx == GaugeRows(metrics, m, m.Keys - todo, ts)
      {
        var k :| k in todo;
        tx := tx[k := Gauged(GaugesOf(tx, k), ts, m[k])];
        NextGauge(metrics, m, m.Keys - todo, k, ts);
        assert m.Keys - (todo - {k}) == m.Keys - todo + {k};
        todo := todo - {k};
      }
      assert m.Keys - todo == m.Keys;
      if !commitFails {
        metrics := tx;
      }
    }

    /** One maintenance pass: rollups and pruning of both tables, then the GC. */
    method Maintain(now: int, pf: PassFaults)
      modifies this
      ensures View() == MaintainStep(old(View()), now, pf)
    {
      hide PassUnder, GaugePassUnder, Purge;
      samples := RollAndPruneSamples(now, pf.samples);
      metrics := RollAndPruneMetrics(now, pf.metrics);
      PurgeStale(now, pf);
    }

    method PurgeStale(now: int, pf: PassFaults)
      modifies this
      ensures View() == Purge(old(View()), now, pf)
    {
      hide Doomed;
      var stale := FindStale(now, pf);
      if !pf.rowsFail {
        samples := samples - (stale - {GLOBAL});
      }
      if !pf.seenFails {
        seen := seen - stale;
      }
      last := last - (stale - pf.unlisted);
    }

    /** Without a stored anchor nothing is stale. */
    method FindStale(now: int, pf: PassFaults) returns (stale: set<string>)
      ensures stale == Doomed(View(), now, pf)
    {
      stale := {};
      var anchor := if pf.anchorFails then 0 else if lastPoll > now then now else lastPoll;
      if anchor > 0 {
        var cut := anchor - SEEN_GRACE;
        stale := set h | h in seen && seen[h].lastSeen < cut;
      }
    }

    method RollAndPruneSamples(now: int, f: Failed) returns (t: map<string, Stack<Counter>>)
      ensures t == map h | h in samples :: PassUnder(samples[h], now, f)
    {
      hide Rollup, PruneTier;
      t := samples;
      for i := 0 to |ROLLUPS|
        invariant t == map h | h in samples :: RollupsDone(samples[h], i, now, f.rollups)
      {
        if i !in f.rollups {
          t := map h | h in t :: Rollup(t[h], ROLLUPS[i], now);
        }
      }
      for i := 0 to |TIERS|
        invariant t == map h | h in samples :: PrunesDone(RollupsDone(samples[h], 3, now, f.rollups), i, now, f.prunes)
      {
        if i !in f.prunes {
          t := map h | h in t :: PruneTier(t[h], TIERS[i], now);
        }
      }
    }

    method RollAndPruneMetrics(now: int, f: Failed) returns (t: map<string, Stack<int>>)
      ensures t == map m | m in metrics :: GaugePassUnder(metrics[m], now, f)
    {
      hide GaugeRollup, PruneTier;
      t := metrics;
      for i := 0 to |GAUGE_ROLLUPS|
        invariant t == map m | m in metrics :: GaugeRollupsDone(metrics[m], i, now, f.rollups)
      {
        if i !in f.rollups {
          t := map m | m in t :: GaugeRollup(t[m], GAUGE_ROLLUPS[i], now);
        }
      }
      for i := 0 to |TIERS|
        invariant t == map m | m in metrics ::
                    PrunesDone(GaugeRollupsDone(metrics[m], 3, now, f.rollups), i, now, f.prunes)
      {
        if i !in f.prunes {
          t := map m | m in t :: PruneTier(t[m], TIERS[i], now);
        }
      }
    }
  }
}
