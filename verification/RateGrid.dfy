/**
 Query time: cumulative rows become a uniform grid of rates. A cursor that only moves
 forward stands in for "the last value at or before x" at every slot.
 */
module RateGrid {
  import opened Options
  import opened Series
  import opened Tiers

  datatype Point = Point(ts: int, down: int, up: int)

  datatype Window = Window(start: int, end: int, step: int, points: seq<Point>)

  const MAX_RATE := 17179869184 // 16 GiB/s

  predicate Ascending(rows: seq<Point>) {
    forall i, j :: 0 <= i < j < |rows| ==> rows[i].ts < rows[j].ts
  }

  /** The last row at or before x; before the first row, the first row; (0, 0) without rows. */
  function ReadAt(rows: seq<Point>, x: int): Counter {
    if rows == [] then Counter(0, 0)
    else
      var p := rows[|rows| - 1];
      if p.ts <= x || |rows| == 1 then Counter(p.down, p.up) else ReadAt(rows[..|rows| - 1], x)
  }

  /** Bytes per second of one slot. A fall is a counter reset, a jump past what a link
      can carry is a re-baseline: neither is traffic. */
  function Rate(delta: int, step: int): int
    requires step > 0
  {
    if delta < 0 || delta > step * MAX_RATE then 0 else delta / step
  }

  function Slot(rows: seq<Point>, g: int, step: int): Point
    requires step > 0
  {
    var before, here := ReadAt(rows, g - step), ReadAt(rows, g);
    Point(g, Rate(here.down - before.down, step), Rate(here.up - before.up, step))
  }

  /** n slots from g on. */
  function Grid(rows: seq<Point>, g: int, step: int, n: nat): (r: seq<Point>)
    requires step > 0
    ensures |r| == n
  {
    if n == 0 then [] else Grid(rows, g, step, n - 1) + [Slot(rows, g + (n - 1) * step, step)]
  }

  /** How many slots the window has. */
  function Slots(start: int, end: int, step: int): nat {
    if step <= 0 || end < start then 0 else (end - start) / step + 1
  }

  lemma {:induction false} GridAt(rows: seq<Point>, g: int, step: int, n: nat, k: nat)
    requires step > 0 && k < n
    ensures Grid(rows, g, step, n)[k] == Slot(rows, g + k * step, step)
  {
    if k < n - 1 {
      GridAt(rows, g, step, n - 1, k);
    }
  }

  /** A position with everything up to x behind it and nothing else reads x. */
  lemma {:induction false} CursorReads(rows: seq<Point>, j: nat, x: int)
    requires Ascending(rows) && j <= |rows|
    requires j > 0 ==> rows[j - 1].ts <= x
    requires j < |rows| ==> x < rows[j].ts
    ensures rows != [] ==>
      ReadAt(rows, x) == var p := rows[if j == 0 then 0 else j - 1]; Counter(p.down, p.up)
  {
    if rows != [] && j < |rows| && |rows| > 1 {
      CursorReads(rows[..|rows| - 1], j, x);
    }
  }

  /** What a reading is: the last row at or before x, the first row when all are later, and zero
      of nothing. */
  lemma {:induction false} ReadAtMeans(rows: seq<Point>, x: int)
    requires Ascending(rows)
    ensures rows == [] ==> ReadAt(rows, x) == Counter(0, 0)
    ensures forall i :: 0 <= i < |rows| && (i == 0 || rows[i].ts <= x) && (i + 1 < |rows| ==> x < rows[i + 1].ts) ==>
      ReadAt(rows, x) == Counter(rows[i].down, rows[i].up)
  {
    forall i | 0 <= i < |rows| && (i == 0 || rows[i].ts <= x) && (i + 1 < |rows| ==> x < rows[i + 1].ts)
      ensures ReadAt(rows, x) == Counter(rows[i].down, rows[i].up)
    {
      CursorReads(rows, if rows[i].ts <= x then i + 1 else 0, x);
    }
  }

  /** The rate of a change over one step: none where the counter fell or rose by more than
      16 GiB a second, else the quotient. */
  ghost predicate IsRate(rate: int, delta: int, step: int) {
    if delta < 0 || delta > step * 17179869184 then rate == 0 else step * rate <= delta < step * rate + step
  }

  /** A point holds the rates of both directions over the step that ends at its time. */
  ghost predicate IsPoint(p: Point, rows: seq<Point>, step: int) {
    var before, here := ReadAt(rows, p.ts - step), ReadAt(rows, p.ts);
    IsRate(p.down, here.down - before.down, step) && IsRate(p.up, here.up - before.up, step)
  }

  /** A point at start and one every step from there to the end. */
  ghost predicate IsGrid(points: seq<Point>, rows: seq<Point>, start: int, end: int, step: int) {
    && (if step <= 0 || end < start then points == [] else |points| == (end - start) / step + 1)
    && (forall k :: 0 <= k < |points| ==> points[k].ts == start + k * step && IsPoint(points[k], rows, step))
  }

  lemma {:induction false} RateIs(delta: int, step: int)
    requires step > 0
    ensures IsRate(Rate(delta, step), delta, step)
  {
    if delta >= 0 {
      var p := Division(delta, step);
      Commutes(p, step);
    }
  }

  lemma {:induction false} Commutes(p: int, step: int)
    ensures p * step == step * p
  {
  }

  lemma {:induction false} SlotIs(rows: seq<Point>, g: int, step: int)
    requires step > 0
    ensures Slot(rows, g, step).ts == g && IsPoint(Slot(rows, g, step), rows, step)
  {
    hide Rate, IsRate, ReadAt;
    var before, here := ReadAt(rows, g - step), ReadAt(rows, g);
    RateIs(here.down - before.down, step);
    RateIs(here.up - before.up, step);
  }

  lemma {:induction false} GridIs(rows: seq<Point>, start: int, end: int, step: int)
    requires step > 0
    ensures IsGrid(Grid(rows, start, step, Slots(start, end, step)), rows, start, end, step)
  {
    hide Grid, Slot, IsPoint;
    var points := Grid(rows, start, step, Slots(start, end, step));
    forall k | 0 <= k < |points| ensures points[k].ts == start + k * step && IsPoint(points[k], rows, step) {
      GridAt(rows, start, step, |points|, k);
      SlotIs(rows, start + k * step, step);
    }
  }

  /** The cursor closure: move past every row at or before x, then read behind it. */
  method Advance(rows: seq<Point>, j: nat, x: int) returns (j': nat, c: Counter)
    requires Ascending(rows) && j <= |rows|
    requires j > 0 ==> rows[j - 1].ts <= x
    ensures j <= j' <= |rows|
    ensures j' > 0 ==> rows[j' - 1].ts <= x
    ensures c == ReadAt(rows, x)
  {
    j' := j;
    while j' < |rows| && rows[j'].ts <= x
      invariant j <= j' <= |rows|
      invariant j' > 0 ==> rows[j' - 1].ts <= x
    {
      j' := j' + 1;
    }
    CursorReads(rows, j', x);
    if j' == 0 {
      if |rows| == 0 {
        return j', Counter(0, 0);
      }
      return j', Counter(rows[0].down, rows[0].up);
    }
    c := Counter(rows[j' - 1].down, rows[j' - 1].up);
  }

  lemma {:induction false} SlotsAre(start: int, end: int, step: int, n: nat)
    requires step > 0 && start <= end && n > 0
    requires start + (n - 1) * step <= end < start + n * step
    ensures Slots(start, end, step) == n
  {
    QuotientIs(end - start, step, n - 1);
  }

  lemma {:induction false} QuotientIs(x: nat, step: nat, q: nat)
    requires step > 0 && q * step <= x < q * step + step
    ensures x / step == q
  {
    var p := Division(x, step);
    MulStep(p, q, step);
    MulStep(q, p, step);
  }

  lemma {:induction false} MulStep(p: nat, q: nat, step: nat)
    ensures p < q ==> p * step + step <= q * step
    decreases q
  {
    if p < q {
      MulStep(p, q - 1, step);
      assert (q - 1) * step + step == q * step;
    }
  }

  lemma {:induction false} Division(x: nat, step: nat) returns (p: nat)
    requires step > 0
    ensures p == x / step && p * step <= x < p * step + step
  {
    p := x / step;
  }

  lemma {:induction false} NextSlot(rows: seq<Point>, start: int, step: int, n: nat, g: int)
    requires step > 0 && g == start + n * step
    ensures g + step == start + (n + 1) * step
    ensures Grid(rows, start, step, n + 1) == Grid(rows, start, step, n) + [Slot(rows, g, step)]
    ensures 0 / step == 0
  {
  }

  /** The moving-cursor loop. */
  method ResampleGrid(rows: seq<Point>, start: int, end: int, step: int) returns (out: seq<Point>)
    requires Ascending(rows)
    ensures step <= 0 || end < start ==> out == []
    ensures step > 0 && start <= end ==>
      out == Grid(rows, start, step, Slots(start, end, step))
    ensures IsGrid(out, rows, start, end, step)
  {
    hide ReadAt, Slots, Ascending, IsPoint;
    if step <= 0 || end < start {
      return [];
    }
    GridIs(rows, start, end, step);
    out := [];
    var j, before := Advance(rows, 0, start - step);
    var maxDelta := step * MAX_RATE;
    var g := start;
    while g <= end
      invariant j <= |rows| && (j > 0 ==> rows[j - 1].ts <= g - step)
      invariant g == start + |out| * step && g - step <= end
      invariant before == ReadAt(rows, g - step)
      invariant out == Grid(rows, start, step, |out|)
      decreases end - g
    {
      var here;
      j, here := Advance(rows, j, g);
      var dd, du := here.down - before.down, here.up - before.up;
      if dd < 0 || dd > maxDelta {
        dd := 0;
      }
      if du < 0 || du > maxDelta {
        du := 0;
      }
      NextSlot(rows, start, step, |out|, g);
      out := out + [Point(g, dd / step, du / step)];
      before := here;
      g := g + step;
    }
    assert (|out| - 1) * step == |out| * step - step;
    SlotsAre(start, end, step, |out|);
  }

  // ---- fetching -----------------------------------------------------------

  /** The last row at or before x, or the first row when there is none. */
  function FetchIndex(rows: seq<Point>, x: int): (p: nat)
    ensures p <= |rows| && (rows != [] ==> p < |rows|)
    ensures p > 0 ==> rows[p].ts <= x
  {
    if |rows| <= 1 then 0
    else if rows[|rows| - 1].ts <= x then |rows| - 1
    else FetchIndex(rows[..|rows| - 1], x)
  }

  lemma {:induction false} FetchIndexIs(rows: seq<Point>, x: int, p: nat)
    requires Ascending(rows) && p < |rows|
    requires p > 0 ==> rows[p].ts <= x
    requires p + 1 < |rows| ==> x < rows[p + 1].ts
    ensures FetchIndex(rows, x) == p
  {
    if |rows| > 1 && p < |rows| - 1 {
      FetchIndexIs(rows[..|rows| - 1], x, p);
    }
  }

  /** The rows at or after the last one not later than start - step; every row, when
      there is none, since timestamps are not negative. */
  method FetchSamples(rows: seq<Point>, start: int, step: int) returns (out: seq<Point>)
    requires Ascending(rows)
    requires forall i :: 0 <= i < |rows| ==> 0 <= rows[i].ts
    ensures out == rows[FetchIndex(rows, start - step)..] && Ascending(out)
  {
    hide FetchIndex;
    var from := 0;
    ghost var n := 0;
    for i := 0 to |rows|
      invariant n <= i && (forall k :: n <= k < i ==> start - step < rows[k].ts)
      invariant if n == 0 then from == 0 else from == rows[n - 1].ts && from <= start - step
    {
      if rows[i].ts <= start - step {
        from := rows[i].ts;
        n := i + 1;
      }
    }
    var p := 0;
    ghost var q := if n == 0 then 0 else n - 1;
    while p < |rows| && rows[p].ts < from
      invariant p <= q
    {
      p := p + 1;
    }
    assert p == q;
    out := rows[p..];
    if rows != [] {
      FetchIndexIs(rows, start - step, q);
    }
  }

  /** Rows older than the predecessor of x are never read at or after x. */
  lemma {:induction false} SuffixReads(rows: seq<Point>, p: nat, x: int)
    requires Ascending(rows) && p < |rows|
    requires p > 0 ==> rows[p].ts <= x
    ensures ReadAt(rows[p..], x) == ReadAt(rows, x)
  {
    var tail := rows[p..];
    if |tail| > 1 && rows[|rows| - 1].ts > x {
      assert tail[..|tail| - 1] == rows[..|rows| - 1][p..];
      SuffixReads(rows[..|rows| - 1], p, x);
    }
  }

  /** Fetching from the predecessor on gives the grid of the whole tier. */
  lemma {:induction false} FetchKeepsGrid(rows: seq<Point>, p: nat, start: int, step: int, n: nat)
    requires step > 0 && Ascending(rows) && p <= |rows|
    requires p > 0 ==> p < |rows| && rows[p].ts <= start - step
    ensures Grid(rows[p..], start, step, n) == Grid(rows, start, step, n)
  {
    if n > 0 {
      hide Slot, ReadAt, Ascending;
      FetchKeepsGrid(rows, p, start, step, n - 1);
      NotBefore(n - 1, step);
      SlotKept(rows, p, start + (n - 1) * step, step);
    }
  }

  lemma {:induction false} NotBefore(k: nat, step: int)
    requires step > 0
    ensures k * step >= 0
  {
  }

  lemma {:induction false} SlotKept(rows: seq<Point>, p: nat, g: int, step: int)
    requires step > 0 && Ascending(rows) && p <= |rows|
    requires p > 0 ==> p < |rows| && rows[p].ts <= g - step
    ensures Slot(rows[p..], g, step) == Slot(rows, g, step)
  {
    hide ReadAt, Ascending;
    if p < |rows| {
      SuffixReads(rows, p, g);
      SuffixReads(rows, p, g - step);
    }
  }

  // ---- conservation -------------------------------------------------------

  function Side(c: Counter, up: bool): int { if up then c.up else c.down }

  function RateOf(p: Point, up: bool): int { if up then p.up else p.down }

  /** The bytes a grid accounts for, in one direction. */
  function Bytes(grid: seq<Point>, step: int, up: bool): int {
    if grid == [] then 0 else Bytes(grid[..|grid| - 1], step, up) + step * RateOf(grid[|grid| - 1], up)
  }

  ghost predicate Nondecreasing(rows: seq<Point>, up: bool) {
    forall i, j :: 0 <= i < j < |rows| ==> RateOf(rows[i], up) <= RateOf(rows[j], up)
  }

  /** No slot of the window implies more than the plausible rate. */
  ghost predicate NoneClamped(rows: seq<Point>, g: int, step: int, n: nat, up: bool) {
    n == 0 || (
      var last := g + (n - 1) * step;
      && NoneClamped(rows, g, step, n - 1, up)
      && Side(ReadAt(rows, last), up) - Side(ReadAt(rows, last - step), up) <= step * MAX_RATE)
  }

  lemma {:induction false} ReadsLastOrEarlier(rows: seq<Point>, x: int, up: bool)
    requires rows != [] && Nondecreasing(rows, up)
    ensures Side(ReadAt(rows, x), up) <= RateOf(rows[|rows| - 1], up)
  {
    if !(rows[|rows| - 1].ts <= x || |rows| == 1) {
      ReadsLastOrEarlier(rows[..|rows| - 1], x, up);
    }
  }

  lemma {:induction false} ReadsMonotone(rows: seq<Point>, x: int, y: int, up: bool)
    requires Nondecreasing(rows, up) && x <= y
    ensures Side(ReadAt(rows, x), up) <= Side(ReadAt(rows, y), up)
  {
    if |rows| > 1 {
      if rows[|rows| - 1].ts <= y {
        ReadsLastOrEarlier(rows, x, up);
      } else {
        ReadsMonotone(rows[..|rows| - 1], x, y, up);
      }
    }
  }

  /** The bytes of the grid miss the growth of the counter by less than one step's
      worth of rounding per slot, and never exceed it. */
  lemma {:induction false} GridConserves(rows: seq<Point>, start: int, step: int, n: nat, up: bool)
    requires step > 0 && Nondecreasing(rows, up) && NoneClamped(rows, start, step, n, up)
    ensures var growth := Side(ReadAt(rows, start + n * step - step), up) - Side(ReadAt(rows, start - step), up);
      var bytes := Bytes(Grid(rows, start, step, n), step, up);
      bytes <= growth <= bytes + n * (step - 1)
  {
    if n > 0 {
      hide ReadAt, Rate, Grid, Bytes, Nondecreasing, Side, RateOf, SlotBytes;
      var k := n - 1;
      var g := start + k * step;
      Products(k, step);
      GridConserves(rows, start, step, k, up);
      NextBytes(rows, start, step, k, g, up);
      ReadsMonotone(rows, g - step, g, up);
      SlotRounding(rows, g, step, up);
      Accumulates(Bytes(Grid(rows, start, step, k), step, up),
                  Side(ReadAt(rows, g - step), up) - Side(ReadAt(rows, start - step), up), k, step,
                  SlotBytes(rows, g, step, up), Side(ReadAt(rows, g), up) - Side(ReadAt(rows, g - step), up));
    }
  }

  lemma {:induction false} Accumulates(bytes: int, growth: int, k: nat, step: int, more: int, delta: int)
    requires bytes <= growth <= bytes + k * (step - 1) && 0 <= delta - more <= step - 1
    ensures bytes + more <= growth + delta <= bytes + more + (k + 1) * (step - 1)
  {
    Products(k, step);
  }

  lemma {:induction false} Products(k: nat, step: int)
    ensures (k + 1) * step == k * step + step
    ensures (k + 1) * (step - 1) == k * (step - 1) + (step - 1)
  {
  }

  /** What one slot adds to the bytes. */
  function SlotBytes(rows: seq<Point>, g: int, step: int, up: bool): int
    requires step > 0
  {
    step * RateOf(Slot(rows, g, step), up)
  }

  lemma {:induction false} NextBytes(rows: seq<Point>, start: int, step: int, n: nat, g: int, up: bool)
    requires step > 0 && g == start + n * step
    ensures Bytes(Grid(rows, start, step, n + 1), step, up) ==
      Bytes(Grid(rows, start, step, n), step, up) + SlotBytes(rows, g, step, up)
  {
    hide Slot, RateOf;
    var grid := Grid(rows, start, step, n + 1);
    assert grid[..n] == Grid(rows, start, step, n) && grid[n] == Slot(rows, g, step);
  }

  lemma {:induction false} SlotRounding(rows: seq<Point>, g: int, step: int, up: bool)
    requires step > 0
    requires 0 <= Side(ReadAt(rows, g), up) - Side(ReadAt(rows, g - step), up) <= step * MAX_RATE
    ensures var delta := Side(ReadAt(rows, g), up) - Side(ReadAt(rows, g - step), up);
      0 <= delta - SlotBytes(rows, g, step, up) <= step - 1
  {
    hide ReadAt;
    RateRounding(Side(ReadAt(rows, g), up) - Side(ReadAt(rows, g - step), up), step);
  }

  lemma {:induction false} RateRounding(delta: int, step: int)
    requires step > 0 && 0 <= delta <= step * MAX_RATE
    ensures 0 <= delta - step * Rate(delta, step) <= step - 1
  {
  }

  // ---- queries ------------------------------------------------------------

  function PickTier(range: int): nat {
    if range <= 900 then 0 else if range <= 86400 then 1 else if range <= 604800 then 2 else 3
  }

  /** Rows a fetch would return from a tier. */
  function Fetched(rows: seq<Point>, start: int, step: int): nat {
    |rows| - FetchIndex(rows, start - step)
  }

  /** The fetch holds two rows: one of several is later than the start of the first slot. */
  ghost predicate Covers(rows: seq<Point>, start: int, step: int) {
    |rows| >= 2 && rows[|rows| - 1].ts > start - step
  }

  lemma {:induction false} CoversIff(rows: seq<Point>, start: int, step: int)
    ensures Fetched(rows, start, step) >= 2 <==> Covers(rows, start, step)
  {
  }

  /** The coarsest tier from i down that covers the window, or raw. */
  ghost predicate Answers(tiers: seq<seq<Point>>, i: nat, j: nat, start: int, step: int)
    requires i < |tiers|
  {
    && j <= i && (j == 0 || Covers(tiers[j], start, step))
    && forall k :: j < k <= i ==> !Covers(tiers[k], start, step)
  }

  lemma {:induction false} ChosenAnswers(tiers: seq<seq<Point>>, i: nat, start: int, step: int)
    requires i < |tiers|
    ensures Answers(tiers, i, Chosen(tiers, i, start, step), start, step)
  {
    hide Covers, Fetched;
    CoversIff(tiers[i], start, step);
    if i > 0 && !Covers(tiers[i], start, step) {
      ChosenAnswers(tiers, i - 1, start, step);
    }
  }

  /** The finest tier that retains the whole range, or the coarsest. */
  lemma {:induction false} PickTierIs(range: int)
    ensures PickTier(range) < 4
    ensures PickTier(range) < 3 ==> range <= TIERS[PickTier(range)].retain
    ensures forall i :: 0 <= i < PickTier(range) ==> TIERS[i].retain < range
  {
  }

  /** From the tier suited to the range, fall back to a finer one while fewer than two
      rows cover the window; raw is taken whatever it holds. */
  function Chosen(tiers: seq<seq<Point>>, i: nat, start: int, step: int): (r: nat)
    requires i < |tiers|
    ensures r <= i
  {
    if i == 0 || Fetched(tiers[i], start, step) >= 2 then i else Chosen(tiers, i - 1, start, step)
  }

  /** The rate query: the window follows from the range and the first sighting, its step
      from the range alone, and its points are the grid of one whole tier. */
  method Query(tiers: seq<seq<Point>>, now: int, rangeSecs: int, isGlobal: bool, firstTs: int) returns (w: Window)
    requires |tiers| == 4
    requires forall i :: 0 <= i < 4 ==> Ascending(tiers[i]) && forall k :: 0 <= k < |tiers[i]| ==> 0 <= tiers[i][k].ts
    ensures var range := if rangeSecs <= 0 then 3600 else rangeSecs;
      var idx := PickTier(range);
      && w.end == now
      && w.step == (if range <= 900 then 1 else if range <= 86400 then 60 else if range <= 604800 then 3600 else 86400)
      && w.start == (if !isGlobal && firstTs > 0 && firstTs > now - range then firstTs else now - range)
      && w.points == Grid(tiers[Chosen(tiers, idx, w.start, w.step)], w.start, w.step, Slots(w.start, w.end, w.step))
      && exists j: nat ::
        Answers(tiers, idx, j, w.start, w.step) && j <= idx && IsGrid(w.points, tiers[j], w.start, w.end, w.step)
  {
    hide Grid, Slots, FetchIndex, Ascending, Chosen, Answers, IsGrid;
    var range := if rangeSecs <= 0 then 3600 else rangeSecs;
    var idx := PickTier(range);
    var step := TIERS[idx].bucket;
    var start, end := now - range, now;
    if !isGlobal && firstTs > 0 && firstTs > start {
      start := firstTs;
    }
    var points := QueryTiers(tiers, idx, start, end, step);
    w := Window(start, end, step, points);
  }

  /** The coarse-to-fine fallback. */
  method QueryTiers(tiers: seq<seq<Point>>, idx: nat, start: int, end: int, step: int) returns (points: seq<Point>)
    requires idx < |tiers| && step > 0
    requires forall i :: 0 <= i < |tiers| ==>
      Ascending(tiers[i]) && forall k :: 0 <= k < |tiers[i]| ==> 0 <= tiers[i][k].ts
    ensures points == Grid(tiers[Chosen(tiers, idx, start, step)], start, step, Slots(start, end, step))
    ensures exists j: nat ::
      Answers(tiers, idx, j, start, step) && j <= idx && IsGrid(points, tiers[j], start, end, step)
  {
    hide Grid, Slots, FetchIndex, Ascending, Answers, IsGrid;
    points := [];
    ChosenAnswers(tiers, idx, start, step);
    GridIs(tiers[Chosen(tiers, idx, start, step)], start, end, step);
    var i := idx;
    while i >= 0
      invariant 0 <= i <= idx && Chosen(tiers, i, start, step) == Chosen(tiers, idx, start, step)
    {
      var rows := FetchSamples(tiers[i], start, step);
      if |rows| >= 2 || i == 0 {
        points := ResampleGrid(rows, start, end, step);
        FetchKeepsGrid(tiers[i], FetchIndex(tiers[i], start - step), start, step, Slots(start, end, step));
        NoSlots(start, end, step);
        return;
      }
      i := i - 1;
    }
  }

  lemma {:induction false} NoSlots(start: int, end: int, step: int)
    requires step > 0
    ensures end < start ==> Slots(start, end, step) == 0
  {
  }

  /** The grid stays small even when a long range falls back to a fine tier. */
  lemma {:induction false} WindowIsBounded(now: int, start: int, range: int)
    requires range > 0 && now - range <= start
    ensures range <= 604800 ==> Slots(start, now, TIERS[PickTier(range)].bucket) <= 1441
    ensures range > 604800 ==> Slots(start, now, TIERS[PickTier(range)].bucket) <= range / 86400 + 1
  {
  }

  // ---- what the tiers read ------------------------------------------------

  /** `rows` lists the column in timestamp order. */
  ghost predicate Lists(rows: seq<Point>, c: Column<Counter>) {
    && Ascending(rows)
    && (forall i :: 0 <= i < |rows| ==>
          rows[i].ts >= 0 && rows[i].ts in c && c[rows[i].ts] == Counter(rows[i].down, rows[i].up))
    && (forall t :: t in c ==> exists i :: 0 <= i < |rows| && rows[i].ts == t)
  }

  lemma {:induction false} ReadAtIsCumAt(rows: seq<Point>, c: Column<Counter>, x: nat)
    requires Lists(rows, c) && CumAt(c, x).Some?
    ensures ReadAt(rows, x) == CumAt(c, x).value
  {
    var t := LastIn(c, 0, x + 1).value;
    var i :| 0 <= i < |rows| && rows[i].ts == t;
    if i + 1 < |rows| {
      assert rows[i + 1].ts in c;
    }
    CursorReads(rows, i + 1, x);
  }

  /** End to end: a query that reads a coarse tier right after an exact pass sees, at each
      slot it retains, the whole raw history as of the end of the slot's bucket. */
  lemma {:induction false} TierReadsHistory(rows: seq<Point>, s: Stack<Counter>, full: Column<Counter>,
                                            i: nat, at: int, x: nat)
    requires 1 <= i < |TIERS| && Exact(s, full, at) && Lists(rows, s.At(TIERS[i].tier))
    requires var last := LastIn(Roll(full, TIERS[i].bucket), 0, x + 1);
      last.Some? && last.value >= at - TIERS[i].retain
    ensures CumAt(full, Floor(x, TIERS[i].bucket) + TIERS[i].bucket - 1) == Some(ReadAt(rows, x))
  {
    hide Roll, Floor, LastIn, ReadAt, Lists;
    var B, from := TIERS[i].bucket, at - TIERS[i].retain;
    assert s.At(TIERS[i].tier) == Cut(Roll(full, B), from);
    CutKeepsCumAt(Roll(full, B), from, x);
    RollKeepsCumAt(full, B, x);
    ReadAtIsCumAt(rows, s.At(TIERS[i].tier), x);
  }

  /** The 1m tier, whose buckets are minutes. */
  lemma {:induction false} MinuteTierReadsHistory(rows: seq<Point>, s: Stack<Counter>, full: Column<Counter>,
                                                  at: int, x: nat)
    requires Exact(s, full, at) && Lists(rows, s.m1)
    requires LastIn(Roll(full, 60), 0, x + 1).Some? && LastIn(Roll(full, 60), 0, x + 1).value >= at - 86400
    ensures CumAt(full, Floor(x, 60) + 59) == Some(ReadAt(rows, x))
  {
    hide Roll, Floor, LastIn, ReadAt, Lists;
    TierReadsHistory(rows, s, full, 1, at, x);
  }
}
