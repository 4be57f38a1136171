/**
 Rebuilding the global series: one streaming pass over a tier's per-torrent rows, in
 timestamp order, with a running sum. It refines the plain definition: at every
 timestamp, the sum over torrents of each one's last value at or before it.
 */
module Rebuild {
  import opened Series
  import opened HistoryStore

  datatype Row = Row(hash: string, ts: nat, counter: Counter)

  datatype Emit = Emit(ts: nat, total: Counter)

  function Sub(a: Counter, b: Counter): Counter { Counter(a.down - b.down, a.up - b.up) }

  // ---- the definition -----------------------------------------------------

  ghost function SumMap(m: map<string, Counter>): Counter {
    if m == map[] then Counter(0, 0)
    else
      var h :| h in m;
      Add(m[h], SumMap(m - {h}))
  }

  /** The order of summation does not matter. */
  lemma {:induction false} SumWithout(m: map<string, Counter>, h: string)
    requires h in m
    ensures SumMap(m) == Add(m[h], SumMap(m - {h}))
  {
    var g :| g in m && SumMap(m) == Add(m[g], SumMap(m - {g}));
    if g != h {
      var rest := m - {g} - {h};
      assert rest == m - {h} - {g};
      SumWithout(m - {g}, h);
      SumWithout(m - {h}, g);
      assert SumMap(m - {g}) == Add(m[h], SumMap(rest));
      assert SumMap(m - {h}) == Add(m[g], SumMap(rest));
      assert SumMap(m) == Add(m[g], Add(m[h], SumMap(rest)));
      assert Add(m[g], Add(m[h], SumMap(rest))) == Add(m[h], Add(m[g], SumMap(rest)));
    }
  }

  function At(m: map<string, Counter>, h: string): Counter {
    if h in m then m[h] else Counter(0, 0)
  }

  lemma {:induction false} SumUpdate(m: map<string, Counter>, h: string, c: Counter)
    ensures SumMap(m[h := c]) == Add(SumMap(m), Sub(c, At(m, h)))
  {
    var m' := m[h := c];
    SumWithout(m', h);
    assert m' - {h} == m - {h};
    if h in m {
      SumWithout(m, h);
    } else {
      assert m - {h} == m;
    }
  }

  /** In integers: nothing sums to nothing, and putting c at h moves each sum by the difference. */
  lemma {:induction false} SumMoves(m: map<string, Counter>, h: string, c: Counter)
    ensures SumMap(map[]).down == 0 == SumMap(map[]).up
    ensures SumMap(m[h := c]).down - SumMap(m).down == c.down - (if h in m then m[h].down else 0)
    ensures SumMap(m[h := c]).up - SumMap(m).up == c.up - (if h in m then m[h].up else 0)
  {
    hide SumMap;
    EmptySum();
    SumUpdate(m, h, c);
  }

  /** The readings of a map in some order, each hash once. */
  ghost predicate Enumerates(order: seq<Reading>, m: map<string, Counter>) {
    && (forall i, j :: 0 <= i < j < |order| ==> order[i].hash != order[j].hash)
    && (forall i :: 0 <= i < |order| ==> order[i].hash in m && m[order[i].hash] == order[i].counter)
    && (forall h :: h in m ==> exists i :: 0 <= i < |order| && order[i].hash == h)
  }

  /** Listed in any order, the readings sum to the total. */
  lemma {:induction false} SumOfListed(order: seq<Reading>, m: map<string, Counter>)
    requires Enumerates(order, m)
    ensures SumMap(m) == Counter(SumOf(Downs(order)), SumOf(Ups(order)))
  {
    hide SumMap, SumOf, Downs, Ups, Enumerates;
    LastOfSums(order);
    if order == [] {
      NothingListed(m);
      EmptySum();
    } else {
      var before, r := order[..|order| - 1], order[|order| - 1];
      var rest := m - {r.hash};
      FewerListed(order, m);
      SumOfListed(before, rest);
      SumMoves(rest, r.hash, r.counter);
      OneListed(order, m);
    }
  }

  lemma {:induction false} NothingListed(m: map<string, Counter>)
    requires Enumerates([], m)
    ensures m == map[]
  {
  }

  lemma {:induction false} OneListed(order: seq<Reading>, m: map<string, Counter>)
    requires Enumerates(order, m) && order != []
    ensures var r := order[|order| - 1]; r.hash in m && (m - {r.hash})[r.hash := r.counter] == m
  {
  }

  /** There is such an order. */
  lemma {:induction false} SomeOrder(m: map<string, Counter>) returns (order: seq<Reading>)
    ensures Enumerates(order, m)
  {
    if m == map[] {
      order := [];
    } else {
      var h :| h in m;
      hide Enumerates;
      var before := SomeOrder(m - {h});
      order := before + [Reading(h, m[h])];
      MoreListed(before, m, h);
    }
  }

  lemma {:induction false} MoreListed(before: seq<Reading>, m: map<string, Counter>, h: string)
    requires h in m && Enumerates(before, m - {h})
    ensures Enumerates(before + [Reading(h, m[h])], m)
  {
    var order := before + [Reading(h, m[h])];
    forall g | g in m ensures exists i :: 0 <= i < |order| && order[i].hash == g {
      if g == h {
        assert order[|before|].hash == g;
      } else {
        assert g in m - {h};
        var i :| 0 <= i < |before| && before[i].hash == g;
        assert order[i].hash == g;
      }
    }
  }

  lemma {:induction false} FewerListed(order: seq<Reading>, m: map<string, Counter>)
    requires Enumerates(order, m) && order != []
    ensures Enumerates(order[..|order| - 1], m - {order[|order| - 1].hash})
  {
    var before, r := order[..|order| - 1], order[|order| - 1];
    forall h | h in m - {r.hash} ensures exists i :: 0 <= i < |before| && before[i].hash == h {
      var i :| 0 <= i < |order| && order[i].hash == h;
      assert before[i].hash == h;
    }
  }

  type Columns = map<string, Column<Counter>>

  /** Each series' last value at or before x. */
  function ReadingsAt(cols: Columns, x: nat): map<string, Counter> {
    map h | h in cols && CumAt(cols[h], x).Some? :: CumAt(cols[h], x).value
  }

  ghost function TotalAt(cols: Columns, x: nat): Counter {
    SumMap(ReadingsAt(cols, x))
  }

  function TimesOf(cols: Columns): set<nat> {
    set h, t | h in cols && t in cols[h] :: t
  }

  /** One global row per distinct timestamp. */
  ghost function GlobalOf(cols: Columns): Column<Counter> {
    map t | t in TimesOf(cols) :: TotalAt(cols, t)
  }

  // ---- the streaming pass -------------------------------------------------

  /** `rows` lists every row of the columns once, in timestamp order. */
  ghost predicate Scans(rows: seq<Row>, cols: Columns) {
    && (forall i, j :: 0 <= i < j < |rows| ==> rows[i].ts <= rows[j].ts)
    && (forall i, j :: 0 <= i < j < |rows| ==> rows[i].hash != rows[j].hash || rows[i].ts != rows[j].ts)
    && (forall i :: 0 <= i < |rows| ==> IsRow(rows[i], cols))
    && (forall h, t :: h in cols && t in cols[h] ==> Listed(rows, h, t))
  }

  ghost predicate IsRow(r: Row, cols: Columns) {
    r.hash in cols && r.ts in cols[r.hash] && cols[r.hash][r.ts] == r.counter
  }

  ghost predicate Listed(rows: seq<Row>, h: string, t: nat) {
    exists i :: 0 <= i < |rows| && rows[i].hash == h && rows[i].ts == t
  }

  /** The `cur` map after n rows. */
  function Cur(rows: seq<Row>, n: nat): map<string, Counter>
    requires n <= |rows|
  {
    if n == 0 then map[] else Cur(rows, n - 1)[rows[n - 1].hash := rows[n - 1].counter]
  }

  lemma {:induction false} CurIsLatest(rows: seq<Row>, n: nat, h: string) returns (k: int)
    requires n <= |rows|
    ensures h in Cur(rows, n) ==> 0 <= k < n && rows[k].hash == h && Cur(rows, n)[h] == rows[k].counter
    ensures h !in Cur(rows, n) ==> k == -1
    ensures forall j :: k < j < n ==> rows[j].hash != h
  {
    if n == 0 {
      k := -1;
    } else if rows[n - 1].hash == h {
      k := n - 1;
    } else {
      k := CurIsLatest(rows, n - 1, h);
    }
  }

  /** When exactly the rows up to x are behind, `cur` holds the readings at x. */
  lemma {:induction false} CurReads(rows: seq<Row>, cols: Columns, n: nat, x: nat)
    requires Scans(rows, cols) && n <= |rows|
    requires forall i :: 0 <= i < n ==> rows[i].ts <= x
    requires forall i :: n <= i < |rows| ==> x < rows[i].ts
    ensures Cur(rows, n) == ReadingsAt(cols, x)
  {
    hide Cur, LastIn;
    forall h
      ensures h in Cur(rows, n) <==> h in ReadingsAt(cols, x)
      ensures h in Cur(rows, n) ==> Cur(rows, n)[h] == ReadingsAt(cols, x)[h]
    {
      CurReadsOne(rows, cols, n, x, h);
    }
  }

  lemma {:induction false} CurReadsOne(rows: seq<Row>, cols: Columns, n: nat, x: nat, h: string)
    requires Scans(rows, cols) && n <= |rows|
    requires forall i :: 0 <= i < n ==> rows[i].ts <= x
    requires forall i :: n <= i < |rows| ==> x < rows[i].ts
    ensures h in Cur(rows, n) <==> h in cols && LastIn(cols[h], 0, x + 1).Some?
    ensures h in Cur(rows, n) ==> Cur(rows, n)[h] == cols[h][LastIn(cols[h], 0, x + 1).value]
  {
    hide Cur, LastIn;
    var k := CurIsLatest(rows, n, h);
    if h in cols {
      forall t | t in cols[h] && t <= x ensures k >= 0 && t <= rows[k].ts {
        assert Listed(rows, h, t);
        var i :| 0 <= i < |rows| && rows[i].hash == h && rows[i].ts == t;
      }
    }
    if k >= 0 {
      assert IsRow(rows[k], cols);
      LastInIs(cols[h], 0, x + 1, rows[k].ts);
    }
  }

  /** The emitted rows: ascending, one per distinct timestamp, each the total there. */
  ghost predicate Emitted(emits: seq<Emit>, cols: Columns) {
    && (forall i, j :: 0 <= i < j < |emits| ==> emits[i].ts < emits[j].ts)
    && (forall i :: 0 <= i < |emits| ==> emits[i].ts in TimesOf(cols) && emits[i].total == TotalAt(cols, emits[i].ts))
    && (forall t :: t in TimesOf(cols) ==> exists i :: 0 <= i < |emits| && emits[i].ts == t)
  }

  method RebuildTier(rows: seq<Row>, ghost cols: Columns) returns (emits: seq<Emit>)
    requires Scans(rows, cols)
    ensures Emitted(emits, cols)
    ensures forall i, order :: 0 <= i < |emits| && Enumerates(order, ReadingsAt(cols, emits[i].ts)) ==>
      emits[i].total == Counter(SumOf(Downs(order)), SumOf(Ups(order)))
  {
    hide SumMap, Scans, TimesOf, TotalAt, Enumerates, ReadingsAt, Downs, Ups, SumOf;
    emits := [];
    var cur: map<string, Counter> := map[];
    var sum, curTs, have := Counter(0, 0), 0, false;
    assert SumMap(cur) == sum by { EmptySum(); }
    for i := 0 to |rows|
      invariant cur == Cur(rows, i) && sum == SumMap(cur)
      invariant have == (i > 0) && (have ==> curTs == rows[i - 1].ts)
      invariant EmittedBelow(emits, rows, cols, i, curTs) && (i == 0 ==> emits == [])
    {
      if have && rows[i].ts != curTs {
        GroupEnds(rows, cols, emits, i);
        emits := emits + [Emit(curTs, sum)];
      } else {
        SameGroup(rows, cols, emits, i, curTs);
      }
      var prev := At(cur, rows[i].hash);
      SumUpdate(cur, rows[i].hash, rows[i].counter);
      sum := Add(sum, Sub(rows[i].counter, prev));
      cur := cur[rows[i].hash := rows[i].counter];
      curTs, have := rows[i].ts, true;
    }
    if have {
      LastGroup(rows, cols, emits);
      emits := emits + [Emit(curTs, sum)];
    }
    AllEmitted(rows, cols, emits);
    EmitsAreSums(emits, cols);
  }

  /** Each emitted row is, in either direction, the sum of the readings at its time. */
  lemma {:induction false} EmitsAreSums(emits: seq<Emit>, cols: Columns)
    requires Emitted(emits, cols)
    ensures forall i, order :: 0 <= i < |emits| && Enumerates(order, ReadingsAt(cols, emits[i].ts)) ==>
      emits[i].total == Counter(SumOf(Downs(order)), SumOf(Ups(order)))
  {
    hide SumMap, Enumerates, ReadingsAt, Downs, Ups, SumOf;
    forall i, order | 0 <= i < |emits| && Enumerates(order, ReadingsAt(cols, emits[i].ts))
      ensures emits[i].total == Counter(SumOf(Downs(order)), SumOf(Ups(order)))
    {
      SumOfListed(order, ReadingsAt(cols, emits[i].ts));
    }
  }

  lemma {:induction false} EmptySum()
    ensures SumMap(map[]) == Counter(0, 0)
  {
  }

  /** The groups that ended before row i are emitted; the group of row i - 1 is open. */
  ghost predicate EmittedBelow(emits: seq<Emit>, rows: seq<Row>, cols: Columns, i: nat, curTs: nat)
    requires i <= |rows|
  {
    && (forall a, b :: 0 <= a < b < |emits| ==> emits[a].ts < emits[b].ts)
    && (forall a :: 0 <= a < |emits| ==> emits[a].total == TotalAt(cols, emits[a].ts) && EmitTs(emits, rows, i, a))
    && (forall k :: 0 <= k < i ==> rows[k].ts == curTs || InEmits(emits, rows[k].ts))
    && (forall a :: 0 <= a < |emits| ==> i > 0 && emits[a].ts < rows[i - 1].ts)
  }

  ghost predicate EmitTs(emits: seq<Emit>, rows: seq<Row>, i: nat, a: nat)
    requires a < |emits| && i <= |rows|
  {
    exists k :: 0 <= k < i && rows[k].ts == emits[a].ts
  }

  ghost predicate InEmits(emits: seq<Emit>, t: nat) {
    exists a :: 0 <= a < |emits| && emits[a].ts == t
  }

  lemma {:induction false} GroupEnds(rows: seq<Row>, cols: Columns, emits: seq<Emit>, i: nat)
    requires Scans(rows, cols) && 0 < i < |rows| && rows[i].ts != rows[i - 1].ts
    requires EmittedBelow(emits, rows, cols, i, rows[i - 1].ts)
    ensures EmittedBelow(emits + [Emit(rows[i - 1].ts, SumMap(Cur(rows, i)))], rows, cols, i + 1, rows[i].ts)
  {
    hide Cur, SumMap, ReadingsAt;
    CurReads(rows, cols, i, rows[i - 1].ts);
    ClosedGroup(rows, cols, emits, i, i + 1);
  }

  lemma {:induction false} ClosedGroup(rows: seq<Row>, cols: Columns, emits: seq<Emit>, i: nat, n: nat)
    requires 0 < i <= n <= |rows| && (n == i || (n == i + 1 && rows[i].ts > rows[i - 1].ts))
    requires EmittedBelow(emits, rows, cols, i, rows[i - 1].ts)
    requires SumMap(Cur(rows, i)) == TotalAt(cols, rows[i - 1].ts)
    ensures var next := emits + [Emit(rows[i - 1].ts, SumMap(Cur(rows, i)))];
      && (forall a, b :: 0 <= a < b < |next| ==> next[a].ts < next[b].ts)
      && (forall a :: 0 <= a < |next| ==> next[a].total == TotalAt(cols, next[a].ts) && EmitTs(next, rows, n, a))
      && (forall k :: 0 <= k < i ==> InEmits(next, rows[k].ts))
      && (forall a :: 0 <= a < |next| ==> next[a].ts <= rows[i - 1].ts)
  {
    hide Cur, SumMap, TotalAt;
    var next := emits + [Emit(rows[i - 1].ts, SumMap(Cur(rows, i)))];
    forall a | 0 <= a < |next| ensures EmitTs(next, rows, n, a) {
      if a < |emits| {
        assert EmitTs(emits, rows, i, a);
      }
    }
    forall k | 0 <= k < i ensures InEmits(next, rows[k].ts) {
      if rows[k].ts == rows[i - 1].ts {
        assert next[|emits|].ts == rows[k].ts;
      } else {
        var a :| 0 <= a < |emits| && emits[a].ts == rows[k].ts;
        assert next[a].ts == rows[k].ts;
      }
    }
  }

  lemma {:induction false} SameGroup(rows: seq<Row>, cols: Columns, emits: seq<Emit>, i: nat, curTs: nat)
    requires Scans(rows, cols) && i < |rows|
    requires i > 0 ==> curTs == rows[i - 1].ts == rows[i].ts
    requires EmittedBelow(emits, rows, cols, i, curTs)
    ensures EmittedBelow(emits, rows, cols, i + 1, rows[i].ts)
  {
    hide TotalAt;
    var n := i + 1;
    forall a | 0 <= a < |emits| ensures EmitTs(emits, rows, n, a) {
      assert EmitTs(emits, rows, i, a);
    }
  }

  lemma {:induction false} LastGroup(rows: seq<Row>, cols: Columns, emits: seq<Emit>)
    requires Scans(rows, cols) && rows != []
    requires EmittedBelow(emits, rows, cols, |rows|, rows[|rows| - 1].ts)
    ensures Complete(emits + [Emit(rows[|rows| - 1].ts, SumMap(Cur(rows, |rows|)))], rows, cols)
  {
    hide Cur, SumMap, ReadingsAt, IsRow, Listed, EmitTs, InEmits;
    CurReads(rows, cols, |rows|, rows[|rows| - 1].ts);
    ClosedGroup(rows, cols, emits, |rows|, |rows|);
  }

  ghost predicate Complete(emits: seq<Emit>, rows: seq<Row>, cols: Columns) {
    && (forall a, b :: 0 <= a < b < |emits| ==> emits[a].ts < emits[b].ts)
    && (forall a :: 0 <= a < |emits| ==> emits[a].total == TotalAt(cols, emits[a].ts) && EmitTs(emits, rows, |rows|, a))
    && (forall k :: 0 <= k < |rows| ==> InEmits(emits, rows[k].ts))
  }

  lemma {:induction false} AllEmitted(rows: seq<Row>, cols: Columns, emits: seq<Emit>)
    requires Scans(rows, cols)
    requires if rows == [] then emits == [] else Complete(emits, rows, cols)
    ensures Emitted(emits, cols)
  {
    hide TotalAt;
    forall i | 0 <= i < |emits| ensures emits[i].ts in TimesOf(cols) {
      assert EmitTs(emits, rows, |rows|, i);
      var k :| 0 <= k < |rows| && rows[k].ts == emits[i].ts;
      assert IsRow(rows[k], cols);
    }
    forall t | t in TimesOf(cols) ensures exists i :: 0 <= i < |emits| && emits[i].ts == t {
      var h :| h in cols && t in cols[h];
      assert Listed(rows, h, t);
      var k :| 0 <= k < |rows| && rows[k].hash == h && rows[k].ts == t;
      assert InEmits(emits, rows[k].ts);
    }
  }
}
