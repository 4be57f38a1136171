/**
 Cumulative series, as one (tier, hash) slice of the history table: a map from
 timestamp to the counter stored there. Everything the store does is a fast form
 of one question: which value was the last one at or before x?
 */
module Series {
  import opened Options

  datatype Counter = Counter(down: int, up: int)

  type Column<V> = map<nat, V>

  /** The latest timestamp of `c` in [lo, hi). */
  function LastIn<V>(c: Column<V>, lo: nat, hi: nat): (r: Option<nat>)
    ensures r.Some? ==> lo <= r.value < hi && r.value in c
    ensures r.Some? ==> forall t :: r.value < t < hi ==> t !in c
    ensures r.None? ==> forall t :: lo <= t < hi ==> t !in c
    decreases hi
  {
    if hi <= lo then None
    else if hi - 1 in c then Some(hi - 1)
    else LastIn(c, lo, hi - 1)
  }

  /** The last value at or before x. */
  function CumAt<V>(c: Column<V>, x: nat): Option<V> {
    match LastIn(c, 0, x + 1)
    case None => None
    case Some(t) => Some(c[t])
  }

  /** Start of the bucket of size B that holds t, the (ts/B)*B of the rollup query. */
  function Floor(t: nat, B: nat): (r: nat)
    requires B > 0
    ensures r <= t < r + B
  {
    if t < B then 0 else B + Floor(t - B, B)
  }

  lemma {:induction false} FloorOfSum(q: nat, r: nat, B: nat)
    requires r < B
    ensures Floor(q * B + r, B) == q * B
  {
    if q > 0 {
      assert q * B == (q - 1) * B + B;
      FloorOfSum(q - 1, r, B);
    }
  }

  lemma {:induction false} QuotientOf(t: nat, B: nat) returns (q: nat, r: nat)
    requires B > 0
    ensures q == t / B && r < B && q * B + r == t
  {
    q, r := t / B, t % B;
  }

  lemma {:induction false} FloorIsQuotient(t: nat, B: nat)
    requires B > 0
    ensures Floor(t, B) == t / B * B
  {
    hide Floor;
    var q, r := QuotientOf(t, B);
    FloorOfSum(q, r, B);
  }

  lemma {:induction false} FloorUnique(b: nat, t: nat, B: nat)
    requires B > 0
    requires Floor(b, B) == b
    requires b <= t < b + B
    ensures Floor(t, B) == b
  {
    if b >= B {
      FloorUnique(b - B, t - B, B);
    }
  }

  lemma {:induction false} FloorIsAligned(t: nat, B: nat)
    requires B > 0
    ensures Floor(Floor(t, B), B) == Floor(t, B)
  {
    if t >= B {
      FloorIsAligned(t - B, B);
    }
  }

  lemma {:induction false} FloorMonotone(s: nat, t: nat, B: nat)
    requires B > 0 && s <= t
    ensures Floor(s, B) <= Floor(t, B)
  {
    if s >= B {
      FloorMonotone(s - B, t - B, B);
    }
  }

  lemma {:induction false} AlignedSum(b: nat, k: nat, B: nat)
    requires B > 0 && Floor(b, B) == b && Floor(k, B) == k
    ensures Floor(b + k, B) == b + k
    decreases k
  {
    if k >= B {
      AlignedSum(b, k - B, B);
    }
  }

  /** A multiple of B2 is a multiple of B1, when B1 divides B2. */
  lemma {:induction false} AlignedNests(b: nat, B1: nat, B2: nat)
    requires B1 > 0 && B2 > 0 && Floor(B2, B1) == B2 && Floor(b, B2) == b
    ensures Floor(b, B1) == b
  {
    if b >= B2 {
      AlignedNests(b - B2, B1, B2);
      AlignedSum(b - B2, B2, B1);
    }
  }

  /** Aligned buckets are nested when one size divides the other. */
  lemma {:induction false} FloorNests(t: nat, B1: nat, B2: nat)
    requires B1 > 0 && B2 > 0 && Floor(B2, B1) == B2
    ensures Floor(Floor(t, B1), B2) == Floor(t, B2)
    ensures Floor(Floor(t, B2), B1) == Floor(t, B2)
  {
    hide Floor;
    var big, small := Floor(t, B2), Floor(t, B1);
    FloorIsAligned(t, B2);
    AlignedNests(big, B1, B2);
    FloorMonotone(big, t, B1);
    FloorUnique(big, small, B2);
  }

  /** Keep the last value of every bucket, stamped at the bucket start. */
  function Roll<V>(c: Column<V>, B: nat): (r: Column<V>)
    requires B > 0
  {
    var starts := set t | t in c :: Floor(t, B);
    map b | b in starts :: c[LastIn(c, b, b + B).value]
  }

  /** The rows at or after a cut. */
  function Cut<V>(c: Column<V>, from: int): Column<V> {
    map t | t in c && t >= from :: c[t]
  }

  /** Two columns hold the same row, or no row, at t. */
  ghost predicate SameAt<V>(c: Column<V>, d: Column<V>, t: nat) {
    (t in c <==> t in d) && (t in c ==> c[t] == d[t])
  }

  ghost predicate AgreeIn<V>(c: Column<V>, d: Column<V>, lo: int, hi: int) {
    forall t: nat :: lo <= t < hi ==> SameAt(c, d, t)
  }

  lemma {:induction false} SameEverywhere<V>(c: Column<V>, d: Column<V>)
    requires forall t: nat :: SameAt(c, d, t)
    ensures c == d
  {
    forall t | t in c || t in d ensures t in c && t in d && c[t] == d[t] {
      assert SameAt(c, d, t);
    }
  }

  lemma {:induction false} LastInAgree<V>(c: Column<V>, d: Column<V>, lo: nat, hi: nat)
    requires AgreeIn(c, d, lo, hi)
    ensures LastIn(c, lo, hi) == LastIn(d, lo, hi)
    ensures LastIn(c, lo, hi).Some? ==> c[LastIn(c, lo, hi).value] == d[LastIn(c, lo, hi).value]
    decreases hi
  {
    if lo < hi {
      assert SameAt(c, d, hi - 1);
      LastInAgree(c, d, lo, hi - 1);
    }
  }

  /** LastIn is the only timestamp that is in the range and has nothing after it. */
  lemma {:induction false} LastInIs<V>(c: Column<V>, lo: nat, hi: nat, t: nat)
    requires lo <= t < hi && t in c
    requires forall u :: t < u < hi ==> u !in c
    ensures LastIn(c, lo, hi) == Some(t)
  {
  }

  /** What a bucket of the rolled-up column holds, without the comprehension. */
  lemma {:induction false} RollAt<V>(c: Column<V>, B: nat, b: nat)
    requires B > 0
    ensures b in Roll(c, B) <==> Floor(b, B) == b && LastIn(c, b, b + B).Some?
    ensures b in Roll(c, B) ==> Roll(c, B)[b] == c[LastIn(c, b, b + B).value]
  {
    hide Floor, LastIn;
    if b in Roll(c, B) {
      var t :| t in c && Floor(t, B) == b;
      FloorIsAligned(t, B);
    }
    if Floor(b, B) == b && LastIn(c, b, b + B).Some? {
      FloorUnique(b, LastIn(c, b, b + B).value, B);
    }
  }

  /** Rolling up by B delays nothing but the tail of a bucket: the rolled column
      reads, at x, what the original reads at the end of x's bucket. */
  lemma {:induction false} RollKeepsCumAt<V>(c: Column<V>, B: nat, x: nat)
    requires B > 0
    ensures CumAt(Roll(c, B), x) == CumAt(c, Floor(x, B) + B - 1)
  {
    hide Floor, LastIn, Roll;
    var r, end := Roll(c, B), Floor(x, B) + B;
    var last := LastIn(c, 0, end);
    if last == None {
      forall b | b in r && b <= x ensures false {
        RollAt(c, B, b);
        FloorMonotone(b, x, B);
      }
    } else {
      var t := last.value;
      var b := Floor(t, B);
      FloorIsAligned(t, B);
      FloorIsAligned(x, B);
      FloorMonotone(t, end - 1, B);
      FloorUnique(Floor(x, B), end - 1, B);
      LastInIs(c, b, b + B, t);
      RollAt(c, B, b);
      forall b' | b < b' <= x ensures b' !in r {
        RollAt(c, B, b');
        if b' in r {
          FloorMonotone(b', x, B);
          FloorUnique(b', LastIn(c, b', b' + B).value, B);
        }
      }
      LastInIs(r, 0, x + 1, b);
    }
  }

  /** Rolling up in two steps is rolling up in one, when the sizes nest. */
  lemma {:induction false} RollCompose<V>(c: Column<V>, B1: nat, B2: nat)
    requires B1 > 0 && B2 > 0 && B2 % B1 == 0
    ensures Roll(Roll(c, B1), B2) == Roll(c, B2)
  {
    hide *;
    FloorIsQuotient(B2, B1);
    RollNested(c, B1, B2);
  }

  lemma {:induction false} RollNested<V>(c: Column<V>, B1: nat, B2: nat)
    requires B1 > 0 && B2 > 0 && Floor(B2, B1) == B2
    ensures Roll(Roll(c, B1), B2) == Roll(c, B2)
  {
    hide Floor, LastIn, Roll;
    var one, two, direct := Roll(c, B1), Roll(Roll(c, B1), B2), Roll(c, B2);
    forall b: nat
      ensures SameAt(two, direct, b)
    {
      RollAt(one, B2, b);
      RollAt(c, B2, b);
      if Floor(b, B2) == b {
        ComposeBucket(c, B1, B2, b);
      }
    }
    SameEverywhere(two, direct);
  }

  /** Behind a bucket start within a bigger bucket there is a row within that. */
  lemma {:induction false} RowOfStart<V>(c: Column<V>, B1: nat, B2: nat, b: nat, m: nat) returns (t: nat)
    requires B1 > 0 && B2 > 0 && Floor(B2, B1) == B2 && Floor(b, B2) == b
    requires m in Roll(c, B1) && b <= m < b + B2
    ensures t in c && m <= t && b <= t < b + B2
  {
    hide *;
    RollAt(c, B1, m);
    t := LastIn(c, m, m + B1).value;
    FloorUnique(m, t, B1);
    FloorNests(t, B1, B2);
    FloorUnique(b, m, B2);
    assert Floor(t, B2) == b;
  }

  lemma {:induction false} ComposeBucket<V>(c: Column<V>, B1: nat, B2: nat, b: nat)
    requires B1 > 0 && B2 > 0 && Floor(B2, B1) == B2 && Floor(b, B2) == b
    ensures LastIn(Roll(c, B1), b, b + B2).Some? <==> LastIn(c, b, b + B2).Some?
    ensures LastIn(c, b, b + B2).Some? ==>
      Roll(c, B1)[LastIn(Roll(c, B1), b, b + B2).value] == c[LastIn(c, b, b + B2).value]
  {
    hide *;
    var one := Roll(c, B1);
    var mid := LastIn(one, b, b + B2);
    if mid.Some? {
      var t := RowOfStart(c, B1, B2, b, mid.value);
    }
    var last := LastIn(c, b, b + B2);
    if last.Some? {
      var t := last.value;
      var m := Floor(t, B1);
      FloorUnique(b, t, B2);
      FloorNests(t, B1, B2);
      FloorMonotone(b, t, B1);
      assert Floor(b, B1) == b by { FloorNests(b, B1, B2); }
      FloorIsAligned(t, B1);
      assert forall u :: t < u < m + B1 ==> u !in c by {
        forall u | t < u < m + B1 ensures u !in c {
          FloorUnique(m, u, B1);
          FloorNests(u, B1, B2);
          FloorNests(t, B1, B2);
        }
      }
      LastInIs(c, m, m + B1, t);
      RollAt(c, B1, m);
      forall m' | m < m' < b + B2 ensures m' !in one {
        RollAt(c, B1, m');
        if m' in one {
          var u := RowOfStart(c, B1, B2, b, m');
          if m' < m + B1 { FloorUnique(m, m', B1); }
        }
      }
      LastInIs(one, b, b + B2, m);
    }
  }

  /** A row written at or after every earlier one is what is read from there on. */
  lemma {:induction false} CumAtWrite<V>(c: Column<V>, ts: nat, v: V, x: nat)
    requires forall t :: t in c ==> t <= ts
    ensures CumAt(c[ts := v], x) == if ts <= x then Some(v) else CumAt(c, x)
  {
    var d := c[ts := v];
    if ts <= x {
      LastInIs(d, 0, x + 1, ts);
    } else {
      assert forall t: nat :: t < x + 1 ==> SameAt(d, c, t);
      LastInAgree(d, c, 0, x + 1);
    }
  }

  /** Dropping old rows keeps every reading whose row survives. */
  lemma {:induction false} CutKeepsCumAt<V>(c: Column<V>, from: int, x: nat)
    requires LastIn(c, 0, x + 1).Some? && LastIn(c, 0, x + 1).value >= from
    ensures CumAt(Cut(c, from), x) == CumAt(c, x)
  {
    LastInIs(Cut(c, from), 0, x + 1, LastIn(c, 0, x + 1).value);
  }
}
