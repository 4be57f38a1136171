/**
 The per-connection staleness gauge: what its running minimum amounts to, and why neither
 clock's offset matters.
 */
module Staleness {
  import opened Options
  import opened Driver

  /** A message heard at client time `now` (ms) with server time `ts` (s). */
  datatype Heard = Heard(now: int, ts: int)

  /** The gauge of a connection opened at connectAt, after these messages. */
  function GaugeAfter(connectAt: int, obs: seq<Heard>): Gauge {
    if obs == [] then Gauge(None, false, connectAt, connectAt, 0)
    else
      var o := obs[|obs| - 1];
      Gauged(GaugeAfter(connectAt, obs[..|obs| - 1]), o.now, o.ts)
  }

  /** The connection is still held: none of its messages was judged stale. */
  predicate AllFresh(connectAt: int, obs: seq<Heard>) {
    obs == [] ||
    (var o := obs[|obs| - 1];
     AllFresh(connectAt, obs[..|obs| - 1]) && !Stale(GaugeAfter(connectAt, obs[..|obs| - 1]), o.now, o.ts))
  }

  /** How far, in ms, the message is behind its stamp by the client's clock. */
  function LagOf(o: Heard): int { o.now - 1000 * o.ts }

  /** The gauge's one number is the least lag of the connection so far. */
  lemma {:induction false} SkewIsLeastLag(connectAt: int, obs: seq<Heard>)
    requires AllFresh(connectAt, obs)
    ensures var g := GaugeAfter(connectAt, obs);
      && g.connectAt == connectAt && g.gotFirst == (obs != []) == g.skew.Some?
      && (forall i :: 0 <= i < |obs| ==> g.skew.value <= LagOf(obs[i]))
      && (g.skew.Some? ==> exists i :: 0 <= i < |obs| && LagOf(obs[i]) == g.skew.value)
  {
    if obs != [] {
      var before, o := obs[..|obs| - 1], obs[|obs| - 1];
      SkewIsLeastLag(connectAt, before);
      var g, g' := GaugeAfter(connectAt, before), GaugeAfter(connectAt, obs);
      if g'.skew == g.skew {
        var i :| 0 <= i < |before| && LagOf(before[i]) == g.skew.value;
        assert obs[i] == before[i];
      } else {
        assert LagOf(obs[|obs| - 1]) == g'.skew.value;
      }
      forall i | 0 <= i < |obs| ensures g'.skew.value <= LagOf(obs[i]) {
        if i < |before| { assert obs[i] == before[i]; }
      }
    }
  }

  /** A message is stale exactly when it is the connection's first and comes more than
      30 s after the connection was opened, or when its lag exceeds that of some earlier
      message of the connection by more than 15 s. */
  lemma {:induction false} StaleMeans(connectAt: int, obs: seq<Heard>, o: Heard)
    requires AllFresh(connectAt, obs)
    ensures Stale(GaugeAfter(connectAt, obs), o.now, o.ts) <==>
      if obs == [] then o.now - connectAt > 30000
      else exists i :: 0 <= i < |obs| && LagOf(o) - LagOf(obs[i]) > 15000
  {
    hide GaugeAfter, AllFresh;
    SkewIsLeastLag(connectAt, obs);
    var g := GaugeAfter(connectAt, obs);
    if obs != [] {
      var least :| 0 <= least < |obs| && LagOf(obs[least]) == g.skew.value;
      if i :| 0 <= i < |obs| && LagOf(o) - LagOf(obs[i]) > 15000 {
        assert g.skew.value <= LagOf(obs[i]);
      }
    }
  }

  /** Every client reading d ms later and every server stamp e s later. */
  function Shifted(obs: seq<Heard>, d: int, e: int): (r: seq<Heard>)
    ensures |r| == |obs| && forall i :: 0 <= i < |obs| ==> r[i] == Heard(obs[i].now + d, obs[i].ts + e)
  {
    seq(|obs|, i requires 0 <= i < |obs| => Heard(obs[i].now + d, obs[i].ts + e))
  }

  lemma {:induction false} ShiftedGauge(connectAt: int, obs: seq<Heard>, d: int, e: int)
    ensures var g, g' := GaugeAfter(connectAt, obs), GaugeAfter(connectAt + d, Shifted(obs, d, e));
      && g'.gotFirst == g.gotFirst && g'.connectAt == g.connectAt + d && g'.skew.Some? == g.skew.Some?
      && (g.skew.Some? ==> g'.skew.value == g.skew.value + d - 1000 * e)
  {
    if obs != [] {
      var before := obs[..|obs| - 1];
      ShiftedGauge(connectAt, before, d, e);
      assert Shifted(obs, d, e)[..|obs| - 1] == Shifted(before, d, e);
    }
  }

  /** No verdict depends on how far apart the two clocks are. */
  lemma {:induction false} ClockOffsetsCancel(connectAt: int, obs: seq<Heard>, o: Heard, d: int, e: int)
    ensures Stale(GaugeAfter(connectAt + d, Shifted(obs, d, e)), o.now + d, o.ts + e) ==
      Stale(GaugeAfter(connectAt, obs), o.now, o.ts)
  {
    hide GaugeAfter;
    ShiftedGauge(connectAt, obs, d, e);
  }
}
