/**
 What the replication theorem leaves out does happen: a run in which the hub gives a slow
 subscriber up, its handler goes on draining the channel, and the browser sees a gap.
 */
module ReplicationGap {
  import opened Options
  import opened Wire
  import opened Delta
  import opened Hubs
  import opened Pollers
  import opened DriverInvariants
  import opened Replication
  import D = Driver

  const HEALTH := Health(false)
  const FIRST := Snapshot(1, 0, [])

  /** Every tick of the run lists no torrent, at time 0. */
  const POLL := Label.Poll(Polled(0, []), [], [])

  function DeltaAt(n: nat): Message { DeltaMsg(n, 0, [], []) }

  /** Everything broadcast up to tick n. */
  function Queue(n: nat): (q: seq<Message>)
    requires n > 0
    ensures |q| == n + 1 && q[0] == HEALTH && q[1] == FIRST
    ensures forall i :: 2 <= i <= n ==> q[i] == DeltaAt(i)
  {
    if n == 1 then [HEALTH, FIRST] else Queue(n - 1) + [DeltaAt(n)]
  }

  function Ticks(n: nat): seq<seq<Torrent>> {
    if n == 0 then [] else Ticks(n - 1) + [[]]
  }

  /** After n ticks, with nothing left to publish and one connection. */
  function Served(n: nat, sub: Sub, link: Link, w: D.World): Sys
    requires n > 0
  {
    Sys(PollerState(Some(map[]), n, 0, Up), [],
        HubState(map[0 := sub], Some(Snapshot(n, 0, [])), Some(HEALTH), true, Queue(n)),
        map[0 := link], w, Ticks(n))
  }

  ghost predicate Reachable(s: Sys) {
    exists trace :: Run(true, 0, trace) == s
  }

  lemma {:induction false} OneMore(s: Sys, a: Label)
    requires Reachable(s)
    ensures Reachable(Step(s, a))
  {
    hide Step;
    var trace :| Run(true, 0, trace) == s;
    assert (trace + [a])[..|trace|] == trace;
    assert Run(true, 0, trace + [a]) == Step(s, a);
  }

  // ---- the server -----------------------------------------------------------

  lemma {:induction false} NothingChanges()
    ensures TableOf([]) == map[] && WireRows([]) == [] && IsDelta(map[], [], [], []) && UniqueHashes([])
  {
    assert SetOf([]) == {} && Hashes([]) == {};
  }

  /** One more tick of a served system. */
  lemma {:induction false} NextRound(n: nat, sub: Sub, link: Link, w: D.World)
    requires n > 0 && Reachable(Served(n, sub, link, w))
    ensures Reachable(Served(n + 1, Sent(sub, DeltaAt(n + 1)), link, w))
  {
    hide Reachable, Sent, IsDelta, TableOf, WireRows, UniqueHashes, Queue, Ticks;
    NothingChanges();
    var s := Served(n, sub, link, w);
    OneMore(s, POLL);
    var polled := Step(s, POLL);
    var cache, cast := SetSnapshot(Snapshot(n + 1, 0, [])), Broadcast(DeltaAt(n + 1));
    assert polled.pending == [] + [cache, cast] == [cache, cast];
    OneMore(polled, Publish);
    var cached := Step(polled, Publish);
    assert cached.pending == [cast];
    OneMore(cached, Publish);
    NextLog(n);
    assert Step(cached, Publish) == Served(n + 1, Sent(sub, DeltaAt(n + 1)), link, w);
  }

  lemma {:induction false} NextLog(n: nat)
    requires n > 0
    ensures Queue(n + 1) == Queue(n) + [DeltaAt(n + 1)] && Ticks(n + 1) == Ticks(n) + [[]]
  {
  }

  /** The first tick, part of it published. */
  function Publishing(ops: seq<HubOp<nat>>, sub: Sub, snap: Option<Message>, status: Option<Message>,
                      log: seq<Message>, w: D.World): Sys
  {
    Sys(PollerState(Some(map[]), 1, 0, Up), ops, HubState(map[0 := sub], snap, status, true, log),
        map[0 := Link([], 0, {})], w, [[]])
  }

  function Joined(n: nat, ch: seq<Message>): Sub { Sub(ch, false, [], 0, [], n, false, {}) }

  /** A connection accepted before the first tick. */
  lemma {:induction false} FirstRound()
    ensures var w := D.Begin(true, 0);
      Reachable(Served(1, Joined(2, Queue(1)), Link([], 0, {}), w))
  {
    hide Reachable, Step, D.Begin, Served, Publishing;
    var w := D.Begin(true, 0);
    FirstPoll();
    var ops: seq<HubOp<nat>> := [SetStatus(HEALTH), Broadcast(HEALTH), SetSnapshot(FIRST), Broadcast(FIRST)];
    assert ops[1..][1..] == ops[2..] && ops[2..][1..] == ops[3..] && ops[3..][1..] == [];
    PublishOne(ops, Joined(0, []), None, None, [], w);
    PublishOne(ops[1..], Joined(0, []), None, Some(HEALTH), [], w);
    assert [] + [HEALTH] == [HEALTH];
    PublishOne(ops[2..], Joined(1, [HEALTH]), None, Some(HEALTH), [HEALTH], w);
    PublishOne(ops[3..], Joined(1, [HEALTH]), Some(FIRST), Some(HEALTH), [HEALTH], w);
    assert [HEALTH] + [FIRST] == [HEALTH, FIRST] == Queue(1);
    FirstServed(w);
  }

  lemma {:induction false} FirstServed(w: D.World)
    ensures Publishing([], Joined(2, Queue(1)), Some(FIRST), Some(HEALTH), Queue(1), w) ==
      Served(1, Joined(2, Queue(1)), Link([], 0, {}), w)
  {
    assert Ticks(0) == [] && Ticks(1) == [[]];
  }

  lemma {:induction false} PublishOne(ops: seq<HubOp<nat>>, sub: Sub, snap: Option<Message>, status: Option<Message>,
                                      log: seq<Message>, w: D.World)
    requires ops != [] && Reachable(Publishing(ops, sub, snap, status, log, w))
    ensures ops[0].SetStatus? ==> Reachable(Publishing(ops[1..], sub, snap, Some(ops[0].m), log, w))
    ensures ops[0].SetSnapshot? ==> Reachable(Publishing(ops[1..], sub, Some(ops[0].m), status, log, w))
    ensures ops[0].Broadcast? ==>
      Reachable(Publishing(ops[1..], Sent(sub, ops[0].m), snap, status, log + [ops[0].m], w))
  {
    hide Reachable, Sent;
    var s := Publishing(ops, sub, snap, status, log, w);
    OneMore(s, Publish);
    match ops[0]
    case SetStatus(m) => assert Step(s, Publish) == Publishing(ops[1..], sub, snap, Some(m), log, w);
    case SetSnapshot(m) => assert Step(s, Publish) == Publishing(ops[1..], sub, Some(m), status, log, w);
    case Broadcast(m) =>
      assert Step(s, Publish).hub.subs == map[0 := Sent(sub, m)];
      assert Step(s, Publish) == Publishing(ops[1..], Sent(sub, m), snap, status, log + [m], w);
    case _ =>
  }

  lemma {:induction false} FirstPoll()
    ensures Reachable(Publishing([SetStatus(HEALTH), Broadcast(HEALTH), SetSnapshot(FIRST), Broadcast(FIRST)],
                                 Joined(0, []), None, None, [], D.Begin(true, 0)))
  {
    hide Reachable, IsDelta, TableOf, WireRows, UniqueHashes, D.Begin;
    BeginHoldsSource();
    NothingChanges();
    var start := Run(true, 0, []);
    StartIsReachable();
    OneMore(start, Accept(0));
    OneSubscriber();
    var s1 := Step(start, Accept(0));
    OneMore(s1, POLL);
    var ops: seq<HubOp<nat>> := [SetStatus(HEALTH), Broadcast(HEALTH), SetSnapshot(FIRST), Broadcast(FIRST)];
    assert Step(s1, POLL).pending == ops;
    assert s1.hist == [] && Step(s1, POLL).hist == [[]];
    assert Step(s1, POLL) == Publishing(ops, Joined(0, []), None, None, [], D.Begin(true, 0));
  }

  lemma {:induction false} OneSubscriber()
    ensures Subscribed(HubState(map[], None, None, false, []), 0) ==
      HubState(map[0 := Sub([], false, [], 0, [], 0, false, {})], None, None, true, [])
  {
    var subs: map<nat, Sub> := map[0 := Sub([], false, [], 0, [], 0, false, {})];
    assert |subs| == 1;
  }

  lemma {:induction false} StartIsReachable()
    ensures Reachable(Run(true, 0, []))
  {
  }

  lemma {:induction false} BeginHoldsSource()
    ensures var w := D.Begin(true, 0);
      && w.net.es == Some(0) && 0 in w.net.sources && w.now == 0 && w.warnings == 0
      && w.gauge == D.Gauge(None, false, 0, 0, 0)
  {
    var none: map<nat, D.Source> := map[];
    assert |none| == 0;
  }

  /** Ticks pile up in the channel until it is full. */
  lemma {:induction false} Rounds(n: nat)
    requires 1 <= n <= 15
    ensures Reachable(Served(n, Joined(n + 1, Queue(n)), Link([], 0, {}), D.Begin(true, 0)))
  {
    hide Reachable, Served, D.Begin;
    if n == 1 {
      FirstRound();
    } else {
      Rounds(n - 1);
      NextRound(n - 1, Joined(n, Queue(n - 1)), Link([], 0, {}), D.Begin(true, 0));
      NextLog(n - 1);
    }
  }

  // ---- the channel and the network ------------------------------------------

  /** The handler writes out the oldest message. */
  lemma {:induction false} SendOne(n: nat, sub: Sub, link: Link, w: D.World)
    requires n > 0 && sub.ch != [] && Reachable(Served(n, sub, link, w))
    ensures Reachable(Served(n, Taken(sub), Carried(link, sub), w))
  {
    hide Reachable, Queue, Ticks;
    OneMore(Served(n, sub, link, w), Send(0));
    assert Step(Served(n, sub, link, w), Send(0)) ==
      Served(n, Taken(sub), Carried(link, sub), w);
  }

  /** The handler drains the channel. */
  lemma {:induction false} Drain(n: nat, sub: Sub, link: Link, w: D.World) returns (sub': Sub, link': Link)
    requires n > 0 && Reachable(Served(n, sub, link, w))
    ensures Reachable(Served(n, sub', link', w))
    ensures link'.sent == link.sent + sub.ch && link'.got == link.got
    decreases |sub.ch|
  {
    hide Reachable, Served;
    if sub.ch == [] {
      sub', link' := sub, link;
    } else {
      SendOne(n, sub, link, w);
      sub', link' := Drain(n, Taken(sub), Carried(link, sub), w);
      assert (link.sent + [sub.ch[0]]) + sub.ch[1..] == link.sent + sub.ch;
    }
  }

  // ---- the browser ----------------------------------------------------------

  /** Time stands still, so that nothing is ever stale; `seqNo` is the last one applied. */
  ghost predicate Playing(w: D.World, seqNo: nat, warnings: nat) {
    && Inv(w) && w.net.es == Some(0) && w.now == 0 && w.gauge.connectAt == 0
    && (w.gauge.skew.Some? ==> w.gauge.skew.value == 0) && w.gauge.lastSeq == seqNo && w.warnings == warnings
  }

  lemma {:induction false} HearsStatus(w: D.World, seqNo: nat, warnings: nat)
    requires Playing(w, seqNo, warnings)
    ensures Playing(D.Step(w, D.Event.Message(0, HEALTH)), seqNo, warnings)
  {
    hide NetOk, TimersOk, Backoff, ConnectionOk, D.Resolve, D.Current, D.Dispatches;
    DispatchIsCurrent(w, 0);
    StatusIsOk(w, 0, HEALTH);
  }

  lemma {:induction false} HearsData(w: D.World, seqNo: nat, warnings: nat, m: Message)
    requires Playing(w, seqNo, warnings) && D.IsData(m) && m.ts == 0
    ensures var gap := m.DeltaMsg? && seqNo != 0 && m.seqNo > seqNo + 1;
      Playing(D.Step(w, D.Event.Message(0, m)), m.seqNo, if gap then warnings + 1 else warnings)
  {
    hide Inv, D.Step, D.Current;
    DispatchIsCurrent(w, 0);
    DataIsOk(w, 0, m);
    DataHas(w, m);
  }

  /** What a fresh message changes that matters here. */
  lemma {:induction false} DataHas(w: D.World, m: Message)
    requires D.IsData(m) && m.ts == 0 && w.now == 0 && w.gauge.connectAt == 0
    requires w.gauge.skew.Some? ==> w.gauge.skew.value == 0
    requires w.net.es == Some(0) && 0 in w.net.sources && D.Dispatches(w, 0) && D.Current(w, 0)
    ensures var w' := D.Step(w, D.Event.Message(0, m));
      && w'.net.es == Some(0) && w'.now == 0 && w'.gauge.connectAt == 0 && w'.gauge.skew.Some? &&
         w'.gauge.skew.value == 0
      && w'.gauge.lastSeq == m.seqNo && w'.warnings == w.warnings + (if D.Gap(w.gauge, m) then 1 else 0)
  {
    hide D.Resolve, D.ArmHealth, D.OpenOrIdle, D.CloseES, D.Gap, D.Current, D.Dispatches, D.Stale, D.Gauged;
    NeverStale(w.gauge);
    GaugedAtZero(w.gauge);
    LogKeepsCurrent(w, 0, m);
  }

  lemma {:induction false} NeverStale(g: D.Gauge)
    requires g.connectAt == 0 && (g.skew.Some? ==> g.skew.value == 0)
    ensures !D.Stale(g, 0, 0)
  {
  }

  lemma {:induction false} GaugedAtZero(g: D.Gauge)
    requires g.connectAt == 0 && (g.skew.Some? ==> g.skew.value == 0)
    ensures var g' := D.Gauged(g, 0, 0);
      g'.connectAt == 0 && g'.skew.Some? && g'.skew.value == 0
  {
    hide D.Lag;
    assert D.Lag(0, 0) == 0 by { NoLag(); }
  }

  lemma {:induction false} NoLag()
    ensures D.Lag(0, 0) == 0
  {
  }

  /** The browser plays back what was sent: ticks 1 to 15 in order, and then tick 17. */
  lemma {:induction false} Play(n: nat, sub: Sub, link: Link, w: D.World) returns (w': D.World)
    requires n > 0 && Reachable(Served(n, sub, link, w))
    requires link.sent == Queue(15) + [DeltaAt(17)] && link.got <= 16
    requires Playing(w, if link.got == 0 then 0 else link.got - 1, 0)
    ensures Reachable(Served(n, sub, link.(got := 17), w')) && w'.warnings == 1
    decreases 17 - link.got
  {
    hide Reachable, D.Step, Inv, Queue, Ticks;
    var j := link.got;
    var m := link.sent[j];
    w' := D.Step(w, D.Event.Message(0, m));
    assert D.Dispatches(w, 0) by { DispatchIsCurrent(w, 0); }
    OneMore(Served(n, sub, link, w), Dispatch(0));
    assert Step(Served(n, sub, link, w), Dispatch(0)) == Served(n, sub, link.(got := j + 1), w');
    if j == 0 {
      HearsStatus(w, 0, 0);
    } else {
      HearsData(w, j - 1, 0, m);
    }
    if j < 16 {
      w' := Play(n, sub, link.(got := j + 1), w');
    }
  }

  /** The gap warning fires: the channel fills with the health and ticks 1 to 15, tick 16 is
      lost and the subscriber given up, its handler takes one message, tick 17 finds room,
      and the browser is handed tick 17 after tick 15. */
  lemma {:induction false} GapCanBeSeen()
    ensures exists trace :: Run(true, 0, trace).browser.warnings > 0
  {
    hide Run, Served, Queue, D.Begin, Inv;
    var w := D.Begin(true, 0);
    Rounds(15);
    var full := Joined(16, Queue(15));
    NextRound(15, full, Link([], 0, {}), w);
    var killed := Sent(full, DeltaAt(16));
    SendOne(16, killed, Link([], 0, {}), w);
    var drained, link := Taken(killed), Link([HEALTH], 0, {});
    assert [] + [killed.ch[0]] == [HEALTH];
    NextRound(16, drained, link, w);
    var sub := Sent(drained, DeltaAt(17));
    var sub', link' := Drain(17, sub, link, w);
    assert [HEALTH] + (Queue(15)[1..] + [DeltaAt(17)]) == Queue(15) + [DeltaAt(17)];
    BeginIsOk(true, 0);
    BeginHoldsSource();
    var w' := Play(17, sub', link', w);
    var trace :| Run(true, 0, trace) == Served(17, sub', link'.(got := 17), w');
    assert Run(true, 0, trace).browser == w' by { ServedBrowser(17, sub', link'.(got := 17), w'); }
  }

  lemma {:induction false} ServedBrowser(n: nat, sub: Sub, link: Link, w: D.World)
    requires n > 0
    ensures Served(n, sub, link, w).browser == w
  {
  }
}
