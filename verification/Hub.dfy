/**
 The hub that fans poller messages out to browser connections, and the messages.
 `HubState` and its steps are the specification; `Hub` holds the same state in
 subscriber objects with bounded channels.
 */
module Hubs {
  import opened Options
  import opened Wire

  datatype Message =
    | Snapshot(seqNo: nat, ts: int, rows: seq<Row>)
    | DeltaMsg(seqNo: nat, ts: int, upserts: seq<Patch>, removed: seq<string>)
    | Health(unreachable: bool)

  const CAPACITY := 16

  /** One subscriber: its channel and kill flag, and, to state what it was owed, what it
      was given on joining, how many broadcasts came before it, what it has taken, and how
      many of the messages in its stream were sent before it was given up. `lost` says that
      a tick newer than its stream has found the channel full, and `jumps` are the places in
      its stream of the ticks that found room after such a loss. */
  datatype Sub = Sub(ch: seq<Message>, killed: bool, initial: seq<Message>, joinedAt: nat, taken: seq<Message>,
                     sound: nat, lost: bool, jumps: set<nat>)

  /** `log` is every broadcast so far; `active` is the poller's flag, driven by the
      first-subscriber and last-subscriber callbacks. */
  datatype HubState<K> = HubState(
    subs: map<K, Sub>, snap: Option<Message>, status: Option<Message>, active: bool, log: seq<Message>)

  function Cached(snap: Option<Message>, status: Option<Message>): seq<Message> {
    (if snap.Some? then [snap.value] else []) + (if status.Some? then [status.value] else [])
  }

  /** The tick of the last snapshot or delta of a stream; 0 while there is none. */
  function LastTick(ms: seq<Message>): nat {
    if ms == [] then 0
    else if ms[|ms| - 1].Health? then LastTick(ms[..|ms| - 1])
    else ms[|ms| - 1].seqNo
  }

  /** A snapshot or delta of a tick the stream has not reached. */
  predicate Newer(s: Sub, m: Message) { !m.Health? && m.seqNo > LastTick(s.taken + s.ch) }

  /** A non-blocking send: a full channel kills the subscriber. */
  function Sent(s: Sub, m: Message): Sub {
    if |s.ch| < CAPACITY then
      s.(ch := s.ch + [m],
         sound := if s.killed then s.sound else s.sound + 1,
         lost := s.lost && m.Health?,
         jumps := if s.lost && !m.Health? then s.jumps + {|s.taken| + |s.ch|} else s.jumps)
    else s.(killed := true, lost := s.lost || Newer(s, m))
  }

  function Subscribed<K>(h: HubState<K>, k: K): HubState<K> {
    var cached := Cached(h.snap, h.status);
    var subs := h.subs[k := Sub(cached, false, cached, |h.log|, [], |cached|, false, {})];
    h.(subs := subs, active := if |subs| == 1 then true else h.active)
  }

  function Unsubscribed<K>(h: HubState<K>, k: K): HubState<K> {
    if k !in h.subs then h
    else
      var subs := h.subs - {k};
      h.(subs := subs, active := if |subs| == 0 then false else h.active)
  }

  function Broadcasted<K>(h: HubState<K>, m: Message): HubState<K> {
    h.(subs := map k | k in h.subs :: Sent(h.subs[k], m), log := h.log + [m])
  }

  function Taken(s: Sub): Sub
    requires s.ch != []
  {
    s.(ch := s.ch[1..], taken := s.taken + [s.ch[0]])
  }

  /** The connection's handler takes the oldest message. A killed subscriber stays
      registered until its handler notices, and may still drain its channel. */
  function Delivered<K>(h: HubState<K>, k: K): HubState<K>
    requires k in h.subs && h.subs[k].ch != []
  {
    h.(subs := h.subs[k := Taken(h.subs[k])])
  }

  // ---- every run of the hub -----------------------------------------------

  datatype HubOp<K> =
    | Subscribe(k: K)
    | Unsubscribe(k: K)
    | SetSnapshot(m: Message)
    | SetStatus(m: Message)
    | Broadcast(m: Message)
    | Deliver(k: K)

  function HubStep<K>(h: HubState<K>, op: HubOp<K>): HubState<K> {
    match op
    case Subscribe(k) => if k in h.subs then h else Subscribed(h, k)
    case Unsubscribe(k) => Unsubscribed(h, k)
    case SetSnapshot(m) => h.(snap := Some(m))
    case SetStatus(m) => h.(status := Some(m))
    case Broadcast(m) => Broadcasted(h, m)
    case Deliver(k) => if k in h.subs && h.subs[k].ch != [] then Delivered(h, k) else h
  }

  function HubRun<K>(ops: seq<HubOp<K>>): HubState<K> {
    if ops == [] then HubState(map[], None, None, false, []) else HubStep(HubRun(ops[..|ops| - 1]), ops[|ops| - 1])
  }

  /** What a subscriber is owed: the cache at join time, then every broadcast since. */
  function Owed(s: Sub, log: seq<Message>): seq<Message> {
    if s.joinedAt <= |log| then s.initial + log[s.joinedAt..] else s.initial
  }

  /** The channel is bounded; an unkilled subscriber has missed nothing and nothing is out
      of order; a killed one has missed something for good, and not before what was sent to
      it ahead of the kill, which is what it was owed, in order. */
  ghost predicate Fifo(s: Sub, log: seq<Message>) {
    && |s.ch| <= 16
    && s.joinedAt <= |log|
    && s.sound <= |s.taken + s.ch|
    && (s.taken + s.ch)[..s.sound] <= Owed(s, log)
    && (!s.killed ==> s.taken + s.ch == Owed(s, log) && s.sound == |s.taken + s.ch|)
    && (s.killed ==> |s.taken + s.ch| < |Owed(s, log)|)
  }

  ghost predicate HubOk<K>(h: HubState<K>) {
    && (forall k :: k in h.subs ==> Fifo(h.subs[k], h.log))
    && h.active == (h.subs != map[])
  }

  lemma {:induction false} SendKeepsFifo(s: Sub, log: seq<Message>, m: Message)
    requires Fifo(s, log)
    ensures Fifo(Sent(s, m), log + [m])
  {
    assert (log + [m])[s.joinedAt..] == log[s.joinedAt..] + [m];
    var all := s.taken + s.ch;
    assert s.taken + (s.ch + [m]) == all + [m];
    assert (all + [m])[..s.sound] == all[..s.sound];
    if !s.killed && |s.ch| < CAPACITY {
      assert (all + [m])[..s.sound + 1] == all + [m];
    }
  }

  lemma {:induction false} TakeKeepsFifo(s: Sub, log: seq<Message>)
    requires Fifo(s, log) && s.ch != []
    ensures Fifo(Taken(s), log)
  {
    assert (s.taken + [s.ch[0]]) + s.ch[1..] == s.taken + s.ch;
  }

  lemma {:induction false} StepKeepsHub<K>(h: HubState<K>, op: HubOp<K>)
    requires HubOk(h)
    ensures HubOk(HubStep(h, op))
  {
    hide Owed, Sent, Fifo;
    match op
    case Subscribe(k) =>
      if k !in h.subs { JoinIsFifo(h, k); }
    case Unsubscribe(k) =>
    case Broadcast(m) =>
      forall k | k in h.subs ensures Fifo(Sent(h.subs[k], m), h.log + [m]) {
        SendKeepsFifo(h.subs[k], h.log, m);
      }
      assert h.subs == map[] <==> Broadcasted(h, m).subs == map[] by {
        assert Broadcasted(h, m).subs.Keys == h.subs.Keys;
      }
    case Deliver(k) =>
      if k in h.subs && h.subs[k].ch != [] { TakeKeepsFifo(h.subs[k], h.log); }
    case SetSnapshot(m) =>
    case SetStatus(m) =>
  }

  lemma {:induction false} JoinIsFifo<K>(h: HubState<K>, k: K)
    requires HubOk(h) && k !in h.subs
    ensures Fifo(Subscribed(h, k).subs[k], h.log)
    ensures Subscribed(h, k).active && Subscribed(h, k).subs != map[]
  {
    var cached := Cached(h.snap, h.status);
    assert h.log[|h.log|..] == [];
    assert [] + cached == cached + [] && cached[..|cached|] == cached;
    if |Subscribed(h, k).subs| != 1 {
      assert |h.subs| > 0;
    }
    assert k in Subscribed(h, k).subs;
  }

  /** In every run of the hub: what an unkilled subscriber has taken, followed by what is
      buffered, is the cache at its join followed by every broadcast since, in order with
      none missing; a killed one is short; no channel exceeds 16; and the poller is active
      exactly while a subscriber is registered. */
  lemma {:induction false} EveryHubRunIsOk<K>(ops: seq<HubOp<K>>)
    ensures HubOk(HubRun(ops))
  {
    if ops != [] {
      EveryHubRunIsOk(ops[..|ops| - 1]);
      StepKeepsHub(HubRun(ops[..|ops| - 1]), ops[|ops| - 1]);
    }
  }

  /** Who has joined and not left since. */
  function Joined<K>(ops: seq<HubOp<K>>): set<K> {
    if ops == [] then {}
    else
      match ops[|ops| - 1]
      case Subscribe(k) => Joined(ops[..|ops| - 1]) + {k}
      case Unsubscribe(k) => Joined(ops[..|ops| - 1]) - {k}
      case _ => Joined(ops[..|ops| - 1])
  }

  /** Exactly those are registered, and the poller is active exactly while there are any. */
  lemma {:induction false} RegisteredIs<K>(ops: seq<HubOp<K>>)
    ensures HubRun(ops).subs.Keys == Joined(ops) && HubRun(ops).active == (Joined(ops) != {})
  {
    hide HubStep, Fifo;
    EveryHubRunIsOk(ops);
    if ops != [] {
      RegisteredIs(ops[..|ops| - 1]);
      StepRegisters(HubRun(ops[..|ops| - 1]), ops[|ops| - 1]);
    }
    assert HubRun(ops).subs == map[] <==> HubRun(ops).subs.Keys == {};
  }

  lemma {:induction false} StepRegisters<K>(h: HubState<K>, op: HubOp<K>)
    ensures HubStep(h, op).subs.Keys ==
      match op
      case Subscribe(k) => h.subs.Keys + {k}
      case Unsubscribe(k) => h.subs.Keys - {k}
      case _ => h.subs.Keys
  {
    hide Sent, Taken;
  }

  /** Why every guarantee ends with the kill: a subscriber given up over one message is
      still registered, so as soon as its handler drains a message it is sent the next one,
      and its stream goes on with the first one missing. */
  lemma {:induction false} KilledStreamSkips(s: Sub, lost: Message, next: Message)
    requires |s.ch| == 16
    ensures var t := Sent(Taken(Sent(s, lost)), next);
      t.killed && t.taken + t.ch == s.taken + s.ch + [next]
  {
    var t := Taken(Sent(s, lost));
    assert t.taken + t.ch == s.taken + s.ch;
    assert t.taken + (t.ch + [next]) == (t.taken + t.ch) + [next];
  }

  function Broadcasts<K>(ms: seq<Message>): seq<HubOp<K>> {
    if ms == [] then [] else Broadcasts(ms[..|ms| - 1]) + [Broadcast(ms[|ms| - 1])]
  }

  lemma {:induction false} RunNext<K>(ops: seq<HubOp<K>>, op: HubOp<K>)
    ensures HubRun(ops + [op]) == HubStep(HubRun(ops), op)
  {
    assert (ops + [op])[..|ops|] == ops;
  }

  /** A lone subscriber that takes nothing buffers up to 16 broadcasts. */
  lemma {:induction false} ChannelFills<K>(k: K, ms: seq<Message>)
    requires |ms| <= 16
    ensures HubRun([Subscribe(k)] + Broadcasts(ms)) ==
      HubState(map[k := Sub(ms, false, [], 0, [], |ms|, false, {})], None, None, true, ms)
  {
    hide HubRun, HubStep;
    if ms == [] {
      JoinAlone(k);
      assert [Subscribe(k)] + Broadcasts<K>([]) == [Subscribe(k)];
    } else {
      var before, m := ms[..|ms| - 1], ms[|ms| - 1];
      ChannelFills(k, before);
      assert [Subscribe(k)] + Broadcasts<K>(ms) == ([Subscribe(k)] + Broadcasts<K>(before)) + [Broadcast(m)];
      RunNext([Subscribe(k)] + Broadcasts<K>(before), Broadcast(m));
      BroadcastAlone(k, Sub(before, false, [], 0, [], |before|, false, {}), before, m);
      assert before + [m] == ms;
    }
  }

  lemma {:induction false} JoinAlone<K>(k: K)
    ensures HubRun([Subscribe(k)]) == HubState(map[k := Sub([], false, [], 0, [], 0, false, {})], None, None, true, [])
  {
    assert [Subscribe(k)][..0] == [];
    assert HubRun<K>([]) == HubState(map[], None, None, false, []);
    var subs := map[k := Sub([], false, [], 0, [], 0, false, {})];
    assert |subs| == 1;
  }

  lemma {:induction false} BroadcastAlone<K>(k: K, s: Sub, log: seq<Message>, m: Message)
    ensures HubStep(HubState(map[k := s], None, None, true, log), Broadcast(m)) ==
      HubState(map[k := Sent(s, m)], None, None, true, log + [m])
  {
  }

  /** A run that reaches it: 16 broadcasts fill the channel, the next one is lost, the
      handler takes one message, and the one after is sent again. */
  lemma {:induction false} KilledRunSkips<K>(k: K, ms: seq<Message>, lost: Message, next: Message)
    requires |ms| == 16
    ensures var h := HubRun([Subscribe(k)] + Broadcasts(ms) + [Broadcast(lost)] + [Deliver(k)] + [Broadcast(next)]);
      && h.log == ms + [lost] + [next] && k in h.subs && h.subs[k].killed
      && h.subs[k].taken + h.subs[k].ch == ms + [next] && h.subs[k].sound == 16
  {
    hide HubRun, HubStep;
    var ops := [Subscribe(k)] + Broadcasts(ms);
    ChannelFills(k, ms);
    var s := Sub(ms, false, [], 0, [], |ms|, false, {});
    RunNext(ops, Broadcast(lost));
    BroadcastAlone(k, s, ms, lost);
    RunNext(ops + [Broadcast(lost)], Deliver(k));
    DeliverAlone(k, Sent(s, lost), ms + [lost]);
    RunNext(ops + [Broadcast(lost)] + [Deliver(k)], Broadcast(next));
    BroadcastAlone(k, Taken(Sent(s, lost)), ms + [lost], next);
    KilledStreamSkips(s, lost, next);
  }

  lemma {:induction false} DeliverAlone<K>(k: K, s: Sub, log: seq<Message>)
    requires s.ch != []
    ensures HubStep(HubState(map[k := s], None, None, true, log), Deliver(k)) ==
      HubState(map[k := Taken(s)], None, None, true, log)
  {
  }

  // ---- the objects --------------------------------------------------------

  class Subscriber {
    var ch: seq<Message>
    var closed: bool
    ghost var initial: seq<Message>
    ghost var joinedAt: nat
    ghost var taken: seq<Message>
    ghost var sound: nat
    ghost var lost: bool
    ghost var jumps: set<nat>

    ghost function View(): Sub
      reads this
    {
      Sub(ch, closed, initial, joinedAt, taken, sound, lost, jumps)
    }

    constructor (cached: seq<Message>, ghost joinedAt: nat)
      ensures View() == Sub(cached, false, cached, joinedAt, [], |cached|, false, {})
    {
      ch, closed, initial, taken, sound, lost, jumps := cached, false, cached, [], |cached|, false, {};
      this.joinedAt := joinedAt;
    }

    /** The select with a default branch. */
    method Send(m: Message)
      modifies this
      ensures View() == Sent(old(View()), m)
    {
      if |ch| < CAPACITY {
        jumps := if lost && !m.Health? then jumps + {|taken| + |ch|} else jumps;
        ch := ch + [m];
        sound := if closed then sound else sound + 1;
        lost := lost && m.Health?;
      } else {
        lost := lost || Newer(View(), m);
        closed := true;
      }
    }

    method Take() returns (m: Message)
      requires ch != []
      modifies this
      ensures m == old(ch)[0]
      ensures View() == Taken(old(View()))
    {
      m := ch[0];
      ch := ch[1..];
      taken := taken + [m];
    }
  }

  class Hub {
    var subs: set<Subscriber>
    var latestSnap: Option<Message>
    var latestStatus: Option<Message>
    var active: bool
    ghost var log: seq<Message>

    ghost function View(): HubState<Subscriber>
      reads this, subs
    {
      HubState(map s | s in subs :: s.View(), latestSnap, latestStatus, active, log)
    }

    constructor ()
      ensures View() == HubState(map[], None, None, false, [])
    {
      subs, latestSnap, latestStatus, active, log := {}, None, None, false, [];
    }

    method SetSnapshot(m: Message)
      modifies this`latestSnap
      ensures View() == old(View()).(snap := Some(m))
    {
      latestSnap := Some(m);
    }

    method SetStatus(m: Message)
      modifies this`latestStatus
      ensures View() == old(View()).(status := Some(m))
    {
      latestStatus := Some(m);
    }

    method Subscribe() returns (s: Subscriber)
      modifies this
      ensures fresh(s) && View() == Subscribed(old(View()), s)
    {
      var cached := [];
      if latestSnap.Some? {
        cached := cached + [latestSnap.value];
      }
      if latestStatus.Some? {
        cached := cached + [latestStatus.value];
      }
      assert cached == Cached(latestSnap, latestStatus);
      s := new Subscriber(cached, |log|);
      Register(s);
    }

    /** File the new subscriber and report the first one. */
    method Register(s: Subscriber)
      requires s !in subs
      modifies this`subs, this`active
      ensures View() == var subs' := old(View()).subs[s := s.View()];
        old(View()).(subs := subs', active := if |subs'| == 1 then true else old(active))
    {
      subs := subs + {s};
      ViewSize();
      assert View().subs == old(View()).subs[s := s.View()];
      if |subs| == 1 {
        active := true;
      }
    }

    lemma {:induction false} ViewSize()
      ensures View().subs.Keys == subs && |View().subs| == |subs|
    {
      assert View().subs.Keys == subs;
    }

    method Unsubscribe(s: Subscriber)
      modifies this
      ensures View() == Unsubscribed(old(View()), s)
    {
      if s !in subs {
        return;
      }
      subs := subs - {s};
      ViewSize();
      if |subs| == 0 {
        active := false;
      }
    }

    method Broadcast(m: Message)
      modifies this`log, subs
      ensures View() == Broadcasted(old(View()), m)
    {
      log := log + [m];
      var todo := subs;
      while todo != {}
        invariant todo <= subs && log == old(log) + [m]
        invariant forall s :: s in subs ==> s.View() == if s in todo then old(s.View()) else Sent(old(s.View()), m)
        decreases todo
      {
        var s :| s in todo;
        s.Send(m);
        todo := todo - {s};
      }
    }
  }
}
