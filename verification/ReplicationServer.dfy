/**
 The server's side of the replication: at every moment of a tick's publishing, what an
 unkilled subscriber was sent leads to the last tick cached or broadcast.
 */
module ReplicationServer {
  import opened Options
  import opened Wire
  import opened Delta
  import opened Hubs
  import opened Pollers
  import opened DriverInvariants
  import D = Driver
  import opened Replication

  /** The tick of the cached snapshot; 0 while there is none. */
  function CachedSeq(h: HubState<nat>): nat {
    if h.snap.Some? && h.snap.value.Snapshot? then h.snap.value.seqNo else 0
  }

  function CachedStatus(h: HubState<nat>): Option<bool> {
    if h.status.Some? && h.status.value.Health? then Some(h.status.value.unreachable) else None
  }

  /** The tick of the last data broadcast; 0 before the first. */
  function SentSeq(h: HubState<nat>): nat { LastSeq(DataOnly(h.log)) }

  function StatusOf(s: HealthState): Option<bool> {
    match s
    case Unknown => None
    case Up => Some(false)
    case Unreachable => Some(true)
  }

  ghost predicate CacheOk(h: HubState<nat>, hist: seq<seq<Torrent>>) {
    && (h.snap.Some? ==> h.snap.value.Snapshot? && NextOk(0, h.snap.value, hist))
    && (h.status.Some? ==> h.status.value.Health?)
  }

  /** What is still to publish brings the cache, c and cs, and the broadcasts, b and bs,
      to the poller's state, each value cached first and broadcast next. */
  ghost predicate Todo(ops: seq<HubOp<nat>>, c: nat, b: nat, cs: Option<bool>, bs: Option<bool>,
                       health: HealthState, hist: seq<seq<Torrent>>)
  {
    if ops == [] then c == b == |hist| && cs == bs == StatusOf(health)
    else
      match ops[0]
      case SetStatus(m) => m.Health? && cs == bs && Todo(ops[1..], c, b, Some(m.unreachable), bs, health, hist)
      case SetSnapshot(m) =>
        && m.Snapshot? && NextOk(0, m, hist) && c == b && m.seqNo == b + 1
        && Todo(ops[1..], m.seqNo, b, cs, bs, health, hist)
      case Broadcast(m) =>
        if m.Health? then
          && cs == Some(m.unreachable) && bs != Some(m.unreachable)
          && Todo(ops[1..], c, b, cs, cs, health, hist)
        else
          && NextOk(b, m, hist) && m.seqNo == b + 1 && c == m.seqNo && (b > 0 ==> m.DeltaMsg?)
          && Todo(ops[1..], c, m.seqNo, cs, bs, health, hist)
      case _ => false
  }

  /** A stream in which the ticks that find room after a lost one are exactly the jumps. It
      is behind the last broadcast exactly while a newer tick has been lost, and an unkilled
      one has lost nothing and has the last status. */
  ghost predicate SubOk(s: Sub, h: HubState<nat>, hist: seq<seq<Torrent>>) {
    var stream := s.taken + s.ch;
    && (forall j :: j in s.jumps ==> j < |stream|) && Trail(stream, s.jumps, hist)
    && TickOk(LastTick(stream), s.lost, CachedSeq(h), SentSeq(h))
    && |stream| <= 2 + |h.log|
    && (!s.killed ==>
          && !s.lost && s.jumps == {}
          && (LastStatus(stream) == LastStatus(h.log) || LastStatus(stream) == CachedStatus(h)))
  }

  /** How far a stream has got, against the last tick cached, c, and broadcast, b. */
  ghost predicate TickOk(e: nat, lost: bool, c: nat, b: nat) {
    && (lost <==> e < b) && (!lost ==> e == b || e == c) && (b > 0 ==> e > 0)
  }

  ghost predicate SubsOk(h: HubState<nat>, hist: seq<seq<Torrent>>) {
    forall k :: k in h.subs ==> SubOk(h.subs[k], h, hist)
  }

  ghost predicate TodoOk(h: HubState<nat>, ops: seq<HubOp<nat>>, health: HealthState, hist: seq<seq<Torrent>>) {
    Todo(ops, CachedSeq(h), SentSeq(h), CachedStatus(h), LastStatus(h.log), health, hist)
  }

  /** The health broadcasts still to come. */
  function Casts(ops: seq<HubOp<nat>>): nat {
    if ops == [] then 0
    else (if ops[0].Broadcast? && ops[0].m.Health? then 1 else 0) + Casts(ops[1..])
  }

  /** Before the first tick is broadcast there is little else: at most one outage and the
      recovery that comes with the tick. */
  ghost predicate EarlyOk(h: HubState<nat>, ops: seq<HubOp<nat>>, health: HealthState, ticks: nat) {
    && (ticks == 0 ==> health != Up && |h.log| + Casts(ops) <= if health == Unknown then 0 else 1)
    && (SentSeq(h) == 0 ==> |h.log| + Casts(ops) <= 2)
  }

  /** No two health values in a row are the same. */
  ghost predicate Alternating(log: seq<Message>) {
    log == [] ||
    (var before, m := log[..|log| - 1], log[|log| - 1];
     Alternating(before) && (m.Health? ==> LastStatus(before) != Some(m.unreachable)))
  }

  ghost predicate HubReady(h: HubState<nat>, ops: seq<HubOp<nat>>, health: HealthState, hist: seq<seq<Torrent>>) {
    && CacheOk(h, hist) && TodoOk(h, ops, health, hist) && SubsOk(h, hist)
    && EarlyOk(h, ops, health, |hist|) && Alternating(h.log)
  }

  /** A tick sent to a stream. */
  lemma {:induction false} TickIsSent(s: Sub, m: Message, h: HubState<nat>, h': HubState<nat>, hist: seq<seq<Torrent>>)
    requires SubOk(s, h, hist) && D.IsData(m)
    requires NextOk(SentSeq(h), m, hist) && m.seqNo == SentSeq(h) + 1 == CachedSeq(h)
    requires SentSeq(h) > 0 ==> m.DeltaMsg?
    requires SentSeq(h) == 0 ==> |s.ch| < CAPACITY
    requires SentSeq(h') == m.seqNo && CachedSeq(h') == CachedSeq(h) && CachedStatus(h') == CachedStatus(h)
    requires |h'.log| == |h.log| + 1 && LastStatus(h'.log) == LastStatus(h.log)
    ensures SubOk(Sent(s, m), h', hist)
  {
    hide Trail, DataOnly, LastStatus, IsDelta, WireRows, LastTick, SentSeq, CachedSeq, CachedStatus;
    var stream := s.taken + s.ch;
    TickIsSeq(stream);
    TrailSeq(stream, s.jumps, hist);
    DataAppend(stream, m);
    if |s.ch| < CAPACITY {
      assert s.taken + (s.ch + [m]) == stream + [m];
      TickIsSeq(stream + [m]);
      LastOf(DataOnly(stream), m);
      var jumps := if s.lost then s.jumps + {|stream|} else s.jumps;
      assert |stream| in jumps <==> s.lost;
      assert StepOk(LastSeq(DataOnly(stream)), m, s.lost, hist);
      TrailAppend(stream, m, s.jumps, jumps, hist);
    }
  }

  /** A health value sent to a stream. */
  lemma {:induction false} StatusIsSent(s: Sub, m: Message, h: HubState<nat>, h': HubState<nat>,
                                        hist: seq<seq<Torrent>>)
    requires SubOk(s, h, hist) && m.Health? && CachedStatus(h) == Some(m.unreachable)
    requires SentSeq(h') == SentSeq(h) && CachedSeq(h') == CachedSeq(h) && CachedStatus(h') == CachedStatus(h)
    requires |h'.log| == |h.log| + 1
    ensures SubOk(Sent(s, m), h', hist)
  {
    hide Trail, DataOnly, LastStatus, IsDelta, WireRows, LastTick, SentSeq, CachedSeq, CachedStatus;
    var stream := s.taken + s.ch;
    TickIsSeq(stream);
    DataAppend(stream, m);
    if |s.ch| < CAPACITY {
      assert s.taken + (s.ch + [m]) == stream + [m];
      TickIsSeq(stream + [m]);
      TrailAppend(stream, m, s.jumps, s.jumps, hist);
    }
  }

  lemma {:induction false} AlternatingAppend(log: seq<Message>, m: Message)
    ensures Alternating(log + [m]) <==>
      Alternating(log) && (m.Health? ==> LastStatus(log) != Some(m.unreachable))
  {
    assert (log + [m])[..|log|] == log && (log + [m])[|log|] == m;
  }

  lemma {:induction false} BroadcastIsOk(h: HubState<nat>, m: Message, ops: seq<HubOp<nat>>, health: HealthState,
                                         hist: seq<seq<Torrent>>)
    requires ops != [] && ops[0] == Broadcast(m) && HubReady(h, ops, health, hist)
    ensures HubReady(Broadcasted(h, m), ops[1..], health, hist)
  {
    hide NextOk, LastStatus, DataOnly, Alternating, SubOk, Sent;
    DataAppend(h.log, m);
    AlternatingAppend(h.log, m);
    var h' := Broadcasted(h, m);
    assert CachedSeq(h') == CachedSeq(h) && CachedStatus(h') == CachedStatus(h);
    if D.IsData(m) {
      EpochOf(h.log, m);
      NextIsData(SentSeq(h), m, hist);
    }
    forall k | k in h.subs ensures SubOk(Sent(h.subs[k], m), h', hist) {
      var s := h.subs[k];
      assert SubOk(s, h, hist);
      if m.Health? {
        StatusIsSent(s, m, h, h', hist);
      } else {
        StreamFits(s, h, hist);
        TickIsSent(s, m, h, h', hist);
      }
    }
  }

  lemma {:induction false} StreamFits(s: Sub, h: HubState<nat>, hist: seq<seq<Torrent>>)
    requires SubOk(s, h, hist)
    ensures |s.ch| <= 2 + |h.log|
  {
  }

  lemma {:induction false} EpochOf(log: seq<Message>, m: Message)
    requires D.IsData(m)
    ensures LastSeq(DataOnly(log + [m])) == m.seqNo
  {
    DataAppend(log, m);
  }

  lemma {:induction false} CacheIsOk(h: HubState<nat>, m: Message, ops: seq<HubOp<nat>>, health: HealthState,
                                     hist: seq<seq<Torrent>>)
    requires ops != [] && (ops[0] == SetSnapshot(m) || ops[0] == SetStatus(m)) && HubReady(h, ops, health, hist)
    ensures HubReady(HubStep(h, ops[0]), ops[1..], health, hist)
  {
    hide NextOk, LastStatus, DataOnly, Trail, LastTick, Alternating;
    var h' := HubStep(h, ops[0]);
    forall k | k in h'.subs ensures SubOk(h'.subs[k], h', hist) {
      assert SubOk(h.subs[k], h, hist);
    }
  }

  lemma {:induction false} PublishIsOk(h: HubState<nat>, ops: seq<HubOp<nat>>, health: HealthState,
                                       hist: seq<seq<Torrent>>)
    requires ops != [] && HubReady(h, ops, health, hist)
    ensures HubReady(HubStep(h, ops[0]), ops[1..], health, hist)
    ensures HubStep(h, ops[0]).subs.Keys == h.subs.Keys
  {
    hide HubReady, Broadcasted;
    assert ops[0].SetStatus? || ops[0].SetSnapshot? || ops[0].Broadcast? by { TodoHead(h, ops, health, hist); }
    if ops[0].Broadcast? {
      BroadcastIsOk(h, ops[0].m, ops, health, hist);
      assert Broadcasted(h, ops[0].m).subs.Keys == h.subs.Keys by { BroadcastKeys(h, ops[0].m); }
    } else {
      CacheIsOk(h, ops[0].m, ops, health, hist);
    }
  }

  lemma {:induction false} TodoHead(h: HubState<nat>, ops: seq<HubOp<nat>>, health: HealthState,
                                    hist: seq<seq<Torrent>>)
    requires ops != [] && HubReady(h, ops, health, hist)
    ensures ops[0].SetStatus? || ops[0].SetSnapshot? || ops[0].Broadcast?
  {
  }

  lemma {:induction false} BroadcastKeys(h: HubState<nat>, m: Message)
    ensures Broadcasted(h, m).subs.Keys == h.subs.Keys
    ensures forall k :: k in h.subs ==> Broadcasted(h, m).subs[k] == Sent(h.subs[k], m)
  {
  }

  /** A joiner starts with the cache, wherever the tick's publishing has got to. */
  lemma {:induction false} JoinIsOk(h: HubState<nat>, id: nat, ops: seq<HubOp<nat>>, health: HealthState,
                                    hist: seq<seq<Torrent>>)
    requires HubReady(h, ops, health, hist)
    ensures HubReady(Subscribed(h, id), ops, health, hist)
    ensures var cached := Cached(h.snap, h.status);
      Subscribed(h, id).subs == h.subs[id := Sub(cached, false, cached, |h.log|, [], |cached|, false, {})]
  {
    hide NextOk, LastStatus, DataOnly, Trail, LastTick, Todo, Alternating;
    var cached := Cached(h.snap, h.status);
    var h' := Subscribed(h, id);
    CachedStream(h, hist);
    assert [] + cached == cached;
    CacheIsAhead(h, ops, health, hist);
    TickIsSeq(cached);
    forall k | k in h'.subs ensures SubOk(h'.subs[k], h', hist) {
      if k != id { assert SubOk(h.subs[k], h, hist); }
    }
  }

  lemma {:induction false} CachedStream(h: HubState<nat>, hist: seq<seq<Torrent>>)
    requires CacheOk(h, hist)
    ensures var cached := Cached(h.snap, h.status);
      && Trail(cached, {}, hist)
      && LastSeq(DataOnly(cached)) == CachedSeq(h) && LastStatus(cached) == CachedStatus(h)
  {
    hide Trail, IsDelta, WireRows, DataOnly, LastStatus;
    EmptyStream(hist);
    var snap: seq<Message> := if h.snap.Some? then [h.snap.value] else [];
    if h.snap.Some? {
      assert [] + [h.snap.value] == snap;
      DataAppend([], h.snap.value);
      TrailAppend([], h.snap.value, {}, {}, hist);
    }
    if h.status.Some? {
      DataAppend(snap, h.status.value);
      TrailAppend(snap, h.status.value, {}, {}, hist);
    } else {
      assert snap + [] == snap;
    }
  }

  /** The cache is at the last broadcast tick or one ahead of it. */
  lemma {:induction false} CacheIsAhead(h: HubState<nat>, ops: seq<HubOp<nat>>, health: HealthState,
                                        hist: seq<seq<Torrent>>)
    requires HubReady(h, ops, health, hist)
    ensures CachedSeq(h) == SentSeq(h) || CachedSeq(h) == SentSeq(h) + 1
  {
    hide NextOk, DataOnly, SubsOk;
    TodoAhead(ops, CachedSeq(h), SentSeq(h), CachedStatus(h), LastStatus(h.log), health, hist);
  }

  lemma {:induction false} TodoAhead(ops: seq<HubOp<nat>>, c: nat, b: nat, cs: Option<bool>, bs: Option<bool>,
                                     health: HealthState, hist: seq<seq<Torrent>>)
    requires Todo(ops, c, b, cs, bs, health, hist)
    ensures c == b || c == b + 1
  {
    hide NextOk;
    if ops != [] {
      match ops[0]
      case SetStatus(m) => TodoAhead(ops[1..], c, b, Some(m.unreachable), bs, health, hist);
      case SetSnapshot(m) =>
      case Broadcast(m) => if m.Health? { TodoAhead(ops[1..], c, b, cs, cs, health, hist); }
    }
  }

  lemma {:induction false} EmptyStream(hist: seq<seq<Torrent>>)
    ensures DataOnly([]) == [] && LastStatus([]) == None && Trail([], {}, hist) && LastSeq([]) == 0
  {
  }

  lemma {:induction false} TakeIsOk(h: HubState<nat>, id: nat, ops: seq<HubOp<nat>>, health: HealthState,
                                    hist: seq<seq<Torrent>>)
    requires HubReady(h, ops, health, hist) && id in h.subs && h.subs[id].ch != []
    ensures HubReady(Delivered(h, id), ops, health, hist)
  {
    hide NextOk, LastStatus, DataOnly, Trail, LastTick, Todo, Alternating;
    var s := h.subs[id];
    assert (s.taken + [s.ch[0]]) + s.ch[1..] == s.taken + s.ch;
    var h' := Delivered(h, id);
    forall k | k in h'.subs ensures SubOk(h'.subs[k], h', hist) {
      assert SubOk(h.subs[k], h, hist);
    }
  }

  lemma {:induction false} LeaveIsOk(h: HubState<nat>, id: nat, ops: seq<HubOp<nat>>, health: HealthState,
                                     hist: seq<seq<Torrent>>)
    requires HubReady(h, ops, health, hist)
    ensures HubReady(Unsubscribed(h, id), ops, health, hist)
  {
    hide NextOk, LastStatus, DataOnly, Trail, LastTick, Todo, Alternating;
    var h' := Unsubscribed(h, id);
    forall k | k in h'.subs ensures SubOk(h'.subs[k], h', hist) {
      assert SubOk(h.subs[k], h, hist);
    }
  }

  // ---- a poll -------------------------------------------------------------

  ghost predicate PollerOk(p: PollerState, hist: seq<seq<Torrent>>) {
    && p.seqNo == |hist|
    && p.prev == (if hist == [] then None else Some(TableOf(hist[|hist| - 1])))
    && (forall i :: 0 <= i < |hist| ==> UniqueHashes(hist[i]))
  }

  lemma {:induction false} HubGrows(h: HubState<nat>, hist: seq<seq<Torrent>>, ts: seq<Torrent>)
    requires CacheOk(h, hist) && SubsOk(h, hist)
    ensures CacheOk(h, hist + [ts]) && SubsOk(h, hist + [ts])
  {
    hide Trail, DataOnly, LastStatus, LastTick, WireRows, IsDelta;
    forall k | k in h.subs ensures SubOk(h.subs[k], h, hist + [ts]) {
      var s := h.subs[k];
      assert SubOk(s, h, hist);
      TrailGrows(s.taken + s.ch, s.jumps, hist, ts);
    }
  }

  lemma {:induction false} FailureIsOk(h: HubState<nat>, p: PollerState, hist: seq<seq<Torrent>>)
    requires PollerOk(p, hist) && HubReady(h, [], p.health, hist)
    ensures PollerOk(AfterFailure(p), hist) && HubReady(h, FailureOps(p), AfterFailure(p).health, hist)
  {
    hide CacheOk, SubsOk, SentSeq, CachedSeq, CachedStatus, LastStatus, Alternating;
    var ops: seq<HubOp<nat>> := FailureOps(p);
    if ops != [] {
      StatusCasts(true, []);
      StatusTodo(CachedSeq(h), SentSeq(h), CachedStatus(h), LastStatus(h.log), true, [], Unreachable, hist);
      assert StatusOps<nat>(true) + [] == StatusOps<nat>(true);
    }
  }

  /** Publishing a status brings cache and broadcasts to it and goes on. */
  lemma {:induction false} StatusTodo(c: nat, b: nat, cs: Option<bool>, bs: Option<bool>, down: bool,
                                      rest: seq<HubOp<nat>>, health: HealthState, hist: seq<seq<Torrent>>)
    requires cs == bs && bs != Some(down) && Todo(rest, c, b, Some(down), Some(down), health, hist)
    ensures Todo(StatusOps(down) + rest, c, b, cs, bs, health, hist)
  {
    hide NextOk;
    var m := Health(down);
    var ops := StatusOps(down) + rest;
    assert ops[1..] == [Broadcast(m)] + rest && ([Broadcast(m)] + rest)[1..] == rest;
    assert Todo([Broadcast(m)] + rest, c, b, Some(down), bs, health, hist);
    assert ops[0] == SetStatus(m);
  }

  lemma {:induction false} StatusCasts(down: bool, rest: seq<HubOp<nat>>)
    ensures Casts(StatusOps(down) + rest) == 1 + Casts(rest) && Casts(StatusOps(down)) == 1
  {
    var m := Health(down);
    var ops := StatusOps<nat>(down) + rest;
    assert ops[1..] == [Broadcast(m)] + rest && ([Broadcast(m)] + rest)[1..] == rest;
    assert Casts([Broadcast(m)] + rest) == 1 + Casts(rest);
    var only: seq<HubOp<nat>> := [Broadcast(m)];
    assert StatusOps<nat>(down)[1..] == only && only[1..] == [] && Casts(only) == 1;
  }

  lemma {:induction false} DataCasts(snap: Message, data: Message)
    requires D.IsData(data)
    ensures Casts([SetSnapshot(snap), Broadcast(data)]) == 0
  {
    var ops: seq<HubOp<nat>> := [SetSnapshot(snap), Broadcast(data)];
    assert ops[1..] == [Broadcast(data)] && ops[1..][1..] == [];
    assert Casts(ops[1..]) == Casts(ops[1..][1..]) == 0;
  }

  /** Publishing a tick's snapshot and data brings the cache and the broadcasts to it. */
  lemma {:induction false} DataTodo(b: nat, st: Option<bool>, snap: Message, data: Message, hist: seq<seq<Torrent>>)
    requires snap.Snapshot? && NextOk(0, snap, hist) && snap.seqNo == b + 1 == |hist|
    requires NextOk(b, data, hist) && D.IsData(data) && data.seqNo == b + 1 && st == Some(false)
    requires b > 0 ==> data.DeltaMsg?
    ensures Todo([SetSnapshot(snap), Broadcast(data)], b, b, st, st, Up, hist)
  {
    hide NextOk;
    var ops: seq<HubOp<nat>> := [SetSnapshot(snap), Broadcast(data)];
    assert ops[1..] == [Broadcast(data)] && ops[1..][1..] == [];
    assert Todo(ops[1..][1..], b + 1, b + 1, st, st, Up, hist);
    assert Todo(ops[1..], b + 1, b, st, st, Up, hist);
  }

  lemma {:induction false} SuccessIsOk(h: HubState<nat>, p: PollerState, hist: seq<seq<Torrent>>,
                                       ts: int, torrents: seq<Torrent>, ups: seq<Patch>, removed: seq<string>)
    requires PollerOk(p, hist) && HubReady(h, [], p.health, hist)
    requires UniqueHashes(torrents) && IsDelta(PrevTable(p), torrents, ups, removed)
    ensures PollerOk(AfterSuccess(p, torrents), hist + [torrents])
    ensures HubReady(h, SuccessOps(p, ts, torrents, ups, removed), Up, hist + [torrents])
  {
    hide CacheOk, SubsOk, SentSeq, CachedSeq, CachedStatus, LastStatus, UniqueHashes, IsDelta, WireRows, TableOf,
         Alternating;
    HubGrows(h, hist, torrents);
    var b, st := |hist|, StatusOf(p.health);
    var hist' := hist + [torrents];
    var snap, data := SnapshotOf(p, ts, torrents), DataOf(p, ts, torrents, ups, removed);
    assert hist'[b] == torrents;
    assert NextOk(0, snap, hist') && NextOk(b, data, hist');
    DataTodo(b, Some(false), snap, data, hist');
    var tail: seq<HubOp<nat>> := [SetSnapshot(snap), Broadcast(data)];
    var ops: seq<HubOp<nat>> := SuccessOps(p, ts, torrents, ups, removed);
    DataCasts(snap, data);
    if p.health != Up {
      StatusCasts(false, tail);
      StatusTodo(b, b, st, st, false, tail, Up, hist');
      assert ops == StatusOps(false) + tail;
    } else {
      assert ops == [] + tail == tail;
    }
  }
}
