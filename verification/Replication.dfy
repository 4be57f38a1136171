/**
 The live replication path as one labelled transition system: polls, the hub operations
 of a tick one at a time, subscriptions, deliveries, the network, and a browser running
 the driver. Any step may be taken at any moment it is enabled, so a subscription can
 land between the caching of a snapshot and its broadcast.
 */
module Replication {
  import opened Options
  import opened Wire
  import opened Delta
  import opened Hubs
  import opened Pollers
  import opened DriverInvariants
  import D = Driver

  /** One connection's stream: what its handler has written, how much of that the browser
      has dispatched, and the places of the ticks in it that follow a lost one. */
  datatype Link = Link(sent: seq<Message>, got: nat, jumps: set<nat>)

  /** `hist` is the torrent list of every successful tick, tick n at index n - 1. */
  datatype Sys = Sys(
    poller: PollerState, pending: seq<HubOp<nat>>, hub: HubState<nat>,
    links: map<nat, Link>, browser: D.World, hist: seq<seq<Torrent>>)

  datatype Label =
    | Poll(out: Outcome, ups: seq<Patch>, removed: seq<string>)
    | Publish
    | Accept(id: nat)
    | Leave(id: nat)
    | Send(id: nat)
    | Dispatch(id: nat)
    | Browse(e: D.Event)

  // ---- the steps ----------------------------------------------------------

  /** A poll starts when the previous tick has published everything. */
  ghost predicate PollEnabled(s: Sys, out: Outcome, ups: seq<Patch>, removed: seq<string>) {
    && s.pending == []
    && (out.Polled? ==> UniqueHashes(out.torrents) && IsDelta(PrevTable(s.poller), out.torrents, ups, removed))
  }

  function Polling(s: Sys, out: Outcome, ups: seq<Patch>, removed: seq<string>): Sys {
    match out
    case Failed => s.(poller := AfterFailure(s.poller), pending := FailureOps(s.poller))
    case Polled(ts, torrents) =>
      s.(poller := AfterSuccess(s.poller, torrents), hist := s.hist + [torrents],
         pending := SuccessOps(s.poller, ts, torrents, ups, removed))
  }

  function Accepted(s: Sys, id: nat): Sys {
    s.(hub := Subscribed(s.hub, id), links := s.links[id := Link([], 0, {})])
  }

  /** The handler writes its oldest message. */
  function Carried(l: Link, sub: Sub): Link
    requires sub.ch != []
  {
    l.(sent := l.sent + [sub.ch[0]], jumps := if |sub.taken| in sub.jumps then l.jumps + {|l.sent|} else l.jumps)
  }

  function Sending(s: Sys, id: nat): Sys
    requires id in s.hub.subs && s.hub.subs[id].ch != [] && id in s.links
  {
    var sub, l := s.hub.subs[id], s.links[id];
    s.(hub := Delivered(s.hub, id), links := s.links[id := Carried(l, sub)])
  }

  function Dispatching(s: Sys, id: nat): Sys
    requires id in s.links && s.links[id].got < |s.links[id].sent|
  {
    var l := s.links[id];
    s.(browser := D.Step(s.browser, D.Event.Message(id, l.sent[l.got])), links := s.links[id := l.(got := l.got + 1)])
  }

  ghost function Step(s: Sys, a: Label): Sys {
    match a
    case Poll(out, ups, removed) => if PollEnabled(s, out, ups, removed) then Polling(s, out, ups, removed) else s
    case Publish => if s.pending == [] then s else s.(hub := HubStep(s.hub, s.pending[0]), pending := s.pending[1..])
    case Accept(id) => if id in s.browser.net.sources && id !in s.links then Accepted(s, id) else s
    case Leave(id) => s.(hub := Unsubscribed(s.hub, id))
    case Send(id) => if id in s.hub.subs && s.hub.subs[id].ch != [] && id in s.links then Sending(s, id) else s
    case Dispatch(id) =>
      if id in s.links && s.links[id].got < |s.links[id].sent| && D.Dispatches(s.browser, id) then Dispatching(s, id)
      else s
    case Browse(e) => if e.Message? then s else s.(browser := D.Step(s.browser, e))
  }

  ghost function Run(visible: bool, now: int, trace: seq<Label>): Sys {
    if trace == [] then
      Sys(START, [], HubState(map[], None, None, false, []), map[], D.Begin(visible, now), [])
    else Step(Run(visible, now, trace[..|trace| - 1]), trace[|trace| - 1])
  }

  // ---- streams ------------------------------------------------------------

  /** The snapshots and deltas of a stream. */
  function DataOnly(msgs: seq<Message>): (r: seq<Message>)
    ensures forall i :: 0 <= i < |r| ==> D.IsData(r[i])
  {
    if msgs == [] then []
    else
      var before, m := DataOnly(msgs[..|msgs| - 1]), msgs[|msgs| - 1];
      if D.IsData(m) then before + [m] else before
  }

  /** The last health value of a stream. */
  function LastStatus(msgs: seq<Message>): Option<bool> {
    if msgs == [] then None
    else
      var m := msgs[|msgs| - 1];
      if m.Health? then Some(m.unreachable) else LastStatus(msgs[..|msgs| - 1])
  }

  /** A data message that takes a client at tick e to its own tick. */
  ghost predicate NextOk(e: nat, m: Message, hist: seq<seq<Torrent>>) {
    match m
    case Snapshot(n, _, rows) => 1 <= n <= |hist| && rows == WireRows(hist[n - 1])
    case DeltaMsg(n, _, ups, removed) =>
      2 <= n <= |hist| && (e == n - 1 || e == n) && IsDelta(TableOf(hist[n - 2]), hist[n - 1], ups, removed)
    case Health(_) => false
  }

  ghost predicate PathOk(data: seq<Message>, hist: seq<seq<Torrent>>)
    requires forall i :: 0 <= i < |data| ==> D.IsData(data[i])
  {
    data == [] ||
    (var before, m := data[..|data| - 1], data[|data| - 1];
     PathOk(before, hist) && NextOk(LastSeq(before), m, hist))
  }

  lemma {:induction false} DataAppend(a: seq<Message>, m: Message)
    ensures DataOnly(a + [m]) == if D.IsData(m) then DataOnly(a) + [m] else DataOnly(a)
    ensures LastStatus(a + [m]) == if m.Health? then Some(m.unreachable) else LastStatus(a)
  {
    assert (a + [m])[..|a|] == a;
  }

  lemma {:induction false} NoData()
    ensures DataOnly([]) == []
  {
  }

  lemma {:induction false} NextIsData(e: nat, m: Message, hist: seq<seq<Torrent>>)
    requires NextOk(e, m, hist)
    ensures D.IsData(m) && 1 <= m.seqNo <= |hist|
  {
  }

  // ---- trails -------------------------------------------------------------

  /** One message of a stream that has reached tick e: a health value, a step to the next
      tick, or, after a loss, a delta of a tick further on. */
  ghost predicate StepOk(e: nat, m: Message, jump: bool, hist: seq<seq<Torrent>>) {
    if m.Health? then !jump
    else if jump then m.DeltaMsg? && 0 < e && e + 1 < m.seqNo <= |hist|
    else NextOk(e, m, hist)
  }

  /** A stream that is a path but for the jumps after a loss. */
  ghost predicate Trail(stream: seq<Message>, jumps: set<nat>, hist: seq<seq<Torrent>>) {
    stream == [] ||
    (var before := stream[..|stream| - 1];
     Trail(before, jumps, hist)
     && StepOk(LastSeq(DataOnly(before)), stream[|stream| - 1], |before| in jumps, hist))
  }

  ghost predicate SameBelow(n: nat, a: set<nat>, b: set<nat>) { forall j :: 0 <= j < n ==> (j in a <==> j in b) }

  lemma {:induction false} TrailSame(stream: seq<Message>, a: set<nat>, b: set<nat>, hist: seq<seq<Torrent>>)
    requires Trail(stream, a, hist) && SameBelow(|stream|, a, b)
    ensures Trail(stream, b, hist)
  {
    if stream != [] {
      hide StepOk, DataOnly;
      var before := stream[..|stream| - 1];
      TrailSame(before, a, b, hist);
      assert |before| in a <==> |before| in b;
    }
  }

  lemma {:induction false} TrailAppend(stream: seq<Message>, m: Message, a: set<nat>, b: set<nat>,
                                       hist: seq<seq<Torrent>>)
    requires Trail(stream, a, hist) && SameBelow(|stream|, a, b)
    requires StepOk(LastSeq(DataOnly(stream)), m, |stream| in b, hist)
    ensures Trail(stream + [m], b, hist)
  {
    hide StepOk, DataOnly;
    TrailSame(stream, a, b, hist);
    assert (stream + [m])[..|stream|] == stream && (stream + [m])[|stream|] == m;
  }

  lemma {:induction false} TrailPrefix(a: seq<Message>, b: seq<Message>, jumps: set<nat>, hist: seq<seq<Torrent>>)
    requires Trail(a + b, jumps, hist)
    ensures Trail(a, jumps, hist)
    ensures b != [] ==> StepOk(LastSeq(DataOnly(a)), b[0], |a| in jumps, hist)
  {
    hide StepOk, DataOnly;
    if b == [] {
      assert a + b == a;
    } else {
      var before := b[..|b| - 1];
      assert (a + b)[..|a + b| - 1] == a + before;
      TrailPrefix(a, before, jumps, hist);
      if |b| == 1 { assert a + before == a; }
    }
  }

  lemma {:induction false} TrailGrows(stream: seq<Message>, jumps: set<nat>, hist: seq<seq<Torrent>>, ts: seq<Torrent>)
    requires Trail(stream, jumps, hist)
    ensures Trail(stream, jumps, hist + [ts])
  {
    if stream != [] {
      hide IsDelta, WireRows, DataOnly;
      TrailGrows(stream[..|stream| - 1], jumps, hist, ts);
    }
  }

  ghost predicate NoneBelow(n: nat, jumps: set<nat>) { forall j :: 0 <= j < n ==> j !in jumps }

  lemma {:induction false} NoneBelowNext(n: nat, jumps: set<nat>)
    ensures NoneBelow(n + 1, jumps) <==> NoneBelow(n, jumps) && n !in jumps
  {
  }

  ghost predicate OnPath(stream: seq<Message>, hist: seq<seq<Torrent>>) { PathOk(DataOnly(stream), hist) }

  /** A trail is a path, each tick the next one, if and only if it has no jump. */
  lemma {:induction false} TrailIffPath(stream: seq<Message>, jumps: set<nat>, hist: seq<seq<Torrent>>)
    requires Trail(stream, jumps, hist)
    ensures OnPath(stream, hist) <==> NoneBelow(|stream|, jumps)
  {
    if stream == [] {
      NoData();
    } else {
      hide DataOnly, OnPath, StepOk, NoneBelow;
      var before, m := stream[..|stream| - 1], stream[|stream| - 1];
      TrailIffPath(before, jumps, hist);
      assert before + [m] == stream;
      PathGoesOn(before, m, jumps, hist);
    }
  }

  lemma {:induction false} PathGoesOn(before: seq<Message>, m: Message, jumps: set<nat>, hist: seq<seq<Torrent>>)
    requires StepOk(LastSeq(DataOnly(before)), m, |before| in jumps, hist)
    requires OnPath(before, hist) <==> NoneBelow(|before|, jumps)
    ensures OnPath(before + [m], hist) <==> NoneBelow(|before| + 1, jumps)
  {
    hide DataOnly, PathOk, StepOk, NoneBelow;
    DataAppend(before, m);
    NoneBelowNext(|before|, jumps);
    StepIff(DataOnly(before), m, |before| in jumps, hist);
  }

  /** A step goes on along the path if and only if it is no jump. */
  lemma {:induction false} StepIff(data: seq<Message>, m: Message, jump: bool, hist: seq<seq<Torrent>>)
    requires forall i :: 0 <= i < |data| ==> D.IsData(data[i])
    requires StepOk(LastSeq(data), m, jump, hist)
    ensures D.IsData(m) ==> (PathOk(data + [m], hist) <==> PathOk(data, hist) && !jump)
    ensures !D.IsData(m) ==> !jump
  {
    hide PathOk, IsDelta, WireRows;
    if D.IsData(m) {
      PathIff(data, m, hist);
    }
  }

  lemma {:induction false} PathIff(data: seq<Message>, m: Message, hist: seq<seq<Torrent>>)
    requires D.IsData(m) && forall i :: 0 <= i < |data| ==> D.IsData(data[i])
    requires forall i :: 0 <= i < |data + [m]| ==> D.IsData((data + [m])[i])
    ensures PathOk(data + [m], hist) <==> PathOk(data, hist) && NextOk(LastSeq(data), m, hist)
  {
    hide NextOk;
    var all := data + [m];
    assert all[..|all| - 1] == data && all[|all| - 1] == m;
  }

  lemma {:induction false} TrailSeq(stream: seq<Message>, jumps: set<nat>, hist: seq<seq<Torrent>>)
    requires Trail(stream, jumps, hist)
    ensures LastSeq(DataOnly(stream)) <= |hist| && (LastSeq(DataOnly(stream)) == 0 <==> DataOnly(stream) == [])
  {
    if stream == [] {
      NoData();
    } else {
      hide DataOnly, IsDelta, WireRows;
      var before, m := stream[..|stream| - 1], stream[|stream| - 1];
      TrailSeq(before, jumps, hist);
      assert before + [m] == stream;
      DataAppend(before, m);
      if D.IsData(m) { LastOf(DataOnly(before), m); }
    }
  }

  lemma {:induction false} LastOf(data: seq<Message>, m: Message)
    requires D.IsData(m) && forall i :: 0 <= i < |data| ==> D.IsData(data[i])
    requires forall i :: 0 <= i < |data + [m]| ==> D.IsData((data + [m])[i])
    ensures LastSeq(data + [m]) == m.seqNo && data + [m] != []
  {
  }

  /** The hub's own notion of how far a stream has got. */
  lemma {:induction false} TickIsSeq(stream: seq<Message>)
    ensures LastTick(stream) == LastSeq(DataOnly(stream))
  {
    if stream == [] {
      NoData();
    } else {
      hide DataOnly;
      var before, m := stream[..|stream| - 1], stream[|stream| - 1];
      TickIsSeq(before);
      assert before + [m] == stream;
      DataAppend(before, m);
      if D.IsData(m) { LastOf(DataOnly(before), m); }
    }
  }

  // ---- the client's rows --------------------------------------------------

  ghost predicate AllTyped(ups: seq<Patch>) {
    forall i :: 0 <= i < |ups| ==> WellTyped(ups[i])
  }

  ghost function Applied(c: Rows, m: Message): Rows {
    match m
    case Snapshot(_, _, rows) => SnapshotApplied(c, rows)
    case DeltaMsg(_, _, ups, removed) => if AllTyped(ups) then DeltaApplied(c, ups, removed) else c
    case Health(_) => c
  }

  /** The store's rows after everything the driver has handed it. */
  ghost function ClientRows(applied: seq<Message>): Rows {
    if applied == [] then map[] else Applied(ClientRows(applied[..|applied| - 1]), applied[|applied| - 1])
  }

  /** The rows of one tick, on all wire fields. */
  ghost function RowsOf(ts: seq<Torrent>): Rows { ViewOf(TableOf(ts)) }

  lemma {:induction false} RowsAreWire(ts: seq<Torrent>)
    ensures RowMap(WireRows(ts)) == RowsOf(ts)
  {
    hide WireRows, RowMap, TableOf, ViewOf;
    NothingLands(map[]);
    assert WireRows([]) == [];
    if ts != [] {
      var before, t := ts[..|ts| - 1], ts[|ts| - 1];
      RowsAreWire(before);
      assert WireRows(ts) == WireRows(before) + [t.wire];
      AppendRow(WireRows(before), t.wire);
      assert before + [t] == ts;
      ViewGrows(before, t);
    }
  }

  lemma {:induction false} RowsKeepHash(applied: seq<Message>)
    ensures forall h :: h in ClientRows(applied) ==> ClientRows(applied)[h].hash == h
  {
    hide WellTyped, Upserted, FullPatches, RowMap, SetOf;
    if applied != [] {
      var c, m := ClientRows(applied[..|applied| - 1]), applied[|applied| - 1];
      RowsKeepHash(applied[..|applied| - 1]);
      match m
      case Snapshot(_, _, rows) => UpsertRowHash(c, FullPatches(rows));
      case DeltaMsg(_, _, ups, _) => if AllTyped(ups) { UpsertRowHash(c, ups); }
      case Health(_) =>
    }
  }

  /** One step along a path takes one tick's rows to another's. */
  lemma {:induction false} ClientFollows(c: Rows, e: nat, m: Message, hist: seq<seq<Torrent>>)
    requires NextOk(e, m, hist) && forall h :: h in c ==> c[h].hash == h
    requires forall i :: 0 <= i < |hist| ==> UniqueHashes(hist[i])
    requires e > 0 ==> e <= |hist| && c == RowsOf(hist[e - 1])
    ensures 1 <= m.seqNo <= |hist| && Applied(c, m) == RowsOf(hist[m.seqNo - 1])
  {
    hide WireRows, SnapshotApplied, DeltaApplied, TableOf, ViewOf, Hashes, UniqueHashes, WellTyped, AreUpserts;
    match m
    case Snapshot(n, _, rows) =>
      SnapshotErasesPast(c, rows);
      RowsAreWire(hist[n - 1]);
    case DeltaMsg(n, _, ups, removed) =>
      TableKeys(hist[n - 2]);
      DeltaLaw(TableOf(hist[n - 2]), hist[n - 1], ups, removed);
  }
}
