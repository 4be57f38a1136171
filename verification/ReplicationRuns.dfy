/**
 Every run of the replication system, and what its client shows.
 */
module ReplicationRuns {
  import opened Options
  import opened Wire
  import opened Delta
  import opened Hubs
  import opened Pollers
  import opened DriverInvariants
  import D = Driver
  import opened Replication
  import opened ReplicationServer

  // ---- the browser --------------------------------------------------------

  /** The held source, if any, is either the one held before with nothing more heard on
      it, or one just made that has heard nothing; the stores were handed nothing. */
  ghost predicate Rests(w: D.World, w': D.World) {
    && w'.applied == w.applied && w'.warnings == w.warnings
    && w.net.sources.Keys <= w'.net.sources.Keys
    && (w'.net.es.Some? ==> w'.net.es.value in w'.net.sources && (SameSource(w, w') || NewSource(w, w')))
  }

  ghost predicate SameSource(w: D.World, w': D.World)
    requires w'.net.es.Some? && w'.net.es.value in w'.net.sources
  {
    var id := w'.net.es.value;
    && w.net.es == Some(id) && id in w.net.sources
    && w'.net.sources[id].dispatched == w.net.sources[id].dispatched
    && w'.health.srvDown == w.health.srvDown
  }

  ghost predicate NewSource(w: D.World, w': D.World)
    requires w'.net.es.Some? && w'.net.es.value in w'.net.sources
  {
    var id := w'.net.es.value;
    id !in w.net.sources && w'.net.sources[id].dispatched == [] && !w'.health.srvDown
  }

  /** The same, for a world that holds no source any more or a new one. */
  ghost predicate Renewed(w: D.World, w': D.World) {
    && w'.applied == w.applied && w'.warnings == w.warnings
    && w.net.sources.Keys <= w'.net.sources.Keys
    && (w'.net.es.Some? ==> w'.net.es.value in w'.net.sources && NewSource(w, w'))
  }

  lemma {:induction false} CloseKeeps(w: D.World)
    ensures var c := D.CloseES(w);
      c.applied == w.applied && c.warnings == w.warnings && c.net.es.None? && c.net.sources.Keys == w.net.sources.Keys
  {
  }

  lemma {:induction false} IdleRenews(w: D.World)
    ensures Renewed(w, D.GoIdle(w)) && D.GoIdle(w).net.es.None?
  {
    hide D.Close, D.ClearOnClose, D.ClearGrace;
    CloseKeeps(w.(timers := D.ClearGrace(w.timers)));
  }

  lemma {:induction false} OpenRenews(w: D.World)
    requires NetOk(w.net)
    ensures Renewed(w, D.Open(w))
  {
    hide D.Close, D.ClearOnClose, LogOk;
    CloseKeeps(w);
    CloseNet(w.net);
    var c := D.CloseES(w).net;
    assert |c.sources| !in c.sources;
    assert D.Open(w).net == D.Create(c);
    assert D.Create(c).sources.Keys == c.sources.Keys + {|c.sources|};
  }

  lemma {:induction false} OpenOrIdleRenews(w: D.World)
    requires NetOk(w.net)
    ensures Renewed(w, D.OpenOrIdle(w))
  {
    hide NetOk, Renewed, D.Open, D.GoIdle;
    if w.visible { OpenRenews(w); } else { IdleRenews(w); }
  }

  /** The browser's own events. */
  lemma {:induction false} BrowserRests(w: D.World, e: D.Event)
    requires Inv(w) && !e.Message?
    ensures Rests(w, D.Step(w, e))
  {
    hide NetOk, TimersOk, Backoff, ConnectionOk, D.Resolve, D.ArmHealth, D.ClearHealth, D.ClearGrace, D.ArmGrace,
         D.ArmRetry,
         D.GoIdle, D.Open, D.OpenOrIdle, D.CloseES, D.KeepOnShow;
    assert w.net.es.Some? ==> w.net.es.value in w.net.sources by { HeldIsKnown(w); }
    match e
    case Opened(id) => ReadyKeys(w, id, D.OPEN);
    case Failed(id, fatal) =>
      if D.Dispatches(w, id) { FailureRests(w, id, if fatal then D.CLOSED else D.CONNECTING); }
    case TimerFires(t) => if t in w.timers.pending { FireRests(w, t); }
    case VisibilityChanges(v) =>
      if !w.stopped {
        if v { ShowRests(w); } else { IdleRenews(Shown(w, false)); }
      }
    case Freezes => IdleRenews(w.(visible := false));
    case Resumes => WakeRests(w);
    case PageHides => IdleRenews(w.(visible := false));
    case PageShows(persisted) => WakeRests(w);
    case TimePasses(ms) =>
    case Stops => CloseKeeps(w.(stopped := true, timers := D.ClearGrace(w.timers)));
  }

  lemma {:induction false} HeldIsKnown(w: D.World)
    requires Inv(w)
    ensures NetOk(w.net) && (w.net.es.Some? ==> w.net.es.value in w.net.sources)
    ensures forall id :: id in w.net.sources ==> (w.net.es == Some(id) <==> D.Dispatches(w, id))
  {
    hide TimersOk, Backoff, ConnectionOk, D.Resolve;
  }

  lemma {:induction false} ReadyKeys(w: D.World, id: nat, r: D.Ready)
    ensures id in w.net.sources ==>
      var n := D.SetReady(w.net, id, r);
      && n.sources.Keys == w.net.sources.Keys && n.es == w.net.es && n.gen == w.net.gen
      && forall k :: k in n.sources ==> n.sources[k].dispatched == w.net.sources[k].dispatched
  {
  }

  lemma {:induction false} FailureRests(w: D.World, id: nat, r: D.Ready)
    requires Inv(w) && D.Dispatches(w, id)
    ensures Rests(w, D.OnError(w.(net := D.SetReady(w.net, id, r)), id))
  {
    hide NetOk, TimersOk, Backoff, ConnectionOk, D.Resolve, D.ArmRetry, D.GoIdle, D.CloseES, D.SetReady;
    ReadyKeys(w, id, r);
    HeldIsKnown(w);
    var w1 := w.(net := D.SetReady(w.net, id, r));
    CloseKeeps(w1);
    IdleRenews(D.CloseES(w1));
  }

  lemma {:induction false} FireRests(w: D.World, t: nat)
    requires Inv(w) && t in w.timers.pending
    ensures Rests(w, D.Fire(w, t))
  {
    hide TimersOk, Backoff, ConnectionOk, D.Resolve, D.GoIdle, D.OpenOrIdle, NetOk;
    HeldIsKnown(w);
    var left := w.timers.(pending := w.timers.pending - {t});
    match w.timers.pending[t]
    case GraceTimer => IdleRenews(w.(timers := left.(grace := None)));
    case RetryTimer(g, _) => OpenOrIdleRenews(w.(timers := left.(retry := None)));
    case HealthTimer =>
  }

  lemma {:induction false} ShowRests(w: D.World)
    requires Inv(w)
    ensures Rests(w, D.OnShow(Shown(w, true)))
  {
    hide TimersOk, Backoff, ConnectionOk, D.Resolve, D.Open, D.KeepOnShow, D.ArmHealth, D.ClearGrace, NetOk;
    HeldIsKnown(w);
    var c := Shown(w, true).(timers := D.ClearGrace(w.timers));
    OpenRenews(if w.net.es.Some? then c.(conn := D.Connecting) else c);
  }

  lemma {:induction false} WakeRests(w: D.World)
    requires Inv(w)
    ensures Rests(w, D.OnWake(w))
  {
    hide TimersOk, Backoff, ConnectionOk, D.Resolve, D.OnShow, NetOk;
    HeldIsKnown(w);
    ShowRests(w);
    if w.docVisible { assert w.(visible := w.docVisible) == Shown(w, true); }
  }

  lemma {:induction false} StatusHeard(w: D.World, id: nat, m: Message)
    requires Inv(w) && w.net.es == Some(id) && m.Health?
    ensures var w' := D.Step(w, D.Event.Message(id, m));
      && w'.net == w.net && w'.applied == w.applied && w'.warnings == w.warnings && w'.health.srvDown == m.unreachable
      && w'.gauge == w.gauge
  {
    hide NetOk, TimersOk, Backoff, ConnectionOk, D.Resolve, D.Current, D.Dispatches;
    DispatchIsCurrent(w, id);
  }

  /** A data message is applied, or its connection is given up. */
  lemma {:induction false} DataHeard(w: D.World, id: nat, m: Message)
    requires Inv(w) && w.net.es == Some(id) && D.IsData(m) && id in w.net.sources
    ensures var w' := D.Step(w, D.Event.Message(id, m));
      && (D.Stale(w.gauge, w.now, m.ts) ==> Renewed(w, w'))
      && (!D.Stale(w.gauge, w.now, m.ts) ==>
       && w'.net.es == Some(id) && w'.net.sources.Keys == w.net.sources.Keys
       && w'.net.sources[id].dispatched == w.net.sources[id].dispatched + [m]
       && w'.applied == w.applied + [m] && w'.health.srvDown == w.health.srvDown && w'.gauge.lastSeq == m.seqNo
       && w'.warnings == w.warnings + (if D.Gap(w.gauge, m) then 1 else 0))
  {
    hide TimersOk, Backoff, ConnectionOk, D.Resolve, D.Current, D.Dispatches, D.Gap, D.Stale, D.Gauged, D.ArmHealth,
         D.OpenOrIdle, D.CloseES, NetOk;
    DispatchIsCurrent(w, id);
    LogKeepsCurrent(w, id, m);
    if D.Stale(w.gauge, w.now, m.ts) {
      var w1 := w.(net := D.LogDispatch(w.net, id, m), gauge := D.Gauged(w.gauge, w.now, m.ts).(lastMsgAt := w.now));
      DroppedNet(w.net, id, m);
      CloseKeeps(w1);
      assert NetOk(D.CloseES(w1).net) by { ClosedNetIs(w1); }
      OpenOrIdleRenews(D.CloseES(w1));
      assert w1.net.sources.Keys == w.net.sources.Keys;
    }
  }

  lemma {:induction false} ClosedNetIs(w: D.World)
    ensures D.CloseES(w).net == D.Close(w.net)
  {
  }

  // ---- the whole system ---------------------------------------------------

  /** What the browser has dispatched of a source's stream. */
  function Heard(links: map<nat, Link>, id: nat): seq<Message> {
    if id in links && links[id].got <= |links[id].sent| then links[id].sent[..links[id].got] else []
  }

  /** No tick that follows a lost one has been dispatched from the link. */
  ghost predicate Whole(links: map<nat, Link>, id: nat) {
    id in links ==> forall j :: j in links[id].jumps ==> j >= links[id].got
  }

  ghost predicate LinkOk(id: nat, l: Link, subs: map<nat, Sub>, sources: set<nat>, hist: seq<seq<Torrent>>) {
    && l.got <= |l.sent| && id in sources
    && (forall j :: j in l.jumps ==> j < |l.sent|) && Trail(l.sent, l.jumps, hist)
    && (id in subs ==> l.sent == subs[id].taken && SameBelow(|l.sent|, l.jumps, subs[id].jumps))
  }

  ghost predicate LinksOk(links: map<nat, Link>, subs: map<nat, Sub>, sources: set<nat>, hist: seq<seq<Torrent>>) {
    && (forall id :: id in links ==> LinkOk(id, links[id], subs, sources, hist))
    && (forall id :: id in subs ==> id in links)
  }

  /** The rows of tick n, and nothing else. */
  ghost predicate AtTick(applied: seq<Message>, n: nat, hist: seq<seq<Torrent>>) {
    1 <= n <= |hist| && ClientRows(applied) == RowsOf(hist[n - 1])
  }

  ghost predicate AtSomeTick(applied: seq<Message>, hist: seq<seq<Torrent>>) {
    applied == [] || exists n :: AtTick(applied, n, hist)
  }

  /** The held source has heard exactly what its link dispatched. */
  ghost predicate HeldOk(w: D.World, links: map<nat, Link>, hist: seq<seq<Torrent>>) {
    w.net.es.Some? ==>
      var id := w.net.es.value;
      && id in w.net.sources
      && w.net.sources[id].dispatched == DataOnly(Heard(links, id))
      && w.health.srvDown == (LastStatus(Heard(links, id)) == Some(true))
      && (Whole(links, id) && DataOnly(Heard(links, id)) != [] ==>
            AtTick(w.applied, LastSeq(DataOnly(Heard(links, id))), hist))
      && (w.warnings == 0 ==> Whole(links, id))
  }

  /** As long as no gap was warned of, the rows are those of one tick. */
  ghost predicate ViewOk(w: D.World, hist: seq<seq<Torrent>>) {
    w.warnings == 0 ==> AtSomeTick(w.applied, hist)
  }

  ghost predicate SysOk(s: Sys) {
    && PollerOk(s.poller, s.hist)
    && HubReady(s.hub, s.pending, s.poller.health, s.hist)
    && LinksOk(s.links, s.hub.subs, s.browser.net.sources.Keys, s.hist)
    && Inv(s.browser)
    && HeldOk(s.browser, s.links, s.hist)
    && ViewOk(s.browser, s.hist)
  }

  lemma {:induction false} LinksGrow(links: map<nat, Link>, subs: map<nat, Sub>, sources: set<nat>,
                                     hist: seq<seq<Torrent>>, ts: seq<Torrent>)
    requires LinksOk(links, subs, sources, hist)
    ensures LinksOk(links, subs, sources, hist + [ts])
  {
    hide Trail;
    forall id | id in links ensures LinkOk(id, links[id], subs, sources, hist + [ts]) {
      assert LinkOk(id, links[id], subs, sources, hist);
      TrailGrows(links[id].sent, links[id].jumps, hist, ts);
    }
  }

  lemma {:induction false} TickStays(applied: seq<Message>, n: nat, hist: seq<seq<Torrent>>, ts: seq<Torrent>)
    requires AtTick(applied, n, hist)
    ensures AtTick(applied, n, hist + [ts])
  {
    hide ClientRows, RowsOf;
  }

  lemma {:induction false} ClientGrows(w: D.World, links: map<nat, Link>, hist: seq<seq<Torrent>>, ts: seq<Torrent>)
    requires HeldOk(w, links, hist) && ViewOk(w, hist)
    ensures HeldOk(w, links, hist + [ts]) && ViewOk(w, hist + [ts])
  {
    hide DataOnly, LastStatus, Heard, AtTick, Whole;
    forall n | AtTick(w.applied, n, hist) ensures AtTick(w.applied, n, hist + [ts]) {
      TickStays(w.applied, n, hist, ts);
    }
  }

  lemma {:induction false} PollKeeps(s: Sys, out: Outcome, ups: seq<Patch>, removed: seq<string>)
    requires SysOk(s) && PollEnabled(s, out, ups, removed)
    ensures SysOk(Polling(s, out, ups, removed))
  {
    hide PollerOk, HubReady, LinksOk, Inv, HeldOk, ViewOk, IsDelta, FailureOps, SuccessOps, UniqueHashes;
    match out
    case Failed => FailureIsOk(s.hub, s.poller, s.hist);
    case Polled(ts, torrents) =>
      SuccessIsOk(s.hub, s.poller, s.hist, ts, torrents, ups, removed);
      assert AfterSuccess(s.poller, torrents).health == Up;
      LinksGrow(s.links, s.hub.subs, s.browser.net.sources.Keys, s.hist, torrents);
      ClientGrows(s.browser, s.links, s.hist, torrents);
  }

  /** A broadcast changes nothing of what a subscriber has taken. */
  lemma {:induction false} PublishLinks(h: HubState<nat>, op: HubOp<nat>, links: map<nat, Link>, sources: set<nat>,
                                        hist: seq<seq<Torrent>>)
    requires LinksOk(links, h.subs, sources, hist) && (op.Broadcast? || op.SetSnapshot? || op.SetStatus?)
    ensures LinksOk(links, HubStep(h, op).subs, sources, hist)
  {
    hide Trail, Broadcasted, LastTick;
    if op.Broadcast? { BroadcastKeys(h, op.m); }
    var subs' := HubStep(h, op).subs;
    forall id | id in links ensures LinkOk(id, links[id], subs', sources, hist) {
      assert LinkOk(id, links[id], h.subs, sources, hist);
    }
    forall id | id in subs' ensures id in links {
      assert id in h.subs.Keys;
    }
  }

  lemma {:induction false} PublishKeeps(s: Sys)
    requires SysOk(s) && s.pending != []
    ensures SysOk(Step(s, Publish))
  {
    hide PollerOk, HubReady, LinksOk, Inv, HeldOk, ViewOk, HubStep;
    PublishIsOk(s.hub, s.pending, s.poller.health, s.hist);
    TodoHead(s.hub, s.pending, s.poller.health, s.hist);
    PublishLinks(s.hub, s.pending[0], s.links, s.browser.net.sources.Keys, s.hist);
  }

  lemma {:induction false} AcceptKeeps(s: Sys, id: nat)
    requires SysOk(s) && id in s.browser.net.sources && id !in s.links
    ensures SysOk(Accepted(s, id))
  {
    hide PollerOk, HubReady, Trail, Inv, LastStatus, DataOnly, AtTick, Subscribed;
    JoinIsOk(s.hub, id, s.pending, s.poller.health, s.hist);
    var s' := Accepted(s, id);
    EmptyStream(s.hist);
    forall k | k in s'.links ensures LinkOk(k, s'.links[k], s'.hub.subs, s'.browser.net.sources.Keys, s'.hist) {
      if k != id { assert LinkOk(k, s.links[k], s.hub.subs, s.browser.net.sources.Keys, s.hist); }
    }
    assert forall k :: k in s'.hub.subs ==> k in s'.links;
    assert forall k :: Heard(s'.links, k) == Heard(s.links, k);
    forall k ensures Whole(s'.links, k) == Whole(s.links, k) {
      if k in s.links { assert s'.links[k] == s.links[k]; }
    }
  }

  lemma {:induction false} LeaveKeeps(s: Sys, id: nat)
    requires SysOk(s)
    ensures SysOk(Step(s, Leave(id)))
  {
    hide PollerOk, HubReady, Trail, Inv, HeldOk, ViewOk;
    LeaveIsOk(s.hub, id, s.pending, s.poller.health, s.hist);
    var s' := Step(s, Leave(id));
    forall k | k in s'.links ensures LinkOk(k, s'.links[k], s'.hub.subs, s'.browser.net.sources.Keys, s'.hist) {
      assert LinkOk(k, s.links[k], s.hub.subs, s.browser.net.sources.Keys, s.hist);
    }
  }

  lemma {:induction false} SendLinks(s: Sys, id: nat)
    requires SysOk(s) && id in s.hub.subs && s.hub.subs[id].ch != [] && id in s.links
    ensures var s' := Sending(s, id);
      LinksOk(s'.links, s'.hub.subs, s'.browser.net.sources.Keys, s'.hist)
  {
    hide PollerOk, Trail, Inv, HeldOk, ViewOk, CacheOk, TodoOk, TickOk, LastTick, LastStatus, Alternating, EarlyOk;
    var s' := Sending(s, id);
    forall k | k in s'.links ensures LinkOk(k, s'.links[k], s'.hub.subs, s'.browser.net.sources.Keys, s'.hist) {
      assert LinkOk(k, s.links[k], s.hub.subs, s.browser.net.sources.Keys, s.hist);
      if k == id {
        var sub := s.hub.subs[id];
        assert SubOk(sub, s.hub, s.hist);
        assert (sub.taken + [sub.ch[0]]) + sub.ch[1..] == sub.taken + sub.ch;
        TrailPrefix(sub.taken + [sub.ch[0]], sub.ch[1..], sub.jumps, s.hist);
        TrailSame(sub.taken + [sub.ch[0]], sub.jumps, s'.links[id].jumps, s.hist);
      }
    }
  }

  lemma {:induction false} SendKeeps(s: Sys, id: nat)
    requires SysOk(s) && id in s.hub.subs && s.hub.subs[id].ch != [] && id in s.links
    ensures SysOk(Sending(s, id))
  {
    hide PollerOk, HubReady, Inv, DataOnly, LastStatus, AtTick, AtSomeTick, LinksOk, Delivered, Trail;
    SendLinks(s, id);
    TakeIsOk(s.hub, id, s.pending, s.poller.health, s.hist);
    var s' := Sending(s, id);
    assert LinkOk(id, s.links[id], s.hub.subs, s.browser.net.sources.Keys, s.hist) by { LinkAt(s, id); }
    forall k ensures Heard(s'.links, k) == Heard(s.links, k) && Whole(s'.links, k) == Whole(s.links, k) {
    }
  }

  lemma {:induction false} LinkAt(s: Sys, id: nat)
    requires LinksOk(s.links, s.hub.subs, s.browser.net.sources.Keys, s.hist) && id in s.links
    ensures LinkOk(id, s.links[id], s.hub.subs, s.browser.net.sources.Keys, s.hist)
  {
  }

  lemma {:induction false} MoreSources(links: map<nat, Link>, subs: map<nat, Sub>, a: set<nat>, b: set<nat>,
                                       hist: seq<seq<Torrent>>)
    requires LinksOk(links, subs, a, hist) && a <= b
    ensures LinksOk(links, subs, b, hist)
  {
    hide Trail;
    forall id | id in links ensures LinkOk(id, links[id], subs, b, hist) {
      assert LinkOk(id, links[id], subs, a, hist);
    }
  }

  lemma {:induction false} LinkedIsKnown(links: map<nat, Link>, subs: map<nat, Sub>, sources: set<nat>,
                                         hist: seq<seq<Torrent>>)
    requires LinksOk(links, subs, sources, hist)
    ensures links.Keys <= sources
  {
    forall id | id in links ensures id in sources {
      assert LinkOk(id, links[id], subs, sources, hist);
    }
  }

  /** A source just made has no link yet. */
  lemma {:induction false} RestsKeeps(w: D.World, w': D.World, links: map<nat, Link>, subs: map<nat, Sub>,
                                      hist: seq<seq<Torrent>>)
    requires Rests(w, w') && LinksOk(links, subs, w.net.sources.Keys, hist)
    requires HeldOk(w, links, hist) && ViewOk(w, hist)
    ensures HeldOk(w', links, hist) && ViewOk(w', hist) && LinksOk(links, subs, w'.net.sources.Keys, hist)
  {
    hide Trail, AtTick, AtSomeTick;
    MoreSources(links, subs, w.net.sources.Keys, w'.net.sources.Keys, hist);
    LinkedIsKnown(links, subs, w.net.sources.Keys, hist);
  }

  lemma {:induction false} BrowseKeeps(s: Sys, e: D.Event)
    requires SysOk(s) && !e.Message?
    ensures SysOk(Step(s, Browse(e)))
  {
    hide PollerOk, HubReady, Inv, LinksOk, HeldOk, ViewOk, Rests, D.Step;
    StepIsOk(s.browser, e);
    BrowserRests(s.browser, e);
    RestsKeeps(s.browser, D.Step(s.browser, e), s.links, s.hub.subs, s.hist);
  }

  // ---- a message reaches the browser --------------------------------------

  lemma {:induction false} AdvanceLinks(s: Sys, id: nat, links': map<nat, Link>)
    requires LinksOk(s.links, s.hub.subs, s.browser.net.sources.Keys, s.hist)
    requires id in s.links && s.links[id].got < |s.links[id].sent|
    requires links' == s.links[id := s.links[id].(got := s.links[id].got + 1)]
    ensures LinksOk(links', s.hub.subs, s.browser.net.sources.Keys, s.hist)
    ensures Heard(links', id) == Heard(s.links, id) + [s.links[id].sent[s.links[id].got]]
    ensures forall k :: k != id ==> Heard(links', k) == Heard(s.links, k)
    ensures forall k :: k != id ==> Whole(links', k) == Whole(s.links, k)
    ensures Whole(links', id) <==> Whole(s.links, id) && s.links[id].got !in s.links[id].jumps
  {
    hide Trail;
    LinkAt(s, id);
    forall k | k in links' ensures LinkOk(k, links'[k], s.hub.subs, s.browser.net.sources.Keys, s.hist) {
      assert LinkOk(k, s.links[k], s.hub.subs, s.browser.net.sources.Keys, s.hist);
    }
    var l := s.links[id];
    assert l.sent[..l.got + 1] == l.sent[..l.got] + [l.sent[l.got]];
    assert forall k :: k in links' <==> k in s.links;
  }

  /** The next message is a step from the last one heard, or a jump. */
  lemma {:induction false} NextIsStep(l: Link, hist: seq<seq<Torrent>>)
    requires l.got < |l.sent| && Trail(l.sent, l.jumps, hist)
    ensures StepOk(LastSeq(DataOnly(l.sent[..l.got])), l.sent[l.got], l.got in l.jumps, hist)
  {
    hide Trail, DataOnly, StepOk;
    assert l.sent == l.sent[..l.got] + l.sent[l.got..];
    TrailPrefix(l.sent[..l.got], l.sent[l.got..], l.jumps, hist);
  }

  lemma {:induction false} HeldSeq(w: D.World)
    requires Inv(w) && w.net.es.Some?
    ensures w.net.es.value in w.net.sources
    ensures w.net.sources[w.net.es.value].applied == w.net.sources[w.net.es.value].dispatched
    ensures var heard := w.net.sources[w.net.es.value].dispatched;
      forall i :: 0 <= i < |heard| ==> D.IsData(heard[i])
    ensures w.gauge.lastSeq == LastSeq(w.net.sources[w.net.es.value].dispatched)
  {
    hide TimersOk, Backoff, D.Resolve;
  }

  /** Applying a step takes the client to the step's tick, and no gap is seen. */
  lemma {:induction false} AppliedLands(w: D.World, heard: seq<Message>, m: Message, hist: seq<seq<Torrent>>)
    requires NextOk(LastSeq(DataOnly(heard)), m, hist) && w.gauge.lastSeq == LastSeq(DataOnly(heard))
    requires forall i :: 0 <= i < |hist| ==> UniqueHashes(hist[i])
    requires DataOnly(heard) != [] ==> AtTick(w.applied, LastSeq(DataOnly(heard)), hist)
    ensures AtTick(w.applied + [m], m.seqNo, hist) && !D.Gap(w.gauge, m)
  {
    hide IsDelta, WireRows, Applied, RowsOf, UniqueHashes, DataOnly;
    assert (w.applied + [m])[..|w.applied|] == w.applied;
    RowsKeepHash(w.applied);
    ClientFollows(ClientRows(w.applied), LastSeq(DataOnly(heard)), m, hist);
  }

  /** A delta after a loss is a gap to the driver, and nothing else is. */
  lemma {:induction false} GapIffJump(g: D.Gauge, m: Message, jump: bool, hist: seq<seq<Torrent>>)
    requires D.IsData(m) && StepOk(g.lastSeq, m, jump, hist)
    ensures D.Gap(g, m) <==> jump
  {
    hide IsDelta, WireRows;
  }

  lemma {:induction false} DataDispatchKeeps(s: Sys, id: nat, w': D.World, links': map<nat, Link>)
    requires SysOk(s) && id in s.links && s.links[id].got < |s.links[id].sent| && s.browser.net.es == Some(id)
    requires D.IsData(s.links[id].sent[s.links[id].got])
    requires links' == s.links[id := s.links[id].(got := s.links[id].got + 1)]
    requires w' == D.Step(s.browser, D.Event.Message(id, s.links[id].sent[s.links[id].got]))
    ensures HeldOk(w', links', s.hist) && ViewOk(w', s.hist)
    ensures LinksOk(links', s.hub.subs, w'.net.sources.Keys, s.hist)
    ensures !D.Stale(s.browser.gauge, s.browser.now, s.links[id].sent[s.links[id].got].ts) ==>
      w'.warnings == s.browser.warnings + (if s.links[id].got in s.links[id].jumps then 1 else 0)
    ensures D.Stale(s.browser.gauge, s.browser.now, s.links[id].sent[s.links[id].got].ts) ==>
      w'.warnings == s.browser.warnings
  {
    hide HubReady, Inv, D.Step, D.Gap, D.Stale, DataOnly, LastStatus, AtTick, LinksOk, Trail, StepOk, NextOk, Heard,
         Whole, UniqueHashes, LastSeq, IsDelta;
    var w, l := s.browser, s.links[id];
    var m := l.sent[l.got];
    LinkAt(s, id);
    HeldSeq(w);
    AdvanceLinks(s, id, links');
    DataHeard(w, id, m);
    DataAppend(Heard(s.links, id), m);
    if D.Stale(w.gauge, w.now, m.ts) {
      RenewedKeeps(w, w', links', s.hub.subs, s.hist);
    } else {
      MoreSources(links', s.hub.subs, w.net.sources.Keys, w'.net.sources.Keys, s.hist);
      HeardIs(s.links, id);
      NextIsStep(l, s.hist);
      GapIffJump(w.gauge, m, l.got in l.jumps, s.hist);
      LastOf(DataOnly(Heard(s.links, id)), m);
      if Whole(links', id) {
        StepIsNext(LastSeq(DataOnly(Heard(s.links, id))), m, s.hist);
        AppliedLands(w, Heard(s.links, id), m, s.hist);
        assert AtSomeTick(w'.applied, s.hist);
      }
    }
  }

  lemma {:induction false} StepIsNext(e: nat, m: Message, hist: seq<seq<Torrent>>)
    requires StepOk(e, m, false, hist) && D.IsData(m)
    ensures NextOk(e, m, hist)
  {
    hide IsDelta, WireRows;
  }

  lemma {:induction false} HeardIs(links: map<nat, Link>, id: nat)
    requires id in links && links[id].got <= |links[id].sent|
    ensures Heard(links, id) == links[id].sent[..links[id].got]
  {
  }

  lemma {:induction false} RenewedKeeps(w: D.World, w': D.World, links: map<nat, Link>, subs: map<nat, Sub>,
                                        hist: seq<seq<Torrent>>)
    requires Renewed(w, w') && LinksOk(links, subs, w.net.sources.Keys, hist) && ViewOk(w, hist)
    ensures HeldOk(w', links, hist) && ViewOk(w', hist) && LinksOk(links, subs, w'.net.sources.Keys, hist)
  {
    hide Trail, AtTick, AtSomeTick;
    MoreSources(links, subs, w.net.sources.Keys, w'.net.sources.Keys, hist);
    LinkedIsKnown(links, subs, w.net.sources.Keys, hist);
  }

  lemma {:induction false} StatusDispatchKeeps(s: Sys, id: nat, w': D.World, links': map<nat, Link>)
    requires SysOk(s) && id in s.links && s.links[id].got < |s.links[id].sent| && s.browser.net.es == Some(id)
    requires s.links[id].sent[s.links[id].got].Health?
    requires links' == s.links[id := s.links[id].(got := s.links[id].got + 1)]
    requires w' == D.Step(s.browser, D.Event.Message(id, s.links[id].sent[s.links[id].got]))
    ensures HeldOk(w', links', s.hist) && ViewOk(w', s.hist)
    ensures LinksOk(links', s.hub.subs, w'.net.sources.Keys, s.hist)
  {
    hide PollerOk, HubReady, Inv, D.Step, DataOnly, LastStatus, AtTick, LinksOk, Trail, Heard, Whole, AtSomeTick,
         LastSeq;
    var m := s.links[id].sent[s.links[id].got];
    LinkAt(s, id);
    NextIsStep(s.links[id], s.hist);
    AdvanceLinks(s, id, links');
    StatusHeard(s.browser, id, m);
    DataAppend(Heard(s.links, id), m);
  }

  lemma {:induction false} DispatchKeeps(s: Sys, id: nat)
    requires SysOk(s) && id in s.links && s.links[id].got < |s.links[id].sent| && D.Dispatches(s.browser, id)
    ensures SysOk(Dispatching(s, id))
  {
    hide PollerOk, HubReady, Inv, D.Step, D.Dispatches, LinksOk, HeldOk, ViewOk;
    HeldIsKnown(s.browser);
    DispatchIsCurrent(s.browser, id);
    var l := s.links[id];
    var links' := s.links[id := l.(got := l.got + 1)];
    var e := D.Event.Message(id, l.sent[l.got]);
    StepIsOk(s.browser, e);
    if D.IsData(l.sent[l.got]) {
      DataDispatchKeeps(s, id, D.Step(s.browser, e), links');
    } else {
      StatusDispatchKeeps(s, id, D.Step(s.browser, e), links');
    }
  }

  // ---- every run ----------------------------------------------------------

  lemma {:induction false} StartIsOk(visible: bool, now: int)
    ensures SysOk(Run(visible, now, []))
  {
    hide Inv, PathOk, D.Open;
    BeginIsOk(visible, now);
    EmptyStream([]);
    var s := Run(visible, now, []);
    var w := D.World(D.Net(None, 0, map[]), D.Timers(map[], 0, None, None, None), D.Gauge(None, false, 0, 0, 0),
                     D.HealthAxis(false, false, false, D.RtUnknown), D.BACKOFF_MIN, 0, D.Connecting, false,
                     now, visible, visible, [], 0);
    EmptyIsOk();
    if visible { OpenRenews(w); }
    assert HubReady(s.hub, [], Unknown, []);
    assert HeldOk(s.browser, map[], []);
  }

  lemma {:induction false} StepKeeps(s: Sys, a: Label)
    requires SysOk(s)
    ensures SysOk(Step(s, a))
  {
    hide SysOk, Polling, Accepted, Sending, Dispatching, PollEnabled, D.Step, D.Dispatches;
    match a
    case Poll(out, ups, removed) => if PollEnabled(s, out, ups, removed) { PollKeeps(s, out, ups, removed); }
    case Publish => if s.pending != [] { PublishKeeps(s); }
    case Accept(id) => if id in s.browser.net.sources && id !in s.links { AcceptKeeps(s, id); }
    case Leave(id) => LeaveKeeps(s, id);
    case Send(id) => if id in s.hub.subs && s.hub.subs[id].ch != [] && id in s.links { SendKeeps(s, id); }
    case Dispatch(id) =>
      if id in s.links && s.links[id].got < |s.links[id].sent| && D.Dispatches(s.browser, id) { DispatchKeeps(s, id); }
    case Browse(e) => if !e.Message? { BrowseKeeps(s, e); }
  }

  lemma {:induction false} RunKeeps(visible: bool, now: int, trace: seq<Label>)
    ensures SysOk(Run(visible, now, trace))
  {
    hide SysOk, Step;
    if trace == [] {
      StartIsOk(visible, now);
    } else {
      RunKeeps(visible, now, trace[..|trace| - 1]);
      StepKeeps(Run(visible, now, trace[..|trace| - 1]), trace[|trace| - 1]);
    }
  }

  /** Replication: in every interleaving, as long as the browser has warned of no gap its rows
      are, on all wire fields, those of exactly one successful tick from the first thing it
      applied onwards; and while no tick after a lost one has been dispatched on the connection
      it holds they are those of the tick last applied on it, whatever happened before. */
  lemma {:induction false} ClientMirrorsOneTick(visible: bool, now: int, trace: seq<Label>)
    ensures var s := Run(visible, now, trace);
      && (s.browser.warnings == 0 ==> AtSomeTick(s.browser.applied, s.hist))
      && (s.browser.net.es.Some? && Whole(s.links, s.browser.net.es.value) && s.browser.gauge.lastSeq > 0 ==>
            AtTick(s.browser.applied, s.browser.gauge.lastSeq, s.hist))
  {
    hide Run, PollerOk, HubReady, Inv, AtTick, AtSomeTick, LinksOk, DataOnly, Whole, LastStatus, Heard;
    RunKeeps(visible, now, trace);
    var w := Run(visible, now, trace).browser;
    if w.net.es.Some? { HeldSeq(w); }
  }

  // ---- when a gap is seen -------------------------------------------------

  /** The step hands the driver, fresh, a tick that follows a lost one. */
  ghost predicate SeesLoss(s: Sys, a: Label) {
    && a.Dispatch? && a.id in s.links && s.links[a.id].got < |s.links[a.id].sent|
    && s.browser.net.es == Some(a.id) && s.links[a.id].got in s.links[a.id].jumps
    && (var m := s.links[a.id].sent[s.links[a.id].got];
        D.IsData(m) && !D.Stale(s.browser.gauge, s.browser.now, m.ts))
  }

  ghost function LossesSeen(visible: bool, now: int, trace: seq<Label>): nat {
    if trace == [] then 0
    else
      var before := trace[..|trace| - 1];
      LossesSeen(visible, now, before) + (if SeesLoss(Run(visible, now, before), trace[|trace| - 1]) then 1 else 0)
  }

  /** One step warns of a gap exactly if it hands over a tick that follows a lost one. */
  lemma {:induction false} StepWarnsIff(s: Sys, a: Label)
    requires SysOk(s)
    ensures Step(s, a).browser.warnings == s.browser.warnings + (if SeesLoss(s, a) then 1 else 0)
  {
    hide PollerOk, HubReady, LinksOk, HeldOk, ViewOk, Inv, D.Step, D.Dispatches, D.Stale, PollEnabled;
    match a
    case Dispatch(id) =>
      DispatchIsCurrent(s.browser, id);
      if id in s.links && s.links[id].got < |s.links[id].sent| && s.browser.net.es == Some(id) {
        var l := s.links[id];
        var links' := s.links[id := l.(got := l.got + 1)];
        var m := l.sent[l.got];
        if D.IsData(m) {
          DataDispatchKeeps(s, id, D.Step(s.browser, D.Event.Message(id, m)), links');
        } else {
          StatusHeard(s.browser, id, m);
        }
      }
    case Browse(e) => if !e.Message? { BrowserRests(s.browser, e); }
    case _ =>
  }

  /** In every run the browser warns of a gap exactly as often as it is handed a tick that
      follows one lost to a full channel. */
  lemma {:induction false} WarnsIffLost(visible: bool, now: int, trace: seq<Label>)
    ensures Run(visible, now, trace).browser.warnings == LossesSeen(visible, now, trace)
  {
    hide SysOk, Step, SeesLoss;
    if trace == [] {
      StartWarnsOfNothing(visible, now);
    } else {
      var before := trace[..|trace| - 1];
      WarnsIffLost(visible, now, before);
      RunKeeps(visible, now, before);
      StepWarnsIff(Run(visible, now, before), trace[|trace| - 1]);
    }
  }

  lemma {:induction false} StartWarnsOfNothing(visible: bool, now: int)
    ensures Run(visible, now, []).browser.warnings == 0
  {
  }

  /** In every run the ticks of a subscriber's stream, and those carried on its link, each
      follow the last, or repeat it once at the join, if and only if none of them found room
      after a newer tick had been lost; and an unkilled subscriber has lost none. */
  lemma {:induction false} StreamIsPathIff(visible: bool, now: int, trace: seq<Label>, id: nat)
    ensures var s := Run(visible, now, trace);
      && (id in s.hub.subs ==>
            && (PathOk(DataOnly(s.hub.subs[id].taken + s.hub.subs[id].ch), s.hist) <==> s.hub.subs[id].jumps == {})
            && (!s.hub.subs[id].killed ==> s.hub.subs[id].jumps == {} && !s.hub.subs[id].lost))
      && (id in s.links ==> (PathOk(DataOnly(s.links[id].sent), s.hist) <==> s.links[id].jumps == {}))
  {
    hide Run, PollerOk, Inv, HeldOk, ViewOk, DataOnly, PathOk, Trail, TickOk, LastTick, LastStatus, CacheOk, TodoOk,
         EarlyOk, Alternating, SameBelow;
    RunKeeps(visible, now, trace);
    var s := Run(visible, now, trace);
    if id in s.hub.subs {
      var sub := s.hub.subs[id];
      assert SubOk(sub, s.hub, s.hist);
      TrailIffPath(sub.taken + sub.ch, sub.jumps, s.hist);
      NoneAtAll(sub.jumps, |sub.taken + sub.ch|);
    }
    if id in s.links {
      LinkAt(s, id);
      TrailIffPath(s.links[id].sent, s.links[id].jumps, s.hist);
      NoneAtAll(s.links[id].jumps, |s.links[id].sent|);
    }
  }

  lemma {:induction false} NoneAtAll(jumps: set<nat>, n: nat)
    requires forall j :: j in jumps ==> j < n
    ensures jumps == {} <==> NoneBelow(n, jumps)
  {
  }

  /** Health values broadcast in a row differ, in every run. */
  lemma {:induction false} HealthAlternates(visible: bool, now: int, trace: seq<Label>, i: nat, j: nat)
    requires var log := Run(visible, now, trace).hub.log;
      && i < j < |log| && log[i].Health? && log[j].Health?
      && forall k :: i < k < j ==> !log[k].Health?
    ensures var log := Run(visible, now, trace).hub.log;
      log[i].unreachable != log[j].unreachable
  {
    hide Run, PollerOk, Inv, HeldOk, ViewOk, LinksOk, CacheOk, TodoOk, SubsOk, EarlyOk, Alternating;
    RunKeeps(visible, now, trace);
    AlternatingMeans(Run(visible, now, trace).hub.log, i, j);
  }

  lemma {:induction false} AlternatingMeans(log: seq<Message>, i: nat, j: nat)
    requires Alternating(log) && i < j < |log| && log[i].Health? && log[j].Health?
    requires forall k :: i < k < j ==> !log[k].Health?
    ensures log[i].unreachable != log[j].unreachable
  {
    if j < |log| - 1 {
      AlternatingMeans(log[..|log| - 1], i, j);
    } else {
      LastStatusAt(log[..j], i);
    }
  }

  lemma {:induction false} LastStatusAt(log: seq<Message>, i: nat)
    requires i < |log| && log[i].Health? && forall k :: i < k < |log| ==> !log[k].Health?
    ensures LastStatus(log) == Some(log[i].unreachable)
  {
    if i < |log| - 1 { LastStatusAt(log[..|log| - 1], i); }
  }

  /** A client that has drained the stream of an unkilled subscriber, at a moment when the
      poller has nothing left to publish, shows the rows of the latest tick and the poller's
      own health, as down exactly when the poller has it as unreachable. */
  lemma {:induction false} DrainedClientIsCurrent(visible: bool, now: int, trace: seq<Label>, id: nat)
    requires var s := Run(visible, now, trace);
      && s.pending == [] && s.browser.net.es == Some(id)
      && id in s.hub.subs && !s.hub.subs[id].killed && s.hub.subs[id].ch == []
      && id in s.links && s.links[id].got == |s.links[id].sent|
    ensures var s := Run(visible, now, trace);
      && s.links[id].jumps == {}
      && (s.hist != [] ==> AtTick(s.browser.applied, |s.hist|, s.hist))
      && (s.browser.health.srvDown <==> s.poller.health == Unreachable)
      && (s.browser.health.shown == D.RtDown <==> s.poller.health == Unreachable)
  {
    hide Run, PollerOk, Inv, AtTick, ViewOk, DataOnly, LastStatus, CacheOk, Trail, EarlyOk, Alternating, LastTick;
    RunKeeps(visible, now, trace);
    var s := Run(visible, now, trace);
    LinkAt(s, id);
    var sub := s.hub.subs[id];
    assert SubOk(sub, s.hub, s.hist);
    assert sub.taken + sub.ch == sub.taken;
    assert Heard(s.links, id) == sub.taken;
    TickIsSeq(sub.taken);
    TrailSeq(sub.taken, sub.jumps, s.hist);
    DownIsShown(s.browser);
  }

  lemma {:induction false} DownIsShown(w: D.World)
    requires Inv(w)
    ensures w.health.shown == D.RtDown <==> w.health.srvDown
  {
    hide HandlesOk, ModeOk, ConnectionOk;
  }
}
