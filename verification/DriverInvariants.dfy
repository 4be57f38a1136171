/**
 What holds in every state the driver can reach, with the lifecycle store, from a page
 opened visible or hidden, under any sequence of browser events.
 */
module DriverInvariants {
  import opened Options
  import opened Hubs
  import opened Driver

  function Pow2(k: nat): nat { if k == 0 then 1 else 2 * Pow2(k - 1) }

  /** The base delay after k failures in a row. */
  function Backoff(k: nat): nat {
    if 1000 * Pow2(k) < 30000 then 1000 * Pow2(k) else 30000
  }

  // ---- sources ------------------------------------------------------------

  /** What was applied from a source is what was dispatched on it, up to at most one
      last message, the one that made the driver drop the connection. */
  ghost predicate LogOk(s: Source) {
    s.applied == s.dispatched ||
    (s.ready == CLOSED && s.dispatched != [] && s.applied == s.dispatched[..|s.dispatched| - 1])
  }

  /** A retired source is closed for good and its listeners hold an old generation. */
  ghost predicate Retired(s: Source, gen: nat) {
    s.ready == CLOSED && s.gen < gen && LogOk(s)
  }

  /** The current source is not closed, its listeners hold the current generation, and
      everything dispatched on it was applied. */
  ghost predicate Serving(s: Source, gen: nat) {
    s.ready != CLOSED && s.gen == gen && s.applied == s.dispatched
  }

  ghost predicate NetOk(n: Net) {
    && (forall id: nat :: id in n.sources <==> id < |n.sources|)
    && (forall id :: id in n.sources && n.es != Some(id) ==> Retired(n.sources[id], n.gen))
    && (n.es.Some? ==> n.es.value in n.sources && Serving(n.sources[n.es.value], n.gen))
  }

  lemma {:induction false} CloseNet(n: Net)
    requires NetOk(n)
    ensures NetOk(Close(n)) && Close(n).es.None?
  {
  }

  lemma {:induction false} CreateNet(n: Net)
    requires NetOk(n) && n.es.None?
    ensures NetOk(Create(n)) && Create(n).es.Some?
    ensures Create(n).sources[Create(n).es.value] == Source(CONNECTING, n.gen, [], [])
  {
  }

  lemma {:induction false} ReadyNet(n: Net, id: nat, r: Ready)
    requires NetOk(n) && n.es == Some(id) && r != CLOSED
    ensures NetOk(SetReady(n, id, r))
  {
  }

  lemma {:induction false} AppliedNet(n: Net, id: nat, m: Message)
    requires NetOk(n) && n.es == Some(id)
    ensures NetOk(LogApply(LogDispatch(n, id, m), id, m))
  {
  }

  /** A stale message is dispatched, not applied, and its source is closed at once. */
  lemma {:induction false} DroppedNet(n: Net, id: nat, m: Message)
    requires NetOk(n) && n.es == Some(id)
    ensures NetOk(Close(LogDispatch(n, id, m))) && Close(LogDispatch(n, id, m)).es.None?
  {
    var s := Close(LogDispatch(n, id, m)).sources[id];
    assert s.dispatched[..|s.dispatched| - 1] == n.sources[id].dispatched;
  }

  /** A fatal failure closes the source before the error listener runs. */
  lemma {:induction false} FatalNet(n: Net, id: nat, r: Ready)
    requires NetOk(n) && n.es == Some(id)
    ensures NetOk(Close(SetReady(n, id, r))) && Close(SetReady(n, id, r)).es.None?
  {
  }

  // ---- timers -------------------------------------------------------------

  ghost predicate IsTimer(t: Timers, id: nat, gen: nat, errors: nat)
    requires id in t.pending
  {
    match t.pending[id]
    case GraceTimer => t.grace == Some(id)
    case RetryTimer(g, base) => t.retry == Some(id) && g == gen && errors > 0 && base == Backoff(errors - 1)
    case HealthTimer => t.health == Some(id)
  }

  /** A timer variable is set exactly while its timer is pending, and no other timer is:
      nothing leaks, and a pending retry belongs to the current generation. */
  ghost predicate TimersOk(t: Timers, gen: nat, errors: nat) {
    && (forall id :: id in t.pending ==> id < t.next && IsTimer(t, id, gen, errors))
    && (t.grace.Some? ==> t.grace.value in t.pending && t.pending[t.grace.value].GraceTimer?)
    && (t.retry.Some? ==> t.retry.value in t.pending && t.pending[t.retry.value].RetryTimer?)
    && (t.health.Some? ==> t.health.value in t.pending && t.pending[t.health.value].HealthTimer?)
  }

  lemma {:induction false} ClearTimers(t: Timers, gen: nat, errors: nat)
    requires TimersOk(t, gen, errors)
    ensures TimersOk(ClearHealth(t), gen, errors) && TimersOk(ClearRetry(t), gen, errors) &&
            TimersOk(ClearGrace(t), gen, errors)
  {
    hide Backoff;
  }

  /** Without a pending retry the generation and the error count are free to change. */
  lemma {:induction false} NewGeneration(t: Timers, gen: nat, errors: nat, gen': nat, errors': nat)
    requires TimersOk(t, gen, errors) && t.retry.None?
    ensures TimersOk(t, gen', errors')
  {
    hide Backoff;
    forall id | id in t.pending ensures IsTimer(t, id, gen', errors') {
      assert IsTimer(t, id, gen, errors);
    }
  }

  lemma {:induction false} CloseTimers(t: Timers, gen: nat, errors: nat, gen': nat)
    requires TimersOk(t, gen, errors)
    ensures TimersOk(ClearOnClose(t), gen', errors)
    ensures ClearOnClose(t).retry.None? && ClearOnClose(t).health.None? && ClearOnClose(t).grace == t.grace
  {
    hide TimersOk;
    ClearTimers(t, gen, errors);
    ClearTimers(ClearRetry(t), gen, errors);
    NewGeneration(ClearOnClose(t), gen, errors, gen', errors);
  }

  lemma {:induction false} ArmTimers(t: Timers, gen: nat, errors: nat)
    requires TimersOk(t, gen, errors)
    ensures TimersOk(ArmHealth(t), gen, errors) && ArmHealth(t).health.Some?
    ensures t.grace.None? ==> TimersOk(ArmGrace(t), gen, errors)
    ensures t.retry.None? ==> TimersOk(ArmRetry(t, gen, Backoff(errors)), gen, errors + 1)
  {
    hide Backoff;
    ClearTimers(t, gen, errors);
    forall id | id in t.pending ensures IsTimer(t, id, gen, errors) {
    }
  }

  lemma {:induction false} FiredTimer(t: Timers, gen: nat, errors: nat, id: nat)
    requires TimersOk(t, gen, errors) && id in t.pending
    ensures var left := t.(pending := t.pending - {id});
      match t.pending[id]
      case GraceTimer => t.grace == Some(id) && TimersOk(left.(grace := None), gen, errors)
      case RetryTimer(_, _) => t.retry == Some(id) && TimersOk(left.(retry := None), gen, errors)
      case HealthTimer => t.health == Some(id) && TimersOk(left.(health := None), gen, errors)
  {
    hide Backoff;
    assert IsTimer(t, id, gen, errors);
  }

  lemma {:induction false} BackoffDoubles(k: nat)
    ensures Backoff(k + 1) == (if 2 * Backoff(k) < BACKOFF_MAX then 2 * Backoff(k) else BACKOFF_MAX)
  {
  }

  // ---- modes --------------------------------------------------------------

  /** Which handles may be held in which mode. */
  ghost predicate ModeOk(w: World) {
    && (w.visible ==> w.docVisible)
    && (w.timers.grace.Some? <==> !w.visible && w.net.es.Some?)
    && (w.timers.health.Some? ==> w.net.es.Some?)
    && (w.timers.retry.Some? ==> w.visible && w.net.es.None? && w.conn == Reconnecting)
    && (w.stopped ==> w.conn == Offline && w.net.es.None? && w.timers.retry.None?)
    && (!w.stopped ==> w.conn != Offline && (w.conn == Idle <==> w.net.es.None? && w.timers.retry.None?))
    && (!w.stopped && w.visible ==> w.net.es.Some? || w.timers.retry.Some?)
  }

  function LastSeq(msgs: seq<Message>): nat
    requires forall i :: 0 <= i < |msgs| ==> IsData(msgs[i])
  {
    if msgs == [] then 0 else
      var last := msgs[|msgs| - 1];
      assert IsData(last);
      last.seqNo
  }

  /** The per-connection variables speak of the current source and no other. */
  ghost predicate FreshOk(w: World) {
    && w.health.shown == Resolve(w.health)
    && (w.net.es.Some? ==> w.net.es.value in w.net.sources
                           && ConnectionOk(w.gauge, w.health, w.net.sources[w.net.es.value].applied))
  }

  ghost predicate ConnectionOk(g: Gauge, h: HealthAxis, log: seq<Message>) {
    && (forall i :: 0 <= i < |log| ==> IsData(log[i]))
    && g.lastSeq == LastSeq(log)
    && g.gotFirst == h.seenData == (log != [])
    && g.skew.Some? == g.gotFirst
  }

  ghost predicate HandlesOk(w: World) {
    NetOk(w.net) && TimersOk(w.timers, w.net.gen, w.errors) && w.backoff == Backoff(w.errors)
  }

  ghost predicate Inv(w: World) { HandlesOk(w) && ModeOk(w) && FreshOk(w) }

  // ---- the two ways a connection ends, and the one way it starts ----------

  lemma {:induction false} ClosedHandles(w: World)
    requires HandlesOk(w)
    ensures HandlesOk(CloseES(w)) && CloseES(w).net.es.None?
    ensures CloseES(w).timers.retry.None? && CloseES(w).timers.health.None?
    ensures CloseES(w).timers.grace == w.timers.grace
  {
    hide NetOk, TimersOk, Backoff, Close, ClearOnClose;
    CloseNet(w.net);
    CloseTimers(w.timers, w.net.gen, w.errors, Close(w.net).gen);
    assert CloseES(w).net == Close(w.net);
  }

  lemma {:induction false} IdleIsOk(w: World)
    requires HandlesOk(w) && !w.visible && !w.stopped && w.health.shown == Resolve(w.health)
    ensures Inv(GoIdle(w))
  {
    hide NetOk, TimersOk, Backoff, Close, ClearOnClose;
    ClearTimers(w.timers, w.net.gen, w.errors);
    ClosedHandles(w.(timers := ClearGrace(w.timers)));
  }

  lemma {:induction false} OpenIsOk(w: World)
    requires HandlesOk(w) && w.visible && w.docVisible && !w.stopped && w.conn != Offline && w.timers.grace.None?
    ensures Inv(Open(w))
  {
    hide NetOk, TimersOk, Backoff, Close, ClearOnClose, Create;
    ClosedHandles(w);
    var c := CloseES(w);
    CreateNet(c.net);
    assert Create(c.net).gen == c.net.gen by { CreateKeepsGen(c.net); }
    assert Open(w).net == Create(c.net) && Open(w).timers == c.timers && Open(w).errors == w.errors;
  }

  lemma {:induction false} CreateKeepsGen(n: Net)
    ensures Create(n).gen == n.gen
  {
  }

  lemma {:induction false} OpenOrIdleIsOk(w: World)
    requires HandlesOk(w) && (w.visible ==> w.docVisible && w.timers.grace.None?)
    requires !w.stopped && w.conn != Offline && w.health.shown == Resolve(w.health)
    ensures Inv(OpenOrIdle(w))
  {
    hide HandlesOk, Inv, Open, GoIdle;
    if w.visible { OpenIsOk(w); } else { IdleIsOk(w); }
  }

  // ---- every event keeps the invariant ------------------------------------

  /** Only the current source can dispatch, and its listeners pass the guard. */
  lemma {:induction false} DispatchIsCurrent(w: World, id: nat)
    requires Inv(w)
    ensures Dispatches(w, id) <==> w.net.es == Some(id)
    ensures Current(w, id) <==> w.net.es == Some(id)
  {
    hide TimersOk, Backoff, ConnectionOk, Resolve;
  }

  lemma {:induction false} OpenedIsOk(w: World, id: nat)
    requires Inv(w)
    ensures Inv(Step(w, Opened(id)))
  {
    hide NetOk, TimersOk, Backoff, Current, Dispatches, ConnectionOk, Resolve, ArmHealth, ClearHealth;
    DispatchIsCurrent(w, id);
    if Dispatches(w, id) {
      var w1 := w.(net := SetReady(w.net, id, OPEN));
      ReadyNet(w.net, id, OPEN);
      assert Inv(w1);
      DispatchIsCurrent(w1, id);
      NoRetryAnyCount(w1);
      ArmTimers(w.timers, w.net.gen, 0);
      ArmHealthKeeps(w.timers);
      FirstBackoff();
    }
  }

  lemma {:induction false} FirstBackoff()
    ensures Backoff(0) == BACKOFF_MIN
  {
  }

  /** While a source is held no retry is pending, so the error count may be reset. */
  lemma {:induction false} NoRetryAnyCount(w: World)
    requires Inv(w) && w.net.es.Some?
    ensures w.timers.retry.None? && TimersOk(w.timers, w.net.gen, 0)
  {
    hide NetOk, TimersOk, Backoff, ConnectionOk, Resolve;
    NewGeneration(w.timers, w.net.gen, w.errors, w.net.gen, 0);
  }

  lemma {:induction false} ArmHealthKeeps(t: Timers)
    ensures ArmHealth(t).grace == t.grace && ArmHealth(t).retry == t.retry && ArmHealth(t).health.Some?
    ensures ClearHealth(t).grace == t.grace && ClearHealth(t).retry == t.retry && ClearHealth(t).health.None?
  {
  }

  lemma {:induction false} StatusIsOk(w: World, id: nat, m: Message)
    requires Inv(w) && !IsData(m)
    ensures Inv(Step(w, Event.Message(id, m)))
  {
    hide NetOk, TimersOk, Backoff, Current, Dispatches;
  }

  lemma {:induction false} FailedIsOk(w: World, id: nat, fatal: bool)
    requires Inv(w)
    ensures Inv(Step(w, Failed(id, fatal)))
  {
    hide NetOk, TimersOk, Backoff, Current, Dispatches, ConnectionOk, Resolve, Close, ClearOnClose, GoIdle;
    DispatchIsCurrent(w, id);
    if Dispatches(w, id) {
      var r := if fatal then CLOSED else CONNECTING;
      var w1 := w.(net := SetReady(w.net, id, r));
      FailedHandles(w, id, r);
      var c := CloseES(w1);
      assert Current(w1, id) by { ReadyKeepsCurrent(w, id, r); }
      if !w.visible {
        IdleIsOk(c);
      } else {
        ArmTimers(c.timers, c.net.gen, w.errors);
        BackoffDoubles(w.errors);
      }
    }
  }

  lemma {:induction false} ReadyKeepsCurrent(w: World, id: nat, r: Ready)
    requires id in w.net.sources
    ensures Current(w.(net := SetReady(w.net, id, r)), id) == Current(w, id)
  {
  }

  lemma {:induction false} FailedHandles(w: World, id: nat, r: Ready)
    requires Inv(w) && w.net.es == Some(id) && id in w.net.sources
    ensures var c := CloseES(w.(net := SetReady(w.net, id, r)));
      && HandlesOk(c) && c.net.es.None? && c.timers.retry.None? && c.timers.health.None?
      && c.timers.grace == w.timers.grace
  {
    hide NetOk, TimersOk, Backoff, Close, ClearOnClose, ConnectionOk, Resolve, ModeOk;
    FatalNet(w.net, id, r);
    var n := SetReady(w.net, id, r);
    CloseTimers(w.timers, w.net.gen, w.errors, Close(n).gen);
  }

  lemma {:induction false} DataIsOk(w: World, id: nat, m: Message)
    requires Inv(w) && IsData(m)
    ensures Inv(Step(w, Event.Message(id, m)))
  {
    hide Inv, Step, Dispatches, Stale;
    DispatchIsCurrent(w, id);
    if Dispatches(w, id) {
      if Stale(w.gauge, w.now, m.ts) {
        StaleIsOk(w, id, m);
      } else {
        AppliedIsOk(w, id, m);
      }
    } else {
      IgnoredMessage(w, id, m);
    }
  }

  lemma {:induction false} IgnoredMessage(w: World, id: nat, m: Message)
    requires !Dispatches(w, id)
    ensures Step(w, Event.Message(id, m)) == w
  {
  }

  /** The recycle closes before anything else; the message is not applied. */
  lemma {:induction false} StaleIsOk(w: World, id: nat, m: Message)
    requires Inv(w) && IsData(m) && w.net.es == Some(id) && Stale(w.gauge, w.now, m.ts)
    ensures Inv(Step(w, Event.Message(id, m)))
    ensures Step(w, Event.Message(id, m)).applied == w.applied
  {
    hide NetOk, TimersOk, Backoff, Current, Dispatches, ConnectionOk, Resolve, Close, ClearOnClose, Stale, Gauged,
         OpenOrIdle;
    DispatchIsCurrent(w, id);
    var n := LogDispatch(w.net, id, m);
    var w1 := w.(net := n, gauge := Gauged(w.gauge, w.now, m.ts).(lastMsgAt := w.now));
    assert Current(w.(net := n), id) by { LogKeepsCurrent(w, id, m); }
    DroppedNet(w.net, id, m);
    CloseTimers(w.timers, w.net.gen, w.errors, Close(n).gen);
    assert HandlesOk(CloseES(w1));
    OpenOrIdleIsOk(CloseES(w1));
    assert Step(w, Event.Message(id, m)) == OpenOrIdle(CloseES(w1));
    OpenOrIdleApplies(CloseES(w1));
  }

  lemma {:induction false} OpenOrIdleApplies(w: World)
    ensures OpenOrIdle(w).applied == w.applied && OpenOrIdle(w).warnings == w.warnings
  {
  }

  lemma {:induction false} LogKeepsCurrent(w: World, id: nat, m: Message)
    requires id in w.net.sources
    ensures Current(w.(net := LogDispatch(w.net, id, m)), id) == Current(w, id)
  {
  }

  lemma {:induction false} AppliedIsOk(w: World, id: nat, m: Message)
    requires Inv(w) && IsData(m) && w.net.es == Some(id) && !Stale(w.gauge, w.now, m.ts)
    ensures Inv(Step(w, Event.Message(id, m)))
    ensures Step(w, Event.Message(id, m)).applied == w.applied + [m]
  {
    hide NetOk, TimersOk, Backoff, Current, Dispatches, ConnectionOk, Resolve, Stale, Gauged, ArmHealth, ClearHealth;
    DispatchIsCurrent(w, id);
    assert Current(w.(net := LogDispatch(w.net, id, m)), id) by { LogKeepsCurrent(w, id, m); }
    AppliedNet(w.net, id, m);
    ArmTimers(w.timers, w.net.gen, w.errors);
    ArmHealthKeeps(w.timers);
    var w' := Step(w, Event.Message(id, m));
    assert w'.net == LogApply(LogDispatch(w.net, id, m), id, m);
    assert w'.net.sources[id].applied == w.net.sources[id].applied + [m];
    ConnectionGoesOn(w.gauge, w.health, w.net.sources[id].applied, w.now, m, w'.gauge, w'.health);
    ResolvedShows(w.health.(seenData := true, dataStale := false));
  }

  lemma {:induction false} ResolvedShows(h: HealthAxis)
    ensures Resolved(h).shown == Resolve(Resolved(h)) && Resolved(h) == h.(shown := Resolve(h))
  {
  }

  lemma {:induction false} ConnectionGoesOn(g: Gauge, h: HealthAxis, log: seq<Message>, now: int, m: Message,
                                            g': Gauge, h': HealthAxis)
    requires ConnectionOk(g, h, log) && IsData(m) && !Stale(g, now, m.ts)
    requires g' == Gauged(g, now, m.ts).(lastMsgAt := now, lastSeq := m.seqNo) && h'.seenData
    ensures ConnectionOk(g', h', log + [m])
  {
    var log' := log + [m];
    forall i | 0 <= i < |log'| ensures IsData(log'[i]) {
    }
    assert log'[|log'| - 1] == m;
    assert g'.skew.Some?;
  }

  lemma {:induction false} FireIsOk(w: World, t: nat)
    requires Inv(w) && t in w.timers.pending
    ensures Inv(Fire(w, t))
  {
    hide NetOk, TimersOk, Backoff, ConnectionOk, GoIdle, OpenOrIdle;
    FiredTimer(w.timers, w.net.gen, w.errors, t);
    var left := w.timers.(pending := w.timers.pending - {t});
    match w.timers.pending[t]
    case GraceTimer => IdleIsOk(w.(timers := left.(grace := None)));
    case RetryTimer(g, _) =>
      assert g == w.net.gen by { RetryGeneration(w.timers, w.net.gen, w.errors, t); }
      OpenOrIdleIsOk(w.(timers := left.(retry := None)));
    case HealthTimer =>
      if w.net.es.Some? {
        SilenceGoesOn(w.gauge, w.health, w.net.sources[w.net.es.value].applied);
      }
  }

  lemma {:induction false} SilenceGoesOn(g: Gauge, h: HealthAxis, log: seq<Message>)
    requires ConnectionOk(g, h, log)
    ensures ConnectionOk(g, Resolved(h.(dataStale := true)), log)
  {
  }

  lemma {:induction false} RetryGeneration(t: Timers, gen: nat, errors: nat, id: nat)
    requires TimersOk(t, gen, errors) && id in t.pending && t.pending[id].RetryTimer?
    ensures t.pending[id].gen == gen
  {
    assert IsTimer(t, id, gen, errors);
  }

  function Shown(w: World, v: bool): World { w.(docVisible := v, visible := v) }

  lemma {:induction false} HideIsOk(w: World)
    requires Inv(w) && !w.stopped
    ensures Inv(OnHide(Shown(w, false)))
  {
    hide NetOk, TimersOk, Backoff, ConnectionOk, GoIdle, Resolve, ClearHealth, ArmGrace;
    if w.timers.retry.Some? {
      IdleIsOk(Shown(w, false));
    } else {
      ClearTimers(w.timers, w.net.gen, w.errors);
      ArmHealthKeeps(w.timers);
      ArmTimers(ClearHealth(w.timers), w.net.gen, w.errors);
      ArmGraceKeeps(ClearHealth(w.timers));
    }
  }

  lemma {:induction false} ArmGraceKeeps(t: Timers)
    ensures ArmGrace(t).health == t.health && ArmGrace(t).retry == t.retry && ArmGrace(t).grace.Some?
    ensures ClearGrace(t).health == t.health && ClearGrace(t).retry == t.retry && ClearGrace(t).grace.None?
  {
  }

  lemma {:induction false} ShowIsOk(w: World)
    requires Inv(w) && !w.stopped
    ensures Inv(OnShow(Shown(w, true)))
  {
    hide NetOk, TimersOk, Backoff, ConnectionOk, Open, Resolve, ClearGrace, ClearHealth, ArmHealth;
    var c := Shown(w, true).(timers := ClearGrace(w.timers));
    ClearTimers(w.timers, w.net.gen, w.errors);
    ArmGraceKeeps(w.timers);
    if KeepOnShow(c) {
      ArmTimers(c.timers, w.net.gen, w.errors);
      ArmHealthKeeps(c.timers);
    } else {
      OpenIsOk(if w.net.es.Some? then c.(conn := Connecting) else c);
    }
  }

  lemma {:induction false} VisibilityIsOk(w: World, v: bool)
    requires Inv(w)
    ensures Inv(OnVisibility(w, v))
  {
    hide NetOk, TimersOk, Backoff, ConnectionOk, OnShow, OnHide, Resolve;
    if !w.stopped {
      if v { ShowIsOk(w); } else { HideIsOk(w); }
    }
  }

  lemma {:induction false} SuspendIsOk(w: World)
    requires Inv(w)
    ensures Inv(OnSuspend(w))
  {
    hide NetOk, TimersOk, Backoff, ConnectionOk, GoIdle, Resolve;
    if !w.stopped { IdleIsOk(w.(visible := false)); }
  }

  lemma {:induction false} WakeIsOk(w: World)
    requires Inv(w)
    ensures Inv(OnWake(w))
  {
    hide NetOk, TimersOk, Backoff, ConnectionOk, OnShow, Resolve;
    if w.docVisible && !w.stopped {
      ShowIsOk(w);
      assert w.(visible := w.docVisible) == Shown(w, true);
    }
  }

  lemma {:induction false} StopIsOk(w: World)
    requires Inv(w)
    ensures Inv(Stop(w))
  {
    hide NetOk, TimersOk, Backoff, ConnectionOk, Resolve, Close, ClearOnClose, ClearGrace;
    ClearTimers(w.timers, w.net.gen, w.errors);
    ArmGraceKeeps(w.timers);
    ClosedHandles(w.(stopped := true, timers := ClearGrace(w.timers)));
  }

  lemma {:induction false} EmptyIsOk()
    ensures NetOk(Net(None, 0, map[])) && TimersOk(Timers(map[], 0, None, None, None), 0, 0)
  {
    var none: map<nat, Source> := map[];
    assert |none| == 0;
  }

  lemma {:induction false} BeginIsOk(visible: bool, now: int)
    ensures Inv(Begin(visible, now))
  {
    hide OpenOrIdle;
    FirstBackoff();
    var w := World(Net(None, 0, map[]), Timers(map[], 0, None, None, None), Gauge(None, false, 0, 0, 0),
                   HealthAxis(false, false, false, RtUnknown), BACKOFF_MIN, 0, Connecting, false,
                   now, visible, visible, [], 0);
    EmptyIsOk();
    if visible { OpenIsOk(w); }
  }

  lemma {:induction false} StepIsOk(w: World, e: Event)
    requires Inv(w)
    ensures Inv(Step(w, e))
  {
    match e
    case Opened(id) => hide *; OpenedIsOk(w, id);
    case Message(id, m) => hide *; if IsData(m) { DataIsOk(w, id, m); } else { StatusIsOk(w, id, m); }
    case Failed(id, fatal) => hide *; FailedIsOk(w, id, fatal);
    case TimerFires(t) => hide Inv, Fire; if t in w.timers.pending { FireIsOk(w, t); }
    case VisibilityChanges(v) => hide Inv, OnVisibility; VisibilityIsOk(w, v);
    case Freezes => hide Inv, OnSuspend; SuspendIsOk(w);
    case Resumes => hide Inv, OnWake; WakeIsOk(w);
    case PageHides => hide Inv, OnSuspend; SuspendIsOk(w);
    case PageShows(persisted) => hide Inv, OnWake; WakeIsOk(w);
    case TimePasses(ms) => hide HandlesOk, ConnectionOk, Resolve;
    case Stops => hide Inv, Stop; StopIsOk(w);
  }

  lemma {:induction false} RunIsOk(visible: bool, now: int, evs: seq<Event>)
    ensures Inv(Run(visible, now, evs))
  {
    hide Inv, Step, Begin;
    if evs == [] {
      BeginIsOk(visible, now);
    } else {
      RunIsOk(visible, now, evs[..|evs| - 1]);
      StepIsOk(Run(visible, now, evs[..|evs| - 1]), evs[|evs| - 1]);
    }
  }

  // ---- what every run guarantees ------------------------------------------

  /** At most one source is open or connecting, and it is the one the driver holds. */
  ghost predicate OneSource(w: World) {
    && (forall id :: id in w.net.sources && w.net.sources[id].ready != CLOSED ==> w.net.es == Some(id))
    && (w.net.es.Some? ==> w.net.es.value in w.net.sources && w.net.sources[w.net.es.value].ready != CLOSED)
  }

  /** No timer is pending but through one of the three variables. */
  ghost predicate NoStrayTimer(t: Timers) {
    && (forall id :: id in t.pending ==> Some(id) == t.grace || Some(id) == t.retry || Some(id) == t.health)
    && (t.grace.Some? ==> t.grace.value in t.pending)
    && (t.retry.Some? ==> t.retry.value in t.pending)
    && (t.health.Some? ==> t.health.value in t.pending)
  }

  ghost predicate HoldsNothing(w: World) {
    w.net.es.None? && w.timers.grace.None? && w.timers.retry.None? && w.timers.health.None? && w.timers.pending == map[]
  }

  ghost predicate TimersFitMode(w: World) {
    && (w.timers.retry.Some? ==> w.visible && w.net.es.None?)
    && (w.timers.grace.Some? <==> !w.visible && w.net.es.Some?)
    && (w.timers.health.Some? ==> w.net.es.Some?)
  }

  ghost predicate RetryDelay(t: Timers, errors: nat) {
    t.retry.Some? ==>
      && t.retry.value in t.pending && t.pending[t.retry.value].RetryTimer?
      && errors > 0 && t.pending[t.retry.value].base == Backoff(errors - 1)
  }

  /** The driver's guarantees in every reachable state: one source, no stray timer, timers
      only in their modes, nothing held when idle or offline, never stuck when visible,
      and the k-th error since the last open waiting min(1000 * 2^k, 30000) ms. */
  lemma {:induction false} EveryRunIsOk(visible: bool, now: int, evs: seq<Event>)
    ensures var w := Run(visible, now, evs);
      && OneSource(w) && NoStrayTimer(w.timers) && TimersFitMode(w)
      && (w.conn == Idle || w.conn == Offline ==> HoldsNothing(w))
      && (!w.stopped && w.visible ==> (w.net.es.Some? <==> w.timers.retry.None?))
      && (w.conn == Live ==> w.net.es.Some?)
      && RetryDelay(w.timers, w.errors) && w.backoff == Backoff(w.errors)
  {
    hide Run, Backoff, ConnectionOk, Resolve;
    RunIsOk(visible, now, evs);
    NothingStray(Run(visible, now, evs));
  }

  lemma {:induction false} NothingStray(w: World)
    requires Inv(w)
    ensures NoStrayTimer(w.timers) && RetryDelay(w.timers, w.errors)
    ensures w.conn == Idle || w.conn == Offline ==> HoldsNothing(w)
  {
    hide NetOk, Backoff, ConnectionOk, Resolve;
    forall id | id in w.timers.pending
      ensures Some(id) == w.timers.grace || Some(id) == w.timers.retry || Some(id) == w.timers.health
    {
      assert IsTimer(w.timers, id, w.net.gen, w.errors);
    }
    if w.timers.retry.Some? {
      assert IsTimer(w.timers, w.timers.retry.value, w.net.gen, w.errors);
    }
  }

  /** A delta is never skipped: on every connection the applied snapshots and deltas are
      the data messages dispatched on it, in order, up to at most one last message after
      which the connection is closed; and what the shown state is derived from is the
      last applied message of the connection held now. */
  lemma {:induction false} NothingIsSkipped(visible: bool, now: int, evs: seq<Event>)
    ensures var w := Run(visible, now, evs);
      && (forall id :: id in w.net.sources ==> LogOk(w.net.sources[id]))
      && (w.net.es.Some? ==> w.net.es.value in w.net.sources
                             && w.net.sources[w.net.es.value].applied == w.net.sources[w.net.es.value].dispatched)
      && FreshOk(w)
  {
    hide Run, TimersOk, Backoff, ConnectionOk, Resolve;
    RunIsOk(visible, now, evs);
  }

  /** A data message on the held source is applied, or it is stale and the source is
      closed, the message dropped, and a new connection made if and only if visible.
      A status message there moves the health axis alone. */
  lemma {:induction false} AppliedOrRecycled(visible: bool, now: int, evs: seq<Event>, id: nat, m: Message)
    ensures var w := Run(visible, now, evs);
      var w' := Step(w, Event.Message(id, m));
      && (w.net.es != Some(id) ==> w' == w)
      && (w.net.es == Some(id) && !IsData(m) ==>
            w' == w.(health := Resolved(w.health.(srvDown := m.unreachable))))
      && (w.net.es == Some(id) && IsData(m) && !Stale(w.gauge, w.now, m.ts) ==>
            w'.applied == w.applied + [m] && w'.net.es == Some(id))
      && (w.net.es == Some(id) && IsData(m) && Stale(w.gauge, w.now, m.ts) ==>
            && w'.applied == w.applied && id in w'.net.sources && w'.net.sources[id].ready == CLOSED
            && (w'.net.es.Some? <==> w.visible) && w'.net.es != Some(id))
  {
    hide Run, Inv, Step, Stale;
    RunIsOk(visible, now, evs);
    var w := Run(visible, now, evs);
    DispatchIsCurrent(w, id);
    if w.net.es != Some(id) {
      IgnoredMessage(w, id, m);
    } else if !IsData(m) {
      StatusKeepsRest(w, id, m);
    } else if Stale(w.gauge, w.now, m.ts) {
      StaleIsOk(w, id, m);
      RecycleCloses(w, id, m);
    } else {
      AppliedIsOk(w, id, m);
      AppliedKeepsSource(w, id, m);
    }
  }

  lemma {:induction false} StatusKeepsRest(w: World, id: nat, m: Message)
    requires Inv(w) && !IsData(m) && w.net.es == Some(id)
    ensures Step(w, Event.Message(id, m)) == w.(health := Resolved(w.health.(srvDown := m.unreachable)))
  {
    hide NetOk, TimersOk, Backoff, ConnectionOk, Resolve;
    DispatchIsCurrent(w, id);
  }

  lemma {:induction false} AppliedKeepsSource(w: World, id: nat, m: Message)
    requires Inv(w) && IsData(m) && w.net.es == Some(id) && !Stale(w.gauge, w.now, m.ts)
    ensures Step(w, Event.Message(id, m)).net.es == Some(id)
  {
    hide NetOk, TimersOk, Backoff, ConnectionOk, Resolve, Stale, Gauged, ArmHealth;
    DispatchIsCurrent(w, id);
  }

  lemma {:induction false} RecycleCloses(w: World, id: nat, m: Message)
    requires Inv(w) && IsData(m) && w.net.es == Some(id) && Stale(w.gauge, w.now, m.ts)
    ensures var n := Step(w, Event.Message(id, m)).net;
      id in n.sources && n.sources[id].ready == CLOSED && (n.es.Some? <==> w.visible) && n.es != Some(id)
  {
    hide TimersOk, Backoff, ConnectionOk, Resolve, Stale, Gauged, ClearOnClose, ClearGrace;
    DispatchIsCurrent(w, id);
    DroppedNet(w.net, id, m);
    var n := Close(LogDispatch(w.net, id, m));
    assert n.sources[id].ready == CLOSED;
    var n' := Close(n);
    assert n'.sources == n.sources;
    assert id < |n'.sources|;
  }

  /** An event from any other source changes nothing: the browser dispatches none, and
      the generation guard would turn the listener away if it did. */
  lemma {:induction false} OtherSourcesAreInert(visible: bool, now: int, evs: seq<Event>, id: nat, m: Message,
                                                fatal: bool)
    requires Run(visible, now, evs).net.es != Some(id)
    ensures var w := Run(visible, now, evs);
      && Step(w, Opened(id)) == w && Step(w, Event.Message(id, m)) == w && Step(w, Failed(id, fatal)) == w
      && OnOpen(w, id) == w && OnStatus(w, id, fatal) == w && OnError(w, id) == w
      && (id in w.net.sources && IsData(m) ==> OnData(w, id, m) == w)
  {
    hide Run, Inv, Current, Dispatches;
    RunIsOk(visible, now, evs);
    DispatchIsCurrent(Run(visible, now, evs), id);
  }
}
