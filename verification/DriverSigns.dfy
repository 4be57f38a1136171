/**
 What the driver shows and decides, told from the events of the connection it holds alone:
 when it was opened, which data came when, the last status and the watchdog.
 */
module DriverSigns {
  import opened Options
  import opened Hubs
  import opened Driver
  import opened DriverInvariants
  import opened Staleness

  /** Of the connection held: when it was opened, the data heard on it (and applied), whether the
      last status said unreachable, whether the watchdog fired since the last data, and whether it
      is running. `conn` is what the connection's state is to be called. */
  datatype Signs = Signs(openedAt: int, heard: seq<Heard>, unreachable: bool, overdue: bool, armed: bool,
                         conn: ConnState)

  predicate IsWatchdog(w: World, t: nat) { t in w.timers.pending && w.timers.pending[t].HealthTimer? }

  /** The page comes back to the front. */
  predicate ShowsPage(w: World, e: Event) {
    || e == VisibilityChanges(true)
    || (w.docVisible && (e.Resumes? || (e.PageShows? && e.persisted)))
  }

  /** The held source opens or delivers data. */
  predicate IsAlive(w: World, e: Event) {
    (e.Opened? || (e.Message? && IsData(e.m))) && w.net.es == Some(e.id)
  }

  /** Stopped, it is offline; with nothing held it waits for a retry or idles; the held source
      makes it live by opening or delivering. A new source leaves it as it was, but for idle, and
      but for a source that turned out dead when the page was shown. */
  function NextConn(w: World, e: Event, c: ConnState): ConnState {
    var w' := Step(w, e);
    if w'.stopped then Offline
    else if w'.net.es.None? then (if w'.timers.retry.Some? then Reconnecting else Idle)
    else if w'.net.es == w.net.es then (if IsAlive(w, e) then Live else c)
    else if c == Idle || (w.net.es.Some? && ShowsPage(w, e)) then Connecting
    else c
  }

  function NextSigns(w: World, e: Event, s: Signs): Signs {
    var w' := Step(w, e);
    var conn := NextConn(w, e, s.conn);
    if w'.net.es != w.net.es then Signs(w'.now, [], false, false, false, conn)
    else if e.Message? && w.net.es == Some(e.id) then
      if IsData(e.m) then s.(heard := s.heard + [Heard(w.now, e.m.ts)], overdue := false, armed := true, conn := conn)
      else s.(unreachable := e.m.unreachable, conn := conn)
    else if e.TimerFires? && IsWatchdog(w, e.t) then s.(overdue := true, armed := false, conn := conn)
    else if IsAlive(w, e) || ShowsPage(w, e) then s.(armed := true, conn := conn)
    else if e == VisibilityChanges(false) then s.(armed := false, conn := conn)
    else s.(conn := conn)
  }

  function Unheard(now: int, conn: ConnState): Signs { Signs(now, [], false, false, false, conn) }

  function SignsOf(visible: bool, now: int, evs: seq<Event>): Signs {
    if evs == [] then Unheard(now, if visible then Connecting else Idle)
    else
      var before := evs[..|evs| - 1];
      NextSigns(Run(visible, now, before), evs[|evs| - 1], SignsOf(visible, now, before))
  }

  /** When the connection was last heard, or else opened. */
  function HeardAt(s: Signs): int {
    if s.heard == [] then s.openedAt else s.heard[|s.heard| - 1].now
  }

  ghost predicate GaugeTold(g: Gauge, s: Signs) {
    && AllFresh(s.openedAt, s.heard)
    && g == GaugeAfter(s.openedAt, s.heard).(lastMsgAt := HeardAt(s), lastSeq := g.lastSeq)
  }

  ghost predicate HealthTold(h: HealthAxis, s: Signs) {
    h.srvDown == s.unreachable && h.seenData == (s.heard != []) && h.dataStale == s.overdue
  }

  ghost predicate Told(w: World, s: Signs) {
    && (w.net.es.Some? ==>
          && GaugeTold(w.gauge, s) && HealthTold(w.health, s)
          && w.timers.health.Some? == s.armed)
    && w.conn == s.conn
  }

  /** Nothing is held, or a new connection of which nothing was heard, on a world that called
      itself `was`. */
  ghost predicate Fresh(w: World, w': World, was: ConnState) {
    w'.net.es.Some? ==>
      && w'.net.es != w.net.es
      && w'.gauge == Gauge(None, false, w'.now, w'.now, 0)
      && w'.health == HealthAxis(false, false, false, RtUnknown)
      && w'.timers.health.None?
      && w'.conn == if was == Idle then Connecting else was
  }

  ghost predicate Rests(w: World, w': World) {
    w'.net.es == w.net.es && w'.gauge == w.gauge && w'.health == w.health
  }

  ghost predicate RestsAll(w: World, w': World) {
    Rests(w, w') && w'.conn == w.conn && w'.timers.health == w.timers.health
  }

  /** With nothing held the invariants fix the state's name. */
  lemma {:induction false} NameOfNothing(w: World)
    requires Inv(w) && w.net.es.None?
    ensures w.conn == if w.stopped then Offline else if w.timers.retry.Some? then Reconnecting else Idle
  {
    hide HandlesOk, FreshOk;
  }

  lemma {:induction false} HeldIsRunning(w: World)
    requires Inv(w) && w.net.es.Some?
    ensures !w.stopped
  {
    hide HandlesOk, FreshOk;
  }

  lemma {:induction false} OpenIsFresh(w: World, c: World)
    requires NetOk(c.net) && (w.net.es.Some? ==> w.net.es.value in c.net.sources)
    ensures Fresh(w, Open(c), c.conn) && Open(c).net.es.Some?
  {
    hide ClearRetry;
    var n := Close(c.net);
    assert n.sources.Keys == c.net.sources.Keys;
    assert |n.sources| == |n.sources.Keys| == |c.net.sources|;
  }

  lemma {:induction false} IdleIsFresh(w: World, c: World, was: ConnState)
    ensures Fresh(w, GoIdle(c), was)
  {
  }

  lemma {:induction false} OpenOrIdleIsFresh(w: World, c: World)
    requires NetOk(c.net) && (w.net.es.Some? ==> w.net.es.value in c.net.sources)
    ensures Fresh(w, OpenOrIdle(c), c.conn)
  {
    hide Open, GoIdle, Fresh, NetOk;
    if c.visible { OpenIsFresh(w, c); } else { IdleIsFresh(w, c, c.conn); }
  }

  lemma {:induction false} HeldIsKnown(w: World)
    requires Inv(w)
    ensures NetOk(w.net) && (w.net.es.Some? ==> w.net.es.value in w.net.sources)
  {
    hide TimersOk, Backoff, ConnectionOk, Resolve;
  }

  // ---- every event --------------------------------------------------------

  lemma {:induction false} FireTells(w: World, t: nat)
    requires Inv(w) && t in w.timers.pending
    ensures IsWatchdog(w, t) ==>
      Fire(w, t) == w.(timers := w.timers.(pending := w.timers.pending - {t}, health := None),
                       health := Resolved(w.health.(dataStale := true)))
    ensures !IsWatchdog(w, t) ==> Fresh(w, Fire(w, t), w.conn)
  {
    hide TimersOk, Backoff, ConnectionOk, Resolve, GoIdle, OpenOrIdle, NetOk, Fresh;
    HeldIsKnown(w);
    var left := w.timers.(pending := w.timers.pending - {t});
    match w.timers.pending[t]
    case GraceTimer => IdleIsFresh(w, w.(timers := left.(grace := None)), w.conn);
    case RetryTimer(g, _) =>
      RetryIsFree(w, t);
      OpenOrIdleIsFresh(w, w.(timers := left.(retry := None)));
      NothingIsFresh(w, w.(timers := left.(retry := None)));
    case HealthTimer =>
  }

  lemma {:induction false} NothingIsFresh(w: World, w': World)
    requires w'.net.es.None?
    ensures Fresh(w, w', w.conn)
  {
  }

  lemma {:induction false} RetryIsFree(w: World, t: nat)
    requires Inv(w) && t in w.timers.pending && w.timers.pending[t].RetryTimer?
    ensures w.net.es.None?
  {
    hide NetOk, Backoff, ConnectionOk, Resolve;
    assert IsTimer(w.timers, t, w.net.gen, w.errors);
  }

  lemma {:induction false} ShowTells(w: World)
    requires Inv(w)
    ensures var w' := OnShow(Shown(w, true));
      if KeepOnShow(w) then Rests(w, w') && w'.conn == w.conn && w'.timers.health.Some?
      else Fresh(w, w', if w.net.es.Some? then Connecting else w.conn) && w'.net.es.Some?
  {
    hide TimersOk, Backoff, ConnectionOk, Resolve, Open, ClearGrace, ClearHealth, NetOk, Fresh;
    HeldIsKnown(w);
    var c := Shown(w, true).(timers := ClearGrace(w.timers));
    OpenIsFresh(w, if w.net.es.Some? then c.(conn := Connecting) else c);
  }

  lemma {:induction false} HideTells(w: World)
    requires Inv(w)
    ensures var w' := OnHide(Shown(w, false));
      (Rests(w, w') && w'.conn == w.conn && w'.timers.health.None?) || Fresh(w, w', w.conn)
  {
    hide TimersOk, Backoff, ConnectionOk, Resolve, GoIdle, NetOk, Fresh;
    IdleIsFresh(w, Shown(w, false), w.conn);
  }

  lemma {:induction false} FailureTells(w: World, id: nat, fatal: bool)
    requires Inv(w)
    ensures var w' := Step(w, Failed(id, fatal)); RestsAll(w, w') || Fresh(w, w', w.conn)
  {
    hide TimersOk, Backoff, ConnectionOk, Resolve, NetOk, ClearOnClose, ArmRetry, Current, Dispatches;
    DispatchIsCurrent(w, id);
    if Dispatches(w, id) {
      ReadyKeepsCurrent(w, id, if fatal then CLOSED else CONNECTING);
    }
  }

  lemma {:induction false} OpenedTells(w: World, id: nat)
    requires Inv(w)
    ensures var w' := Step(w, Opened(id));
      && Rests(w, w')
      && (if w.net.es == Some(id) then w'.conn == Live && w'.timers.health.Some?
          else w'.conn == w.conn && w'.timers == w.timers)
  {
    hide TimersOk, Backoff, ConnectionOk, Resolve, NetOk, ClearHealth, Current, Dispatches;
    DispatchIsCurrent(w, id);
    if Dispatches(w, id) { ReadyKeepsCurrent(w, id, OPEN); }
  }

  /** A data message on the held source is fresh and noted, or the connection is given up. */
  lemma {:induction false} DataTells(w: World, id: nat, m: Message)
    requires Inv(w) && IsData(m) && w.net.es == Some(id)
    ensures var w' := Step(w, Event.Message(id, m));
      if Stale(w.gauge, w.now, m.ts) then Fresh(w, w', w.conn)
      else
        && w'.net.es == w.net.es
        && w'.gauge == Gauged(w.gauge, w.now, m.ts).(lastMsgAt := w.now, lastSeq := m.seqNo)
        && w'.health == Resolved(w.health.(seenData := true, dataStale := false))
        && w'.conn == Live && w'.timers.health.Some?
  {
    hide TimersOk, Backoff, ConnectionOk, Resolve, Resolved, Current, Dispatches, Stale, Gauged, ClearHealth,
         OpenOrIdle, Close, ClearOnClose, NetOk, Fresh;
    DispatchIsCurrent(w, id);
    LogKeepsCurrent(w, id, m);
    if Stale(w.gauge, w.now, m.ts) {
      DroppedIsFresh(w, id, m);
    }
  }

  lemma {:induction false} DroppedIsFresh(w: World, id: nat, m: Message)
    requires Inv(w) && IsData(m) && w.net.es == Some(id)
    ensures var w1 := w.(net := LogDispatch(w.net, id, m), gauge := Gauged(w.gauge, w.now, m.ts).(lastMsgAt := w.now));
      Fresh(w, OpenOrIdle(CloseES(w1)), w.conn)
  {
    hide TimersOk, Backoff, ConnectionOk, Resolve, Gauged, ClearOnClose, NetOk, OpenOrIdle, ModeOk, Fresh;
    DroppedNet(w.net, id, m);
    OpenOrIdleIsFresh(w, CloseES(w.(net := LogDispatch(w.net, id, m),
                                    gauge := Gauged(w.gauge, w.now, m.ts).(lastMsgAt := w.now))));
  }

  lemma {:induction false} StatusTells(w: World, id: nat, m: Message)
    requires Inv(w) && !IsData(m) && w.net.es == Some(id)
    ensures Step(w, Event.Message(id, m)) == w.(health := Resolved(w.health.(srvDown := m.unreachable)))
  {
    hide *;
    StatusKeepsRest(w, id, m);
  }

  // ---- every run ----------------------------------------------------------

  lemma {:induction false} DataIsNoted(g: Gauge, s: Signs, now: int, ts: int, seqNo: nat)
    requires GaugeTold(g, s) && !Stale(g, now, ts)
    ensures GaugeTold(Gauged(g, now, ts).(lastMsgAt := now, lastSeq := seqNo),
                      s.(heard := s.heard + [Heard(now, ts)], overdue := false))
  {
    var heard := s.heard + [Heard(now, ts)];
    assert heard[..|heard| - 1] == s.heard && heard[|heard| - 1] == Heard(now, ts);
    GaugedApart(GaugeAfter(s.openedAt, s.heard), HeardAt(s), g.lastSeq, now, ts);
  }

  /** Neither verdict nor minimum depends on when or what the last message was. */
  lemma {:induction false} GaugedApart(g: Gauge, at: int, seqNo: nat, now: int, ts: int)
    ensures var g' := g.(lastMsgAt := at, lastSeq := seqNo);
      && Stale(g', now, ts) == Stale(g, now, ts)
      && Gauged(g', now, ts) == Gauged(g, now, ts).(lastMsgAt := at, lastSeq := seqNo)
  {
  }

  /** A new connection, of which nothing was heard, tells nothing. */
  lemma {:induction false} FreshIsTold(w: World, w': World, was: ConnState)
    requires Fresh(w, w', was) && w'.net.es.Some?
    ensures Told(w', Unheard(w'.now, if was == Idle then Connecting else was)) && w'.net.es != w.net.es
  {
  }

  /** Each event leaves what is told true. */
  lemma {:induction false} StepTells(w: World, e: Event, s: Signs)
    requires Inv(w) && Told(w, s)
    ensures Told(Step(w, e), NextSigns(w, e, s))
  {
    hide Inv, Step, Fire, GaugeTold, HealthTold, Stale, Gauged, IsAlive, ShowsPage;
    StepIsOk(w, e);
    var w' := Step(w, e);
    if w'.net.es.None? {
      NameOfNothing(w');
    } else {
      HeldIsRunning(w');
      if e.Message? {
        MessageTells(w, e.id, e.m, s);
      } else if e.TimerFires? {
        TimerTells(w, e.t, s);
      } else if ShowsPage(w, e) {
        PageTells(w, e, s);
      } else {
        OtherTells(w, e, s);
      }
    }
  }

  lemma {:induction false} MessageTells(w: World, id: nat, m: Message, s: Signs)
    requires Inv(w) && Told(w, s)
    requires var w' := Step(w, Event.Message(id, m)); w'.net.es.Some? && !w'.stopped
    ensures Told(Step(w, Event.Message(id, m)), NextSigns(w, Event.Message(id, m), s))
  {
    hide Inv, Step, GaugeTold, HealthTold, Stale, Gauged, Resolve, Dispatches, Fresh;
    DispatchIsCurrent(w, id);
    if w.net.es != Some(id) {
      IgnoredMessage(w, id, m);
    } else if !IsData(m) {
      StatusTells(w, id, m);
      FlagIsTold(w.health, s, m.unreachable);
    } else {
      DataTells(w, id, m);
      var w' := Step(w, Event.Message(id, m));
      if Stale(w.gauge, w.now, m.ts) {
        FreshIsTold(w, w', w.conn);
      } else {
        DataIsNoted(w.gauge, s, w.now, m.ts, m.seqNo);
        DatumIsTold(w.health, s, Heard(w.now, m.ts));
        SameGauge(w'.gauge, s, Heard(w.now, m.ts));
      }
    }
  }

  /** The watchdog and the name are no part of the gauge. */
  lemma {:induction false} SameGauge(g: Gauge, s: Signs, o: Heard)
    ensures GaugeTold(g, s.(heard := s.heard + [o], overdue := false)) ==>
      forall conn :: GaugeTold(g, s.(heard := s.heard + [o], overdue := false, armed := true, conn := conn))
  {
  }

  lemma {:induction false} FlagIsTold(h: HealthAxis, s: Signs, flag: bool)
    ensures HealthTold(h, s) ==> forall conn ::
      && HealthTold(Resolved(h.(srvDown := flag)), s.(unreachable := flag, conn := conn))
      && HealthTold(Resolved(h.(dataStale := true)), s.(overdue := true, armed := false, conn := conn))
      && HealthTold(h, s.(armed := flag, conn := conn)) && HealthTold(h, s.(conn := conn))
    ensures forall g, conn :: GaugeTold(g, s) ==>
      && GaugeTold(g, s.(unreachable := flag, conn := conn))
      && GaugeTold(g, s.(overdue := true, armed := false, conn := conn))
      && GaugeTold(g, s.(armed := flag, conn := conn)) && GaugeTold(g, s.(conn := conn))
  {
  }

  lemma {:induction false} DatumIsTold(h: HealthAxis, s: Signs, o: Heard)
    requires HealthTold(h, s)
    ensures forall conn ::
      HealthTold(Resolved(h.(seenData := true, dataStale := false)),
                 s.(heard := s.heard + [o], overdue := false, armed := true, conn := conn))
  {
  }

  lemma {:induction false} TimerTells(w: World, t: nat, s: Signs)
    requires Inv(w) && Told(w, s)
    requires var w' := Step(w, TimerFires(t)); w'.net.es.Some? && !w'.stopped
    ensures Told(Step(w, TimerFires(t)), NextSigns(w, TimerFires(t), s))
  {
    hide Inv, Fire, GaugeTold, HealthTold, Resolve, Fresh;
    FlagIsTold(w.health, s, false);
    if t in w.timers.pending {
      FireTells(w, t);
      if !IsWatchdog(w, t) { FreshIsTold(w, Fire(w, t), w.conn); }
    }
  }

  lemma {:induction false} PageTells(w: World, e: Event, s: Signs)
    requires Inv(w) && Told(w, s) && ShowsPage(w, e)
    requires Step(w, e).net.es.Some? && !Step(w, e).stopped
    ensures Told(Step(w, e), NextSigns(w, e, s))
  {
    hide Inv, OnShow, GaugeTold, HealthTold, Fresh, KeepOnShow;
    var w' := Step(w, e);
    ShownStep(w, e);
    ShowTells(w);
    FlagIsTold(w.health, s, true);
    if !KeepOnShow(w) {
      FreshIsTold(w, w', if w.net.es.Some? then Connecting else w.conn);
    }
  }

  lemma {:induction false} ShownStep(w: World, e: Event)
    requires Inv(w) && ShowsPage(w, e) && !Step(w, e).stopped
    ensures Step(w, e) == OnShow(Shown(w, true)) && !IsAlive(w, e)
  {
    hide Inv, OnShow;
    ShowKeepsStop(Shown(w, true));
    if w.docVisible { assert w.(visible := w.docVisible) == Shown(w, true); }
  }

  lemma {:induction false} ShowKeepsStop(w: World)
    ensures OnShow(w).stopped == w.stopped
  {
  }

  lemma {:induction false} OtherTells(w: World, e: Event, s: Signs)
    requires Inv(w) && Told(w, s) && !e.Message? && !e.TimerFires? && !ShowsPage(w, e)
    requires Step(w, e).net.es.Some? && !Step(w, e).stopped
    ensures Told(Step(w, e), NextSigns(w, e, s))
  {
    hide Inv, GaugeTold, HealthTold, Fresh, OnHide, Stop, GoIdle, OnOpen, OnError, SetReady, Dispatches;
    var w' := Step(w, e);
    FlagIsTold(w.health, s, true);
    FlagIsTold(w.health, s, false);
    match e
    case Opened(id) => OpenedTells(w, id);
    case Failed(id, fatal) => FailureTells(w, id, fatal); OrFresh(w, w', s, e);
    case VisibilityChanges(v) => if !w.stopped { HideTells(w); HiddenStep(w); OrHidden(w, w', s, e); }
    case Freezes => SuspendIsIdle(w);
    case PageHides => SuspendIsIdle(w);
    case Resumes =>
    case PageShows(_) =>
    case Stops => StopHoldsNothing(w);
    case TimePasses(_) =>
  }

  lemma {:induction false} OrFresh(w: World, w': World, s: Signs, e: Event)
    requires w' == Step(w, e) && e.Failed? && Told(w, s) && w'.net.es.Some? && !w'.stopped
    requires RestsAll(w, w') || Fresh(w, w', w.conn)
    ensures Told(w', NextSigns(w, e, s))
  {
    hide GaugeTold, HealthTold, Step;
    FlagIsTold(w.health, s, true);
    if Fresh(w, w', w.conn) { FreshIsTold(w, w', w.conn); }
  }

  lemma {:induction false} OrHidden(w: World, w': World, s: Signs, e: Event)
    requires w' == Step(w, e) && e == VisibilityChanges(false) && Told(w, s) && w'.net.es.Some? && !w'.stopped
    requires (Rests(w, w') && w'.conn == w.conn && w'.timers.health.None?) || Fresh(w, w', w.conn)
    ensures Told(w', NextSigns(w, e, s))
  {
    hide GaugeTold, HealthTold, Step;
    FlagIsTold(w.health, s, false);
    if Fresh(w, w', w.conn) { FreshIsTold(w, w', w.conn); }
  }

  lemma {:induction false} HiddenStep(w: World)
    requires !w.stopped
    ensures Step(w, VisibilityChanges(false)) == OnHide(Shown(w, false))
  {
    hide OnHide;
  }

  lemma {:induction false} SuspendIsIdle(w: World)
    requires !OnSuspend(w).stopped
    ensures OnSuspend(w).net.es.None?
  {
  }

  lemma {:induction false} StopHoldsNothing(w: World)
    ensures Stop(w).net.es.None?
  {
  }

  lemma {:induction false} RunTells(visible: bool, now: int, evs: seq<Event>)
    ensures Told(Run(visible, now, evs), SignsOf(visible, now, evs))
  {
    hide Told, Step, Begin, Inv, NextSigns;
    if evs == [] {
      BeginTells(visible, now);
    } else {
      var before := evs[..|evs| - 1];
      RunTells(visible, now, before);
      RunIsOk(visible, now, before);
      StepTells(Run(visible, now, before), evs[|evs| - 1], SignsOf(visible, now, before));
    }
  }

  lemma {:induction false} BeginTells(visible: bool, now: int)
    ensures Told(Begin(visible, now), Unheard(now, if visible then Connecting else Idle))
  {
    hide ClearRetry, ClearGrace;
  }

  /** The health shown while a source is held, told from its events: down exactly if the last
      status heard on it said unreachable, whatever data came; else stale exactly if the watchdog
      fired since the last data applied; else up exactly if some was; else unknown. */
  lemma {:induction false} HealthIsShown(visible: bool, now: int, evs: seq<Event>)
    requires Run(visible, now, evs).net.es.Some?
    ensures var shown, s := Run(visible, now, evs).health.shown, SignsOf(visible, now, evs);
      && (shown == RtDown <==> s.unreachable)
      && (shown == RtStale <==> !s.unreachable && s.overdue)
      && (shown == RtUp <==> !s.unreachable && !s.overdue && s.heard != [])
      && (shown == RtUnknown <==> !s.unreachable && !s.overdue && s.heard == [])
  {
    hide Run, SignsOf, HandlesOk, ModeOk, ConnectionOk, GaugeTold;
    RunTells(visible, now, evs);
    RunIsOk(visible, now, evs);
  }

  /** The connection's state is called what the events say: live from the moment the held source
      opens or delivers, until an error, idling, or a source found dead when the page is shown.
      And the watchdog runs exactly if the held source opened or delivered, or the page was shown
      with it alive, and since then it neither fired nor was the page hidden. */
  lemma {:induction false} ConnIsShown(visible: bool, now: int, evs: seq<Event>)
    ensures var w, s := Run(visible, now, evs), SignsOf(visible, now, evs);
      w.conn == s.conn && (w.net.es.Some? ==> (w.timers.health.Some? <==> s.armed))
  {
    hide Run, SignsOf, GaugeTold, HealthTold;
    RunTells(visible, now, evs);
  }

  /** A data message on the held source is stale exactly if nothing was heard on it and it was
      opened more than 30 s ago, or if it comes more than 15 s later against its stamp than some
      message heard before. */
  lemma {:induction false} StaleIsTold(visible: bool, now: int, evs: seq<Event>, ts: int)
    requires Run(visible, now, evs).net.es.Some?
    ensures var w, s := Run(visible, now, evs), SignsOf(visible, now, evs);
      Stale(w.gauge, w.now, ts) <==>
        if s.heard == [] then w.now - s.openedAt > 30000
        else exists i :: 0 <= i < |s.heard| && LagOf(Heard(w.now, ts)) - LagOf(s.heard[i]) > 15000
  {
    hide Run, SignsOf, GaugeAfter, AllFresh, HealthTold, Stale;
    RunTells(visible, now, evs);
    var w, s := Run(visible, now, evs), SignsOf(visible, now, evs);
    GaugedApart(GaugeAfter(s.openedAt, s.heard), HeardAt(s), w.gauge.lastSeq, w.now, ts);
    StaleMeans(s.openedAt, s.heard, Heard(w.now, ts));
  }

  /** Shown again, the page keeps its connection exactly if it holds one that was heard, or else
      opened, less than 15 s ago; any other time a new one is opened. */
  lemma {:induction false} ShowKeepsIff(visible: bool, now: int, evs: seq<Event>)
    requires !Run(visible, now, evs).stopped
    ensures var w, w' := Run(visible, now, evs), Step(Run(visible, now, evs), VisibilityChanges(true));
      var kept := w.net.es.Some? && w.now - HeardAt(SignsOf(visible, now, evs)) < 15000;
      && (kept ==> w'.net.es == w.net.es)
      && (!kept ==> w'.net.es.Some? && w'.net.es != w.net.es)
  {
    hide Run, SignsOf, GaugeAfter, AllFresh, HealthTold, OnShow, Inv;
    RunTells(visible, now, evs);
    RunIsOk(visible, now, evs);
    var w := Run(visible, now, evs);
    ShowTells(w);
    ShowHolds(w);
  }

  lemma {:induction false} ShowHolds(w: World)
    requires Inv(w)
    ensures OnShow(Shown(w, true)).net.es.Some?
    ensures KeepOnShow(w) <==> w.net.es.Some? && w.now - w.gauge.lastMsgAt < 15000
  {
    hide TimersOk, Backoff, ConnectionOk, Resolve, ArmHealth, ClearGrace, ClearOnClose;
  }
}
