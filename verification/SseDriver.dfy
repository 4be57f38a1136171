/**
 The driver as the object the browser runs: closure variables, listeners, timer callbacks
 and signals, each proved to do what the state machine's step does.
 */
module SseDrivers {
  import opened Options
  import opened Hubs
  import opened Driver

  /** The browser's side: event sources, timers, and the console. */
  class Browser {
    var sources: map<nat, Source>
    var pending: map<nat, TimerKind>
    var next: nat
    var warnings: nat

    constructor ()
      ensures sources == map[] && pending == map[] && next == 0 && warnings == 0
    {
      sources, pending, next, warnings := map[], map[], 0, 0;
    }

    method CreateES(gen: nat) returns (id: nat)
      modifies this`sources
      ensures id == |old(sources)| && sources == old(sources)[id := Source(CONNECTING, gen, [], [])]
    {
      id := |sources|;
      sources := sources[id := Source(CONNECTING, gen, [], [])];
    }

    method CloseES(id: nat)
      modifies this`sources
      ensures sources ==
        if id in old(sources) then old(sources)[id := old(sources)[id].(ready := CLOSED)] else old(sources)
    {
      if id in sources {
        sources := sources[id := sources[id].(ready := CLOSED)];
      }
    }

    method SetTimeout(k: TimerKind) returns (id: nat)
      modifies this`pending, this`next
      ensures id == old(next) && next == old(next) + 1 && pending == old(pending)[id := k]
    {
      id := next;
      pending := pending[id := k];
      next := next + 1;
    }

    method ClearTimeout(id: nat)
      modifies this`pending
      ensures pending == old(pending) - {id}
    {
      pending := pending - {id};
    }
  }

  /** The lifecycle store's flag and what the document and the clock say. */
  class Page {
    var visible: bool
    var docVisible: bool
    var now: int

    constructor (visible: bool, now: int)
      ensures this.visible == visible && docVisible == visible && this.now == now
    {
      this.visible, docVisible, this.now := visible, visible, now;
    }
  }

  class SseDriver {
    const browser: Browser
    const page: Page

    var es: Option<nat>
    var gen: nat
    var graceTimer: Option<nat>
    var retryTimer: Option<nat>
    var healthTimer: Option<nat>
    var backoffMs: nat
    var skew: Option<int>
    var gotFirstMsg: bool
    var connectAtMs: int
    var lastMsgAtMs: int
    var lastSeq: nat
    var conn: ConnState
    var stopped: bool
    var srvDown: bool
    var seenData: bool
    var dataStale: bool
    var health: RtHealth

    var applied: seq<Message>
    ghost var errors: nat

    function NetView(): Net
      reads this`es, this`gen, browser`sources
    {
      Net(es, gen, browser.sources)
    }

    function TimersView(): Timers
      reads this`graceTimer, this`retryTimer, this`healthTimer, browser`pending, browser`next
    {
      Timers(browser.pending, browser.next, graceTimer, retryTimer, healthTimer)
    }

    function GaugeView(): Gauge
      reads this`skew, this`gotFirstMsg, this`connectAtMs, this`lastMsgAtMs, this`lastSeq
    {
      Gauge(skew, gotFirstMsg, connectAtMs, lastMsgAtMs, lastSeq)
    }

    function HealthView(): HealthAxis
      reads this`srvDown, this`seenData, this`dataStale, this`health
    {
      HealthAxis(srvDown, seenData, dataStale, health)
    }

    ghost function View(): World
      reads this, browser, page
    {
      World(NetView(), TimersView(), GaugeView(), HealthView(), backoffMs, errors, conn, stopped,
            page.now, page.visible, page.docVisible, applied, browser.warnings)
    }

    constructor (browser: Browser, page: Page)
      ensures this.browser == browser && this.page == page
      ensures View() == World(Net(None, 0, browser.sources), Timers(browser.pending, browser.next, None, None, None),
        Gauge(None, false, 0, 0, 0), HealthAxis(false, false, false, RtUnknown), BACKOFF_MIN, 0, Connecting, false,
        page.now, page.visible, page.docVisible, [], browser.warnings)
    {
      this.browser, this.page := browser, page;
      es, gen, graceTimer, retryTimer, healthTimer := None, 0, None, None, None;
      backoffMs, skew, gotFirstMsg, connectAtMs, lastMsgAtMs, lastSeq := BACKOFF_MIN, None, false, 0, 0, 0;
      conn, stopped, srvDown, seenData, dataStale, health := Connecting, false, false, false, false, RtUnknown;
      applied, errors := [], 0;
    }

    // ---- timers -----------------------------------------------------------

    method ClearHealthTimer()
      modifies this`healthTimer, browser`pending
      ensures TimersView() == ClearHealth(old(TimersView()))
    {
      if healthTimer.Some? { browser.ClearTimeout(healthTimer.value); }
      healthTimer := None;
    }

    method ClearRetryTimer()
      modifies this`retryTimer, browser`pending
      ensures TimersView() == ClearRetry(old(TimersView()))
    {
      if retryTimer.Some? { browser.ClearTimeout(retryTimer.value); }
      retryTimer := None;
    }

    method ClearGraceTimer()
      modifies this`graceTimer, browser`pending
      ensures TimersView() == ClearGrace(old(TimersView()))
    {
      if graceTimer.Some? { browser.ClearTimeout(graceTimer.value); }
      graceTimer := None;
    }

    method ArmHealthTimer()
      modifies this`healthTimer, browser`pending, browser`next
      ensures TimersView() == ArmHealth(old(TimersView()))
    {
      ClearHealthTimer();
      var t := browser.SetTimeout(HealthTimer);
      healthTimer := Some(t);
    }

    method ArmGraceTimer()
      modifies this`graceTimer, browser`pending, browser`next
      ensures TimersView() == ArmGrace(old(TimersView()))
    {
      var t := browser.SetTimeout(GraceTimer);
      graceTimer := Some(t);
    }

    // ---- the health axis --------------------------------------------------

    function ResolveHealth(): RtHealth
      reads this
      ensures ResolveHealth() == Resolve(HealthView())
    {
      if srvDown then RtDown else if dataStale then RtStale else if seenData then RtUp else RtUnknown
    }

    method SetHealth(h: RtHealth)
      modifies this`health
      ensures health == h
    {
      if h == health { return; }
      health := h;
    }

    method OnDatum()
      modifies this`seenData, this`dataStale, this`health, this`healthTimer, browser`pending, browser`next
      ensures TimersView() == ArmHealth(old(TimersView()))
      ensures HealthView() == Resolved(old(HealthView()).(seenData := true, dataStale := false))
    {
      hide ArmHealth;
      seenData, dataStale := true, false;
      ArmHealthTimer();
      SetHealth(ResolveHealth());
    }

    // ---- connections ------------------------------------------------------

    method CloseConnection()
      modifies this`es, this`gen, this`retryTimer, this`healthTimer, browser`pending, browser`sources
      ensures View() == CloseES(old(View()))
    {
      CloseHandles();
    }

    method CloseHandles()
      modifies this`es, this`gen, this`retryTimer, this`healthTimer, browser`pending, browser`sources
      ensures NetView() == Close(old(NetView())) && TimersView() == ClearOnClose(old(TimersView()))
    {
      gen := gen + 1;
      ClearRetryTimer();
      ClearHealthTimer();
      if es.Some? { browser.CloseES(es.value); }
      es := None;
    }

    method GoIdleNow()
      modifies this`es, this`gen, this`retryTimer, this`healthTimer, this`graceTimer, this`conn, browser`pending,
               browser`sources
      ensures View() == GoIdle(old(View()))
    {
      hide CloseES, ClearGrace, NetView, TimersView, GaugeView, HealthView;
      ClearGraceTimer();
      CloseConnection();
      conn := Idle;
    }

    method OpenConnection()
      modifies this`es, this`gen, this`retryTimer, this`healthTimer, this`conn, browser`pending, browser`sources
      modifies this`skew, this`gotFirstMsg, this`connectAtMs, this`lastMsgAtMs, this`lastSeq
      modifies this`srvDown, this`seenData, this`dataStale, this`health
      ensures View() == Open(old(View()))
    {
      hide CloseES, Reconnected, View;
      CloseConnection();
      Reconnect();
    }

    method Reconnect()
      modifies this`es, this`conn, browser`sources
      modifies this`skew, this`gotFirstMsg, this`connectAtMs, this`lastMsgAtMs, this`lastSeq
      modifies this`srvDown, this`seenData, this`dataStale, this`health
      ensures View() == Reconnected(old(View()))
    {
      hide Create, NetView, TimersView, GaugeView, HealthView;
      ResetConnection();
      if conn == Idle { conn := Connecting; }
      Connect();
    }

    /** Nothing heard yet, and never green until something is. */
    method ResetConnection()
      modifies this`skew, this`gotFirstMsg, this`connectAtMs, this`lastMsgAtMs, this`lastSeq
      modifies this`srvDown, this`seenData, this`dataStale, this`health
      ensures GaugeView() == Gauge(None, false, page.now, page.now, 0)
      ensures HealthView() == HealthAxis(false, false, false, RtUnknown)
    {
      skew, gotFirstMsg, lastSeq := None, false, 0;
      srvDown, seenData, dataStale := false, false, false;
      connectAtMs, lastMsgAtMs := page.now, page.now;
      SetHealth(RtUnknown);
    }

    method Connect()
      modifies this`es, browser`sources
      ensures NetView() == Create(old(NetView()))
    {
      var id := browser.CreateES(gen);
      es := Some(id);
    }

    method OpenOrGoIdle()
      modifies this, browser
      ensures View() == OpenOrIdle(old(View()))
    {
      hide Open, GoIdle;
      if page.visible { OpenConnection(); } else { GoIdleNow(); }
    }

    // ---- listeners --------------------------------------------------------

    /** The guard at the top of every listener of source `id`. */
    predicate Late(id: nat)
      requires id in browser.sources
      reads this, browser, page
      ensures Late(id) <==> !Current(View(), id)
    {
      browser.sources[id].gen != gen || stopped
    }

    method OpenListener(id: nat)
      requires id in browser.sources
      modifies this`backoffMs, this`errors, this`conn, this`healthTimer, browser`pending, browser`next
      ensures View() == OnOpen(old(View()), id)
    {
      hide ArmHealth, Current, NetView, TimersView, GaugeView, HealthView;
      if Late(id) { return; }
      backoffMs, errors := BACKOFF_MIN, 0;
      conn := Live;
      ArmHealthTimer();
    }

    /** The verdict on one message, and the gauge after it; a first message that comes too
        late leaves the running minimum alone. */
    method Observe(ts: int) returns (stale: bool)
      modifies this`skew, this`gotFirstMsg
      ensures stale == Stale(old(GaugeView()), page.now, ts)
      ensures GaugeView() == Gauged(old(GaugeView()), page.now, ts)
    {
      var tooOldFirst := !gotFirstMsg && page.now - connectAtMs > FIRST_MSG_AGE;
      gotFirstMsg := true;
      if tooOldFirst { return true; }
      var lag := Lag(page.now, ts);
      if skew.None? || lag < skew.value {
        skew := Some(lag);
        return false;
      }
      return lag - skew.value > STALE_LAG;
    }

    /** True if the message was the mark of a backlog and the connection was recycled. */
    method StaleAndRecycled(ts: int) returns (recycled: bool)
      modifies this, browser
      ensures recycled == Stale(old(GaugeView()), page.now, ts)
      ensures var heard := old(View()).(gauge := Gauged(old(GaugeView()), page.now, ts));
        View() == if recycled then OpenOrIdle(CloseES(heard)) else heard
    {
      hide OpenOrIdle, CloseES, Stale, Gauged, NetView, TimersView, GaugeView, HealthView;
      recycled := Observe(ts);
      if recycled {
        CloseConnection();
        OpenOrGoIdle();
      }
    }

    method NoteHeard()
      modifies this`lastMsgAtMs
      ensures GaugeView() == old(GaugeView()).(lastMsgAt := page.now)
    {
      lastMsgAtMs := page.now;
    }

    /** The tripwire; only a delta is checked. */
    method NoteSeq(m: Message)
      requires IsData(m)
      modifies this`lastSeq, browser`warnings
      ensures GaugeView() == old(GaugeView()).(lastSeq := m.seqNo)
      ensures browser.warnings == old(browser.warnings) + (if Gap(old(GaugeView()), m) then 1 else 0)
    {
      if m.DeltaMsg? && lastSeq != 0 && m.seqNo > lastSeq + 1 {
        browser.warnings := browser.warnings + 1;
      }
      lastSeq := m.seqNo;
    }

    method HandOver(id: nat, m: Message)
      requires id in browser.sources
      modifies this`applied, browser`sources
      ensures applied == old(applied) + [m] && NetView() == LogApply(old(NetView()), id, m)
    {
      applied := applied + [m];
      browser.sources := browser.sources[id := browser.sources[id].(applied := browser.sources[id].applied + [m])];
    }

    /** The snapshot and delta listeners. */
    method DataListener(id: nat, m: Message)
      requires id in browser.sources && IsData(m)
      modifies this, browser
      ensures View() == OnData(old(View()), id, m)
    {
      hide OpenOrIdle, Stale, Gauged, Gap, CloseES, ArmHealth, Resolved, LogApply, Current, NetView, TimersView,
           GaugeView, HealthView;
      assert id in NetView().sources by { InNet(id); }
      if Late(id) { return; }
      GaugedKeeps(GaugeView(), page.now, m);
      NoteHeard();
      var recycled := StaleAndRecycled(m.ts);
      if recycled { return; }
      assert id in browser.sources by { InNet(id); }
      Apply(id, m);
    }

    method Apply(id: nat, m: Message)
      requires id in browser.sources && IsData(m)
      modifies this, browser
      ensures var w := old(View());
        View() == w.(net := LogApply(w.net, id, m), gauge := w.gauge.(lastSeq := m.seqNo),
                     warnings := w.warnings + (if Gap(w.gauge, m) then 1 else 0),
                     applied := w.applied + [m], conn := Live,
                     timers := ArmHealth(w.timers), health := Resolved(w.health.(seenData := true, dataStale := false)))
    {
      hide Gap, ArmHealth, Resolved, LogApply, NetView, TimersView, GaugeView, HealthView;
      InNet(id);
      NoteSeq(m);
      HandOver(id, m);
      GoLive();
    }

    method GoLive()
      modifies this`conn, this`seenData, this`dataStale, this`health, this`healthTimer, browser`pending, browser`next
      ensures var w := old(View());
        View() == w.(conn := Live, timers := ArmHealth(w.timers),
                     health := Resolved(w.health.(seenData := true, dataStale := false)))
    {
      hide ArmHealth, Resolved, NetView, TimersView, GaugeView, HealthView;
      conn := Live;
      OnDatum();
    }

    lemma {:induction false} InNet(id: nat)
      ensures id in NetView().sources <==> id in browser.sources
    {
    }

    method StatusListener(id: nat, unreachable: bool)
      requires id in browser.sources
      modifies this`srvDown, this`health
      ensures View() == OnStatus(old(View()), id, unreachable)
    {
      if Late(id) { return; }
      srvDown := unreachable;
      SetHealth(ResolveHealth());
    }

    /** The callback compares against the generation as it is now, after the close. */
    method ScheduleRetry()
      modifies this`retryTimer, browser`pending, browser`next
      ensures TimersView() == ArmRetry(old(TimersView()), NetView().gen, backoffMs)
    {
      var t := browser.SetTimeout(RetryTimer(gen, backoffMs));
      retryTimer := Some(t);
    }

    method ErrorListener(id: nat)
      requires id in browser.sources
      modifies this, browser
      ensures View() == OnError(old(View()), id)
    {
      hide CloseES, GoIdle, ArmRetry, Current, NetView, TimersView, GaugeView, HealthView;
      if Late(id) { return; }
      CloseConnection();
      if !page.visible {
        GoIdleNow();
        return;
      }
      BackOff();
    }

    method BackOff()
      modifies this`conn, this`retryTimer, this`errors, this`backoffMs, browser`pending, browser`next
      ensures var w := old(View());
        View() == w.(conn := Reconnecting, timers := ArmRetry(w.timers, w.net.gen, w.backoff), errors := w.errors + 1,
                     backoff := if 2 * w.backoff < BACKOFF_MAX then 2 * w.backoff else BACKOFF_MAX)
    {
      hide ArmRetry, NetView, TimersView, GaugeView, HealthView;
      ScheduleRetry();
      conn := Reconnecting;
      errors := errors + 1;
      backoffMs := if 2 * backoffMs < BACKOFF_MAX then 2 * backoffMs else BACKOFF_MAX;
    }

    // ---- timer callbacks --------------------------------------------------

    method TimerFired(t: nat)
      requires t in browser.pending
      modifies this, browser
      ensures View() == Fire(old(View()), t)
    {
      hide OpenOrIdle, GoIdle, Resolved;
      match browser.pending[t]
      case GraceTimer => GraceFired(t);
      case RetryTimer(g, _) => RetryFired(t, g);
      case HealthTimer => HealthFired(t);
    }

    method GraceFired(t: nat)
      modifies this, browser
      ensures var w := old(View());
        View() == GoIdle(w.(timers := w.timers.(pending := w.timers.pending - {t}, grace := None)))
    {
      hide GoIdle;
      browser.ClearTimeout(t);
      graceTimer := None;
      GoIdleNow();
    }

    method RetryFired(t: nat, g: nat)
      modifies this, browser
      ensures var w := old(View());
        var r := w.(timers := w.timers.(pending := w.timers.pending - {t}, retry := None));
        View() == if g != w.net.gen || w.stopped then r else OpenOrIdle(r)
    {
      hide OpenOrIdle;
      browser.ClearTimeout(t);
      retryTimer := None;
      if g != gen || stopped { return; }
      OpenOrGoIdle();
    }

    /** The watchdog only signals. */
    method HealthFired(t: nat)
      modifies this`healthTimer, this`dataStale, this`health, browser`pending
      ensures var w := old(View());
        View() == w.(timers := w.timers.(pending := w.timers.pending - {t}, health := None),
                     health := Resolved(w.health.(dataStale := true)))
    {
      browser.ClearTimeout(t);
      healthTimer := None;
      dataStale := true;
      SetHealth(ResolveHealth());
    }

    // ---- signals ----------------------------------------------------------

    method Hidden()
      modifies this, browser
      ensures View() == OnHide(old(View()))
    {
      hide GoIdle, ClearHealth, ArmGrace, GaugeView, HealthView;
      if retryTimer.Some? {
        GoIdleNow();
        return;
      }
      ClearHealthTimer();
      if es.Some? && graceTimer.None? { ArmGraceTimer(); }
    }

    predicate AliveAndTalking()
      reads this, browser, page
      ensures AliveAndTalking() <==> KeepOnShow(View())
    {
      && es.Some? && es.value in browser.sources && browser.sources[es.value].ready != CLOSED
      && page.now - lastMsgAtMs < STALE_LAG
    }

    method Revealed()
      modifies this, browser
      ensures View() == OnShow(old(View()))
    {
      hide Open, ClearGrace, ArmHealth, GaugeView, HealthView;
      ClearGraceTimer();
      ghost var c := old(View()).(timers := ClearGrace(old(View()).timers));
      assert View() == c;
      if AliveAndTalking() {
        ArmHealthTimer();
        assert View() == c.(timers := ArmHealth(c.timers));
        return;
      }
      Reopen();
    }

    method Reopen()
      modifies this, browser
      ensures var w := old(View());
        View() == Open(if w.net.es.Some? then w.(conn := Connecting) else w)
    {
      hide Open, TimersView, GaugeView, HealthView;
      if es.Some? { conn := Connecting; }
      OpenConnection();
    }

    method OnSignal(s: LifecycleSignal)
      modifies this, browser
      ensures View() == Signal(old(View()), s)
    {
      hide GoIdle, OnHide, OnShow;
      if stopped { return; }
      match s
      case Terminate => GoIdleNow();
      case Hide => Hidden();
      case Show => Revealed();
    }

    method Begin()
      modifies this, browser
      ensures View() == Start(old(View()))
    {
      hide Open;
      if page.visible { OpenConnection(); } else { conn := Idle; }
    }

    method End()
      modifies this, browser
      ensures View() == Stop(old(View()))
    {
      hide CloseES, ClearGrace, NetView, TimersView, GaugeView, HealthView;
      stopped := true;
      ClearGraceTimer();
      CloseConnection();
      conn := Offline;
    }
  }

  lemma {:induction false} GaugedKeeps(g: Gauge, now: int, m: Message)
    requires IsData(m)
    ensures Stale(g.(lastMsgAt := now), now, m.ts) == Stale(g, now, m.ts)
    ensures Gauged(g.(lastMsgAt := now), now, m.ts) == Gauged(g, now, m.ts).(lastMsgAt := now)
    ensures Gap(Gauged(g, now, m.ts).(lastMsgAt := now), m) == Gap(g, m)
  {
  }

  /** The lifecycle store: every handler writes `visible` before it notifies. */
  class Lifecycle {
    const driver: SseDriver

    constructor (driver: SseDriver)
      ensures this.driver == driver
    {
      this.driver := driver;
    }

    method VisibilityChange(v: bool)
      modifies driver, driver.browser, driver.page
      ensures driver.View() == OnVisibility(old(driver.View()), v)
    {
      hide Signal;
      driver.page.docVisible := v;
      driver.page.visible := driver.page.docVisible;
      driver.OnSignal(if driver.page.visible then Show else Hide);
    }

    method Suspend()
      modifies driver, driver.browser, driver.page
      ensures driver.View() == OnSuspend(old(driver.View()))
    {
      hide Signal;
      driver.page.visible := false;
      driver.OnSignal(Terminate);
    }

    method Wake()
      modifies driver, driver.browser, driver.page
      ensures driver.View() == OnWake(old(driver.View()))
    {
      hide Signal;
      driver.page.visible := driver.page.docVisible;
      if driver.page.visible { driver.OnSignal(Show); }
    }

    method PageShow(persisted: bool)
      modifies driver, driver.browser, driver.page
      ensures driver.View() == if persisted then OnWake(old(driver.View())) else old(driver.View())
    {
      hide OnWake;
      if !persisted { return; }
      Wake();
    }
  }
}
