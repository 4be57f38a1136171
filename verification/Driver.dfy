/**
 The browser's stream driver with the page lifecycle around it, as a state machine.
 `World` holds the driver's variables, the browser objects it holds handles to (event
 sources and timers), the visibility flags, and the history of what was applied.
 A server-sent-events task that finds its source CLOSED dispatches nothing (section
 9.2 of the HTML Living Standard), and the visibility state and its event change together.
 */
module Driver {
  import opened Options
  import opened Hubs

  datatype ConnState = Connecting | Live | Reconnecting | Offline | Idle

  datatype RtHealth = RtUp | RtDown | RtStale | RtUnknown

  datatype Ready = CONNECTING | OPEN | CLOSED

  datatype TimerKind = GraceTimer | RetryTimer(gen: nat, base: nat) | HealthTimer

  datatype LifecycleSignal = Show | Hide | Terminate

  const BACKOFF_MIN := 1000
  const BACKOFF_MAX := 30000
  const FIRST_MSG_AGE := 30000
  const STALE_LAG := 15000

  predicate IsData(m: Message) { !m.Health? }

  // ---- event sources ------------------------------------------------------

  /** One event source: its state, the generation its listeners captured, the data
      messages dispatched on it and those of them that were applied. */
  datatype Source = Source(ready: Ready, gen: nat, dispatched: seq<Message>, applied: seq<Message>)

  /** The driver's `es` and `gen`, and every source it ever created, numbered from 0. */
  datatype Net = Net(es: Option<nat>, gen: nat, sources: map<nat, Source>)

  function SetReady(n: Net, id: nat, r: Ready): Net
    requires id in n.sources
  {
    n.(sources := n.sources[id := n.sources[id].(ready := r)])
  }

  function Close(n: Net): Net {
    var n1 := if n.es.Some? && n.es.value in n.sources then SetReady(n, n.es.value, CLOSED) else n;
    n1.(gen := n.gen + 1, es := None)
  }

  function Create(n: Net): Net {
    var id := |n.sources|;
    n.(es := Some(id), sources := n.sources[id := Source(CONNECTING, n.gen, [], [])])
  }

  function LogDispatch(n: Net, id: nat, m: Message): Net
    requires id in n.sources
  {
    n.(sources := n.sources[id := n.sources[id].(dispatched := n.sources[id].dispatched + [m])])
  }

  function LogApply(n: Net, id: nat, m: Message): Net
    requires id in n.sources
  {
    n.(sources := n.sources[id := n.sources[id].(applied := n.sources[id].applied + [m])])
  }

  // ---- timers -------------------------------------------------------------

  /** The browser's pending timers and the driver's three timer variables. */
  datatype Timers = Timers(pending: map<nat, TimerKind>, next: nat,
                           grace: Option<nat>, retry: Option<nat>, health: Option<nat>)

  function Cancel(pending: map<nat, TimerKind>, t: Option<nat>): map<nat, TimerKind> {
    if t.Some? then pending - {t.value} else pending
  }

  function ClearHealth(t: Timers): Timers { t.(pending := Cancel(t.pending, t.health), health := None) }

  function ClearRetry(t: Timers): Timers { t.(pending := Cancel(t.pending, t.retry), retry := None) }

  function ClearGrace(t: Timers): Timers { t.(pending := Cancel(t.pending, t.grace), grace := None) }

  function ArmHealth(t: Timers): Timers {
    var c := ClearHealth(t);
    c.(pending := c.pending[c.next := HealthTimer], next := c.next + 1, health := Some(c.next))
  }

  function ArmRetry(t: Timers, gen: nat, base: nat): Timers {
    t.(pending := t.pending[t.next := RetryTimer(gen, base)], next := t.next + 1, retry := Some(t.next))
  }

  function ArmGrace(t: Timers): Timers {
    t.(pending := t.pending[t.next := GraceTimer], next := t.next + 1, grace := Some(t.next))
  }

  /** closeES cancels the retry and the watchdog. */
  function ClearOnClose(t: Timers): Timers { ClearHealth(ClearRetry(t)) }

  // ---- health axis --------------------------------------------------------

  datatype HealthAxis = HealthAxis(srvDown: bool, seenData: bool, dataStale: bool, shown: RtHealth)

  /** down (server) > stale (watchdog) > data > unknown. */
  function Resolve(h: HealthAxis): RtHealth {
    if h.srvDown then RtDown else if h.dataStale then RtStale else if h.seenData then RtUp else RtUnknown
  }

  function Resolved(h: HealthAxis): HealthAxis { h.(shown := Resolve(h)) }

  // ---- staleness ----------------------------------------------------------

  /** Per connection: the least lag so far (in ms), whether a message came, when the
      connection was opened and last heard, and the last sequence number. */
  datatype Gauge = Gauge(skew: Option<int>, gotFirst: bool, connectAt: int, lastMsgAt: int, lastSeq: nat)

  function Lag(now: int, ts: int): int { now - 1000 * ts }

  /** The connect-age rule for a connection's first message. */
  predicate TooOldFirst(g: Gauge, now: int) { !g.gotFirst && now - g.connectAt > FIRST_MSG_AGE }

  /** Behind the least lag of the connection by more than 15 s; the first message only
      sets the baseline. */
  predicate LagsBehind(g: Gauge, now: int, ts: int) {
    g.skew.Some? && Lag(now, ts) >= g.skew.value && Lag(now, ts) - g.skew.value > STALE_LAG
  }

  predicate Stale(g: Gauge, now: int, ts: int) { TooOldFirst(g, now) || LagsBehind(g, now, ts) }

  /** The running minimum moves down with every smaller lag. */
  function Gauged(g: Gauge, now: int, ts: int): Gauge {
    g.(gotFirst := true,
       skew := if TooOldFirst(g, now) then g.skew
               else if g.skew.None? || Lag(now, ts) < g.skew.value then Some(Lag(now, ts))
               else g.skew)
  }

  // ---- the world ----------------------------------------------------------

  /** `errors` counts visible errors since the last open; `applied` and `warnings` are
      what reached the stores and the console. */
  datatype World = World(
    net: Net, timers: Timers, gauge: Gauge, health: HealthAxis,
    backoff: nat, errors: nat, conn: ConnState, stopped: bool,
    now: int, visible: bool, docVisible: bool,
    applied: seq<Message>, warnings: nat)

  function CloseES(w: World): World { w.(net := Close(w.net), timers := ClearOnClose(w.timers)) }

  function GoIdle(w: World): World {
    CloseES(w.(timers := ClearGrace(w.timers))).(conn := Idle)
  }

  /** A new source, of which nothing has been heard; never green until something is. */
  function Reconnected(c: World): World {
    c.(net := Create(c.net),
       gauge := Gauge(None, false, c.now, c.now, 0),
       health := HealthAxis(false, false, false, RtUnknown),
       conn := if c.conn == Idle then Connecting else c.conn)
  }

  function Open(w: World): World { Reconnected(CloseES(w)) }

  /** Reopen if the page is visible, else give the connection up. */
  function OpenOrIdle(w: World): World {
    if w.visible then Open(w) else GoIdle(w)
  }

  /** The guard at the top of every listener. */
  predicate Current(w: World, id: nat) {
    id in w.net.sources && w.net.sources[id].gen == w.net.gen && !w.stopped
  }

  function OnOpen(w: World, id: nat): World {
    if !Current(w, id) then w
    else w.(backoff := BACKOFF_MIN, errors := 0, conn := Live, timers := ArmHealth(w.timers))
  }

  predicate Gap(g: Gauge, m: Message)
    requires IsData(m)
  {
    m.DeltaMsg? && g.lastSeq != 0 && m.seqNo > g.lastSeq + 1
  }

  /** The snapshot and delta listeners. */
  function OnData(w: World, id: nat, m: Message): World
    requires id in w.net.sources && IsData(m)
  {
    if !Current(w, id) then w
    else
      var heard := Gauged(w.gauge, w.now, m.ts).(lastMsgAt := w.now);
      var w1 := w.(gauge := heard);
      if Stale(w.gauge, w.now, m.ts) then OpenOrIdle(CloseES(w1))
      else
        w1.(net := LogApply(w.net, id, m),
            gauge := heard.(lastSeq := m.seqNo),
            warnings := w.warnings + (if Gap(w.gauge, m) then 1 else 0),
            applied := w.applied + [m],
            conn := Live,
            timers := ArmHealth(w.timers),
            health := Resolved(w.health.(seenData := true, dataStale := false)))
  }

  function OnStatus(w: World, id: nat, unreachable: bool): World {
    if !Current(w, id) then w else w.(health := Resolved(w.health.(srvDown := unreachable)))
  }

  function OnError(w: World, id: nat): World {
    if !Current(w, id) then w
    else
      var c := CloseES(w);
      if !w.visible then GoIdle(c)
      else
        c.(conn := Reconnecting, timers := ArmRetry(c.timers, c.net.gen, w.backoff), errors := w.errors + 1,
           backoff := if 2 * w.backoff < BACKOFF_MAX then 2 * w.backoff else BACKOFF_MAX)
  }

  function Fire(w: World, t: nat): World
    requires t in w.timers.pending
  {
    var left := w.timers.(pending := w.timers.pending - {t});
    match w.timers.pending[t]
    case GraceTimer => GoIdle(w.(timers := left.(grace := None)))
    case RetryTimer(g, _) =>
      var r := w.(timers := left.(retry := None));
      if g != w.net.gen || w.stopped then r else OpenOrIdle(r)
    case HealthTimer => w.(timers := left.(health := None), health := Resolved(w.health.(dataStale := true)))
  }

  /** Alive and heard from within 15 s. */
  predicate KeepOnShow(w: World) {
    && w.net.es.Some? && w.net.es.value in w.net.sources && w.net.sources[w.net.es.value].ready != CLOSED
    && w.now - w.gauge.lastMsgAt < STALE_LAG
  }

  function OnHide(w: World): World {
    if w.timers.retry.Some? then GoIdle(w)
    else
      var c := ClearHealth(w.timers);
      w.(timers := if w.net.es.Some? && w.timers.grace.None? then ArmGrace(c) else c)
  }

  function OnShow(w: World): World {
    var c := w.(timers := ClearGrace(w.timers));
    if KeepOnShow(w) then c.(timers := ArmHealth(c.timers))
    else Open(if w.net.es.Some? then c.(conn := Connecting) else c)
  }

  function Signal(w: World, s: LifecycleSignal): World {
    if w.stopped then w
    else
      match s
      case Terminate => GoIdle(w)
      case Hide => OnHide(w)
      case Show => OnShow(w)
  }

  function Start(w: World): World {
    if w.visible then Open(w) else w.(conn := Idle)
  }

  function Stop(w: World): World {
    CloseES(w.(stopped := true, timers := ClearGrace(w.timers))).(conn := Offline)
  }

  // ---- the lifecycle store and the browser --------------------------------

  function OnVisibility(w: World, v: bool): World {
    Signal(w.(docVisible := v, visible := v), if v then Show else Hide)
  }

  /** freeze and pagehide. */
  function OnSuspend(w: World): World { Signal(w.(visible := false), Terminate) }

  /** resume and persisted pageshow. */
  function OnWake(w: World): World {
    var w1 := w.(visible := w.docVisible);
    if w.docVisible then Signal(w1, Show) else w1
  }

  datatype Event =
    | Opened(id: nat)
    | Message(id: nat, m: Hubs.Message)
    | Failed(id: nat, fatal: bool)
    | TimerFires(t: nat)
    | VisibilityChanges(visible: bool)
    | Freezes | Resumes | PageHides | PageShows(persisted: bool)
    | TimePasses(ms: nat)
    | Stops

  /** Whether the browser dispatches anything on the source. */
  predicate Dispatches(w: World, id: nat) {
    id in w.net.sources && w.net.sources[id].ready != CLOSED
  }

  function Step(w: World, e: Event): World {
    match e
    case Opened(id) =>
      if Dispatches(w, id) then OnOpen(w.(net := SetReady(w.net, id, OPEN)), id) else w
    case Message(id, m) =>
      if !Dispatches(w, id) then w
      else if IsData(m) then OnData(w.(net := LogDispatch(w.net, id, m)), id, m)
      else OnStatus(w, id, m.unreachable)
    case Failed(id, fatal) =>
      if Dispatches(w, id) then OnError(w.(net := SetReady(w.net, id, if fatal then CLOSED else CONNECTING)), id) else w
    case TimerFires(t) => if t in w.timers.pending then Fire(w, t) else w
    case VisibilityChanges(v) => OnVisibility(w, v)
    case Freezes => OnSuspend(w)
    case Resumes => OnWake(w)
    case PageHides => OnSuspend(w)
    case PageShows(persisted) => if persisted then OnWake(w) else w
    case TimePasses(ms) => w.(now := w.now + ms)
    case Stops => Stop(w)
  }

  /** A fresh page, visible or in a background tab, that has just started its driver. */
  function Begin(visible: bool, now: int): World {
    Start(World(Net(None, 0, map[]), Timers(map[], 0, None, None, None), Gauge(None, false, 0, 0, 0),
                HealthAxis(false, false, false, RtUnknown), BACKOFF_MIN, 0, Connecting, false,
                now, visible, visible, [], 0))
  }

  function Run(visible: bool, now: int, evs: seq<Event>): World {
    if evs == [] then Begin(visible, now) else Step(Run(visible, now, evs[..|evs| - 1]), evs[|evs| - 1])
  }
}
