/**
 A browser tab: its event loop hands each event to the driver object's listeners, timer
 callbacks and lifecycle handlers. The object takes exactly the steps of the state machine,
 so everything proved of every run holds of it.
 */
module Tabs {
  import opened Hubs
  import opened Driver
  import opened DriverInvariants
  import opened SseDrivers

  class Tab {
    const browser: Browser
    const page: Page
    const driver: SseDriver
    const lifecycle: Lifecycle

    ghost predicate Valid() {
      driver.browser == browser && driver.page == page && lifecycle.driver == driver
    }

    ghost function View(): World
      reads driver, driver.browser, driver.page
    {
      driver.View()
    }

    /** A fresh page that has just started its driver. */
    constructor (visible: bool, now: int)
      ensures Valid() && View() == Driver.Begin(visible, now) && Inv(View())
      ensures fresh(browser) && fresh(page) && fresh(driver) && fresh(lifecycle)
    {
      var b := new Browser();
      var p := new Page(visible, now);
      var d := new SseDriver(b, p);
      browser, page, driver := b, p, d;
      var l := new Lifecycle(d);
      lifecycle := l;
      new;
      hide Inv, Start;
      driver.Begin();
      BeginIsOk(visible, now);
    }

    /** One event, as the browser dispatches it: nothing from a source that is closed. */
    method Handle(e: Event)
      requires Valid() && Inv(View())
      modifies driver, browser, page
      ensures View() == Step(old(View()), e) && Inv(View())
    {
      hide Inv, OnOpen, OnData, OnStatus, OnError, Fire, OnVisibility, OnSuspend, OnWake, Stop, SetReady, LogDispatch;
      StepIsOk(View(), e);
      match e
      case Opened(id) => Open(id);
      case Message(id, m) => Receive(id, m);
      case Failed(id, fatal) => Fail(id, fatal);
      case TimerFires(t) =>
        if t in browser.pending { driver.TimerFired(t); }
      case VisibilityChanges(v) => lifecycle.VisibilityChange(v);
      case Freezes => lifecycle.Suspend();
      case Resumes => lifecycle.Wake();
      case PageHides => lifecycle.Suspend();
      case PageShows(persisted) => lifecycle.PageShow(persisted);
      case TimePasses(ms) => page.now := page.now + ms;
      case Stops => driver.End();
    }

    /** Whether the browser dispatches anything on the source. */
    predicate CanDispatch(id: nat)
      reads browser
    {
      id in browser.sources && browser.sources[id].ready != CLOSED
    }

    method Open(id: nat)
      requires Valid()
      modifies driver, browser
      ensures View() == Step(old(View()), Opened(id))
    {
      hide OnOpen;
      if !CanDispatch(id) { return; }
      browser.sources := browser.sources[id := browser.sources[id].(ready := OPEN)];
      driver.OpenListener(id);
    }

    method Receive(id: nat, m: Hubs.Message)
      requires Valid()
      modifies driver, browser
      ensures View() == Step(old(View()), Event.Message(id, m))
    {
      hide OnData, OnStatus;
      if !CanDispatch(id) { return; }
      if m.Health? {
        driver.StatusListener(id, m.unreachable);
      } else {
        var s := browser.sources[id];
        browser.sources := browser.sources[id := s.(dispatched := s.dispatched + [m])];
        driver.DataListener(id, m);
      }
    }

    method Fail(id: nat, fatal: bool)
      requires Valid()
      modifies driver, browser
      ensures View() == Step(old(View()), Failed(id, fatal))
    {
      hide OnError;
      if !CanDispatch(id) { return; }
      browser.sources := browser.sources[id := browser.sources[id].(ready := if fatal then CLOSED else CONNECTING)];
      driver.ErrorListener(id);
    }
  }
}
