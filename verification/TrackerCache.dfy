/**
 The tracker-host cache: concurrent fetches that park a marker while they read the daemon
 and commit only where their own marker is still in place, and the toggle that deletes an
 entry once the daemon has changed. The specification is a transition system; the class
 holds the same cache.
 */
module TrackerCaches {
  import opened Decimal

  /** One row of t.multicall: a row of fewer than two columns, or the host of the announce
      URL and whether the tracker is enabled. */
  datatype Row = Short | Tracker(host: string, enabled: bool)

  type Cache = map<string, string>

  // ---- the primary tracker ------------------------------------------------

  function FirstHost(rows: seq<Row>): string {
    if rows == [] then ""
    else if rows[0].Tracker? && rows[0].host != "" then rows[0].host
    else FirstHost(rows[1..])
  }

  function FirstEnabled(rows: seq<Row>): string {
    if rows == [] then ""
    else if rows[0].Tracker? && rows[0].host != "" && rows[0].enabled then rows[0].host
    else FirstEnabled(rows[1..])
  }

  /** The first enabled tracker's host, else the first tracker's, else blank. */
  function PrimaryHost(rows: seq<Row>): string {
    if FirstEnabled(rows) != "" then FirstEnabled(rows) else FirstHost(rows)
  }

  method PrimaryTrackerHost(rows: seq<Row>) returns (r: string)
    ensures r == PrimaryHost(rows)
  {
    var first := "";
    for i := 0 to |rows|
      invariant FirstEnabled(rows) == FirstEnabled(rows[i..])
      invariant FirstHost(rows) == if first != "" then first else FirstHost(rows[i..])
    {
      assert rows[i..][0] == rows[i] && rows[i..][1..] == rows[i + 1..];
      if rows[i].Short? || rows[i].host == "" {
        continue;
      }
      if first == "" {
        first := rows[i].host;
      }
      if rows[i].enabled {
        return rows[i].host;
      }
    }
    assert rows[|rows|..] == [];
    r := first;
  }

  predicate Usable(r: Row) { r.Tracker? && r.host != "" }

  predicate Enabled(r: Row) { Usable(r) && r.enabled }

  /** The first enabled tracker is primary, or the first of all if none is enabled. */
  lemma {:induction false} PrimaryIs(rows: seq<Row>, i: nat)
    requires i < |rows| && Usable(rows[i])
    requires (Enabled(rows[i]) && forall j :: 0 <= j < i ==> !Enabled(rows[j])) ||
             ((forall j :: 0 <= j < |rows| ==> !Enabled(rows[j])) && forall j :: 0 <= j < i ==> !Usable(rows[j]))
    ensures PrimaryHost(rows) == rows[i].host
  {
    if Enabled(rows[i]) {
      EnabledAt(rows, i);
    } else {
      HostAt(rows, i);
      NoneEnabled(rows);
    }
  }

  lemma {:induction false} EnabledAt(rows: seq<Row>, i: nat)
    requires i < |rows| && Enabled(rows[i]) && forall j :: 0 <= j < i ==> !Enabled(rows[j])
    ensures FirstEnabled(rows) == rows[i].host
  {
    if i > 0 { EnabledAt(rows[1..], i - 1); }
  }

  lemma {:induction false} HostAt(rows: seq<Row>, i: nat)
    requires i < |rows| && Usable(rows[i]) && forall j :: 0 <= j < i ==> !Usable(rows[j])
    ensures FirstHost(rows) == rows[i].host
  {
    if i > 0 { HostAt(rows[1..], i - 1); }
  }

  lemma {:induction false} NoneEnabled(rows: seq<Row>)
    requires forall j :: 0 <= j < |rows| ==> !Enabled(rows[j])
    ensures FirstEnabled(rows) == ""
  {
    if rows != [] { NoneEnabled(rows[1..]); }
  }

  // ---- markers ------------------------------------------------------------

  const NUL := '\0'

  function Mark(n: nat): (m: string)
    ensures IsMark(m)
  {
    [NUL] + "fetch:" + Digits(n)
  }

  predicate IsMark(s: string) { s != [] && s[0] == NUL }

  lemma {:induction false} MarksDiffer(a: nat, b: nat)
    requires Mark(a) == Mark(b)
    ensures a == b
  {
    assert Mark(a)[7..] == Digits(a) && Mark(b)[7..] == Digits(b);
    DigitsInjective(a, b);
  }

  // ---- the two locked sections --------------------------------------------

  function Listed(hashes: seq<string>): set<string> { set h | h in hashes }

  /** Prune what is not listed; park the marker where nothing is cached. */
  function Parked(c: Cache, n: nat, listed: set<string>): Cache {
    map h | h in listed :: if h in c then c[h] else Mark(n)
  }

  /** The Tracker field a poll fills in from the cache. */
  function Filled(c: Cache, h: string): string {
    if h in c && !IsMark(c[h]) then c[h] else ""
  }

  function Fetched(got: map<string, string>, h: string): string {
    if h in got then got[h] else ""
  }

  predicate Holds(c: Cache, h: string, n: nat) { h in c && c[h] == Mark(n) }

  /** Where the flight's marker is still in place: the host it read, or nothing. */
  function Committed(c: Cache, n: nat, need: set<string>, got: map<string, string>): Cache {
    map h | h in c && !(h in need && Holds(c, h, n) && Fetched(got, h) == "")
      :: if h in need && Holds(c, h, n) then Fetched(got, h) else c[h]
  }

  // ---- every run ----------------------------------------------------------

  /** A flight between its two locked sections: the hashes it marked and what it has read. */
  datatype Flight = Flight(need: set<string>, got: map<string, string>)

  /** `toggling` holds a hash once for every toggle between its RPC and its cache delete;
      `missed` holds a cached hash whose daemon trackers were changed by a toggle that took
      effect but reported an error, which deletes nothing, since it was cached. */
  datatype Sys = Sys(cache: Cache, next: nat, flights: map<nat, Flight>, daemon: map<string, seq<Row>>,
                     toggling: multiset<string>, missed: set<string>)

  datatype Label =
    | Begin(hashes: seq<string>)
    | Read(n: nat, h: string)
    | Commit(n: nat, ok: bool)
    | ToggleRpc(h: string, i: nat, enabled: bool)
    | ToggleDelete(h: string)
    | ToggleErrs(h: string, i: nat, enabled: bool)

  function DaemonHost(daemon: map<string, seq<Row>>, h: string): string {
    if h in daemon then PrimaryHost(daemon[h]) else ""
  }

  function Results(f: Flight, ok: bool): map<string, string> { if ok then f.got else map[] }

  function Toggled(rows: seq<Row>, i: nat, enabled: bool): seq<Row> {
    if i < |rows| && rows[i].Tracker? then rows[i := rows[i].(enabled := enabled)] else rows
  }

  /** An entry that leaves the cache takes what it missed with it. */
  function WithCache(s: Sys, c: Cache): Sys {
    s.(cache := c, missed := set h | h in s.missed && h in c)
  }

  function Step(s: Sys, a: Label): Sys {
    match a
    case Begin(hashes) =>
      var listed, n := Listed(hashes), s.next + 1;
      WithCache(s, Parked(s.cache, n, listed))
        .(next := n, flights := s.flights[n := Flight(listed - s.cache.Keys, map[])])
    case Read(n, h) =>
      if n in s.flights && h in s.flights[n].need then
        var f := s.flights[n];
        s.(flights := s.flights[n := f.(got := f.got[h := DaemonHost(s.daemon, h)])])
      else s
    case Commit(n, ok) =>
      if n in s.flights then
        var f := s.flights[n];
        WithCache(s, Committed(s.cache, n, f.need, Results(f, ok))).(flights := s.flights - {n})
      else s
    case ToggleRpc(h, i, enabled) =>
      if h in s.daemon then
        s.(daemon := s.daemon[h := Toggled(s.daemon[h], i, enabled)], toggling := s.toggling + multiset{h})
      else s
    case ToggleDelete(h) =>
      if h in s.toggling then WithCache(s, s.cache - {h}).(toggling := s.toggling - multiset{h}) else s
    case ToggleErrs(h, i, enabled) =>
      if h in s.daemon then
        s.(daemon := s.daemon[h := Toggled(s.daemon[h], i, enabled)],
           missed := if h in s.cache then s.missed + {h} else s.missed)
      else s
  }

  /** A toggle that takes effect, whether or not its call says so, sets exactly the one tracker. */
  lemma {:induction false} ToggleTakesEffect(s: Sys, h: string, i: nat, enabled: bool, errs: bool)
    requires h in s.daemon && i < |s.daemon[h]| && s.daemon[h][i].Tracker?
    ensures var s' := Step(s, if errs then ToggleErrs(h, i, enabled) else ToggleRpc(h, i, enabled));
      && s'.daemon.Keys == s.daemon.Keys && (forall g :: g in s.daemon && g != h ==> s'.daemon[g] == s.daemon[g])
      && |s'.daemon[h]| == |s.daemon[h]| && s'.daemon[h][i].Tracker?
      && s'.daemon[h][i].host == s.daemon[h][i].host && s'.daemon[h][i].enabled == enabled
      && (forall j :: 0 <= j < |s.daemon[h]| && j != i ==> s'.daemon[h][j] == s.daemon[h][j])
  {
  }

  /** Nothing cached, nothing in flight. */
  function Idle(daemon: map<string, seq<Row>>): Sys { Sys(map[], 0, map[], daemon, multiset{}, {}) }

  function Run(daemon: map<string, seq<Row>>, trace: seq<Label>): Sys {
    if trace == [] then Idle(daemon)
    else Step(Run(daemon, trace[..|trace| - 1]), trace[|trace| - 1])
  }

  /** A marker belongs to a running flight that is to fetch that hash. */
  ghost predicate MarkOk(s: Sys, h: string)
    requires h in s.cache
  {
    IsMark(s.cache[h]) ==> exists n :: n in s.flights && h in s.flights[n].need && s.cache[h] == Mark(n)
  }

  /** No toggle of the torrent is under way, and none was missed since it was cached. */
  ghost predicate Settled(s: Sys, h: string) { s.toggling[h] == 0 && h !in s.missed }

  /** A cached host is that of the daemon's trackers as they are now. */
  ghost predicate HostOk(s: Sys, h: string)
    requires h in s.cache
  {
    !IsMark(s.cache[h]) && Settled(s, h) ==> s.cache[h] == DaemonHost(s.daemon, h)
  }

  /** What a flight has read for a hash it still holds is current too. */
  ghost predicate ReadOk(s: Sys, n: nat, h: string)
    requires n in s.flights
  {
    Holds(s.cache, h, n) && h in s.flights[n].got && Settled(s, h) ==> s.flights[n].got[h] == DaemonHost(s.daemon, h)
  }

  /** Flight numbers are used once, and a flight fills in only hosts the daemon has. */
  ghost predicate FlightOk(s: Sys, n: nat)
    requires n in s.flights
  {
    n <= s.next && (forall h :: h in s.flights[n].got ==> !IsMark(s.flights[n].got[h]))
  }

  ghost predicate PlainHosts(daemon: map<string, seq<Row>>) {
    forall h :: h in daemon ==> PlainRows(daemon[h])
  }

  /** No host starts with a NUL byte. */
  ghost predicate PlainRows(rows: seq<Row>) {
    forall i :: 0 <= i < |rows| && rows[i].Tracker? ==> !IsMark(rows[i].host)
  }

  ghost predicate SysOk(s: Sys) {
    && (forall h :: h in s.cache ==> MarkOk(s, h) && HostOk(s, h))
    && (forall n :: n in s.flights ==> FlightOk(s, n))
    && (forall n, h :: n in s.flights ==> ReadOk(s, n, h))
    && PlainHosts(s.daemon)
  }

  lemma {:induction false} PlainPrimary(rows: seq<Row>)
    requires PlainRows(rows)
    ensures !IsMark(PrimaryHost(rows)) && !IsMark(FirstHost(rows)) && !IsMark(FirstEnabled(rows))
  {
    if rows != [] { PlainPrimary(rows[1..]); }
  }

  lemma {:induction false} BeginKeeps(s: Sys, hashes: seq<string>)
    requires SysOk(s)
    ensures SysOk(Step(s, Begin(hashes)))
  {
    hide Mark, IsMark, DaemonHost;
    var s', n := Step(s, Begin(hashes)), s.next + 1;
    forall h | h in s'.cache ensures MarkOk(s', h) && HostOk(s', h) {
      if h in s.cache {
        assert MarkOk(s, h) && HostOk(s, h);
        if IsMark(s.cache[h]) {
          var k :| k in s.flights && h in s.flights[k].need && s.cache[h] == Mark(k);
          assert FlightOk(s, k) && k in s'.flights;
        }
      } else {
        assert h in s'.flights[n].need && s'.cache[h] == Mark(n);
      }
    }
    forall k | k in s'.flights ensures FlightOk(s', k) && forall h :: ReadOk(s', k, h) {
      if k != n {
        assert FlightOk(s, k);
        forall h ensures ReadOk(s', k, h) {
          assert ReadOk(s, k, h);
          if Holds(s'.cache, h, k) && h !in s.cache { MarksDiffer(k, n); }
        }
      }
    }
  }

  lemma {:induction false} ReadKeeps(s: Sys, n: nat, h: string)
    requires SysOk(s) && n in s.flights && h in s.flights[n].need
    ensures SysOk(Step(s, Read(n, h)))
  {
    hide Mark, PrimaryHost;
    var s' := Step(s, Read(n, h));
    assert !IsMark(DaemonHost(s.daemon, h)) by { if h in s.daemon { PlainPrimary(s.daemon[h]); } }
    forall k | k in s'.cache ensures MarkOk(s', k) && HostOk(s', k) {
      assert MarkOk(s, k) && HostOk(s, k);
      if IsMark(s.cache[k]) {
        var m :| m in s.flights && k in s.flights[m].need && s.cache[k] == Mark(m);
        assert m in s'.flights && k in s'.flights[m].need;
      }
    }
    forall m | m in s'.flights ensures FlightOk(s', m) && forall k :: ReadOk(s', m, k) {
      assert FlightOk(s, m);
      forall k ensures ReadOk(s', m, k) { assert ReadOk(s, m, k); }
    }
  }

  lemma {:induction false} CommitKeeps(s: Sys, n: nat, ok: bool)
    requires SysOk(s) && n in s.flights
    ensures SysOk(Step(s, Commit(n, ok)))
  {
    hide Mark, DaemonHost;
    var s', f := Step(s, Commit(n, ok)), s.flights[n];
    var got := Results(f, ok);
    assert FlightOk(s, n);
    forall h | h in s'.cache ensures MarkOk(s', h) && HostOk(s', h) {
      assert MarkOk(s, h) && HostOk(s, h) && ReadOk(s, n, h);
      if !(h in f.need && Holds(s.cache, h, n)) && IsMark(s.cache[h]) {
        var k :| k in s.flights && h in s.flights[k].need && s.cache[h] == Mark(k);
        assert k in s'.flights;
      }
    }
    forall k | k in s'.flights ensures FlightOk(s', k) && forall h :: ReadOk(s', k, h) {
      assert FlightOk(s, k);
      forall h ensures ReadOk(s', k, h) {
        assert ReadOk(s, k, h);
      }
    }
  }

  lemma {:induction false} ToggleKeeps(s: Sys, h: string, i: nat, enabled: bool)
    requires SysOk(s) && h in s.daemon
    ensures SysOk(Step(s, ToggleRpc(h, i, enabled)))
  {
    hide Mark, IsMark, PrimaryHost;
    var s' := Step(s, ToggleRpc(h, i, enabled));
    assert PlainRows(s.daemon[h]) && PlainRows(Toggled(s.daemon[h], i, enabled));
    forall k | k in s'.cache ensures MarkOk(s', k) && HostOk(s', k) {
      assert MarkOk(s, k) && HostOk(s, k);
    }
    forall n | n in s'.flights ensures FlightOk(s', n) && forall k :: ReadOk(s', n, k) {
      assert FlightOk(s, n);
      forall k ensures ReadOk(s', n, k) { assert ReadOk(s, n, k); }
    }
  }

  lemma {:induction false} ErringToggleKeeps(s: Sys, h: string, i: nat, enabled: bool)
    requires SysOk(s) && h in s.daemon
    ensures SysOk(Step(s, ToggleErrs(h, i, enabled)))
  {
    hide Mark, IsMark, PrimaryHost;
    var s' := Step(s, ToggleErrs(h, i, enabled));
    assert PlainRows(s.daemon[h]) && PlainRows(Toggled(s.daemon[h], i, enabled));
    forall k | k in s'.cache ensures MarkOk(s', k) && HostOk(s', k) {
      assert MarkOk(s, k) && HostOk(s, k);
    }
    forall n | n in s'.flights ensures FlightOk(s', n) && forall k :: ReadOk(s', n, k) {
      assert FlightOk(s, n);
      forall k ensures ReadOk(s', n, k) { assert ReadOk(s, n, k); }
    }
  }

  lemma {:induction false} DeleteKeeps(s: Sys, h: string)
    requires SysOk(s) && h in s.toggling
    ensures SysOk(Step(s, ToggleDelete(h)))
  {
    hide Mark, IsMark, DaemonHost;
    var s' := Step(s, ToggleDelete(h));
    forall k | k in s'.cache ensures MarkOk(s', k) && HostOk(s', k) {
      assert MarkOk(s, k) && HostOk(s, k);
    }
    forall n | n in s'.flights ensures FlightOk(s', n) && forall k :: ReadOk(s', n, k) {
      assert FlightOk(s, n);
      forall k ensures ReadOk(s', n, k) { assert ReadOk(s, n, k); }
    }
  }

  lemma {:induction false} RunKeeps(daemon: map<string, seq<Row>>, trace: seq<Label>)
    requires PlainHosts(daemon)
    ensures SysOk(Run(daemon, trace))
  {
    hide SysOk, PlainHosts;
    if trace == [] {
      EmptyIsOk(daemon);
    } else {
      hide Parked, Committed, Toggled;
      var s, a := Run(daemon, trace[..|trace| - 1]), trace[|trace| - 1];
      RunKeeps(daemon, trace[..|trace| - 1]);
      match a
      case Begin(hashes) => BeginKeeps(s, hashes);
      case Read(n, h) => if n in s.flights && h in s.flights[n].need { ReadKeeps(s, n, h); }
      case Commit(n, ok) => if n in s.flights { CommitKeeps(s, n, ok); }
      case ToggleRpc(h, i, enabled) => if h in s.daemon { ToggleKeeps(s, h, i, enabled); }
      case ToggleDelete(h) => if h in s.toggling { DeleteKeeps(s, h); }
      case ToggleErrs(h, i, enabled) => if h in s.daemon { ErringToggleKeeps(s, h, i, enabled); }
    }
  }

  lemma {:induction false} EmptyIsOk(daemon: map<string, seq<Row>>)
    requires PlainHosts(daemon)
    ensures SysOk(Idle(daemon))
  {
  }

  /** With any number of concurrent flights, prunes and toggles: every marker belongs to a
      flight still running; every cached host whose torrent is settled, no toggle of it being
      between its RPC and its cache delete or missed since it was cached, is the primary host
      of the daemon's current trackers; and so is every Tracker a poll fills in, from the cache
      or from its own fetch. */
  lemma {:induction false} CacheIsCurrent(daemon: map<string, seq<Row>>, trace: seq<Label>, h: string, n: nat, ok: bool)
    requires PlainHosts(daemon)
    ensures var s := Run(daemon, trace);
      && (h in s.cache && IsMark(s.cache[h]) ==> HasFlight(s, h))
      && (h in s.cache && !IsMark(s.cache[h]) && Settled(s, h) ==> s.cache[h] == DaemonHost(s.daemon, h))
      && !IsMark(Filled(s.cache, h))
      && (Filled(s.cache, h) != "" && Settled(s, h) ==> Filled(s.cache, h) == DaemonHost(s.daemon, h))
      && (n in s.flights && h in s.flights[n].need && Holds(s.cache, h, n) ==>
            var host := Fetched(Results(s.flights[n], ok), h);
            !IsMark(host) && (host != "" && Settled(s, h) ==> host == DaemonHost(s.daemon, h)))
  {
    hide Run, Mark, DaemonHost;
    RunKeeps(daemon, trace);
    var s := Run(daemon, trace);
    if h in s.cache { assert MarkOk(s, h) && HostOk(s, h); }
    if n in s.flights { assert FlightOk(s, n) && ReadOk(s, n, h); }
  }

  // ---- when markers can be told from hosts --------------------------------

  ghost predicate HasFlight(s: Sys, h: string)
    requires h in s.cache
  {
    exists n :: n in s.flights && h in s.flights[n].need && s.cache[h] == Mark(n)
  }

  /** Whatever reads as a marker is one, of a flight still running. */
  ghost predicate MarkersAreFlights(s: Sys) {
    forall h :: h in s.cache && IsMark(s.cache[h]) ==> HasFlight(s, h)
  }

  /** One poll of one torrent, uninterrupted. */
  function OnePoll(n: nat, h: string): seq<Label> { [Begin([h]), Read(n, h), Commit(n, true)] }

  lemma {:induction false} Extend(daemon: map<string, seq<Row>>, before: seq<Label>, a: Label)
    ensures Run(daemon, before + [a]) == Step(Run(daemon, before), a)
  {
    assert (before + [a])[..|before|] == before;
  }

  lemma {:induction false} ThreeSteps(daemon: map<string, seq<Row>>, before: seq<Label>, n: nat, h: string)
    ensures Run(daemon, before + OnePoll(n, h)) ==
      Step(Step(Step(Run(daemon, before), Begin([h])), Read(n, h)), Commit(n, true))
  {
    hide Step, Run;
    Extend(daemon, before, Begin([h]));
    Extend(daemon, before + [Begin([h])], Read(n, h));
    Extend(daemon, before + [Begin([h])] + [Read(n, h)], Commit(n, true));
    assert before + [Begin([h])] + [Read(n, h)] + [Commit(n, true)] == before + OnePoll(n, h);
  }

  /** One poll from an idle state caches the primary host, of any daemon. */
  lemma {:induction false} PollCachesPrimary(daemon: map<string, seq<Row>>, h: string)
    requires DaemonHost(daemon, h) != ""
    ensures var s := Step(Step(Step(Idle(daemon), Begin([h])), Read(1, h)), Commit(1, true));
      s.cache == map[h := DaemonHost(daemon, h)] && s.flights == map[] && s.daemon == daemon && Settled(s, h)
  {
    hide DaemonHost, Mark;
    var s1 := Step(Idle(daemon), Begin([h]));
    assert Listed([h]) == {h};
    assert s1.flights[1].need == {h};
    assert s1.cache == map[h := Mark(1)] && s1.flights == map[1 := Flight({h}, map[])];
    var s2 := Step(s1, Read(1, h));
    assert s2.cache == s1.cache && s2.flights == map[1 := Flight({h}, map[h := DaemonHost(daemon, h)])];
    assert Holds(s2.cache, h, 1) && Fetched(s2.flights[1].got, h) == DaemonHost(daemon, h);
    assert Committed(s2.cache, 1, {h}, s2.flights[1].got) == map[h := DaemonHost(daemon, h)];
  }

  /** For every daemon and every torrent with a primary host: one undisturbed poll caches
      that host, leaves no flight, and the next poll shows it if and only if it does not
      start with a NUL byte. */
  lemma {:induction false} ShownIffPlain(daemon: map<string, seq<Row>>, h: string)
    requires DaemonHost(daemon, h) != ""
    ensures var s := Run(daemon, OnePoll(1, h));
      && s.flights == map[] && h in s.cache && s.cache[h] == DaemonHost(s.daemon, h) && s.daemon == daemon
      && (Filled(s.cache, h) == DaemonHost(daemon, h) <==> !IsMark(DaemonHost(daemon, h)))
      && (MarkersAreFlights(s) <==> !IsMark(DaemonHost(daemon, h)))
  {
    hide DaemonHost, Step, Mark;
    assert [] + OnePoll(1, h) == OnePoll(1, h);
    ThreeSteps(daemon, [], 1, h);
    PollCachesPrimary(daemon, h);
  }

  /** The toggles that leave every tracker before the k-th disabled. */
  function DisableAll(h: string, k: nat): seq<Label> {
    if k == 0 then [] else DisableAll(h, k - 1) + [ToggleRpc(h, k - 1, false)] + [ToggleDelete(h)]
  }

  function Disabled(rows: seq<Row>, k: nat): (r: seq<Row>)
    ensures |r| == |rows| && forall j :: 0 <= j < |rows| ==>
      r[j] == if j < k && rows[j].Tracker? then rows[j].(enabled := false) else rows[j]
  {
    if k == 0 then rows else Toggled(Disabled(rows, k - 1), k - 1, false)
  }

  lemma {:induction false} ToggleAndDelete(daemon: map<string, seq<Row>>, h: string, i: nat, on: bool)
    requires h in daemon
    ensures Step(Step(Idle(daemon), ToggleRpc(h, i, on)), ToggleDelete(h)) ==
      Idle(daemon[h := Toggled(daemon[h], i, on)])
  {
  }

  lemma {:induction false} AfterDisabling(daemon: map<string, seq<Row>>, h: string, k: nat)
    requires h in daemon
    ensures Run(daemon, DisableAll(h, k)) == Idle(daemon[h := Disabled(daemon[h], k)])
  {
    hide Step, Run, Toggled, Idle, Disabled, DisableAll;
    NothingDisabled(daemon, h);
    if k > 0 {
      var before, rows := DisableAll(h, k - 1), Disabled(daemon[h], k - 1);
      AfterDisabling(daemon, h, k - 1);
      Extend(daemon, before, ToggleRpc(h, k - 1, false));
      Extend(daemon, before + [ToggleRpc(h, k - 1, false)], ToggleDelete(h));
      ToggleAndDelete(daemon[h := rows], h, k - 1, false);
      DisabledNext(daemon[h], h, k);
      Overwrite(daemon, h, rows, Toggled(rows, k - 1, false));
    }
  }

  lemma {:induction false} NothingDisabled(daemon: map<string, seq<Row>>, h: string)
    requires h in daemon
    ensures Run(daemon, DisableAll(h, 0)) == Idle(daemon[h := Disabled(daemon[h], 0)])
  {
    assert daemon[h := daemon[h]] == daemon;
  }

  lemma {:induction false} Overwrite(daemon: map<string, seq<Row>>, h: string, a: seq<Row>, b: seq<Row>)
    ensures daemon[h := a][h := b] == daemon[h := b] && daemon[h := a][h] == a
  {
  }

  lemma {:induction false} DisabledNext(rows: seq<Row>, h: string, k: nat)
    requires k > 0
    ensures Disabled(rows, k) == Toggled(Disabled(rows, k - 1), k - 1, false)
    ensures DisableAll(h, k) == DisableAll(h, k - 1) + [ToggleRpc(h, k - 1, false)] + [ToggleDelete(h)]
  {
  }

  /** Toggles can make any usable tracker primary. */
  function MakePrimary(h: string, i: nat): seq<Label> {
    DisableAll(h, i) + [ToggleRpc(h, i, true)] + [ToggleDelete(h)]
  }

  lemma {:induction false} AfterMakingPrimary(daemon: map<string, seq<Row>>, h: string, i: nat)
    requires h in daemon && i < |daemon[h]| && Usable(daemon[h][i])
    ensures exists d :: Run(daemon, MakePrimary(h, i)) == Idle(d) && DaemonHost(d, h) == daemon[h][i].host
  {
    hide Step, Run, Disabled, PrimaryHost;
    var rows := Disabled(daemon[h], i);
    var d := daemon[h := rows];
    AfterDisabling(daemon, h, i);
    Extend(daemon, DisableAll(h, i), ToggleRpc(h, i, true));
    Extend(daemon, DisableAll(h, i) + [ToggleRpc(h, i, true)], ToggleDelete(h));
    ToggleAndDelete(d, h, i, true);
    var rows' := Toggled(rows, i, true);
    PrimaryIs(rows', i);
    var d' := d[h := rows'];
    assert Run(daemon, MakePrimary(h, i)) == Idle(d') && DaemonHost(d', h) == daemon[h][i].host;
  }

  /** Markers can be told from hosts in every run, whatever is toggled, if and only if no
      usable host of any torrent starts with a NUL byte. */
  lemma {:induction false} MarkersAreFlightsIff(daemon: map<string, seq<Row>>)
    ensures (forall trace :: MarkersAreFlights(Run(daemon, trace))) <==> PlainHosts(daemon)
  {
    hide Run, PlainRows;
    if PlainHosts(daemon) {
      forall trace ensures MarkersAreFlights(Run(daemon, trace)) {
        RunMarkers(daemon, trace);
      }
    } else {
      var h :| h in daemon && !PlainRows(daemon[h]);
      NulHostBreaksMarkers(daemon, h);
    }
  }

  lemma {:induction false} RunMarkers(daemon: map<string, seq<Row>>, trace: seq<Label>)
    requires PlainHosts(daemon)
    ensures MarkersAreFlights(Run(daemon, trace))
  {
    hide Run, Mark, DaemonHost;
    RunKeeps(daemon, trace);
    var s := Run(daemon, trace);
    forall h | h in s.cache && IsMark(s.cache[h]) ensures HasFlight(s, h) {
      assert MarkOk(s, h);
    }
  }

  /** The run that breaks them: make the host primary, complete the toggles, poll once. */
  lemma {:induction false} NulHostBreaksMarkers(daemon: map<string, seq<Row>>, h: string)
    requires h in daemon && !PlainRows(daemon[h])
    ensures exists trace :: !MarkersAreFlights(Run(daemon, trace))
  {
    hide Run, Step, DaemonHost, Mark;
    var i :| 0 <= i < |daemon[h]| && daemon[h][i].Tracker? && IsMark(daemon[h][i].host);
    AfterMakingPrimary(daemon, h, i);
    var d :| Run(daemon, MakePrimary(h, i)) == Idle(d) && DaemonHost(d, h) == daemon[h][i].host;
    ThreeSteps(daemon, MakePrimary(h, i), 1, h);
    PollCachesPrimary(d, h);
    var s := Run(daemon, MakePrimary(h, i) + OnePoll(1, h));
    assert h in s.cache && IsMark(s.cache[h]) && !HasFlight(s, h);
  }

  /** A witness: a torrent whose one announce URL is a NUL byte. */
  lemma {:induction false} NulHostReadsAsMarker(h: string)
    ensures var daemon: map<string, seq<Row>> := map[h := [Tracker([NUL], true)]];
      var s := Run(daemon, OnePoll(1, h));
      h in s.cache && s.cache[h] == [NUL] && s.flights == map[] && Filled(s.cache, h) == ""
  {
    hide Run;
    var daemon: map<string, seq<Row>> := map[h := [Tracker([NUL], true)]];
    assert DaemonHost(daemon, h) == [NUL];
    ShownIffPlain(daemon, h);
  }

  // ---- the object ---------------------------------------------------------

  /** Positions of the poll's list with no hash twice. */
  ghost predicate Positions(hashes: seq<string>, idx: seq<nat>) {
    && (forall j :: 0 <= j < |idx| ==> idx[j] < |hashes|)
    && (forall j, k :: 0 <= j < k < |idx| ==> hashes[idx[j]] != hashes[idx[k]])
  }

  function Pruned(c: Cache, listed: set<string>): Cache {
    map h | h in c && h in listed :: c[h]
  }

  /** Mark these hashes where nothing is cached. */
  function Marked(c: Cache, n: nat, hs: set<string>): Cache {
    map h | h in c.Keys + hs :: if h in c then c[h] else Mark(n)
  }

  /** The hashes at these positions of the poll's list. */
  ghost function At(hashes: seq<string>, idx: seq<nat>): set<string> {
    set j | 0 <= j < |idx| && idx[j] < |hashes| :: hashes[idx[j]]
  }

  /** The hosts a batch brought back: blank on a transport error or a failed row. */
  function HostOf(ok: bool, results: seq<seq<Row>>, failed: seq<bool>, j: nat): string
    requires ok ==> j < |failed| && j < |results|
  {
    if ok && !failed[j] then PrimaryHost(results[j]) else ""
  }

  class TrackerCache {
    var cache: Cache
    var flights: nat

    constructor ()
      ensures cache == map[] && flights == 0
    {
      cache, flights := map[], 0;
    }

    method Prune(listed: set<string>)
      modifies this`cache
      ensures cache == Pruned(old(cache), listed)
    {
      var todo := cache.Keys;
      while todo != {}
        invariant todo <= old(cache.Keys)
        invariant cache == map h | h in old(cache) && (h in listed || h in todo) :: old(cache)[h]
        decreases todo
      {
        var h :| h in todo;
        if h !in listed {
          cache := cache - {h};
        }
        todo := todo - {h};
      }
    }

    /** One torrent of the first locked section. */
    method ParkOne(n: nat, h: string) returns (tracker: string, parked: bool)
      modifies this`cache
      ensures cache == Marked(old(cache), n, {h})
      ensures tracker == Filled(old(cache), h) && parked == (h !in old(cache))
    {
      hide Mark;
      if h !in cache {
        cache := cache[h := Mark(n)];
        return "", true;
      } else if IsMark(cache[h]) {
        return "", false;
      } else {
        return cache[h], false;
      }
    }

    /** The first locked section: prune, fill in what is cached, mark what is not. */
    method Park(hashes: seq<string>) returns (n: nat, trackers: seq<string>, need: seq<nat>)
      modifies this
      ensures n == flights == old(flights) + 1
      ensures cache == Parked(old(cache), n, Listed(hashes))
      ensures |trackers| == |hashes| && forall i :: 0 <= i < |hashes| ==> trackers[i] == Filled(old(cache), hashes[i])
      ensures Positions(hashes, need)
      ensures At(hashes, need) == Listed(hashes) - old(cache.Keys)
    {
      hide Mark, Marked, Filled, Listed, Positions, At, Pruned, Parked;
      flights := flights + 1;
      n := flights;
      Prune(Listed(hashes));
      ghost var pruned := cache;
      trackers, need := [], [];
      NothingAt(hashes);
      MarkedNone(pruned, n);
      for i := 0 to |hashes|
        invariant n == flights == old(flights) + 1
        invariant cache == Marked(pruned, n, Listed(hashes[..i]))
        invariant |trackers| == i && forall k :: 0 <= k < i ==> trackers[k] == Filled(pruned, hashes[k])
        invariant Positions(hashes, need) && At(hashes, need) == Listed(hashes[..i]) - pruned.Keys
      {
        ListedNext(hashes, i);
        MarkedNext(pruned, n, Listed(hashes[..i]), hashes[i]);
        var tracker, parked := ParkOne(n, hashes[i]);
        trackers := trackers + [tracker];
        if parked {
          AtAppend(hashes, need, i);
          need := need + [i];
        }
      }
      assert hashes[..|hashes|] == hashes;
      ParkedIs(old(cache), n, hashes);
    }

    /** One hash of the second locked section. */
    method CommitOne(n: nat, h: string, host: string) returns (committed: bool)
      modifies this`cache
      ensures cache == Committed(old(cache), n, {h}, map[h := host])
      ensures committed == (Holds(old(cache), h, n) && host != "")
    {
      hide Mark;
      if h !in cache || cache[h] != Mark(n) {
        return false;
      }
      if host == "" {
        cache := cache - {h};
        return false;
      }
      cache := cache[h := host];
      return true;
    }

    /** A failed call has no host. */
    method HostFrom(ok: bool, results: seq<seq<Row>>, failed: seq<bool>, j: nat) returns (host: string)
      requires ok ==> j < |results| == |failed|
      ensures host == HostOf(ok, results, failed, j)
    {
      hide PrimaryHost;
      host := "";
      if ok && !failed[j] {
        host := PrimaryTrackerHost(results[j]);
      }
    }

    /** The second locked section: commit only where the flight's own marker is left. A
        tracker field is filled in exactly for what was committed. */
    method Commit(n: nat, hashes: seq<string>, need: seq<nat>, ok: bool, results: seq<seq<Row>>, failed: seq<bool>,
                  before: seq<string>)
      returns (trackers: seq<string>, ghost got: map<string, string>)
      requires (ok ==> |results| == |failed| == |need|) && |before| == |hashes| && Positions(hashes, need)
      modifies this`cache
      ensures got.Keys == At(hashes, need)
      ensures forall j :: 0 <= j < |need| ==> Fetched(got, hashes[need[j]]) == HostOf(ok, results, failed, j)
      ensures cache == Committed(old(cache), n, At(hashes, need), got)
      ensures |trackers| == |hashes| && forall i :: 0 <= i < |hashes| && i !in need ==> trackers[i] == before[i]
      ensures forall j :: 0 <= j < |need| ==>
        var h, host := hashes[need[j]], HostOf(ok, results, failed, j);
        trackers[need[j]] ==
        if h in old(cache) && old(cache)[h] == Mark(n) && host != "" then host else before[need[j]]
    {
      hide Mark, PrimaryHost, Committed, At, HostOf;
      trackers, got := before, map[];
      NothingAt(hashes);
      CommittedNone(cache, n);
      for j := 0 to |need|
        invariant Positions(hashes, need[..j]) && got.Keys == At(hashes, need[..j])
        invariant forall k :: 0 <= k < j ==> Fetched(got, hashes[need[k]]) == HostOf(ok, results, failed, k)
        invariant cache == Committed(old(cache), n, At(hashes, need[..j]), got)
        invariant |trackers| == |hashes|
        invariant forall i :: 0 <= i < |hashes| && i !in need[..j] ==> trackers[i] == before[i]
        invariant forall k :: 0 <= k < j ==>
          var h, host := hashes[need[k]], HostOf(ok, results, failed, k);
          trackers[need[k]] ==
          if h in old(cache) && old(cache)[h] == Mark(n) && host != "" then host else before[need[k]]
      {
        var h := hashes[need[j]];
        var host := HostFrom(ok, results, failed, j);
        assert need[..j + 1] == need[..j] + [need[j]];
        AtAppend(hashes, need[..j], need[j]);
        NotYetAt(hashes, need, j);
        CommittedNext(old(cache), n, At(hashes, need[..j]), got, h, host);
        var committed := CommitOne(n, h, host);
        if committed {
          trackers := trackers[need[j] := host];
        }
        got := got[h := host];
      }
      assert need[..|need|] == need;
    }

    method Invalidate(h: string)
      modifies this`cache
      ensures cache == old(cache) - {h}
    {
      cache := cache - {h};
    }
  }

  lemma {:induction false} AtAppend(hashes: seq<string>, idx: seq<nat>, i: nat)
    requires Positions(hashes, idx) && i < |hashes|
    ensures forall j :: 0 <= j < |idx + [i]| ==> (idx + [i])[j] < |hashes|
    ensures At(hashes, idx + [i]) == At(hashes, idx) + {hashes[i]}
    ensures hashes[i] !in At(hashes, idx) ==> Positions(hashes, idx + [i])
  {
    forall h | h in At(hashes, idx) ensures h in At(hashes, idx + [i]) {
      var j :| 0 <= j < |idx| && hashes[idx[j]] == h;
      assert (idx + [i])[j] == idx[j];
    }
    assert (idx + [i])[|idx|] == i;
    forall j | 0 <= j < |idx| ensures hashes[idx[j]] in At(hashes, idx) {
    }
  }

  lemma {:induction false} NotYetAt(hashes: seq<string>, idx: seq<nat>, j: nat)
    requires Positions(hashes, idx) && j < |idx|
    ensures Positions(hashes, idx[..j]) && hashes[idx[j]] !in At(hashes, idx[..j])
    ensures idx[j] !in idx[..j] && forall k :: 0 <= k < j ==> hashes[idx[k]] != hashes[idx[j]] && idx[k] != idx[j]
  {
  }

  lemma {:induction false} NothingAt(hashes: seq<string>)
    ensures Positions(hashes, []) && At(hashes, []) == {} && Listed([]) == {} && hashes[..0] == []
  {
  }

  lemma {:induction false} ListedNext(hashes: seq<string>, i: nat)
    requires i < |hashes|
    ensures Listed(hashes[..i + 1]) == Listed(hashes[..i]) + {hashes[i]}
  {
    assert hashes[..i + 1] == hashes[..i] + [hashes[i]];
  }

  lemma {:induction false} MarkedNone(c: Cache, n: nat)
    ensures Marked(c, n, {}) == c
  {
    hide Mark;
  }

  lemma {:induction false} MarkedNext(c: Cache, n: nat, hs: set<string>, h: string)
    ensures Marked(Marked(c, n, hs), n, {h}) == Marked(c, n, hs + {h})
    ensures Filled(Marked(c, n, hs), h) == Filled(c, h)
    ensures h !in Marked(c, n, hs) <==> h !in c && h !in hs
  {
    hide Mark;
  }

  lemma {:induction false} ParkedIs(c: Cache, n: nat, hashes: seq<string>)
    ensures var pruned := Pruned(c, Listed(hashes));
      && Marked(pruned, n, Listed(hashes)) == Parked(c, n, Listed(hashes))
      && Listed(hashes) - pruned.Keys == Listed(hashes) - c.Keys
      && forall i :: 0 <= i < |hashes| ==> Filled(pruned, hashes[i]) == Filled(c, hashes[i])
  {
    hide Mark;
  }

  lemma {:induction false} CommittedNone(c: Cache, n: nat)
    ensures Committed(c, n, {}, map[]) == c
  {
    hide Mark;
  }

  lemma {:induction false} CommittedNext(c: Cache, n: nat, need: set<string>, got: map<string, string>, h: string,
                                         host: string)
    requires h !in need
    ensures Committed(Committed(c, n, need, got), n, {h}, map[h := host]) == Committed(c, n, need + {h}, got[h := host])
    ensures Holds(Committed(c, n, need, got), h, n) == Holds(c, h, n)
  {
    hide Mark, Committed;
    var mid := Committed(c, n, need, got);
    var twice, once := Committed(mid, n, {h}, map[h := host]), Committed(c, n, need + {h}, got[h := host]);
    forall x ensures (x in twice <==> x in once) && (x in twice ==> twice[x] == once[x]) {
      CommittedAt(c, n, need, got, x);
      CommittedAt(mid, n, {h}, map[h := host], x);
      CommittedAt(c, n, need + {h}, got[h := host], x);
    }
    CommittedAt(c, n, need, got, h);
  }

  lemma {:induction false} CommittedAt(c: Cache, n: nat, need: set<string>, got: map<string, string>, x: string)
    ensures var next, mine := Committed(c, n, need, got), x in need && Holds(c, x, n);
      && (x in next <==> x in c && !(mine && Fetched(got, x) == ""))
      && (x in next ==> next[x] == if mine then Fetched(got, x) else c[x])
  {
    hide Mark;
  }
}
