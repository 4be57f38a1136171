/**
 The poll loop's tick: health with a failure debounce, the delta against the previous
 list, and what it hands to the hub, in which order.
 */
module Pollers {
  import opened Options
  import opened Wire
  import opened Delta
  import opened Hubs

  datatype HealthState = Unknown | Up | Unreachable

  const UNREACHABLE_AFTER := 3

  datatype PollerState = PollerState(prev: Option<Table>, seqNo: nat, fails: nat, health: HealthState)

  const START := PollerState(None, 0, 0, Unknown)

  datatype Outcome = Failed | Polled(ts: int, torrents: seq<Torrent>)

  function PrevTable(s: PollerState): Table {
    if s.prev.Some? then s.prev.value else map[]
  }

  function WireRows(ts: seq<Torrent>): (rows: seq<Row>)
    ensures |rows| == |ts| && forall i :: 0 <= i < |ts| ==> rows[i] == ts[i].wire
  {
    seq(|ts|, i requires 0 <= i < |ts| => ts[i].wire)
  }

  /** The upserts and removals a poll owes, in any removal order. */
  ghost predicate IsDelta(prev: Table, ts: seq<Torrent>, ups: seq<Patch>, removed: seq<string>) {
    AreUpserts(ups, ts, prev) && SetOf(removed) == prev.Keys - Hashes(ts)
  }

  function AfterFailure(s: PollerState): PollerState {
    s.(fails := s.fails + 1, health := if s.fails + 1 >= UNREACHABLE_AFTER then Unreachable else s.health)
  }

  function AfterSuccess(s: PollerState, ts: seq<Torrent>): PollerState {
    PollerState(Some(TableOf(ts)), s.seqNo + 1, 0, Up)
  }

  /** Cache first, so that a subscription racing the broadcast still gets it. */
  function StatusOps<K>(unreachable: bool): seq<HubOp<K>> {
    [SetStatus(Health(unreachable)), Broadcast(Health(unreachable))]
  }

  function FailureOps<K>(s: PollerState): seq<HubOp<K>> {
    if s.health != Unreachable && s.fails + 1 >= UNREACHABLE_AFTER then StatusOps(true) else []
  }

  function SnapshotOf(s: PollerState, ts: int, torrents: seq<Torrent>): Message {
    Snapshot(s.seqNo + 1, ts, WireRows(torrents))
  }

  function DataOf(s: PollerState, ts: int, torrents: seq<Torrent>, ups: seq<Patch>, removed: seq<string>): Message {
    if s.prev.None? then SnapshotOf(s, ts, torrents) else DeltaMsg(s.seqNo + 1, ts, ups, removed)
  }

  function SuccessOps<K>(s: PollerState, ts: int, torrents: seq<Torrent>, ups: seq<Patch>,
                         removed: seq<string>): seq<HubOp<K>> {
    (if s.health != Up then StatusOps(false) else []) +
    [SetSnapshot(SnapshotOf(s, ts, torrents)), Broadcast(DataOf(s, ts, torrents, ups, removed))]
  }

  /** Whatever a successful poll publishes of its data carries the poll's own time and the next
      sequence number: a snapshot of it for the cache, then for the subscribers its delta, or the
      same snapshot when it is the first. */
  lemma {:induction false} PublishedIs<K>(s: PollerState, ts: int, torrents: seq<Torrent>, ups: seq<Patch>,
                                          removed: seq<string>)
    ensures var ops := SuccessOps<K>(s, ts, torrents, ups, removed);
      var snap := Snapshot(s.seqNo + 1, ts, WireRows(torrents));
      && |ops| >= 2 && ops[|ops| - 2] == SetSnapshot(snap)
      && ops[|ops| - 1] == Broadcast(if s.prev.None? then snap else DeltaMsg(s.seqNo + 1, ts, ups, removed))
      && (forall i :: 0 <= i < |ops| - 2 ==> ops[i] == SetStatus(Health(false)) || ops[i] == Broadcast(Health(false)))
  {
  }

  function HubOps<K>(h: HubState<K>, ops: seq<HubOp<K>>): HubState<K> {
    if ops == [] then h else HubStep(HubOps(h, ops[..|ops| - 1]), ops[|ops| - 1])
  }

  class Poller {
    var prev: Option<Table>
    var seqNo: nat
    var consecFails: nat
    var health: HealthState
    const hub: Hub

    ghost function View(): PollerState
      reads this
    {
      PollerState(prev, seqNo, consecFails, health)
    }

    ghost predicate Valid()
      reads this
    {
      prev.Some? ==> Filed(prev.value)
    }

    constructor (hub: Hub)
      ensures View() == START && Valid() && this.hub == hub
    {
      prev, seqNo, consecFails, health := None, 0, 0, Unknown;
      this.hub := hub;
    }

    method SetHealth(state: HealthState, unreachable: bool)
      modifies this`health, hub`latestStatus, hub`log, hub.subs
      ensures health == state
      ensures hub.View() == HubOps(old(hub.View()), StatusOps(unreachable))
    {
      hide Broadcasted, Hub.View, HubOps;
      health := state;
      var m := Health(unreachable);
      hub.SetStatus(m);
      hub.Broadcast(m);
      TwoOps(old(hub.View()), SetStatus(m), Broadcast(m));
    }

    method Tick(out: Outcome) returns (ghost ups: seq<Patch>, ghost removed: seq<string>)
      requires Valid()
      modifies this, hub`latestSnap, hub`latestStatus, hub`log, hub.subs
      ensures Valid()
      ensures out.Failed? ==>
        && View() == AfterFailure(old(View()))
        && hub.View() == HubOps(old(hub.View()), FailureOps(old(View())))
      ensures out.Polled? ==>
        && IsDelta(PrevTable(old(View())), out.torrents, ups, removed)
        && View() == AfterSuccess(old(View()), out.torrents)
        && hub.View() == HubOps(old(hub.View()), SuccessOps(old(View()), out.ts, out.torrents, ups, removed))
    {
      hide Hub.View, HubOps, IsDelta;
      ups, removed := [], [];
      NoOps(hub.View());
      if out.Failed? {
        consecFails := consecFails + 1;
        if health != Unreachable && consecFails >= UNREACHABLE_AFTER {
          SetHealth(Unreachable, true);
        }
        return;
      }
      ghost var first: seq<HubOp<Subscriber>> := if health != Up then StatusOps(false) else [];
      consecFails := 0;
      if health != Up {
        SetHealth(Up, false);
      }
      ups, removed := Publish(out.ts, out.torrents, old(hub.View()), first);
    }

    /** The rest of a successful tick: diff, cache the snapshot, broadcast. `h` and
        `first` are the hub before the tick and what the tick has done to it so far. */
    method Publish(ts: int, torrents: seq<Torrent>, ghost h: HubState<Subscriber>, ghost first: seq<HubOp<Subscriber>>)
      returns (ghost ups: seq<Patch>, ghost removed: seq<string>)
      requires Valid() && hub.View() == HubOps(h, first)
      modifies this`prev, this`seqNo, hub`latestSnap, hub`log, hub.subs
      ensures Valid()
      ensures IsDelta(PrevTable(old(View())), torrents, ups, removed)
      ensures prev == Some(TableOf(torrents)) && seqNo == old(seqNo) + 1
      ensures hub.View() == HubOps(h, first +
        [SetSnapshot(SnapshotOf(old(View()), ts, torrents)),
         Broadcast(DataOf(old(View()), ts, torrents, ups, removed))])
    {
      hide Hub.View, Broadcasted, HubOps, AreUpserts, Hashes, TableOf, WireRows;
      seqNo := seqNo + 1;
      var isFirst := prev.None?;
      var table := if prev.Some? then prev.value else map[];
      var next, upserts, gone := ComputeDelta(table, torrents);
      ups, removed := upserts, gone;
      prev := Some(next);
      TableKeys(torrents);
      var snap := Snapshot(seqNo, ts, WireRows(torrents));
      hub.SetSnapshot(snap);
      var data := if isFirst then snap else DeltaMsg(seqNo, ts, upserts, gone);
      hub.Broadcast(data);
      OpsAppend(h, first, SetSnapshot(snap), Broadcast(data));
    }
  }

  lemma {:induction false} NoOps<K>(h: HubState<K>)
    ensures HubOps(h, []) == h
  {
  }

  lemma {:induction false} TwoOps<K>(h: HubState<K>, a: HubOp<K>, b: HubOp<K>)
    ensures HubOps(h, [a, b]) == HubStep(HubStep(h, a), b)
  {
    assert [a, b][..1] == [a];
    assert [a][..0] == [];
    assert HubOps(h, [a]) == HubStep(h, a);
  }

  lemma {:induction false} OpsAppend<K>(h: HubState<K>, first: seq<HubOp<K>>, a: HubOp<K>, b: HubOp<K>)
    ensures HubOps(h, first + [a, b]) == HubStep(HubStep(HubOps(h, first), a), b)
  {
    assert (first + [a, b])[..|first| + 1] == first + [a];
    assert (first + [a])[..|first|] == first;
  }

  // ---- health over every run of polls -------------------------------------

  function HealthRun(outs: seq<Outcome>): PollerState {
    if outs == [] then START
    else
      var before := HealthRun(outs[..|outs| - 1]);
      match outs[|outs| - 1]
      case Failed => AfterFailure(before)
      case Polled(_, torrents) => AfterSuccess(before, torrents)
  }

  function TrailingFails(outs: seq<Outcome>): nat {
    if outs == [] || outs[|outs| - 1].Polled? then 0 else 1 + TrailingFails(outs[..|outs| - 1])
  }

  /** The health values broadcast, in order. */
  function Statuses(outs: seq<Outcome>): seq<bool> {
    if outs == [] then []
    else
      var before, s := outs[..|outs| - 1], HealthRun(outs[..|outs| - 1]);
      match outs[|outs| - 1]
      case Failed => if FailureOps<nat>(s) != [] then Statuses(before) + [true] else Statuses(before)
      case Polled(_, _) => if s.health != Up then Statuses(before) + [false] else Statuses(before)
  }

  /** Health is unreachable exactly when at least three failures trail, else up once any
      poll has succeeded, else unknown. */
  lemma {:induction false} HealthIs(outs: seq<Outcome>)
    ensures HealthRun(outs).fails == TrailingFails(outs)
    ensures HealthRun(outs).health ==
      if TrailingFails(outs) >= 3 then Unreachable
      else if exists i :: 0 <= i < |outs| && outs[i].Polled? then Up
      else Unknown
  {
    if outs != [] {
      var before := outs[..|outs| - 1];
      HealthIs(before);
      assert outs == before + [outs[|outs| - 1]];
      if exists i :: 0 <= i < |before| && before[i].Polled? {
        var i :| 0 <= i < |before| && before[i].Polled?;
        assert outs[i].Polled?;
      }
    }
  }

  /** Broadcast health values strictly alternate, and the last one is the current health. */
  lemma {:induction false} StatusesAlternate(outs: seq<Outcome>)
    ensures forall i :: 0 <= i < |Statuses(outs)| - 1 ==> Statuses(outs)[i] != Statuses(outs)[i + 1]
    ensures Statuses(outs) == [] <==> HealthRun(outs).health == Unknown
    ensures Statuses(outs) != [] ==>
      HealthRun(outs).health == if Statuses(outs)[|Statuses(outs)| - 1] then Unreachable else Up
  {
    if outs != [] {
      StatusesAlternate(outs[..|outs| - 1]);
    }
  }
}
