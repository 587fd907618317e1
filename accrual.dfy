/**
 * Active time accounted per change of state (simulacion_pro.py): a server's
 * `tiempo_total_activo` is brought up to date only when it is switched on
 * or off (`_cambiar_estado_servidor`) and by a final sweep, with
 * `ultimo_cambio_estado` marking when the current stretch on shift began.
 * The invariant here says that busy time, which is credited in full when a
 * service starts, never runs ahead of the active time accrued by the time
 * the service ends.
 */
module Accrual {
  import opened Common
  import opened Events
  import opened Fleet
  import opened Customers
  import opened Ledger
  import opened Engine

  /** Active time of `s` as of `clock`: the accumulator plus, while on shift, the time since the last change. */
  function Accrued(s: Server, clock: real): (r: real)
    ensures !s.active ==> r == s.activeTime
    ensures s.active && s.lastChange <= clock ==> r >= s.activeTime
  {
    s.activeTime + (if s.active then clock - s.lastChange else 0.0)
  }

  /**
   * `_cambiar_estado_servidor(s, on)` at `clock`: the stretch on shift that
   * ends now is added to the accumulator, the flag is set and the change
   * stamped. The active time accrued as of now is unchanged, and the new
   * stretch starts from zero.
   */
  function Toggle(s: Server, clock: real, on: bool): (r: Server)
    ensures r.active == on && r.lastChange == clock
    ensures r.busy == s.busy && r.busyTime == s.busyTime && r.serviceEnd == s.serviceEnd
    ensures Accrued(r, clock) == Accrued(s, clock) == r.activeTime
  {
    s.(activeTime := if s.active then s.activeTime + (clock - s.lastChange) else s.activeTime,
       active := on, lastChange := clock)
  }

  /** The fleet after decision `c` taken at `clock`, the change going through `Toggle`. */
  function ApplyAt(s: seq<Server>, c: Change, clock: real): (r: seq<Server>)
    ensures |r| == |s|
    ensures forall j :: 0 <= j < |s| ==> r[j] == if !c.NoChange? && j == c.index then Toggle(s[j], clock, c.Activate?) else s[j]
    ensures forall j :: 0 <= j < |s| ==> Accrued(r[j], clock) == Accrued(s[j], clock)
  {
    match c
    case NoChange => s
    case Activate(i) => if i < |s| then s[i := Toggle(s[i], clock, true)] else s
    case Deactivate(i) => if i < |s| then s[i := Toggle(s[i], clock, false)] else s
  }

  /**
   * The scaler of simulacion_pro.py changes at most one server, through
   * `Toggle`, never switches off a busy server, moves the active count by
   * at most one and keeps the fleet invariant.
   */
  lemma ScaleAtKeepsFleet(s: seq<Server>, ewt: real, up: real, down: real, minServers: nat, clock: real)
    requires FleetOk(s, minServers)
    ensures var c := Decide(s, ewt, up, down, minServers);
            var r := ApplyAt(s, c, clock);
            && |r| == |s| && FleetOk(r, minServers)
            && ActiveCount(r) == ActiveCount(s) + (if c.Activate? then 1 else 0) - (if c.Deactivate? then 1 else 0)
            && BusyCount(r) == BusyCount(s)
            && (forall j :: 0 <= j < |s| ==> r[j].busy == s[j].busy)
            && (forall j :: 0 <= j < |s| && (c == NoChange || j != c.index) ==> r[j] == s[j])
            && (c != NoChange ==> c.index < |s| && r[c.index] == Toggle(s[c.index], clock, c.Activate?))
            && (c.Deactivate? ==> !s[c.index].busy)
  {
    var c := Decide(s, ewt, up, down, minServers);
    var r := ApplyAt(s, c, clock);
    if c != NoChange {
      var v := Toggle(s[c.index], clock, c.Activate?);
      ActiveCountSet(s, c.index, v);
      BusyCountSet(s, c.index, v);
    }
    forall j | 0 <= j < |r|
      ensures OnShiftIfBusy(r, j)
    {
      assert OnShiftIfBusy(s, j);
    }
  }

  /**
   * A scaling decision taken in a work-conserving state leaves at most the
   * activated server idle on shift while someone waits.
   */
  lemma ScaleAtLeavesOneIdle(s: seq<Server>, queue: seq<Customer>, c: Change, clock: real)
    requires WorkConserving(s, queue)
    requires c.Deactivate? ==> c.index < |s| && !s[c.index].busy
    ensures queue != [] && c.Activate? ==> OnlyIdle(ApplyAt(s, c, clock), c.index)
    ensures queue != [] && !c.Activate? ==> WorkConserving(ApplyAt(s, c, clock), queue)
    ensures queue != [] && !c.Activate? ==> LowestIdleActive(ApplyAt(s, c, clock)).None?
  {
    var r := ApplyAt(s, c, clock);
    if queue != [] {
      forall i | 0 <= i < |r| && (c.Activate? ==> i != c.index)
        ensures Engaged(r, i)
      {
        assert Engaged(s, i);
      }
      if !c.Activate? {
        NoIdleWhileWaiting(r, queue);
      }
    }
  }

  // ---------------------------------------------------------------- invariant

  /**
   * Server `i`: accumulators not negative, last change not after the clock,
   * and, when idle, worked no longer than it has been on shift.
   */
  ghost predicate AccrualOk(servers: seq<Server>, i: nat, clock: real)
    requires i < |servers|
  {
    && 0.0 <= servers[i].busyTime && 0.0 <= servers[i].activeTime && servers[i].lastChange <= clock
    && (!servers[i].busy ==> servers[i].busyTime <= Accrued(servers[i], clock))
  }

  /**
   * The server of pending departure `k` will have worked no longer than it
   * has been on shift once the departure is reached.
   */
  ghost predicate DepartureAccrued(servers: seq<Server>, events: seq<Event>, k: nat, clock: real)
    requires k < |events|
  {
    events[k].Departure? && events[k].server < |servers| ==>
      servers[events[k].server].busyTime <= Accrued(servers[events[k].server], clock) + (events[k].time - clock)
  }

  /** Busy time never runs ahead of accrued active time. */
  ghost predicate AccruedWithin(servers: seq<Server>, events: seq<Event>, clock: real)
  {
    && (forall i :: 0 <= i < |servers| ==> AccrualOk(servers, i, clock))
    && (forall k :: 0 <= k < |events| ==> DepartureAccrued(servers, events, k, clock))
  }

  /** The fleet built by `__init__` has accrued nothing and owes nothing. */
  lemma StartAccrued(minServers: nat, maxServers: nat, servers: seq<Server>)
    requires InitialFleet(minServers, maxServers) == Success(servers)
    ensures AccruedWithin(servers, [], 0.0)
  {
    forall i | 0 <= i < |servers|
      ensures AccrualOk(servers, i, 0.0)
    {
    }
  }

  /** Moving the clock forward to `t`, no later than any pending event, keeps the bound. */
  lemma LaterKeepsAccrued(servers: seq<Server>, events: seq<Event>, clock: real, t: real)
    requires AccruedWithin(servers, events, clock) && BusyImpliesActive(servers)
    requires clock <= t && NotBefore(events, t)
    ensures AccruedWithin(servers, events, t)
  {
    forall i | 0 <= i < |servers|
      ensures AccrualOk(servers, i, t)
    {
      assert AccrualOk(servers, i, clock);
    }
    forall k | 0 <= k < |events|
      ensures DepartureAccrued(servers, events, k, t)
    {
      assert DepartureAccrued(servers, events, k, clock);
      assert DueFrom(events, k, t);
      if events[k].Departure? && events[k].server < |servers| {
        assert OnShiftIfBusy(servers, events[k].server);
        assert AccrualOk(servers, events[k].server, clock);
      }
    }
  }

  /** Serving the departure of its server due now: the server has then worked no longer than it was on shift. */
  lemma FreeKeepsAccrued(servers: seq<Server>, events: seq<Event>, k: nat, clock: real)
    requires AccruedWithin(servers, events, clock)
    requires k < |events| && events[k].Departure? && events[k].time == clock && events[k].server < |servers|
    ensures AccruedWithin(servers[events[k].server := servers[events[k].server].(busy := false)], Remove(events, k), clock)
  {
    var s := events[k].server;
    var freed := servers[s := servers[s].(busy := false)];
    RemoveAt(events, k);
    assert DepartureAccrued(servers, events, k, clock);
    assert AccrualOk(servers, s, clock);
    assert Accrued(freed[s], clock) == Accrued(servers[s], clock);
    forall i | 0 <= i < |servers|
      ensures AccrualOk(freed, i, clock)
    {
      if i != s {
        assert AccrualOk(servers, i, clock);
      }
    }
    forall i | 0 <= i < |events| - 1
      ensures DepartureAccrued(freed, Remove(events, k), i, clock)
    {
      assert DepartureAccrued(servers, events, if i < k then i else i + 1, clock);
    }
  }

  /** Removing a pending arrival keeps the bound. */
  lemma DropKeepsAccrued(servers: seq<Server>, events: seq<Event>, k: nat, clock: real)
    requires AccruedWithin(servers, events, clock) && k < |events|
    ensures AccruedWithin(servers, Remove(events, k), clock)
  {
    RemoveAt(events, k);
    forall i | 0 <= i < |events| - 1
      ensures DepartureAccrued(servers, Remove(events, k), i, clock)
    {
      assert DepartureAccrued(servers, events, if i < k then i else i + 1, clock);
    }
  }

  /** Starting a service of length `d` on idle server `j` (busy time += d, departure at clock + d) keeps the bound. */
  lemma AssignKeepsAccrued(servers: seq<Server>, events: seq<Event>, clock: real, j: nat, d: real)
    requires AccruedWithin(servers, events, clock) && DeparturesMatch(events, servers)
    requires j < |servers| && !servers[j].busy && d >= 0.0
    ensures AccruedWithin(servers[j := servers[j].(busy := true, busyTime := servers[j].busyTime + d)],
                          events + [Departure(clock + d, j)], clock)
  {
    var started := servers[j := servers[j].(busy := true, busyTime := servers[j].busyTime + d)];
    var pushed := events + [Departure(clock + d, j)];
    MatchIdle(events, servers, j);
    assert AccrualOk(servers, j, clock);
    forall i | 0 <= i < |servers|
      ensures AccrualOk(started, i, clock)
    {
      assert AccrualOk(servers, i, clock);
    }
    forall i | 0 <= i < |pushed|
      ensures DepartureAccrued(started, pushed, i, clock)
    {
      if i < |events| {
        assert DepartureAccrued(servers, events, i, clock);
      }
    }
  }

  /** Pushing an arrival keeps the bound. */
  lemma ArrivalKeepsAccrued(servers: seq<Server>, events: seq<Event>, clock: real, t: real)
    requires AccruedWithin(servers, events, clock)
    ensures AccruedWithin(servers, events + [Arrival(t)], clock)
  {
    forall i | 0 <= i < |events| + 1
      ensures DepartureAccrued(servers, events + [Arrival(t)], i, clock)
    {
      if i < |events| {
        assert DepartureAccrued(servers, events, i, clock);
      }
    }
  }

  /** Switching server `i` on or off through `Toggle` keeps the bound. */
  lemma ToggleKeepsAccrued(servers: seq<Server>, events: seq<Event>, clock: real, i: nat, on: bool)
    requires AccruedWithin(servers, events, clock) && i < |servers|
    ensures AccruedWithin(servers[i := Toggle(servers[i], clock, on)], events, clock)
  {
    var r := servers[i := Toggle(servers[i], clock, on)];
    forall j | 0 <= j < |servers|
      ensures AccrualOk(r, j, clock)
    {
      assert AccrualOk(servers, j, clock);
    }
    forall k | 0 <= k < |events|
      ensures DepartureAccrued(r, events, k, clock)
    {
      assert DepartureAccrued(servers, events, k, clock);
    }
  }

  // ---------------------------------------------------------------- final sweep

  /** The fleet after the closing sweep: every server on shift is credited the stretch since its last change. */
  function Swept(s: seq<Server>, clock: real): (r: seq<Server>)
    ensures |r| == |s|
    ensures forall i :: 0 <= i < |s| ==> r[i] == s[i].(activeTime := Accrued(s[i], clock))
  {
    seq(|s|, i requires 0 <= i < |s| =>
      if s[i].active then s[i].(activeTime := s[i].activeTime + (clock - s[i].lastChange)) else s[i])
  }

  /**
   * After the sweep, with no server busy, each server's accumulator is its
   * active time accrued as of the clock, and its busy time lies within it.
   */
  lemma SweptWithin(servers: seq<Server>, events: seq<Event>, clock: real)
    requires AccruedWithin(servers, events, clock) && forall i :: 0 <= i < |servers| ==> !servers[i].busy
    ensures |Swept(servers, clock)| == |servers|
    ensures forall i :: 0 <= i < |servers| ==> Swept(servers, clock)[i].activeTime == Accrued(servers[i], clock)
    ensures forall i :: 0 <= i < |servers| ==> 0.0 <= Swept(servers, clock)[i].busyTime <= Swept(servers, clock)[i].activeTime
  {
    forall i | 0 <= i < |servers|
      ensures 0.0 <= Swept(servers, clock)[i].busyTime <= Swept(servers, clock)[i].activeTime
    {
      assert AccrualOk(servers, i, clock);
    }
  }
}
