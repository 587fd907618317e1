/**
 * Invariants tying the pending events to the fleet: one pending departure per
 * busy server and none for an idle one, no event before the clock, and (for
 * the copies that integrate time per event) busy time within active time.
 * Each invariant is stated per position through a named predicate, and each
 * lemma covers one kind of change an event handler makes.
 */
module Ledger {
  import opened Events
  import opened Fleet

  /** Server `i` has exactly one pending departure if it is a busy server of the fleet, and none otherwise. */
  ghost predicate PendingFor(events: seq<Event>, servers: seq<Server>, i: nat)
  {
    DepartureIds(events)[i] == if i < |servers| && servers[i].busy then 1 else 0
  }

  /** One pending departure per busy server, none for an idle one, none naming a server outside the fleet. */
  ghost predicate DeparturesMatch(events: seq<Event>, servers: seq<Server>)
  {
    forall i: nat :: PendingFor(events, servers, i)
  }

  /** Pending event `k` is not before `clock`. */
  ghost predicate DueFrom(events: seq<Event>, k: nat, clock: real)
    requires k < |events|
  {
    events[k].time >= clock
  }

  /** No pending event lies before the clock. */
  ghost predicate NotBefore(events: seq<Event>, clock: real)
  {
    forall k :: 0 <= k < |events| ==> DueFrom(events, k, clock)
  }

  lemma {:induction false} IdOfMember(h: seq<Event>, e: Event)
    requires e in h && e.Departure?
    ensures e.server in DepartureIds(h)
  {
    if h[0] != e {
      IdOfMember(h[1..], e);
    }
  }

  lemma MatchSameBusy(events: seq<Event>, a: seq<Server>, b: seq<Server>)
    requires DeparturesMatch(events, a)
    requires |a| == |b| && forall i :: 0 <= i < |a| ==> a[i].busy == b[i].busy
    ensures DeparturesMatch(events, b)
  {
    forall i: nat
      ensures PendingFor(events, b, i)
    {
      assert PendingFor(events, a, i);
    }
  }

  /** A pending departure names a busy server of the fleet. */
  lemma MatchMember(events: seq<Event>, servers: seq<Server>, k: nat)
    requires DeparturesMatch(events, servers) && k < |events| && events[k].Departure?
    ensures events[k].server < |servers| && servers[events[k].server].busy
  {
    IdOfMember(events, events[k]);
    assert PendingFor(events, servers, events[k].server);
  }

  /** An idle server has no pending departure. */
  lemma MatchIdle(events: seq<Event>, servers: seq<Server>, j: nat)
    requires DeparturesMatch(events, servers) && j < |servers| && !servers[j].busy
    ensures forall k :: 0 <= k < |events| && events[k].Departure? ==> events[k].server != j
  {
    forall k | 0 <= k < |events| && events[k].Departure?
      ensures events[k].server != j
    {
      MatchMember(events, servers, k);
    }
  }

  /** Removing a pending arrival keeps the match. */
  lemma PopArrival(events: seq<Event>, k: nat, servers: seq<Server>)
    requires DeparturesMatch(events, servers) && k < |events| && events[k].Arrival?
    ensures DeparturesMatch(Remove(events, k), servers)
  {
    RemoveAt(events, k);
    forall i: nat
      ensures PendingFor(Remove(events, k), servers, i)
    {
      assert PendingFor(events, servers, i);
    }
  }

  /** Removing the departure of server `s` and freeing it keeps the match. */
  lemma PopDeparture(events: seq<Event>, k: nat, servers: seq<Server>)
    requires DeparturesMatch(events, servers) && k < |events| && events[k].Departure?
    ensures events[k].server < |servers| && servers[events[k].server].busy
    ensures DeparturesMatch(Remove(events, k),
                            servers[events[k].server := servers[events[k].server].(busy := false)])
  {
    RemoveAt(events, k);
    MatchMember(events, servers, k);
    var freed := servers[events[k].server := servers[events[k].server].(busy := false)];
    forall i: nat
      ensures PendingFor(Remove(events, k), freed, i)
    {
      assert PendingFor(events, servers, i);
    }
  }

  /** Marking an idle server busy and pushing its departure keeps the match. */
  lemma PushDeparture(events: seq<Event>, servers: seq<Server>, j: nat, t: real, v: Server)
    requires DeparturesMatch(events, servers) && j < |servers| && !servers[j].busy && v.busy
    ensures DeparturesMatch(events + [Departure(t, j)], servers[j := v])
  {
    Push(events, Departure(t, j));
    var pushed := events + [Departure(t, j)];
    var started := servers[j := v];
    forall i: nat
      ensures PendingFor(pushed, started, i)
    {
      assert PendingFor(events, servers, i);
    }
  }

  /** Pushing an arrival keeps the match. */
  lemma PushArrival(events: seq<Event>, servers: seq<Server>, t: real)
    requires DeparturesMatch(events, servers)
    ensures DeparturesMatch(events + [Arrival(t)], servers)
  {
    Push(events, Arrival(t));
    forall i: nat
      ensures PendingFor(events + [Arrival(t)], servers, i)
    {
      assert PendingFor(events, servers, i);
    }
  }

  /** Once no event is pending, no server is busy. */
  lemma Drained(servers: seq<Server>)
    requires DeparturesMatch([], servers)
    ensures forall i :: 0 <= i < |servers| ==> !servers[i].busy
    ensures BusyCount(servers) == 0
  {
    forall i | 0 <= i < |servers|
      ensures !servers[i].busy
    {
      assert PendingFor([], servers, i);
    }
    BusyCountZero(servers);
  }

  /** Removing a pending event keeps every other one not before the clock. */
  lemma DropKeepsDue(events: seq<Event>, k: nat, clock: real)
    requires NotBefore(events, clock) && k < |events|
    ensures NotBefore(Remove(events, k), clock)
  {
    RemoveAt(events, k);
    forall i | 0 <= i < |events| - 1
      ensures DueFrom(Remove(events, k), i, clock)
    {
      assert DueFrom(events, if i < k then i else i + 1, clock);
    }
  }

  /** Pushing an event not before the clock keeps the others so. */
  lemma PushKeepsDue(events: seq<Event>, e: Event, clock: real)
    requires NotBefore(events, clock) && e.time >= clock
    ensures NotBefore(events + [e], clock)
  {
    forall i | 0 <= i < |events| + 1
      ensures DueFrom(events + [e], i, clock)
    {
      if i < |events| {
        assert DueFrom(events, i, clock);
      }
    }
  }

  /** Pending arrival `k` falls by `limit`. */
  ghost predicate ArrivalDue(events: seq<Event>, k: nat, limit: real)
    requires k < |events|
  {
    events[k].Arrival? ==> events[k].time <= limit
  }

  /** Every pending arrival falls by `limit`. */
  ghost predicate ArrivalsBy(events: seq<Event>, limit: real)
  {
    forall k :: 0 <= k < |events| ==> ArrivalDue(events, k, limit)
  }

  /** Removing a pending event keeps the rest by `limit`. */
  lemma DropKeepsArrivals(events: seq<Event>, k: nat, limit: real)
    requires ArrivalsBy(events, limit) && k < |events|
    ensures ArrivalsBy(Remove(events, k), limit)
  {
    RemoveAt(events, k);
    forall i | 0 <= i < |events| - 1
      ensures ArrivalDue(Remove(events, k), i, limit)
    {
      assert ArrivalDue(events, if i < k then i else i + 1, limit);
    }
  }

  /** Pushing a departure, or an arrival by `limit`, keeps every arrival by `limit`. */
  lemma PushKeepsArrivals(events: seq<Event>, e: Event, limit: real)
    requires ArrivalsBy(events, limit) && (e.Arrival? ==> e.time <= limit)
    ensures ArrivalsBy(events + [e], limit)
  {
    forall i | 0 <= i < |events| + 1
      ensures ArrivalDue(events + [e], i, limit)
    {
      if i < |events| {
        assert ArrivalDue(events, i, limit);
      }
    }
  }

  // ------------------------------------------------ per-event time integration

  /** The accumulators of server `i` are not negative, and an idle server has worked no longer than it was on shift. */
  ghost predicate TimesOk(servers: seq<Server>, i: nat)
    requires i < |servers|
  {
    && 0.0 <= servers[i].busyTime && 0.0 <= servers[i].activeTime
    && (!servers[i].busy ==> servers[i].busyTime <= servers[i].activeTime)
  }

  /**
   * The server of pending departure `k` will have worked no longer than it
   * was on shift once the departure is reached.
   */
  ghost predicate DepartureWithin(servers: seq<Server>, events: seq<Event>, k: nat, clock: real)
    requires k < |events|
  {
    events[k].Departure? && events[k].server < |servers| ==>
      servers[events[k].server].busyTime <= servers[events[k].server].activeTime + (events[k].time - clock)
  }

  /** With active time integrated per event, busy time never runs ahead of active time. */
  ghost predicate BusyWithinActive(servers: seq<Server>, events: seq<Event>, clock: real)
  {
    && (forall i :: 0 <= i < |servers| ==> TimesOk(servers, i))
    && (forall k :: 0 <= k < |events| ==> DepartureWithin(servers, events, k, clock))
  }

  /** With no server busy, each has worked no longer than it was on shift. */
  lemma IdleWithinActive(servers: seq<Server>, events: seq<Event>, clock: real)
    requires BusyWithinActive(servers, events, clock) && forall i :: 0 <= i < |servers| ==> !servers[i].busy
    ensures forall i :: 0 <= i < |servers| ==> 0.0 <= servers[i].busyTime <= servers[i].activeTime
  {
    forall i | 0 <= i < |servers|
      ensures 0.0 <= servers[i].busyTime <= servers[i].activeTime
    {
      assert TimesOk(servers, i);
    }
  }

  /** Integrating `t - clock` into the servers on shift and moving the clock to `t` keeps the bound. */
  lemma AdvanceKeepsBound(servers: seq<Server>, events: seq<Event>, clock: real, t: real)
    requires BusyWithinActive(servers, events, clock) && BusyImpliesActive(servers)
    requires clock <= t && NotBefore(events, t)
    ensures BusyWithinActive(Advanced(servers, t - clock), events, t)
  {
    var advanced := Advanced(servers, t - clock);
    forall i | 0 <= i < |servers|
      ensures TimesOk(advanced, i)
    {
      assert TimesOk(servers, i);
    }
    forall k | 0 <= k < |events|
      ensures DepartureWithin(advanced, events, k, t)
    {
      assert DepartureWithin(servers, events, k, clock);
      assert DueFrom(events, k, t);
      if events[k].Departure? && events[k].server < |servers| {
        assert TimesOk(servers, events[k].server);
        assert OnShiftIfBusy(servers, events[k].server);
      }
    }
  }

  /** Serving the departure of server `s` due now: it has then worked no longer than it was on shift. */
  lemma FreeKeepsBound(servers: seq<Server>, events: seq<Event>, k: nat, clock: real)
    requires BusyWithinActive(servers, events, clock)
    requires k < |events| && events[k].Departure? && events[k].time == clock && events[k].server < |servers|
    ensures BusyWithinActive(servers[events[k].server := servers[events[k].server].(busy := false)],
                             Remove(events, k), clock)
  {
    var s := events[k].server;
    var freed := servers[s := servers[s].(busy := false)];
    RemoveAt(events, k);
    assert DepartureWithin(servers, events, k, clock);
    forall i | 0 <= i < |servers|
      ensures TimesOk(freed, i)
    {
      assert TimesOk(servers, i);
    }
    forall i | 0 <= i < |events| - 1
      ensures DepartureWithin(freed, Remove(events, k), i, clock)
    {
      assert DepartureWithin(servers, events, if i < k then i else i + 1, clock);
    }
  }

  /** Removing a pending arrival keeps the bound. */
  lemma DropKeepsBound(servers: seq<Server>, events: seq<Event>, k: nat, clock: real)
    requires BusyWithinActive(servers, events, clock) && k < |events|
    ensures BusyWithinActive(servers, Remove(events, k), clock)
  {
    RemoveAt(events, k);
    forall i | 0 <= i < |events| - 1
      ensures DepartureWithin(servers, Remove(events, k), i, clock)
    {
      assert DepartureWithin(servers, events, if i < k then i else i + 1, clock);
    }
  }

  /** Starting a service of length `d` on idle server `j` (busy time += d, departure at clock + d) keeps the bound. */
  lemma AssignKeepsBound(servers: seq<Server>, events: seq<Event>, clock: real, j: nat, d: real)
    requires BusyWithinActive(servers, events, clock) && DeparturesMatch(events, servers)
    requires j < |servers| && !servers[j].busy && d >= 0.0
    ensures BusyWithinActive(servers[j := servers[j].(busy := true, busyTime := servers[j].busyTime + d)],
                             events + [Departure(clock + d, j)], clock)
  {
    var started := servers[j := servers[j].(busy := true, busyTime := servers[j].busyTime + d)];
    var pushed := events + [Departure(clock + d, j)];
    MatchIdle(events, servers, j);
    assert TimesOk(servers, j);
    forall i | 0 <= i < |servers|
      ensures TimesOk(started, i)
    {
      assert TimesOk(servers, i);
    }
    forall i | 0 <= i < |pushed|
      ensures DepartureWithin(started, pushed, i, clock)
    {
      if i < |events| {
        assert DepartureWithin(servers, events, i, clock);
      }
    }
  }

  /** Pushing an arrival keeps the bound. */
  lemma ArrivalKeepsBound(servers: seq<Server>, events: seq<Event>, clock: real, t: real)
    requires BusyWithinActive(servers, events, clock)
    ensures BusyWithinActive(servers, events + [Arrival(t)], clock)
  {
    forall i | 0 <= i < |events| + 1
      ensures DepartureWithin(servers, events + [Arrival(t)], i, clock)
    {
      if i < |events| {
        assert DepartureWithin(servers, events, i, clock);
      }
    }
  }

  /** Flipping `active` flags only keeps the bound. */
  lemma FlagsKeepBound(servers: seq<Server>, flipped: seq<Server>, events: seq<Event>, clock: real)
    requires BusyWithinActive(servers, events, clock)
    requires |flipped| == |servers| && forall i :: 0 <= i < |servers| ==> flipped[i] == servers[i].(active := flipped[i].active)
    ensures BusyWithinActive(flipped, events, clock)
  {
    forall i | 0 <= i < |servers|
      ensures TimesOk(flipped, i)
    {
      assert TimesOk(servers, i);
    }
    forall k | 0 <= k < |events|
      ensures DepartureWithin(flipped, events, k, clock)
    {
      assert DepartureWithin(servers, events, k, clock);
    }
  }

  // ------------------------------------------------ service end stamps

  /** The server of pending departure `k` has that departure's time as `tiempo_fin_servicio`. */
  ghost predicate EndsAt(servers: seq<Server>, events: seq<Event>, k: nat)
    requires k < |events|
  {
    events[k].Departure? && events[k].server < |servers| ==> servers[events[k].server].serviceEnd == events[k].time
  }

  /** Every pending departure is stamped on its server. */
  ghost predicate ServiceEnds(servers: seq<Server>, events: seq<Event>)
  {
    forall k :: 0 <= k < |events| ==> EndsAt(servers, events, k)
  }

  /** Removing a pending arrival keeps the stamps. */
  lemma DropKeepsEnds(servers: seq<Server>, events: seq<Event>, k: nat)
    requires ServiceEnds(servers, events) && k < |events|
    ensures ServiceEnds(servers, Remove(events, k))
  {
    forall i | 0 <= i < |events| - 1
      ensures EndsAt(servers, Remove(events, k), i)
    {
      assert EndsAt(servers, events, if i < k then i else i + 1);
    }
  }

  /** Freeing the server of popped departure `k` keeps the stamps of the others. */
  lemma FreeKeepsEnds(servers: seq<Server>, events: seq<Event>, k: nat)
    requires ServiceEnds(servers, events) && k < |events| && events[k].Departure? && events[k].server < |servers|
    ensures ServiceEnds(servers[events[k].server := servers[events[k].server].(busy := false)], Remove(events, k))
  {
    var s := events[k].server;
    var freed := servers[s := servers[s].(busy := false)];
    forall i | 0 <= i < |events| - 1
      ensures EndsAt(freed, Remove(events, k), i)
    {
      assert EndsAt(servers, events, if i < k then i else i + 1);
    }
  }

  /** Pushing an arrival keeps the stamps. */
  lemma ArrivalKeepsEnds(servers: seq<Server>, events: seq<Event>, t: real)
    requires ServiceEnds(servers, events)
    ensures ServiceEnds(servers, events + [Arrival(t)])
  {
    forall i | 0 <= i < |events| + 1
      ensures EndsAt(servers, events + [Arrival(t)], i)
    {
      if i < |events| {
        assert EndsAt(servers, events, i);
      }
    }
  }

  /** Stamping idle server `j` with the end `t` of the service it starts, and pushing its departure, keeps the stamps. */
  lemma AssignKeepsEnds(servers: seq<Server>, events: seq<Event>, j: nat, t: real, v: Server)
    requires ServiceEnds(servers, events) && DeparturesMatch(events, servers)
    requires j < |servers| && !servers[j].busy && v.serviceEnd == t
    ensures ServiceEnds(servers[j := v], events + [Departure(t, j)])
  {
    var started := servers[j := v];
    var pushed := events + [Departure(t, j)];
    MatchIdle(events, servers, j);
    forall i | 0 <= i < |pushed|
      ensures EndsAt(started, pushed, i)
    {
      if i < |events| {
        assert EndsAt(servers, events, i);
      }
    }
  }

  /** Flipping `active` flags only keeps the stamps. */
  lemma FlagsKeepEnds(servers: seq<Server>, flipped: seq<Server>, events: seq<Event>)
    requires ServiceEnds(servers, events)
    requires |flipped| == |servers| && forall i :: 0 <= i < |servers| ==> flipped[i] == servers[i].(active := flipped[i].active)
    ensures ServiceEnds(flipped, events)
  {
    forall k | 0 <= k < |events|
      ensures EndsAt(flipped, events, k)
    {
      assert EndsAt(servers, events, k);
    }
  }
}
