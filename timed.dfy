/**
 * The state invariant of the copies that integrate active time per event
 * (`_actualizar_cronometros(delta)` before the clock moves):
 * simulacion_master.py, simulacion_dashboard_final.py and
 * simulacion_final.py. Each lemma states, on values, that one kind of step
 * of their event handlers keeps it. A closing `limit` on pending arrivals is
 * carried alongside for the copies that schedule only up to closing time.
 */
module Timed {
  import opened Common
  import opened Events
  import opened Fleet
  import opened Customers
  import opened Ledger
  import opened Demand
  import opened Engine

  /**
   * The shared books, the active count accounted for by the changes the
   * scaler made, and busy time within active time.
   */
  ghost predicate Inv(mu: real, minServers: nat, maxServers: nat, clock: real, servers: seq<Server>,
                      events: seq<Event>, history: seq<Served>, queue: seq<Customer>,
                      activations: nat, deactivations: nat)
  {
    && mu > 0.0 && 0.0 <= clock
    && Books(minServers, maxServers, clock, servers, events, history, queue)
    && ActiveCount(servers) + deactivations == minServers + activations
    && BusyWithinActive(servers, events, clock)
  }

  /** The state right after `__init__`. */
  lemma InvStart(mu: real, minServers: nat, maxServers: nat, servers: seq<Server>)
    requires mu > 0.0 && InitialFleet(minServers, maxServers) == Success(servers)
    ensures Inv(mu, minServers, maxServers, 0.0, servers, [], [], [], 0, 0)
    ensures WorkConserving(servers, [])
    ensures ArrivalsBy([], Closing)
  {
    BooksStart(minServers, maxServers, servers);
    forall i | 0 <= i < |servers|
      ensures TimesOk(servers, i)
    {
    }
  }

  /**
   * `intentar_asignar` on the office `o` at time `clock`: when someone
   * waits and a server on shift is idle, the head of the line starts
   * service now on the lowest such server, for the duration the next draw
   * gives at rate `mu`; that duration is added to the server's busy time,
   * the customer joins the history and the departure is scheduled.
   * Otherwise nothing changes.
   */
  function AssignNext(mu: real, clock: real, o: Office): (r: Office)
    requires mu > 0.0 && (o.queue == [] || o.draws != [])
    ensures !CanServe(o) ==> r == o
    ensures CanServe(o) ==> r.queue == o.queue[1..] && r.draws == o.draws[1..]
                            && |r.history| == |o.history| + 1 && r.history[..|o.history|] == o.history
    ensures CanServe(o) ==>
              var j := LowestIdleActive(o.servers).value;
              var served := r.history[|o.history|];
              && served.customer == o.queue[0] && served.start == clock && clock < served.departure
              && served.queueAtEntry == 0
              && r.events == o.events + [Departure(served.departure, j)]
              && r.servers == o.servers[j := o.servers[j].(busy := true,
                                                             busyTime := o.servers[j].busyTime + (served.departure - clock))]
    ensures ActiveCount(r.servers) == ActiveCount(o.servers)
    ensures BusyCount(r.servers) == BusyCount(o.servers) + |r.history| - |o.history|
  {
    if !CanServe(o) then o
    else
      var j := LowestIdleActive(o.servers).value;
      var d := Gap(o.draws[0], mu);
      var v := o.servers[j].(busy := true, busyTime := o.servers[j].busyTime + d);
      ActiveCountSet(o.servers, j, v);
      BusyCountSet(o.servers, j, v);
      Office(o.servers[j := v], o.queue[1..], o.history + [Served(o.queue[0], clock, clock + d, 0)],
             o.events + [Departure(clock + d, j)], o.draws[1..])
  }

  /** Starting a service of length `d` on server `j`, which becomes `v`, keeps the invariant and any closing limit. */
  lemma AssignKeepsInv(mu: real, minServers: nat, maxServers: nat, clock: real, servers: seq<Server>,
                       events: seq<Event>, history: seq<Served>, queue: seq<Customer>,
                       activations: nat, deactivations: nat, j: nat, d: real, v: Server, limit: real)
    requires Inv(mu, minServers, maxServers, clock, servers, events, history, queue, activations, deactivations)
    requires queue != [] && LowestIdleActive(servers) == Some(j) && d > 0.0
    requires v == servers[j].(busy := true, busyTime := servers[j].busyTime + d)
    ensures Inv(mu, minServers, maxServers, clock, servers[j := v], events + [Departure(clock + d, j)],
                history + [Served(queue[0], clock, clock + d, 0)], queue[1..], activations, deactivations)
    ensures ArrivalsBy(events, limit) ==> ArrivalsBy(events + [Departure(clock + d, j)], limit)
  {
    BooksAssign(minServers, maxServers, clock, servers, events, history, queue, j, v, d, 0);
    AssignKeepsBound(servers, events, clock, j, d);
    ActiveCountSet(servers, j, v);
    if ArrivalsBy(events, limit) {
      PushKeepsArrivals(events, Departure(clock + d, j), limit);
    }
    assert Books(minServers, maxServers, clock, servers[j := v], events + [Departure(clock + d, j)],
                 history + [Served(queue[0], clock, clock + d, 0)], queue[1..]);
    assert ActiveCount(servers[j := v]) + deactivations == minServers + activations;
    assert BusyWithinActive(servers[j := v], events + [Departure(clock + d, j)], clock);
  }

  /** Scheduling an arrival no earlier than now keeps the invariant, and a closing limit if it falls by it. */
  lemma ScheduleKeepsInv(mu: real, minServers: nat, maxServers: nat, clock: real, servers: seq<Server>,
                         events: seq<Event>, history: seq<Served>, queue: seq<Customer>,
                         activations: nat, deactivations: nat, t: real, limit: real)
    requires Inv(mu, minServers, maxServers, clock, servers, events, history, queue, activations, deactivations)
    requires clock <= t
    ensures Inv(mu, minServers, maxServers, clock, servers, events + [Arrival(t)], history, queue, activations, deactivations)
    ensures ArrivalsBy(events, limit) && t <= limit ==> ArrivalsBy(events + [Arrival(t)], limit)
  {
    BooksSchedule(minServers, maxServers, clock, servers, events, history, queue, t);
    ArrivalKeepsBound(servers, events, clock, t);
    if ArrivalsBy(events, limit) && t <= limit {
      PushKeepsArrivals(events, Arrival(t), limit);
    }
  }

  /** The scaling decision `c` keeps the invariant once it is counted. */
  lemma ScaleKeepsInv(mu: real, minServers: nat, maxServers: nat, clock: real, servers: seq<Server>,
                      events: seq<Event>, history: seq<Served>, queue: seq<Customer>,
                      activations: nat, deactivations: nat, ewt: real, up: real, down: real, c: Change)
    requires Inv(mu, minServers, maxServers, clock, servers, events, history, queue, activations, deactivations)
    requires c == Decide(servers, ewt, up, down, minServers)
    ensures Inv(mu, minServers, maxServers, clock, Apply(servers, c), events, history, queue,
                activations + (if c.Activate? then 1 else 0), deactivations + (if c.Deactivate? then 1 else 0))
  {
    ScaleKeepsFleet(servers, ewt, up, down, minServers);
    BooksFleet(minServers, maxServers, clock, servers, Apply(servers, c), events, history, queue);
    FlagsKeepBound(servers, Apply(servers, c), events, clock);
  }

  /**
   * Popping the earliest pending event, an arrival due at `t`, integrating
   * the gap into the servers on shift and moving the clock to `t` keeps the
   * invariant, any closing limit (which `t` then meets) and the
   * work-conserving rule.
   */
  lemma PopArrivalKeepsInv(mu: real, minServers: nat, maxServers: nat, clock: real, servers: seq<Server>,
                           events: seq<Event>, history: seq<Served>, queue: seq<Customer>,
                           activations: nat, deactivations: nat, k: nat, t: real, limit: real)
    requires Inv(mu, minServers, maxServers, clock, servers, events, history, queue, activations, deactivations)
    requires k < |events| && events[k].Arrival? && t == events[k].time && forall x :: x in events ==> Le(events[k], x)
    ensures clock <= t
    ensures Inv(mu, minServers, maxServers, t, Advanced(servers, t - clock), Remove(events, k), history, queue,
                activations, deactivations)
    ensures ArrivalsBy(events, limit) ==> t <= limit && ArrivalsBy(Remove(events, k), limit)
    ensures WorkConserving(servers, queue) ==> WorkConserving(Advanced(servers, t - clock), queue)
  {
    var advanced := Advanced(servers, t - clock);
    BooksPopArrival(minServers, maxServers, clock, servers, events, history, queue, k);
    PoppedFirst(events, k);
    AdvanceKeepsFlags(servers, t - clock, minServers);
    AdvanceKeepsBound(servers, events, clock, t);
    BooksFleet(minServers, maxServers, t, servers, advanced, Remove(events, k), history, queue);
    DropKeepsBound(advanced, events, k, t);
    if ArrivalsBy(events, limit) {
      assert ArrivalDue(events, k, limit);
      DropKeepsArrivals(events, k, limit);
    }
    if WorkConserving(servers, queue) && queue != [] {
      forall i | 0 <= i < |advanced|
        ensures Engaged(advanced, i)
      {
        assert Engaged(servers, i);
      }
    }
  }

  /**
   * Popping the earliest pending event, an arrival, and dropping it without
   * touching the timers or the clock keeps the invariant.
   */
  lemma DropArrivalKeepsInv(mu: real, minServers: nat, maxServers: nat, clock: real, servers: seq<Server>,
                            events: seq<Event>, history: seq<Served>, queue: seq<Customer>,
                            activations: nat, deactivations: nat, k: nat)
    requires Inv(mu, minServers, maxServers, clock, servers, events, history, queue, activations, deactivations)
    requires k < |events| && events[k].Arrival?
    ensures Inv(mu, minServers, maxServers, clock, servers, Remove(events, k), history, queue, activations, deactivations)
  {
    PopArrival(events, k, servers);
    DropKeepsDue(events, k, clock);
    DropKeepsBound(servers, events, k, clock);
  }

  /**
   * Popping the earliest pending event, a departure of server `s` due at
   * `t`, integrating the gap, moving the clock and freeing `s` keeps the
   * invariant and any closing limit; `s` was busy and on shift, and is then
   * the only idle server on shift while someone waits.
   */
  lemma PopDepartureKeepsInv(mu: real, minServers: nat, maxServers: nat, clock: real, servers: seq<Server>,
                             events: seq<Event>, history: seq<Served>, queue: seq<Customer>,
                             activations: nat, deactivations: nat, k: nat, t: real, s: nat, advanced: seq<Server>, limit: real)
    requires Inv(mu, minServers, maxServers, clock, servers, events, history, queue, activations, deactivations)
    requires k < |events| && events[k] == Departure(t, s) && forall x :: x in events ==> Le(events[k], x)
    requires advanced == Advanced(servers, t - clock)
    ensures clock <= t && s < |servers| && servers[s].busy && servers[s].active
    ensures Inv(mu, minServers, maxServers, t, advanced[s := advanced[s].(busy := false)], Remove(events, k), history, queue,
                activations, deactivations)
    ensures ArrivalsBy(events, limit) ==> ArrivalsBy(Remove(events, k), limit)
    ensures WorkConserving(servers, queue) && queue != [] ==> OnlyIdle(advanced[s := advanced[s].(busy := false)], s)
  {
    assert DueFrom(events, k, clock);
    MatchMember(events, servers, k);
    PoppedFirst(events, k);
    AdvanceKeepsFlags(servers, t - clock, minServers);
    var freed := advanced[s := advanced[s].(busy := false)];
    AdvanceKeepsBound(servers, events, clock, t);
    BooksFleet(minServers, maxServers, clock, servers, advanced, events, history, queue);
    BooksPopDeparture(minServers, maxServers, clock, advanced, events, history, queue, k);
    FreeKeepsBound(advanced, events, k, t);
    ActiveCountSet(advanced, s, freed[s]);
    if ArrivalsBy(events, limit) {
      DropKeepsArrivals(events, k, limit);
    }
    if WorkConserving(servers, queue) && queue != [] {
      forall i | 0 <= i < |advanced|
        ensures Engaged(advanced, i)
      {
        assert Engaged(servers, i);
      }
      FreeLeavesOneIdle(advanced, queue, s);
    }
  }
}
