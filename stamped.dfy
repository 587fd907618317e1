/**
 * The state invariant of the copies that keep no time integrals but stamp
 * each server with the end of its current service (`tiempo_fin_servicio`):
 * simulacion_banco.py, app_banco.py and simulacion_variable.py. Each lemma
 * states, on values, that one kind of step of their event handlers keeps
 * it, and how the step moves the number of busy servers and of pending
 * arrivals. A closing `limit` on pending arrivals is carried alongside for
 * the copy that schedules only up to closing time.
 */
module Stamped {
  import opened Common
  import opened Events
  import opened Fleet
  import opened Customers
  import opened Ledger
  import opened Demand
  import opened Engine

  /** The shared books, and every pending departure stamped on its server. */
  ghost predicate Inv(mu: real, minServers: nat, maxServers: nat, clock: real, servers: seq<Server>,
                      events: seq<Event>, history: seq<Served>, queue: seq<Customer>)
  {
    && mu > 0.0 && 0.0 <= clock
    && Books(minServers, maxServers, clock, servers, events, history, queue)
    && ServiceEnds(servers, events)
  }

  /** The state right after `__init__`. */
  lemma InvStart(mu: real, minServers: nat, maxServers: nat, servers: seq<Server>)
    requires mu > 0.0 && InitialFleet(minServers, maxServers) == Success(servers)
    ensures Inv(mu, minServers, maxServers, 0.0, servers, [], [], [])
    ensures WorkConserving(servers, []) && ArrivalsBy([], Closing) && BusyCount(servers) == 0
  {
    BooksStart(minServers, maxServers, servers);
  }

  /**
   * `_intentar_asignar` on the office `o` at time `clock`: when someone
   * waits and a server on shift is idle, the head of the line starts
   * service now on the lowest such server, for the duration the next draw
   * gives at rate `mu`; the server is stamped with the end of that service,
   * the customer joins the history (with the number still waiting when
   * `countBehind`, otherwise 0) and the departure is scheduled. Otherwise
   * nothing changes.
   */
  function ServeNext(mu: real, clock: real, countBehind: bool, o: Office): (r: Office)
    requires mu > 0.0 && (o.queue == [] || o.draws != [])
    ensures !CanServe(o) ==> r == o
    ensures CanServe(o) ==> r.queue == o.queue[1..] && r.draws == o.draws[1..]
                            && |r.history| == |o.history| + 1 && r.history[..|o.history|] == o.history
    ensures CanServe(o) ==>
              var j := LowestIdleActive(o.servers).value;
              var served := r.history[|o.history|];
              && served.customer == o.queue[0] && served.start == clock && clock < served.departure
              && served.queueAtEntry == (if countBehind then |r.queue| else 0)
              && r.events == o.events + [Departure(served.departure, j)]
              && r.servers == o.servers[j := o.servers[j].(busy := true, serviceEnd := served.departure)]
    ensures ActiveCount(r.servers) == ActiveCount(o.servers)
    ensures BusyCount(r.servers) == BusyCount(o.servers) + |r.history| - |o.history|
  {
    if !CanServe(o) then o
    else
      var j := LowestIdleActive(o.servers).value;
      var d := Gap(o.draws[0], mu);
      var v := o.servers[j].(busy := true, serviceEnd := clock + d);
      ActiveCountSet(o.servers, j, v);
      BusyCountSet(o.servers, j, v);
      Office(o.servers[j := v], o.queue[1..],
             o.history + [Served(o.queue[0], clock, clock + d, if countBehind then |o.queue| - 1 else 0)],
             o.events + [Departure(clock + d, j)], o.draws[1..])
  }

  /**
   * Starting a service of length `d` on server `j`, which becomes `v`, keeps
   * the invariant and any closing limit, and makes one more server busy.
   */
  lemma AssignKeepsInv(mu: real, minServers: nat, maxServers: nat, clock: real, servers: seq<Server>,
                       events: seq<Event>, history: seq<Served>, queue: seq<Customer>,
                       j: nat, d: real, v: Server, behind: nat, limit: real)
    requires Inv(mu, minServers, maxServers, clock, servers, events, history, queue)
    requires queue != [] && LowestIdleActive(servers) == Some(j) && d > 0.0
    requires v == servers[j].(busy := true, serviceEnd := clock + d)
    ensures Inv(mu, minServers, maxServers, clock, servers[j := v], events + [Departure(clock + d, j)],
                history + [Served(queue[0], clock, clock + d, behind)], queue[1..])
    ensures BusyCount(servers[j := v]) == BusyCount(servers) + 1 && ActiveCount(servers[j := v]) == ActiveCount(servers)
    ensures Arrivals(events + [Departure(clock + d, j)]) == Arrivals(events)
    ensures ArrivalsBy(events, limit) ==> ArrivalsBy(events + [Departure(clock + d, j)], limit)
  {
    BooksAssign(minServers, maxServers, clock, servers, events, history, queue, j, v, d, behind);
    AssignKeepsEnds(servers, events, j, clock + d, v);
    BusyCountSet(servers, j, v);
    ActiveCountSet(servers, j, v);
    ArrivalsPush(events, Departure(clock + d, j));
    if ArrivalsBy(events, limit) {
      PushKeepsArrivals(events, Departure(clock + d, j), limit);
    }
  }

  /** Scheduling an arrival no earlier than now keeps the invariant, and a closing limit if it falls by it. */
  lemma ScheduleKeepsInv(mu: real, minServers: nat, maxServers: nat, clock: real, servers: seq<Server>,
                         events: seq<Event>, history: seq<Served>, queue: seq<Customer>, t: real, limit: real)
    requires Inv(mu, minServers, maxServers, clock, servers, events, history, queue)
    requires clock <= t
    ensures Inv(mu, minServers, maxServers, clock, servers, events + [Arrival(t)], history, queue)
    ensures Arrivals(events + [Arrival(t)]) == Arrivals(events) + 1
    ensures ArrivalsBy(events, limit) && t <= limit ==> ArrivalsBy(events + [Arrival(t)], limit)
  {
    BooksSchedule(minServers, maxServers, clock, servers, events, history, queue, t);
    ArrivalKeepsEnds(servers, events, t);
    ArrivalsPush(events, Arrival(t));
    if ArrivalsBy(events, limit) && t <= limit {
      PushKeepsArrivals(events, Arrival(t), limit);
    }
  }

  /** The scaling decision `c` keeps the invariant and the number of busy servers. */
  lemma ScaleKeepsInv(mu: real, minServers: nat, maxServers: nat, clock: real, servers: seq<Server>,
                      events: seq<Event>, history: seq<Served>, queue: seq<Customer>,
                      ewt: real, up: real, down: real, c: Change)
    requires Inv(mu, minServers, maxServers, clock, servers, events, history, queue)
    requires c == Decide(servers, ewt, up, down, minServers)
    ensures Inv(mu, minServers, maxServers, clock, Apply(servers, c), events, history, queue)
    ensures BusyCount(Apply(servers, c)) == BusyCount(servers)
    ensures ActiveCount(Apply(servers, c)) == ActiveCount(servers) + (if c.Activate? then 1 else 0) - (if c.Deactivate? then 1 else 0)
  {
    ScaleKeepsFleet(servers, ewt, up, down, minServers);
    BooksFleet(minServers, maxServers, clock, servers, Apply(servers, c), events, history, queue);
    FlagsKeepEnds(servers, Apply(servers, c), events);
    if c != NoChange {
      BusyCountSet(servers, c.index, Apply(servers, c)[c.index]);
    }
  }

  /**
   * Popping the earliest pending event, an arrival due at `t`, and moving
   * the clock to it keeps the invariant and any closing limit, which `t`
   * then meets; one pending arrival fewer.
   */
  lemma PopArrivalKeepsInv(mu: real, minServers: nat, maxServers: nat, clock: real, servers: seq<Server>,
                           events: seq<Event>, history: seq<Served>, queue: seq<Customer>, k: nat, t: real, limit: real)
    requires Inv(mu, minServers, maxServers, clock, servers, events, history, queue)
    requires k < |events| && events[k].Arrival? && t == events[k].time && forall x :: x in events ==> Le(events[k], x)
    ensures clock <= t
    ensures Inv(mu, minServers, maxServers, t, servers, Remove(events, k), history, queue)
    ensures Arrivals(Remove(events, k)) + 1 == Arrivals(events)
    ensures ArrivalsBy(events, limit) ==> t <= limit && ArrivalsBy(Remove(events, k), limit)
  {
    BooksPopArrival(minServers, maxServers, clock, servers, events, history, queue, k);
    DropKeepsEnds(servers, events, k);
    ArrivalsRemove(events, k);
    if ArrivalsBy(events, limit) {
      assert ArrivalDue(events, k, limit);
      DropKeepsArrivals(events, k, limit);
    }
  }

  /**
   * Popping the earliest pending event, a departure of server `s` due at
   * `t`, moving the clock and freeing `s` keeps the invariant and any
   * closing limit; `s` was busy and on shift, and is then the only idle
   * server on shift while someone waits; one busy server fewer.
   */
  lemma PopDepartureKeepsInv(mu: real, minServers: nat, maxServers: nat, clock: real, servers: seq<Server>,
                             events: seq<Event>, history: seq<Served>, queue: seq<Customer>, k: nat, t: real, s: nat, limit: real)
    requires Inv(mu, minServers, maxServers, clock, servers, events, history, queue)
    requires k < |events| && events[k] == Departure(t, s) && forall x :: x in events ==> Le(events[k], x)
    ensures clock <= t && s < |servers| && servers[s].busy && servers[s].active
    ensures Inv(mu, minServers, maxServers, t, servers[s := servers[s].(busy := false)], Remove(events, k), history, queue)
    ensures BusyCount(servers[s := servers[s].(busy := false)]) + 1 == BusyCount(servers)
    ensures ActiveCount(servers[s := servers[s].(busy := false)]) == ActiveCount(servers)
    ensures Arrivals(Remove(events, k)) == Arrivals(events)
    ensures ArrivalsBy(events, limit) ==> ArrivalsBy(Remove(events, k), limit)
    ensures WorkConserving(servers, queue) && queue != [] ==> OnlyIdle(servers[s := servers[s].(busy := false)], s)
  {
    BooksPopDeparture(minServers, maxServers, clock, servers, events, history, queue, k);
    FreeKeepsEnds(servers, events, k);
    BusyCountSet(servers, s, servers[s].(busy := false));
    ActiveCountSet(servers, s, servers[s].(busy := false));
    ArrivalsRemove(events, k);
    if ArrivalsBy(events, limit) {
      DropKeepsArrivals(events, k, limit);
    }
    if WorkConserving(servers, queue) {
      FreeLeavesOneIdle(servers, queue, s);
    }
  }
}
