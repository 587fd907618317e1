/**
 * The bookkeeping every engine copy shares, stated on values: the fleet
 * invariant, one pending departure per busy server, no event before the
 * clock, the FIFO discipline, and the work-conserving rule. Each lemma
 * covers one kind of state change an event handler makes.
 */
module Engine {
  import opened Common
  import opened Events
  import opened Fleet
  import opened Customers
  import opened Ledger
  import opened Demand

  // ------------------------------------------------------- handled state

  /**
   * The part of a simulation that the event handlers change, as one value:
   * the fleet, the waiting line, the served customers, the pending events
   * and the draws still to be consumed. Each engine states its handlers as
   * functions from one such value to the next.
   */
  datatype Office = Office(servers: seq<Server>, queue: seq<Customer>, history: seq<Served>,
                           events: seq<Event>, draws: seq<UnitDraw>)

  /** Someone waits and a server on shift is idle: the assignment serves the head of the line. */
  predicate CanServe(o: Office)
  {
    o.queue != [] && LowestIdleActive(o.servers).Some?
  }

  /** The fleet once the departure of server `s` frees it (`ocupado = False`). */
  function Freed(servers: seq<Server>, s: nat): (r: seq<Server>)
    ensures |r| == |servers|
    ensures forall i :: 0 <= i < |r| ==> r[i] == if i == s then servers[i].(busy := false) else servers[i]
  {
    if s < |servers| then servers[s := servers[s].(busy := false)] else servers
  }

  /**
   * The office once the pending event at position `k` is popped, with the
   * fleet `fleet` as the timers left it: the event leaves the pending list
   * and, if it is a departure, its server is freed.
   */
  function Popped(o: Office, k: nat, fleet: seq<Server>): (r: Office)
    requires k < |o.events|
    ensures r.queue == o.queue && r.history == o.history && r.draws == o.draws
    ensures r.events == Remove(o.events, k)
    ensures r.servers == if o.events[k].Departure? then Freed(fleet, o.events[k].server) else fleet
  {
    var e := o.events[k];
    o.(events := Remove(o.events, k), servers := if e.Departure? then Freed(fleet, e.server) else fleet)
  }

  /**
   * `programar_llegada` at the rate `rate` of the moment: nothing when the
   * rate is not positive; otherwise one draw gives the next arrival, which
   * is not scheduled when `closes` and it falls after closing time. Only
   * the pending events and the draws change, and an arrival scheduled lies
   * strictly in the future.
   */
  function Scheduled(o: Office, clock: real, rate: real, closes: bool): (r: Office)
    requires o.draws != []
    ensures r.servers == o.servers && r.queue == o.queue && r.history == o.history
    ensures rate <= 0.0 ==> r == o
    ensures rate > 0.0 ==> r.draws == o.draws[1..]
    ensures o.events <= r.events && |r.events| <= |o.events| + 1
    ensures |r.events| > |o.events| ==> r.events[|o.events|].Arrival? && clock < r.events[|o.events|].time
                                        && (closes ==> r.events[|o.events|].time <= Closing)
    ensures rate > 0.0 && !closes ==> |r.events| == |o.events| + 1
  {
    if rate <= 0.0 then o
    else
      var t := clock + Gap(o.draws[0], rate);
      o.(draws := o.draws[1..], events := if closes && t > Closing then o.events else o.events + [Arrival(t)])
  }

  // ------------------------------------------------------------ invariant

  /** The shared invariant of a simulation between two handled events. */
  ghost predicate Books(minServers: nat, maxServers: nat, clock: real, servers: seq<Server>,
                        events: seq<Event>, history: seq<Served>, queue: seq<Customer>)
  {
    && |servers| == maxServers && FleetOk(servers, minServers)
    && DeparturesMatch(events, servers) && NotBefore(events, clock)
    && FifoOk(history, queue, clock)
  }

  /** Server `i` is busy if it is on shift. */
  ghost predicate Engaged(servers: seq<Server>, i: nat)
    requires i < |servers|
  {
    servers[i].active ==> servers[i].busy
  }

  /** Nobody waits while a server on shift is idle. */
  ghost predicate WorkConserving(servers: seq<Server>, queue: seq<Customer>)
  {
    queue != [] ==> forall i :: 0 <= i < |servers| ==> Engaged(servers, i)
  }

  /** Every server on shift and idle is server `j`. */
  ghost predicate OnlyIdle(servers: seq<Server>, j: nat)
  {
    forall i :: 0 <= i < |servers| && i != j ==> Engaged(servers, i)
  }

  lemma BooksStart(minServers: nat, maxServers: nat, servers: seq<Server>)
    requires InitialFleet(minServers, maxServers) == Success(servers)
    ensures Books(minServers, maxServers, 0.0, servers, [], [], [])
    ensures WorkConserving(servers, [])
  {
    EmptyFifo(0.0);
    BusyCountZero(servers);
  }

  /** Changing accumulators or `active` flags, without touching `busy`, keeps the books if the fleet invariant holds afterwards. */
  lemma BooksFleet(minServers: nat, maxServers: nat, clock: real, servers: seq<Server>, changed: seq<Server>,
                   events: seq<Event>, history: seq<Served>, queue: seq<Customer>)
    requires Books(minServers, maxServers, clock, servers, events, history, queue)
    requires |changed| == |servers| && forall i :: 0 <= i < |servers| ==> changed[i].busy == servers[i].busy
    requires FleetOk(changed, minServers)
    ensures Books(minServers, maxServers, clock, changed, events, history, queue)
  {
    MatchSameBusy(events, servers, changed);
  }

  /** Appending the customer who arrives now keeps the books. */
  lemma BooksEnqueue(minServers: nat, maxServers: nat, clock: real, servers: seq<Server>,
                     events: seq<Event>, history: seq<Served>, queue: seq<Customer>, c: Customer)
    requires Books(minServers, maxServers, clock, servers, events, history, queue)
    requires c.id == |history| + |queue| && c.arrival == clock
    ensures Books(minServers, maxServers, clock, servers, events, history, queue + [c])
  {
    Enqueue(history, queue, clock, c);
  }

  /** Scheduling an arrival no earlier than now keeps the books. */
  lemma BooksSchedule(minServers: nat, maxServers: nat, clock: real, servers: seq<Server>,
                      events: seq<Event>, history: seq<Served>, queue: seq<Customer>, t: real)
    requires Books(minServers, maxServers, clock, servers, events, history, queue)
    requires t >= clock
    ensures Books(minServers, maxServers, clock, servers, events + [Arrival(t)], history, queue)
  {
    PushArrival(events, servers, t);
    PushKeepsDue(events, Arrival(t), clock);
  }

  /**
   * Serving the head of the line on the lowest idle server on shift for a
   * positive duration `d` keeps the books; `v` is that server afterwards.
   */
  lemma BooksAssign(minServers: nat, maxServers: nat, clock: real, servers: seq<Server>,
                    events: seq<Event>, history: seq<Served>, queue: seq<Customer>,
                    j: nat, v: Server, d: real, behind: nat)
    requires Books(minServers, maxServers, clock, servers, events, history, queue)
    requires queue != [] && LowestIdleActive(servers) == Some(j)
    requires v.busy && v.active && d > 0.0
    ensures Books(minServers, maxServers, clock, servers[j := v], events + [Departure(clock + d, j)],
                  history + [Served(queue[0], clock, clock + d, behind)], queue[1..])
  {
    var started := servers[j := v];
    ServeHead(history, queue, clock, d, behind);
    PushDeparture(events, servers, j, clock + d, v);
    PushKeepsDue(events, Departure(clock + d, j), clock);
    ActiveCountSet(servers, j, v);
    forall i | 0 <= i < |started|
      ensures OnShiftIfBusy(started, i)
    {
      assert OnShiftIfBusy(servers, i);
    }
  }

  /** The event popped is no later than any other pending event. */
  lemma PoppedFirst(events: seq<Event>, k: nat)
    requires k < |events| && forall x :: x in events ==> Le(events[k], x)
    ensures NotBefore(events, events[k].time)
  {
    forall i | 0 <= i < |events|
      ensures DueFrom(events, i, events[k].time)
    {
      assert events[i] in events;
      LeIsTotalOrder(events[k], events[i], events[i]);
    }
  }

  /**
   * Popping the earliest pending arrival and moving the clock to it keeps
   * the books; `servers` may have had accumulators changed meanwhile.
   */
  lemma BooksPopArrival(minServers: nat, maxServers: nat, clock: real, servers: seq<Server>,
                        events: seq<Event>, history: seq<Served>, queue: seq<Customer>, k: nat)
    requires Books(minServers, maxServers, clock, servers, events, history, queue)
    requires k < |events| && events[k].Arrival? && forall x :: x in events ==> Le(events[k], x)
    ensures events[k].time >= clock
    ensures Books(minServers, maxServers, events[k].time, servers, Remove(events, k), history, queue)
  {
    assert DueFrom(events, k, clock);
    PoppedFirst(events, k);
    PopArrival(events, k, servers);
    DropKeepsDue(events, k, events[k].time);
    LaterClock(history, queue, clock, events[k].time);
  }

  /**
   * Popping the earliest pending departure, moving the clock to it and
   * freeing its server keeps the books; that server was busy and on shift.
   */
  lemma BooksPopDeparture(minServers: nat, maxServers: nat, clock: real, servers: seq<Server>,
                          events: seq<Event>, history: seq<Served>, queue: seq<Customer>, k: nat)
    requires Books(minServers, maxServers, clock, servers, events, history, queue)
    requires k < |events| && events[k].Departure? && forall x :: x in events ==> Le(events[k], x)
    ensures events[k].time >= clock
    ensures events[k].server < |servers| && servers[events[k].server].busy && servers[events[k].server].active
    ensures Books(minServers, maxServers, events[k].time,
                  servers[events[k].server := servers[events[k].server].(busy := false)],
                  Remove(events, k), history, queue)
  {
    var s := events[k].server;
    assert DueFrom(events, k, clock);
    PoppedFirst(events, k);
    PopDeparture(events, k, servers);
    DropKeepsDue(events, k, events[k].time);
    LaterClock(history, queue, clock, events[k].time);
    var freed := servers[s := servers[s].(busy := false)];
    ActiveCountSet(servers, s, freed[s]);
    assert OnShiftIfBusy(servers, s);
    forall i | 0 <= i < |freed|
      ensures OnShiftIfBusy(freed, i)
    {
      assert OnShiftIfBusy(servers, i);
    }
  }

  /** After freeing a server in a work-conserving state, it is the only idle server on shift. */
  lemma FreeLeavesOneIdle(servers: seq<Server>, queue: seq<Customer>, s: nat)
    requires WorkConserving(servers, queue) && s < |servers|
    ensures queue != [] ==> OnlyIdle(servers[s := servers[s].(busy := false)], s)
  {
    var freed := servers[s := servers[s].(busy := false)];
    if queue != [] {
      forall i | 0 <= i < |freed| && i != s
        ensures Engaged(freed, i)
      {
        assert Engaged(servers, i);
      }
    }
  }

  /**
   * A scaling decision taken in a work-conserving state leaves at most the
   * activated server idle on shift while someone waits.
   */
  lemma ScaleLeavesOneIdle(servers: seq<Server>, queue: seq<Customer>, c: Change)
    requires WorkConserving(servers, queue)
    requires c.Deactivate? ==> c.index < |servers| && !servers[c.index].busy
    ensures queue != [] && c.Activate? ==> OnlyIdle(Apply(servers, c), c.index)
    ensures queue != [] && !c.Activate? ==> WorkConserving(Apply(servers, c), queue)
    ensures queue != [] && !c.Activate? ==> LowestIdleActive(Apply(servers, c)).None?
  {
    var r := Apply(servers, c);
    if queue != [] {
      forall i | 0 <= i < |r| && (c.Activate? ==> i != c.index)
        ensures Engaged(r, i)
      {
        assert Engaged(servers, i);
      }
      if !c.Activate? {
        NoIdleWhileWaiting(r, queue);
      }
    }
  }

  /** While someone waits under the rule, no server on shift is idle. */
  lemma NoIdleWhileWaiting(servers: seq<Server>, queue: seq<Customer>)
    requires WorkConserving(servers, queue) && queue != []
    ensures LowestIdleActive(servers).None?
  {
    var r := LowestIdleActive(servers);
    assert r.Some? ==> Engaged(servers, r.value);
  }

  /** When `j` is the only idle server on shift and some server is idle on shift, the assignment scan finds `j`. */
  lemma OnlyIdleIsLowest(servers: seq<Server>, j: nat)
    requires OnlyIdle(servers, j) && LowestIdleActive(servers).Some?
    ensures LowestIdleActive(servers) == Some(j)
  {
    var i := LowestIdleActive(servers).value;
    assert i != j ==> Engaged(servers, i);
  }

  /** Assigning the head of the line to `j`, the only idle server on shift, restores the rule. */
  lemma AssignRestores(servers: seq<Server>, queue: seq<Customer>, j: nat, v: Server)
    requires queue != [] && OnlyIdle(servers, j) && j < |servers| && v.busy
    ensures WorkConserving(servers[j := v], queue[1..])
  {
    var r := servers[j := v];
    forall x | 0 <= x < |r|
      ensures Engaged(r, x)
    {
      if x != j {
        assert Engaged(servers, x);
      }
    }
  }

  /** Once no server is busy, the rule leaves nobody waiting unless no server is on shift. */
  lemma DrainedConserving(servers: seq<Server>, queue: seq<Customer>)
    requires WorkConserving(servers, queue) && forall i :: 0 <= i < |servers| ==> !servers[i].busy
    ensures queue != [] ==> forall i :: 0 <= i < |servers| ==> !servers[i].active
  {
    if queue != [] {
      forall i | 0 <= i < |servers|
        ensures !servers[i].active
      {
        assert Engaged(servers, i);
      }
    }
  }

  /** With nobody waiting, or no idle server on shift, the rule holds. */
  lemma NothingToAssign(servers: seq<Server>, queue: seq<Customer>)
    requires queue == [] || LowestIdleActive(servers).None?
    ensures WorkConserving(servers, queue)
  {
    if queue != [] {
      forall i | 0 <= i < |servers|
        ensures Engaged(servers, i)
      {
      }
    }
  }
}
