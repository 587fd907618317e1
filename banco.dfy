/**
 * simulacion_banco.py: `SimulacionBancoInteligente`, the engine that runs
 * until a given number of customers has been created and served. It keeps
 * no time integrals; each server is stamped with the end of its service,
 * each customer records the queue and the estimate seen on arrival and the
 * queue left behind on entering service, and every change of the fleet is
 * logged.
 */
module BancoSim {
  import opened Common
  import opened Events
  import opened Fleet
  import opened Customers
  import opened Ledger
  import opened Demand
  import opened Engine
  import opened Stamped

  /** `_calcular_ewt` returns 9999.0 when no server is on shift. */
  const Sentinel: real := 9999.0

  /**
   * One entry of `log_cambios_servidores`: the time, `"ACTIVAR"` (true) or
   * `"DESACTIVAR"` (false), the server id and the estimate in minutes.
   */
  datatype ScaleEntry = ScaleEntry(time: real, activated: bool, server: nat, ewtMinutes: real)

  /** Number of `"ACTIVAR"` entries. */
  function Ups(log: seq<ScaleEntry>): nat
  {
    if log == [] then 0 else Ups(log[..|log| - 1]) + (if log[|log| - 1].activated then 1 else 0)
  }

  /** Number of `"DESACTIVAR"` entries. */
  function Downs(log: seq<ScaleEntry>): nat
  {
    if log == [] then 0 else Downs(log[..|log| - 1]) + (if log[|log| - 1].activated then 0 else 1)
  }

  /** Entry `k` is not after `clock`, names a server of the fleet, and is not before entry `k - 1`. */
  ghost predicate Entry(log: seq<ScaleEntry>, k: nat, clock: real, maxServers: nat)
    requires k < |log|
  {
    && log[k].time <= clock && log[k].server < maxServers
    && (k > 0 ==> log[k - 1].time <= log[k].time)
  }

  /** The changes are logged in time order, never after the clock, and name servers of the fleet. */
  ghost predicate LogOk(log: seq<ScaleEntry>, clock: real, maxServers: nat)
  {
    forall k :: 0 <= k < |log| ==> Entry(log, k, clock, maxServers)
  }

  lemma LogLater(log: seq<ScaleEntry>, clock: real, later: real, maxServers: nat)
    requires LogOk(log, clock, maxServers) && clock <= later
    ensures LogOk(log, later, maxServers)
  {
    forall k | 0 <= k < |log|
      ensures Entry(log, k, later, maxServers)
    {
      assert Entry(log, k, clock, maxServers);
    }
  }

  /** Appending an entry adds one to the count of its kind. */
  lemma CountsAppend(log: seq<ScaleEntry>, e: ScaleEntry)
    ensures Ups(log + [e]) == Ups(log) + (if e.activated then 1 else 0)
    ensures Downs(log + [e]) == Downs(log) + (if e.activated then 0 else 1)
  {
    var l := log + [e];
    assert l[..|l| - 1] == log;
  }

  /** An entry made now for a server of the fleet extends the log and the count of its kind. */
  lemma LogAppend(log: seq<ScaleEntry>, clock: real, maxServers: nat, e: ScaleEntry)
    requires LogOk(log, clock, maxServers)
    requires e.time == clock && e.server < maxServers
    ensures LogOk(log + [e], clock, maxServers)
    ensures Ups(log + [e]) == Ups(log) + (if e.activated then 1 else 0)
    ensures Downs(log + [e]) == Downs(log) + (if e.activated then 0 else 1)
  {
    CountsAppend(log, e);
    var l := log + [e];
    forall k | 0 <= k < |l|
      ensures Entry(l, k, clock, maxServers)
    {
      if k < |log| {
        assert Entry(log, k, clock, maxServers);
      } else if k > 0 {
        assert Entry(log, k - 1, clock, maxServers);
      }
    }
  }

  /** The entry the scaler makes for decision `c`, if any. */
  function Logged(c: Change, clock: real, ewt: real): (r: seq<ScaleEntry>)
    ensures |r| <= 1 && (r == [] <==> c.NoChange?)
    ensures r != [] ==> r[0] == ScaleEntry(clock, c.Activate?, c.index, ewt * 60.0)
  {
    match c
    case NoChange => []
    case Activate(i) => [ScaleEntry(clock, true, i, ewt * 60.0)]
    case Deactivate(i) => [ScaleEntry(clock, false, i, ewt * 60.0)]
  }

  class Simulation {
    /** `lambd`, arrivals per hour. */
    const lambda: real
    const mu: real
    const minServers: nat
    const maxServers: nat
    /** `umbral_up`, in hours. */
    const up: real
    /** `umbral_down`, in hours. */
    const down: real

    var clock: real
    var queue: seq<Customer>
    var servers: seq<Server>
    var events: seq<Event>
    var history: seq<Served>
    var log: seq<ScaleEntry>
    /** The draws `random.expovariate` has still to consume, in order. */
    var draws: seq<UnitDraw>

    /**
     * The invariants that hold between any two operations of an event: the
     * shared books, and every change of the fleet logged, so that the
     * servers on shift are the minimum plus activations minus deactivations.
     */
    ghost predicate Core()
      reads this
    {
      && lambda > 0.0
      && Inv(mu, minServers, maxServers, clock, servers, events, history, queue)
      && LogOk(log, clock, maxServers)
      && ActiveCount(servers) + Downs(log) == minServers + Ups(log)
    }

    /** The invariants that hold between two events. */
    ghost predicate Valid()
      reads this
    {
      Core() && WorkConserving(servers, queue)
    }

    /**
     * What `correr(n)` keeps about its counters: `created` customers exist
     * (served or waiting), at most `n`; `processed` departures happened, one
     * per served customer no longer in service; one arrival is pending
     * while fewer than `n` exist, none afterwards; and there are draws
     * enough for every arrival and service still to come.
     */
    ghost predicate Counts(n: nat, created: nat, processed: nat)
      reads this
    {
      && created == |history| + |queue| <= n
      && processed + BusyCount(servers) == |history|
      && Arrivals(events) <= 1 && (created < n ==> Arrivals(events) == 1)
      && |draws| >= (n - created) + (n - |history|)
    }

    /** A measure the loop of `correr(n)` decreases with every event. */
    function Pending(n: nat, created: nat): nat
      reads this`queue, this`events
      requires created <= n
    {
      3 * (n - created) + 2 * |queue| + |events|
    }

    /** `__init__`; the fleet is `InitialFleet(min_servidores, max_servidores)`, which fails when `min > max`. */
    constructor (lambda: real, mu: real, minServers: nat, maxServers: nat, upMinutes: real, downMinutes: real, draws: seq<UnitDraw>)
      requires lambda > 0.0 && mu > 0.0 && minServers <= maxServers
      ensures Valid()
      ensures this.lambda == lambda && this.mu == mu && this.minServers == minServers && this.maxServers == maxServers
      ensures up == upMinutes / 60.0 && down == downMinutes / 60.0
      ensures clock == 0.0 && queue == [] && events == [] && history == [] && log == [] && this.draws == draws
      ensures servers == InitialFleet(minServers, maxServers).value
    {
      var fleet := BuildFleet(minServers, maxServers);
      this.lambda := lambda;
      this.mu := mu;
      this.minServers := minServers;
      this.maxServers := maxServers;
      up := upMinutes / 60.0;
      down := downMinutes / 60.0;
      clock := 0.0;
      queue := [];
      servers := fleet.value;
      events := [];
      history := [];
      log := [];
      this.draws := draws;
      new;
      InvStart(mu, minServers, maxServers, servers);
      InitialCounts(servers, minServers);
    }

    /** `_calcular_ewt`. */
    function CurrentEwt(): real
      reads this`queue, this`servers
      requires mu > 0.0
    {
      Ewt(|queue|, ActiveCount(servers), mu, Sentinel)
    }

    /** The part of the state the event handlers change. */
    function State(): Office
      reads this`servers, this`queue, this`history, this`events, this`draws
    {
      Office(servers, queue, history, events, draws)
    }

    /** The customer an arrival at `clock` creates in office `o`, with the line and the estimate it finds. */
    function Newcomer(o: Office, clock: real): (c: Customer)
      requires mu > 0.0
      ensures c.id == |o.history| + |o.queue| && c.arrival == clock && c.queueAtArrival == |o.queue|
      ensures ActiveCount(o.servers) == 0 ==> c.ewtAtArrival == Sentinel
      ensures ActiveCount(o.servers) > 0 ==> c.ewtAtArrival * (ActiveCount(o.servers) as real * mu) == |o.queue| as real
    {
      Customer(|o.history| + |o.queue|, clock, |o.queue|, Ewt(|o.queue|, ActiveCount(o.servers), mu, Sentinel))
    }

    /** The decision the scaler takes when customer `c` arrives: on the estimate it found. */
    function ArrivalChange(o: Office, c: Customer): Change
    {
      Decide(o.servers, c.ewtAtArrival, up, down, minServers)
    }

    /**
     * The `LLEGADA` branch from the scaler on, on values: the fleet is
     * scaled on `c`'s estimate, `c` joins the end of the line and an
     * assignment is attempted, recording the line left behind.
     */
    function Joined(o: Office, clock: real, c: Customer): Office
      requires mu > 0.0 && o.draws != []
    {
      ServeNext(mu, clock, true, o.(servers := Apply(o.servers, ArrivalChange(o, c)), queue := o.queue + [c]))
    }

    /** The whole `LLEGADA` branch for a customer still to create: join, then schedule the next arrival. */
    function Arrived(o: Office, clock: real): Office
      requires mu > 0.0 && lambda > 0.0 && |o.draws| >= 2
    {
      Scheduled(Joined(o, clock, Newcomer(o, clock)), clock, lambda, false)
    }

    /** The decision the scaler takes after a departure: on 0.0 when nobody was served, none otherwise. */
    function DepartureChange(o: Office): Change
    {
      if CanServe(o) then NoChange else Decide(o.servers, 0.0, up, down, minServers)
    }

    /** The `SALIDA` branch after the server is freed, on values: serve the head of the line, or scale on 0.0. */
    function Departed(o: Office, clock: real): Office
      requires mu > 0.0 && (o.queue == [] || o.draws != [])
    {
      if CanServe(o) then ServeNext(mu, clock, true, o) else o.(servers := Apply(o.servers, DepartureChange(o)))
    }

    /**
     * `_gestionar_escalado(ewt)`: applies the hysteresis decision and logs
     * the change it makes, with the estimate in minutes.
     */
    method Scale(ewt: real)
      requires Core()
      modifies this
      ensures Core()
      ensures servers == Apply(old(servers), Decide(old(servers), ewt, up, down, minServers))
      ensures log == old(log) + Logged(Decide(old(servers), ewt, up, down, minServers), clock, ewt)
      ensures BusyCount(servers) == old(BusyCount(servers))
      ensures clock == old(clock) && queue == old(queue) && events == old(events)
      ensures history == old(history) && draws == old(draws)
    {
      var c := Decide(servers, ewt, up, down, minServers);
      ScaleKeepsInv(mu, minServers, maxServers, clock, servers, events, history, queue, ewt, up, down, c);
      var active := ActiveCount(servers);
      if ewt > up && active < maxServers {
        var i := FirstInactive(servers);
        if i.Some? {
          assert c == Activate(i.value);
          var e := ScaleEntry(clock, true, i.value, ewt * 60.0);
          LogAppend(log, clock, maxServers, e);
          servers := servers[i.value := servers[i.value].(active := true)];
          log := log + [e];
        }
      } else if ewt < down && active > minServers {
        var i := LastIdleActive(servers);
        if i.Some? {
          assert c == Deactivate(i.value);
          var e := ScaleEntry(clock, false, i.value, ewt * 60.0);
          LogAppend(log, clock, maxServers, e);
          servers := servers[i.value := servers[i.value].(active := false)];
          log := log + [e];
        }
      }
    }

    /** `programar_llegada`: the next arrival, one draw at rate `lambd` from now, is always scheduled. */
    method ScheduleArrival()
      requires Core() && |draws| >= 1
      modifies this
      ensures Core()
      ensures State() == Scheduled(old(State()), clock, lambda, false)
      ensures draws == old(draws)[1..]
      ensures events == old(events) + [Arrival(clock + Gap(old(draws)[0], lambda))]
      ensures Arrivals(events) == old(Arrivals(events)) + 1
      ensures clock == old(clock) && queue == old(queue) && servers == old(servers) && history == old(history)
      ensures log == old(log)
    {
      var t := clock + Gap(draws[0], lambda);
      ScheduleKeepsInv(mu, minServers, maxServers, clock, servers, events, history, queue, t, Closing);
      draws := draws[1..];
      events := events + [Arrival(t)];
    }

    /**
     * `_intentar_asignar_servicio`: when someone waits and a server on
     * shift is idle, the head of the line goes to the lowest such server for
     * one drawn duration, recording the length of the line it leaves
     * behind; the server is stamped with the end of the service. Answers
     * whether it served someone.
     */
    method TryAssign() returns (started: bool)
      requires Core() && (queue == [] || |draws| >= 1)
      modifies this
      ensures Core()
      ensures started <==> CanServe(old(State()))
      ensures State() == ServeNext(mu, clock, true, old(State()))
      ensures BusyCount(servers) == old(BusyCount(servers)) + (if started then 1 else 0)
      ensures Arrivals(events) == old(Arrivals(events))
      ensures clock == old(clock) && log == old(log)
    {
      if queue == [] {
        return false;
      }
      var candidate := FirstIdleActive(servers);
      if candidate.None? {
        return false;
      }
      var j := candidate.value;
      var d := Gap(draws[0], mu);
      var v := servers[j].(busy := true, serviceEnd := clock + d);
      var behind := |queue| - 1;
      AssignKeepsInv(mu, minServers, maxServers, clock, servers, events, history, queue, j, d, v, behind, Closing);
      draws := draws[1..];
      history := history + [Served(queue[0], clock, clock + d, behind)];
      queue := queue[1..];
      events := events + [Departure(clock + d, j)];
      servers := servers[j := v];
      return true;
    }

    /**
     * The `LLEGADA` branch from the scaler on, for customer `c` created now
     * with the line and the estimate it found: the estimate is fed to the
     * scaler, the customer joins the line and an assignment is attempted.
     * The customer ends last in the line, or in service if the line is
     * empty.
     */
    method Join(c: Customer) returns (started: bool)
      requires Valid() && c.id == |history| + |queue| && c.arrival == clock && |draws| >= 1
      modifies this
      ensures Valid()
      ensures State() == Joined(old(State()), clock, c)
      ensures log == old(log) + Logged(ArrivalChange(old(State()), c), clock, c.ewtAtArrival)
      ensures clock == old(clock) && old(history) <= history
      ensures queue != [] ==> queue[|queue| - 1] == c
      ensures queue == [] ==> history != [] && history[|history| - 1].customer == c
      ensures |history| == old(|history|) + (if started then 1 else 0) && |history| + |queue| == c.id + 1
      ensures |draws| + (if started then 1 else 0) == old(|draws|)
      ensures BusyCount(servers) == old(BusyCount(servers)) + (if started then 1 else 0)
      ensures Arrivals(events) == old(Arrivals(events))
      ensures |events| == old(|events|) + (if started then 1 else 0)
    {
      var ewt := c.ewtAtArrival;
      ghost var waiting := queue;
      ghost var change := Decide(servers, ewt, up, down, minServers);
      ScaleKeepsFleet(servers, ewt, up, down, minServers);
      ScaleLeavesOneIdle(servers, queue, change);
      Scale(ewt);
      ghost var scaled := servers;
      BooksEnqueue(minServers, maxServers, clock, servers, events, history, queue, c);
      queue := queue + [c];
      started := TryAssign();
      if started && waiting != [] {
        OnlyIdleIsLowest(scaled, change.index);
        AssignRestores(scaled, waiting + [c], change.index, servers[change.index]);
      } else if !started {
        NothingToAssign(scaled, waiting + [c]);
      }
    }

    /**
     * The `LLEGADA` branch for customer `id` when fewer than `n` exist: the
     * customer records the line it finds and the estimate fed to the
     * scaler, joins, and the next arrival is scheduled.
     */
    method Arrive(id: nat)
      requires Valid() && id == |history| + |queue| && |draws| >= 2
      modifies this
      ensures Valid()
      ensures State() == Arrived(old(State()), clock)
      ensures log == old(log) + Logged(ArrivalChange(old(State()), Newcomer(old(State()), clock)), clock, old(CurrentEwt()))
      ensures clock == old(clock) && old(history) <= history
      ensures |history| + |queue| == id + 1 && |history| <= old(|history|) + 1
      ensures queue != [] ==> queue[|queue| - 1] == Customer(id, clock, old(|queue|), old(CurrentEwt()))
      ensures queue == [] ==> history[|history| - 1].customer == Customer(id, clock, old(|queue|), old(CurrentEwt()))
      ensures |draws| + 1 + (|history| - old(|history|)) == old(|draws|)
      ensures BusyCount(servers) == old(BusyCount(servers)) + (|history| - old(|history|))
      ensures Arrivals(events) == old(Arrivals(events)) + 1
      ensures |events| == old(|events|) + 1 + (|history| - old(|history|))
    {
      var c := Customer(id, clock, |queue|, CurrentEwt());
      assert c == Newcomer(State(), clock);
      var _ := Join(c);
      ghost var joined := State();
      ScheduleArrival();
      assert State() == Scheduled(joined, clock, lambda, false);
    }

    /**
     * The `SALIDA` branch after server `freed` is freed: an assignment is
     * attempted, and the scaler is fed 0.0 only when nobody was served,
     * which happens only when nobody waits.
     */
    method Depart(freed: nat) returns (started: bool)
      requires Core() && (queue == [] || |draws| >= 1)
      requires freed < |servers| && servers[freed].active && !servers[freed].busy
      requires queue != [] ==> OnlyIdle(servers, freed)
      modifies this
      ensures Valid()
      ensures started <==> old(queue) != []
      ensures State() == Departed(old(State()), clock)
      ensures log == old(log) + Logged(DepartureChange(old(State())), clock, 0.0)
      ensures clock == old(clock)
      ensures old(history) <= history
      ensures |history| == old(|history|) + (if started then 1 else 0) && |history| + |queue| == old(|history|) + old(|queue|)
      ensures |draws| + (if started then 1 else 0) == old(|draws|)
      ensures BusyCount(servers) == old(BusyCount(servers)) + (if started then 1 else 0)
      ensures Arrivals(events) == old(Arrivals(events))
      ensures |events| == old(|events|) + (if started then 1 else 0)
    {
      ghost var before := servers;
      if queue != [] {
        assert LowestIdleActive(servers).Some?;
      }
      started := TryAssign();
      if started {
        OnlyIdleIsLowest(before, freed);
        AssignRestores(before, old(queue), freed, servers[freed]);
      } else {
        Scale(0.0);
      }
    }

    /**
     * One iteration of the loop of `correr(n)`: pop the earliest event and
     * move the clock to it. An arrival creates customer `created` when
     * fewer than `n` exist and is otherwise ignored; a departure frees its
     * server and counts one more processed customer.
     */
    method Step(n: nat, created: nat, processed: nat) returns (popped: Event, k: nat, created': nat, processed': nat)
      requires Valid() && Counts(n, created, processed) && events != []
      modifies this
      ensures Valid() && Counts(n, created', processed')
      ensures k < old(|events|) && popped == old(events)[k] && forall x :: x in old(events) ==> Le(popped, x)
      ensures clock == popped.time
      ensures popped.Arrival? && created < n ==>
                && State() == Arrived(Popped(old(State()), k, old(servers)), clock)
                && log == old(log) + Logged(ArrivalChange(old(State()), Newcomer(old(State()), clock)), clock,
                                            Newcomer(old(State()), clock).ewtAtArrival)
      ensures popped.Arrival? && created >= n ==> State() == Popped(old(State()), k, old(servers)) && log == old(log)
      ensures popped.Departure? ==>
                && State() == Departed(Popped(old(State()), k, old(servers)), clock)
                && log == old(log) + Logged(DepartureChange(Popped(old(State()), k, old(servers))), clock, 0.0)
      ensures old(clock) <= clock && old(history) <= history
      ensures created <= created' <= created + 1 && processed <= processed' <= processed + 1
      ensures Pending(n, created') < old(Pending(n, created))
    {
      var rest;
      popped, k, rest := PopMin(events);
      match popped {
        case Arrival(t) =>
          PopArrivalKeepsInv(mu, minServers, maxServers, clock, servers, events, history, queue, k, t, Closing);
          LogLater(log, clock, t, maxServers);
          clock := t;
          events := rest;
          created', processed' := created, processed;
          if created < n {
            Arrive(created);
            created' := created + 1;
          }
        case Departure(t, s) =>
          PopDepartureKeepsInv(mu, minServers, maxServers, clock, servers, events, history, queue, k, t, s, Closing);
          LogLater(log, clock, t, maxServers);
          servers := servers[s := servers[s].(busy := false)];
          clock := t;
          events := rest;
          processed' := processed + 1;
          created' := created;
          var _ := Depart(s);
      }
    }

    /**
     * `correr(n)` on a fresh simulation: schedule the first arrival, then
     * handle events until none is pending. It always ends, with exactly
     * `n` customers created, every server idle, every served customer
     * processed, and nobody left waiting unless no server is on shift.
     */
    method Run(n: nat) returns (created: nat, processed: nat)
      requires Valid() && queue == [] && history == [] && events == [] && |draws| >= 2 * n + 1
      modifies this
      ensures Valid() && events == []
      ensures created == n == |history| + |queue| && processed == |history|
      ensures forall i :: 0 <= i < |servers| ==> !servers[i].busy
      ensures queue != [] ==> forall i :: 0 <= i < |servers| ==> !servers[i].active
    {
      Drained(servers);
      ScheduleArrival();
      created, processed := 0, 0;
      while events != []
        invariant Valid() && Counts(n, created, processed)
        decreases Pending(n, created)
      {
        var _, _, created', processed' := Step(n, created, processed);
        created, processed := created', processed';
      }
      Drained(servers);
      DrainedConserving(servers, queue);
    }
  }
}
