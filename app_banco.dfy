/**
 * app_banco.py: the engine behind the dashboard, `SimulacionBancoInteligente`
 * with a time series of the state. It runs until a given number of
 * customers has been created and served, keeps no time integrals and stamps
 * each server with the end of its service.
 */
module AppBancoSim {
  import opened Common
  import opened Events
  import opened Fleet
  import opened Customers
  import opened Ledger
  import opened Demand
  import opened Engine
  import opened Stamped

  /** `_calcular_ewt` returns 999.0 when no server is on shift. */
  const Sentinel: real := 999.0

  /** One row of `log_serie_tiempo`: time, queue length, servers on shift and servers busy. */
  datatype Snapshot = Snapshot(time: real, queue: nat, active: nat, busy: nat)

  /** Snapshot `k` is not after `clock`, reports a consistent fleet, and is not before snapshot `k - 1`. */
  ghost predicate Logged(log: seq<Snapshot>, k: nat, clock: real, maxServers: nat)
    requires k < |log|
  {
    && log[k].time <= clock && log[k].busy <= log[k].active <= maxServers
    && (k > 0 ==> log[k - 1].time <= log[k].time)
  }

  /** Snapshots are taken in time order, never after the clock, and report a consistent fleet. */
  ghost predicate LogOk(log: seq<Snapshot>, clock: real, maxServers: nat)
  {
    forall k :: 0 <= k < |log| ==> Logged(log, k, clock, maxServers)
  }

  lemma LogLater(log: seq<Snapshot>, clock: real, later: real, maxServers: nat)
    requires LogOk(log, clock, maxServers) && clock <= later
    ensures LogOk(log, later, maxServers)
  {
    forall k | 0 <= k < |log|
      ensures Logged(log, k, later, maxServers)
    {
      assert Logged(log, k, clock, maxServers);
    }
  }

  /** A snapshot taken now of a consistent fleet extends the log. */
  lemma LogAppend(log: seq<Snapshot>, clock: real, maxServers: nat, snap: Snapshot)
    requires LogOk(log, clock, maxServers)
    requires snap.time == clock && snap.busy <= snap.active <= maxServers
    ensures LogOk(log + [snap], clock, maxServers)
  {
    forall k | 0 <= k < |log| + 1
      ensures Logged(log + [snap], k, clock, maxServers)
    {
      if k < |log| {
        assert Logged(log, k, clock, maxServers);
      } else if k > 0 {
        assert Logged(log, k - 1, clock, maxServers);
      }
    }
  }

  class Simulation {
    /** `lambd`, arrivals per hour. */
    const lambda: real
    const mu: real
    const minServers: nat
    const maxServers: nat
    /** `umbral_up`, in hours. */
    const up: real
    /** `umbral_down`, in hours. */
    const down: real

    var clock: real
    var queue: seq<Customer>
    var servers: seq<Server>
    var events: seq<Event>
    var history: seq<Served>
    var log: seq<Snapshot>
    /** The draws `random.expovariate` has still to consume, in order. */
    var draws: seq<UnitDraw>

    /** The invariants that hold between any two operations of an event. */
    ghost predicate Core()
      reads this
    {
      && lambda > 0.0
      && Inv(mu, minServers, maxServers, clock, servers, events, history, queue)
      && LogOk(log, clock, maxServers)
    }

    /** The invariants that hold between two events. */
    ghost predicate Valid()
      reads this
    {
      Core() && WorkConserving(servers, queue)
    }

    /**
     * What `correr(n)` keeps about `clientes_creados` and
     * `clientes_procesados`: `created` customers exist (served or
     * waiting), at most `n`; `processed` departures happened, one per
     * served customer no longer in service; one arrival is pending while
     * fewer than `n` exist, none afterwards; and there are draws enough for
     * every arrival and service still to come.
     */
    ghost predicate Counts(n: nat, created: nat, processed: nat)
      reads this
    {
      && created == |history| + |queue| <= n
      && processed + BusyCount(servers) == |history|
      && Arrivals(events) <= 1 && (created < n ==> Arrivals(events) == 1)
      && |draws| >= (n - created) + (n - |history|)
    }

    /** A measure the loop of `correr(n)` decreases with every event. */
    function Pending(n: nat, created: nat): nat
      reads this`queue, this`events
      requires created <= n
    {
      3 * (n - created) + 2 * |queue| + |events|
    }

    /** `__init__`; the fleet is `InitialFleet(min_serv, max_serv)`, which fails when `min_serv > max_serv`. */
    constructor (lambda: real, mu: real, minServers: nat, maxServers: nat, upMinutes: real, downMinutes: real, draws: seq<UnitDraw>)
      requires lambda > 0.0 && mu > 0.0 && minServers <= maxServers
      ensures Valid()
      ensures this.lambda == lambda && this.mu == mu && this.minServers == minServers && this.maxServers == maxServers
      ensures up == upMinutes / 60.0 && down == downMinutes / 60.0
      ensures clock == 0.0 && queue == [] && events == [] && history == [] && log == [] && this.draws == draws
      ensures servers == InitialFleet(minServers, maxServers).value
    {
      var fleet := BuildFleet(minServers, maxServers);
      this.lambda := lambda;
      this.mu := mu;
      this.minServers := minServers;
      this.maxServers := maxServers;
      up := upMinutes / 60.0;
      down := downMinutes / 60.0;
      clock := 0.0;
      queue := [];
      servers := fleet.value;
      events := [];
      history := [];
      log := [];
      this.draws := draws;
      new;
      InvStart(mu, minServers, maxServers, servers);
    }

    /** `_calcular_ewt`. */
    function CurrentEwt(): real
      reads this`queue, this`servers
      requires mu > 0.0
    {
      Ewt(|queue|, ActiveCount(servers), mu, Sentinel)
    }

    /** The part of the state the event handlers change. */
    function State(): Office
      reads this`servers, this`queue, this`history, this`events, this`draws
    {
      Office(servers, queue, history, events, draws)
    }

    /** The decision the scaler takes on an arrival: on the estimate before the customer joins. */
    function ArrivalChange(o: Office): Change
      requires mu > 0.0
    {
      Decide(o.servers, Ewt(|o.queue|, ActiveCount(o.servers), mu, Sentinel), up, down, minServers)
    }

    /**
     * The `LLEGADA` branch from the scaler on, on values: the fleet is
     * scaled on the estimate before `c` joins, `c` joins the end of the line
     * and an assignment is attempted.
     */
    function Joined(o: Office, clock: real, c: Customer): Office
      requires mu > 0.0 && o.draws != []
    {
      ServeNext(mu, clock, false, o.(servers := Apply(o.servers, ArrivalChange(o)), queue := o.queue + [c]))
    }

    /** The whole `LLEGADA` branch for a customer still to create: join, then schedule the next arrival. */
    function Arrived(o: Office, clock: real): Office
      requires mu > 0.0 && lambda > 0.0 && |o.draws| >= 2
    {
      Scheduled(Joined(o, clock, Customer(|o.history| + |o.queue|, clock, |o.queue|, 0.0)), clock, lambda, false)
    }

    /** The decision the scaler takes after a departure: on 0.0 when the line is empty after the assignment. */
    function DepartureChange(o: Office, clock: real): Change
      requires mu > 0.0 && (o.queue == [] || o.draws != [])
    {
      var r := ServeNext(mu, clock, false, o);
      if r.queue == [] then Decide(r.servers, 0.0, up, down, minServers) else NoChange
    }

    /** The `SALIDA` branch after the server is freed, on values: an assignment, then the scaler on 0.0 if nobody waits. */
    function Departed(o: Office, clock: real): Office
      requires mu > 0.0 && (o.queue == [] || o.draws != [])
    {
      var r := ServeNext(mu, clock, false, o);
      r.(servers := Apply(r.servers, DepartureChange(o, clock)))
    }

    /** `_gestionar_escalado(ewt)`: applies the hysteresis decision. */
    method Scale(ewt: real)
      requires Core()
      modifies this
      ensures Core()
      ensures servers == Apply(old(servers), Decide(old(servers), ewt, up, down, minServers))
      ensures BusyCount(servers) == old(BusyCount(servers))
      ensures clock == old(clock) && queue == old(queue) && events == old(events)
      ensures history == old(history) && log == old(log) && draws == old(draws)
    {
      var c := Decide(servers, ewt, up, down, minServers);
      ScaleKeepsInv(mu, minServers, maxServers, clock, servers, events, history, queue, ewt, up, down, c);
      var active := ActiveCount(servers);
      if ewt > up && active < maxServers {
        var i := FirstInactive(servers);
        if i.Some? {
          servers := servers[i.value := servers[i.value].(active := true)];
        }
      } else if ewt < down && active > minServers {
        var i := LastIdleActive(servers);
        if i.Some? {
          servers := servers[i.value := servers[i.value].(active := false)];
        }
      }
    }

    /** `programar_llegada`: the next arrival, one draw at rate `lambd` from now, is always scheduled. */
    method ScheduleArrival()
      requires Core() && |draws| >= 1
      modifies this
      ensures Core()
      ensures State() == Scheduled(old(State()), clock, lambda, false)
      ensures draws == old(draws)[1..]
      ensures events == old(events) + [Arrival(clock + Gap(old(draws)[0], lambda))]
      ensures Arrivals(events) == old(Arrivals(events)) + 1
      ensures clock == old(clock) && queue == old(queue) && servers == old(servers) && history == old(history)
      ensures log == old(log)
    {
      var t := clock + Gap(draws[0], lambda);
      ScheduleKeepsInv(mu, minServers, maxServers, clock, servers, events, history, queue, t, Closing);
      draws := draws[1..];
      events := events + [Arrival(t)];
    }

    /**
     * `_intentar_asignar`: when someone waits and a server on shift is
     * idle, the head of the line goes to the lowest such server for one
     * drawn duration, and the server is stamped with the end of it;
     * otherwise nothing changes.
     */
    method TryAssign()
      requires Core() && (queue == [] || |draws| >= 1)
      modifies this
      ensures Core()
      ensures State() == ServeNext(mu, clock, false, old(State()))
      ensures BusyCount(servers) == old(BusyCount(servers)) + (|history| - old(|history|))
      ensures Arrivals(events) == old(Arrivals(events))
      ensures clock == old(clock) && log == old(log)
    {
      if queue == [] {
        return;
      }
      var candidate := FirstIdleActive(servers);
      if candidate.None? {
        return;
      }
      var j := candidate.value;
      var d := Gap(draws[0], mu);
      var v := servers[j].(busy := true, serviceEnd := clock + d);
      AssignKeepsInv(mu, minServers, maxServers, clock, servers, events, history, queue, j, d, v, 0, Closing);
      draws := draws[1..];
      history := history + [Served(queue[0], clock, clock + d, 0)];
      queue := queue[1..];
      events := events + [Departure(clock + d, j)];
      servers := servers[j := v];
    }

    /** `_registrar_estado`. */
    method TakeSnapshot()
      requires Core()
      modifies this
      ensures Core()
      ensures log == old(log) + [Snapshot(clock, |queue|, ActiveCount(servers), BusyCount(servers))]
      ensures clock == old(clock) && queue == old(queue) && servers == old(servers) && events == old(events)
      ensures history == old(history) && draws == old(draws)
    {
      var snap := Snapshot(clock, |queue|, ActiveCount(servers), BusyCount(servers));
      ActiveCountBounds(servers);
      BusyAtMostActive(servers);
      LogAppend(log, clock, maxServers, snap);
      log := log + [snap];
    }

    /**
     * The `LLEGADA` branch from the scaler on, for customer `c` created now
     * with the line it found: the estimate before it joins is fed to the
     * scaler, the customer joins the line and an assignment is attempted.
     * The customer ends last in the line, or in service if the line is
     * empty.
     */
    method Join(c: Customer)
      requires Valid() && c.id == |history| + |queue| && c.arrival == clock && |draws| >= 1
      modifies this
      ensures Valid()
      ensures State() == Joined(old(State()), clock, c)
      ensures clock == old(clock) && log == old(log) && old(history) <= history
      ensures queue != [] ==> queue[|queue| - 1] == c
      ensures queue == [] ==> history != [] && history[|history| - 1].customer == c
      ensures |history| <= old(|history|) + 1 && |history| + |queue| == c.id + 1
      ensures |draws| + (|history| - old(|history|)) == old(|draws|)
      ensures BusyCount(servers) == old(BusyCount(servers)) + (|history| - old(|history|))
      ensures Arrivals(events) == old(Arrivals(events))
      ensures |events| == old(|events|) + (|history| - old(|history|))
    {
      var ewt := CurrentEwt();
      ghost var waiting := queue;
      ghost var change := Decide(servers, ewt, up, down, minServers);
      ScaleKeepsFleet(servers, ewt, up, down, minServers);
      ScaleLeavesOneIdle(servers, queue, change);
      Scale(ewt);
      ghost var scaled := servers;
      ghost var serve := LowestIdleActive(servers).Some?;
      BooksEnqueue(minServers, maxServers, clock, servers, events, history, queue, c);
      queue := queue + [c];
      TryAssign();
      if serve && waiting != [] {
        OnlyIdleIsLowest(scaled, change.index);
        AssignRestores(scaled, waiting + [c], change.index, servers[change.index]);
      } else if !serve {
        NothingToAssign(scaled, waiting + [c]);
      }
    }

    /**
     * The `LLEGADA` branch for customer `id` when fewer than `n` exist: the
     * customer records the line it finds, joins, the next arrival is
     * scheduled and the state is recorded.
     */
    method Arrive(id: nat)
      requires Valid() && id == |history| + |queue| && |draws| >= 2
      modifies this
      ensures Valid()
      ensures State() == Arrived(old(State()), clock)
      ensures clock == old(clock) && old(history) <= history
      ensures |history| + |queue| == id + 1 && |history| <= old(|history|) + 1
      ensures queue != [] ==> queue[|queue| - 1] == Customer(id, clock, old(|queue|), 0.0)
      ensures queue == [] ==> history[|history| - 1].customer == Customer(id, clock, old(|queue|), 0.0)
      ensures log == old(log) + [Snapshot(clock, |queue|, ActiveCount(servers), BusyCount(servers))]
      ensures |draws| + 1 + (|history| - old(|history|)) == old(|draws|)
      ensures BusyCount(servers) == old(BusyCount(servers)) + (|history| - old(|history|))
      ensures Arrivals(events) == old(Arrivals(events)) + 1
      ensures |events| == old(|events|) + 1 + (|history| - old(|history|))
    {
      var c := Customer(id, clock, |queue|, 0.0);
      Join(c);
      ghost var joined := State();
      ScheduleArrival();
      assert State() == Scheduled(joined, clock, lambda, false);
      ghost var scheduled := State();
      TakeSnapshot();
      assert State() == scheduled;
    }

    /**
     * The `SALIDA` branch after server `freed` is freed: an assignment is
     * attempted, the scaler is fed 0.0 when nobody waits, and the state is
     * recorded. Since `freed` is idle on shift, whoever waited is served.
     */
    method Depart(freed: nat)
      requires Core() && (queue == [] || |draws| >= 1)
      requires freed < |servers| && servers[freed].active && !servers[freed].busy
      requires queue != [] ==> OnlyIdle(servers, freed)
      modifies this
      ensures Valid()
      ensures State() == Departed(old(State()), clock)
      ensures clock == old(clock) && old(history) <= history
      ensures |history| == old(|history|) + (if old(queue) != [] then 1 else 0)
      ensures |history| + |queue| == old(|history|) + old(|queue|)
      ensures log == old(log) + [Snapshot(clock, |queue|, ActiveCount(servers), BusyCount(servers))]
      ensures |draws| + (|history| - old(|history|)) == old(|draws|)
      ensures BusyCount(servers) == old(BusyCount(servers)) + (|history| - old(|history|))
      ensures Arrivals(events) == old(Arrivals(events))
      ensures |events| == old(|events|) + (|history| - old(|history|))
    {
      ghost var before := servers;
      if queue != [] {
        assert LowestIdleActive(servers).Some?;
      }
      TryAssign();
      if old(queue) != [] {
        OnlyIdleIsLowest(before, freed);
        AssignRestores(before, old(queue), freed, servers[freed]);
      }
      if queue == [] {
        Scale(0.0);
      }
      TakeSnapshot();
    }

    /**
     * One iteration of the loop of `correr(n)`: pop the earliest event and
     * move the clock to it. An arrival creates customer `created` when
     * fewer than `n` exist and is otherwise ignored; a departure frees its
     * server and counts one more processed customer.
     */
    method Step(n: nat, created: nat, processed: nat) returns (popped: Event, k: nat, created': nat, processed': nat)
      requires Valid() && Counts(n, created, processed) && events != []
      modifies this
      ensures Valid() && Counts(n, created', processed')
      ensures k < old(|events|) && popped == old(events)[k] && forall x :: x in old(events) ==> Le(popped, x)
      ensures clock == popped.time
      ensures popped.Arrival? && created < n ==> State() == Arrived(Popped(old(State()), k, old(servers)), clock)
      ensures popped.Arrival? && created >= n ==> State() == Popped(old(State()), k, old(servers)) && log == old(log)
      ensures popped.Departure? ==> State() == Departed(Popped(old(State()), k, old(servers)), clock)
      ensures !(popped.Arrival? && created >= n) ==>
                log == old(log) + [Snapshot(clock, |queue|, ActiveCount(servers), BusyCount(servers))]
      ensures old(clock) <= clock && old(history) <= history
      ensures created <= created' <= created + 1 && processed <= processed' <= processed + 1
      ensures |log| == old(|log|) + (created' - created) + (processed' - processed)
      ensures Pending(n, created') < old(Pending(n, created))
    {
      var rest;
      popped, k, rest := PopMin(events);
      match popped {
        case Arrival(t) =>
          PopArrivalKeepsInv(mu, minServers, maxServers, clock, servers, events, history, queue, k, t, Closing);
          LogLater(log, clock, t, maxServers);
          clock := t;
          events := rest;
          created', processed' := created, processed;
          if created < n {
            Arrive(created);
            created' := created + 1;
          }
        case Departure(t, s) =>
          PopDepartureKeepsInv(mu, minServers, maxServers, clock, servers, events, history, queue, k, t, s, Closing);
          LogLater(log, clock, t, maxServers);
          servers := servers[s := servers[s].(busy := false)];
          clock := t;
          events := rest;
          processed' := processed + 1;
          created' := created;
          Depart(s);
      }
    }

    /**
     * `correr(n)` on a fresh simulation: schedule the first arrival, then
     * handle events until none is pending (the loop condition
     * `procesados < n or eventos` with its `break` on an empty heap). It
     * always ends, with exactly `n` customers created, every server idle,
     * every served customer processed, one snapshot per customer created
     * and per departure, and nobody left waiting unless no server is on
     * shift.
     */
    method Run(n: nat) returns (created: nat, processed: nat)
      requires Valid() && queue == [] && history == [] && events == [] && |draws| >= 2 * n + 1
      modifies this
      ensures Valid() && events == []
      ensures created == n == |history| + |queue| && processed == |history|
      ensures |log| == old(|log|) + created + processed
      ensures forall i :: 0 <= i < |servers| ==> !servers[i].busy
      ensures queue != [] ==> forall i :: 0 <= i < |servers| ==> !servers[i].active
    {
      Drained(servers);
      ScheduleArrival();
      created, processed := 0, 0;
      while events != []
        invariant Valid() && Counts(n, created, processed)
        invariant |log| == old(|log|) + created + processed
        decreases Pending(n, created)
      {
        var _, _, created', processed' := Step(n, created, processed);
        created, processed := created', processed';
      }
      Drained(servers);
      DrainedConserving(servers, queue);
    }
  }
}
