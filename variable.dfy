/**
 * simulacion_variable.py: `SimulacionBancoVariable`, the engine with a
 * time-varying arrival rate and no time integrals or counters. Arrivals are
 * drawn at the rate of the moment and scheduled only up to closing time;
 * the loop also drops any arrival popped after closing time, which never
 * happens.
 */
module VariableSim {
  import opened Common
  import opened Events
  import opened Fleet
  import opened Customers
  import opened Ledger
  import opened Demand
  import opened Engine
  import opened Stamped

  /** `_calcular_ewt` returns 999.0 when no server is on shift. */
  const Sentinel: real := 999.0

  /** One row of `log_serie_tiempo`: time, queue length, servers on shift and the arrival rate of the moment. */
  datatype Snapshot = Snapshot(time: real, queue: nat, active: nat, rate: real)

  /** Snapshot `k` is not after `clock`, reports at most the fleet on shift, and is not before snapshot `k - 1`. */
  ghost predicate Logged(log: seq<Snapshot>, k: nat, clock: real, maxServers: nat)
    requires k < |log|
  {
    && log[k].time <= clock && log[k].active <= maxServers && log[k].rate > 0.0
    && (k > 0 ==> log[k - 1].time <= log[k].time)
  }

  /** Snapshots are taken in time order, never after the clock, and report a positive rate. */
  ghost predicate LogOk(log: seq<Snapshot>, clock: real, maxServers: nat)
  {
    forall k :: 0 <= k < |log| ==> Logged(log, k, clock, maxServers)
  }

  lemma LogLater(log: seq<Snapshot>, clock: real, later: real, maxServers: nat)
    requires LogOk(log, clock, maxServers) && clock <= later
    ensures LogOk(log, later, maxServers)
  {
    forall k | 0 <= k < |log|
      ensures Logged(log, k, later, maxServers)
    {
      assert Logged(log, k, clock, maxServers);
    }
  }

  /** A snapshot taken now extends the log. */
  lemma LogAppend(log: seq<Snapshot>, clock: real, maxServers: nat, snap: Snapshot)
    requires LogOk(log, clock, maxServers)
    requires snap.time == clock && snap.active <= maxServers && snap.rate > 0.0
    ensures LogOk(log + [snap], clock, maxServers)
  {
    forall k | 0 <= k < |log| + 1
      ensures Logged(log + [snap], k, clock, maxServers)
    {
      if k < |log| {
        assert Logged(log, k, clock, maxServers);
      } else if k > 0 {
        assert Logged(log, k - 1, clock, maxServers);
      }
    }
  }

  class Simulation {
    const baseRate: real
    const mu: real
    const minServers: nat
    const maxServers: nat
    /** `umbral_up / 60`, in hours. */
    const up: real
    /** `umbral_down / 60`, in hours. */
    const down: real

    var clock: real
    var queue: seq<Customer>
    var servers: seq<Server>
    var events: seq<Event>
    var history: seq<Served>
    var log: seq<Snapshot>
    /** The draws `random.expovariate` has still to consume, in order. */
    var draws: seq<UnitDraw>

    /** The invariants that hold between any two operations of an event. */
    ghost predicate Core()
      reads this
    {
      && baseRate > 0.0
      && Inv(mu, minServers, maxServers, clock, servers, events, history, queue)
      && ArrivalsBy(events, Closing)
      && LogOk(log, clock, maxServers)
    }

    /** The invariants that hold between two events. */
    ghost predicate Valid()
      reads this
    {
      Core() && WorkConserving(servers, queue)
    }

    /** `__init__`; the fleet is `InitialFleet(min_serv, max_serv)`, which fails when `min_serv > max_serv`. */
    constructor (baseRate: real, mu: real, minServers: nat, maxServers: nat, upMinutes: real, downMinutes: real, draws: seq<UnitDraw>)
      requires baseRate > 0.0 && mu > 0.0 && minServers <= maxServers
      ensures Valid()
      ensures this.baseRate == baseRate && this.mu == mu && this.minServers == minServers && this.maxServers == maxServers
      ensures up == upMinutes / 60.0 && down == downMinutes / 60.0
      ensures clock == 0.0 && queue == [] && events == [] && history == [] && log == [] && this.draws == draws
      ensures servers == InitialFleet(minServers, maxServers).value
    {
      var fleet := BuildFleet(minServers, maxServers);
      this.baseRate := baseRate;
      this.mu := mu;
      this.minServers := minServers;
      this.maxServers := maxServers;
      up := upMinutes / 60.0;
      down := downMinutes / 60.0;
      clock := 0.0;
      queue := [];
      servers := fleet.value;
      events := [];
      history := [];
      log := [];
      this.draws := draws;
      new;
      InvStart(mu, minServers, maxServers, servers);
    }

    /** `_get_tasa_actual`: the base rate times this copy's curve, positive at every hour. */
    function Rate(): (r: real)
      reads this`clock
      requires baseRate > 0.0
      ensures r > 0.0
    {
      RateAt(clock)
    }

    /** The arrival rate at hour `t`. */
    function RateAt(t: real): (r: real)
      requires baseRate > 0.0
      ensures r > 0.0
    {
      RateSign(t, baseRate);
      baseRate * VariableFactor(t)
    }

    /** `_calcular_ewt`. */
    function CurrentEwt(): real
      reads this`queue, this`servers
      requires mu > 0.0
    {
      Ewt(|queue|, ActiveCount(servers), mu, Sentinel)
    }

    /** The part of the state the event handlers change. */
    function State(): Office
      reads this`servers, this`queue, this`history, this`events, this`draws
    {
      Office(servers, queue, history, events, draws)
    }

    /** The decision the scaler takes on an arrival: on the estimate before the customer joins. */
    function ArrivalChange(o: Office): Change
      requires mu > 0.0
    {
      Decide(o.servers, Ewt(|o.queue|, ActiveCount(o.servers), mu, Sentinel), up, down, minServers)
    }

    /**
     * The `LLEGADA` branch up to the assignment, on values: customer
     * `len(historial) + len(cola)` records the line it finds, the fleet is
     * scaled on the estimate before it joins, it joins the end of the line
     * and an assignment is attempted.
     */
    function Joined(o: Office, clock: real): Office
      requires mu > 0.0 && o.draws != []
    {
      var c := Customer(|o.history| + |o.queue|, clock, |o.queue|, 0.0);
      ServeNext(mu, clock, false, o.(servers := Apply(o.servers, ArrivalChange(o)), queue := o.queue + [c]))
    }

    /** The decision the scaler takes after a departure: on 0.0 when the line is empty after the assignment. */
    function DepartureChange(o: Office, clock: real): Change
      requires mu > 0.0 && (o.queue == [] || o.draws != [])
    {
      var r := ServeNext(mu, clock, false, o);
      if r.queue == [] then Decide(r.servers, 0.0, up, down, minServers) else NoChange
    }

    /** The `SALIDA` branch after the server is freed, on values: an assignment, then the scaler on 0.0 if nobody waits. */
    function Departed(o: Office, clock: real): Office
      requires mu > 0.0 && (o.queue == [] || o.draws != [])
    {
      var r := ServeNext(mu, clock, false, o);
      r.(servers := Apply(r.servers, DepartureChange(o, clock)))
    }

    /** `_gestionar_escalado(ewt)`: applies the hysteresis decision. */
    method Scale(ewt: real)
      requires Core()
      modifies this
      ensures Core()
      ensures servers == Apply(old(servers), Decide(old(servers), ewt, up, down, minServers))
      ensures clock == old(clock) && queue == old(queue) && events == old(events)
      ensures history == old(history) && log == old(log) && draws == old(draws)
    {
      var c := Decide(servers, ewt, up, down, minServers);
      ScaleKeepsInv(mu, minServers, maxServers, clock, servers, events, history, queue, ewt, up, down, c);
      var active := ActiveCount(servers);
      if ewt > up && active < maxServers {
        var i := FirstInactive(servers);
        if i.Some? {
          servers := servers[i.value := servers[i.value].(active := true)];
        }
      } else if ewt < down && active > minServers {
        var i := LastIdleActive(servers);
        if i.Some? {
          servers := servers[i.value := servers[i.value].(active := false)];
        }
      }
    }

    /**
     * `programar_llegada`: one draw at the rate of the moment; the arrival
     * is scheduled only if it falls by closing time.
     */
    method ScheduleArrival()
      requires Core() && |draws| >= 1
      modifies this
      ensures Core()
      ensures State() == Scheduled(old(State()), clock, Rate(), true)
      ensures draws == old(draws)[1..]
      ensures clock + Gap(old(draws)[0], Rate()) <= Closing ==> events == old(events) + [Arrival(clock + Gap(old(draws)[0], Rate()))]
      ensures clock + Gap(old(draws)[0], Rate()) > Closing ==> events == old(events)
      ensures clock == old(clock) && queue == old(queue) && servers == old(servers) && history == old(history)
      ensures log == old(log)
    {
      var rate := Rate();
      var t := clock + Gap(draws[0], rate);
      draws := draws[1..];
      if t <= Closing {
        ScheduleKeepsInv(mu, minServers, maxServers, clock, servers, events, history, queue, t, Closing);
        events := events + [Arrival(t)];
      }
    }

    /**
     * `_intentar_asignar`: when someone waits and a server on shift is
     * idle, the head of the line goes to the lowest such server for one
     * drawn duration, and the server is stamped with the end of it.
     */
    method TryAssign() returns (started: bool)
      requires Core() && |draws| >= 1
      modifies this
      ensures Core()
      ensures started <==> CanServe(old(State()))
      ensures State() == ServeNext(mu, clock, false, old(State()))
      ensures clock == old(clock) && log == old(log)
    {
      if queue == [] {
        return false;
      }
      var candidate := FirstIdleActive(servers);
      if candidate.None? {
        return false;
      }
      var j := candidate.value;
      var d := Gap(draws[0], mu);
      var v := servers[j].(busy := true, serviceEnd := clock + d);
      AssignKeepsInv(mu, minServers, maxServers, clock, servers, events, history, queue, j, d, v, 0, Closing);
      draws := draws[1..];
      history := history + [Served(queue[0], clock, clock + d, 0)];
      queue := queue[1..];
      events := events + [Departure(clock + d, j)];
      servers := servers[j := v];
      return true;
    }

    /** `_registrar_estado`. */
    method TakeSnapshot()
      requires Core()
      modifies this
      ensures Core()
      ensures log == old(log) + [Snapshot(clock, |queue|, ActiveCount(servers), Rate())]
      ensures clock == old(clock) && queue == old(queue) && servers == old(servers) && events == old(events)
      ensures history == old(history) && draws == old(draws)
    {
      var snap := Snapshot(clock, |queue|, ActiveCount(servers), Rate());
      ActiveCountBounds(servers);
      LogAppend(log, clock, maxServers, snap);
      log := log + [snap];
    }

    /**
     * The `LLEGADA` branch up to the assignment: the fleet is scaled on the
     * estimate before customer `c` joins, then `c` joins the end of the line.
     * While someone already waited, the only idle server on shift is the
     * one just switched on, and there is none when nothing was switched on.
     */
    method Enqueue(c: Customer)
      requires Valid() && c == Customer(|history| + |queue|, clock, |queue|, 0.0)
      modifies this
      ensures Core()
      ensures State() == old(State()).(servers := Apply(old(servers), ArrivalChange(old(State()))), queue := old(queue) + [c])
      ensures clock == old(clock) && log == old(log)
      ensures old(queue) != [] && ArrivalChange(old(State())).Activate? ==> OnlyIdle(servers, ArrivalChange(old(State())).index)
      ensures old(queue) != [] && !ArrivalChange(old(State())).Activate? ==> LowestIdleActive(servers).None?
    {
      var ewt := CurrentEwt();
      ghost var change := Decide(servers, ewt, up, down, minServers);
      assert change == ArrivalChange(State());
      ScaleKeepsFleet(servers, ewt, up, down, minServers);
      ScaleLeavesOneIdle(servers, queue, change);
      Scale(ewt);
      BooksEnqueue(minServers, maxServers, clock, servers, events, history, queue, c);
      queue := queue + [c];
    }

    /**
     * The assignment that ends the `LLEGADA` branch. When someone already
     * waited, the only idle server on shift can be the one `change`
     * switched on, so the rule that nobody waits beside an idle server on
     * shift is restored.
     */
    method ServeJoined(ghost change: Change, ghost waited: bool)
      requires Core() && |draws| >= 1 && queue != []
      requires waited && change.Activate? ==> OnlyIdle(servers, change.index)
      requires waited && !change.Activate? ==> LowestIdleActive(servers).None?
      requires !waited ==> |queue| == 1
      modifies this
      ensures Valid()
      ensures State() == ServeNext(mu, clock, false, old(State()))
      ensures clock == old(clock) && log == old(log)
    {
      ghost var scaled := servers;
      ghost var line := queue;
      var started := TryAssign();
      if started && waited {
        OnlyIdleIsLowest(scaled, change.index);
        AssignRestores(scaled, line, change.index, servers[change.index]);
      } else if !started {
        NothingToAssign(scaled, line);
      }
    }

    /**
     * The `LLEGADA` branch up to the assignment: the new customer sees the
     * queue, the estimate is computed before it joins and fed to the
     * scaler, then it joins and an assignment is attempted.
     */
    method Arrive()
      requires Valid() && |draws| >= 1
      modifies this
      ensures Valid()
      ensures State() == Joined(old(State()), clock)
      ensures clock == old(clock) && log == old(log)
      ensures old(history) <= history && |history| + |queue| == old(|history|) + old(|queue|) + 1
      ensures |draws| < old(|draws|) || (draws == old(draws) && events == old(events))
      ensures |draws| + 1 >= old(|draws|)
    {
      var c := Customer(|history| + |queue|, clock, |queue|, 0.0);
      ghost var waited := queue != [];
      ghost var change := ArrivalChange(State());
      Enqueue(c);
      ServeJoined(change, waited);
    }

    /**
     * The `SALIDA` branch after the server is freed: an assignment is
     * attempted and the scaler is fed 0.0 when nobody waits.
     */
    method Depart(ghost freed: nat)
      requires Core() && |draws| >= 1
      requires queue != [] ==> OnlyIdle(servers, freed)
      modifies this
      ensures Valid()
      ensures State() == Departed(old(State()), clock)
      ensures clock == old(clock) && log == old(log)
      ensures old(history) <= history && |history| + |queue| == old(|history|) + old(|queue|)
      ensures |draws| < old(|draws|) || (draws == old(draws) && events == old(events))
    {
      ghost var before := servers;
      var started := TryAssign();
      if started {
        OnlyIdleIsLowest(before, freed);
        AssignRestores(before, old(queue), freed, servers[freed]);
      } else {
        NothingToAssign(before, queue);
      }
      if queue == [] {
        Scale(0.0);
      }
    }

    /**
     * One iteration of `correr`: pop the earliest event; an arrival after
     * closing time would be dropped, but none is ever pending. Otherwise
     * move the clock to the event, handle it (an arrival also schedules the
     * next one) and record the state. Every event consumes a draw or
     * shrinks the event list.
     */
    method Step() returns (popped: Event, k: nat)
      requires Valid() && events != [] && |draws| >= 2
      modifies this
      ensures Valid()
      ensures k < old(|events|) && popped == old(events)[k] && forall x :: x in old(events) ==> Le(popped, x)
      ensures clock == popped.time
      ensures popped.Arrival? ==>
                State() == Scheduled(Joined(Popped(old(State()), k, old(servers)), clock), clock, RateAt(clock), true)
      ensures popped.Departure? ==> State() == Departed(Popped(old(State()), k, old(servers)), clock)
      ensures log == old(log) + [Snapshot(clock, |queue|, ActiveCount(servers), Rate())]
      ensures old(clock) <= clock && |log| == old(|log|) + 1
      ensures old(history) <= history
      ensures |draws| < old(|draws|) || (|draws| == old(|draws|) && |events| < old(|events|))
    {
      var rest;
      popped, k, rest := PopMin(events);
      ghost var pending := events;
      assert ArrivalDue(pending, k, Closing);
      events := rest;
      if popped.Arrival? && popped.time > Closing {
        return;
      }
      match popped {
        case Arrival(t) =>
          PopArrivalKeepsInv(mu, minServers, maxServers, clock, servers, pending, history, queue, k, t, Closing);
          LogLater(log, clock, t, maxServers);
          clock := t;
          Arrive();
          ScheduleArrival();
        case Departure(t, s) =>
          PopDepartureKeepsInv(mu, minServers, maxServers, clock, servers, pending, history, queue, k, t, s, Closing);
          LogLater(log, clock, t, maxServers);
          servers := servers[s := servers[s].(busy := false)];
          clock := t;
          Depart(s);
      }
      TakeSnapshot();
    }

    /**
     * `correr`: schedule the first arrival, then handle events until none
     * is pending. The draws are finite here, so the run also stops when
     * fewer than two remain; `completed` tells the two apart. A completed
     * run leaves every server idle, and nobody waiting unless no server is
     * on shift.
     */
    method Run() returns (completed: bool)
      requires Valid()
      modifies this
      ensures Valid()
      ensures completed ==> events == []
      ensures !completed ==> |draws| < 2
      ensures completed ==> forall i :: 0 <= i < |servers| ==> !servers[i].busy
      ensures completed && queue != [] ==> forall i :: 0 <= i < |servers| ==> !servers[i].active
    {
      if |draws| == 0 {
        return false;
      }
      ScheduleArrival();
      while events != [] && |draws| >= 2
        invariant Valid()
        decreases |draws|, |events|
      {
        var _, _ := Step();
      }
      if events != [] {
        return false;
      }
      Drained(servers);
      DrainedConserving(servers, queue);
      return true;
    }
  }
}
