/**
 * simulacion_final.py: `SimulacionFinal`, the engine that integrates active
 * time per event, counts infrastructure changes in one counter, keeps
 * drawing arrivals after closing time (the curve never drops to 0) and
 * drops, when popped, any arrival after closing time before touching the
 * timers or the clock.
 */
module FinalSim {
  import opened Common
  import opened Events
  import opened Fleet
  import opened Customers
  import opened Ledger
  import opened Demand
  import opened Engine
  import opened Timed

  /** `_calcular_ewt` returns 999.0 when no server is on shift. */
  const Sentinel: real := 999.0

  /** Guard of the utilization report: active time must exceed 0.001 hours. */
  const UtilizationGuard: real := 0.001

  /** One row of `log_sistema`: time, queue length, servers on shift, servers busy and the estimate in minutes. */
  datatype Snapshot = Snapshot(time: real, queue: nat, active: nat, busy: nat, ewtMinutes: real)

  /** Snapshot `k` is not after `clock`, reports a consistent fleet, and is not before snapshot `k - 1`. */
  ghost predicate Logged(log: seq<Snapshot>, k: nat, clock: real, maxServers: nat)
    requires k < |log|
  {
    && log[k].time <= clock && log[k].busy <= log[k].active <= maxServers && log[k].ewtMinutes >= 0.0
    && (k > 0 ==> log[k - 1].time <= log[k].time)
  }

  /** Snapshots are taken in time order, never after the clock, and report a consistent fleet. */
  ghost predicate LogOk(log: seq<Snapshot>, clock: real, maxServers: nat)
  {
    forall k :: 0 <= k < |log| ==> Logged(log, k, clock, maxServers)
  }

  lemma LogLater(log: seq<Snapshot>, clock: real, later: real, maxServers: nat)
    requires LogOk(log, clock, maxServers) && clock <= later
    ensures LogOk(log, later, maxServers)
  {
    forall k | 0 <= k < |log|
      ensures Logged(log, k, later, maxServers)
    {
      assert Logged(log, k, clock, maxServers);
    }
  }

  /** A snapshot taken now of a consistent fleet extends the log. */
  lemma LogAppend(log: seq<Snapshot>, clock: real, maxServers: nat, snap: Snapshot)
    requires LogOk(log, clock, maxServers)
    requires snap.time == clock && snap.busy <= snap.active <= maxServers && snap.ewtMinutes >= 0.0
    ensures LogOk(log + [snap], clock, maxServers)
  {
    forall k | 0 <= k < |log| + 1
      ensures Logged(log + [snap], k, clock, maxServers)
    {
      if k < |log| {
        assert Logged(log, k, clock, maxServers);
      } else if k > 0 {
        assert Logged(log, k - 1, clock, maxServers);
      }
    }
  }

  class Simulation {
    const baseRate: real
    const mu: real
    const minServers: nat
    const maxServers: nat
    /** `umbral_up / 60`, in hours. */
    const up: real
    /** `umbral_down / 60`, in hours. */
    const down: real

    var clock: real
    var queue: seq<Customer>
    var servers: seq<Server>
    var events: seq<Event>
    var history: seq<Served>
    var log: seq<Snapshot>
    /** `cambios_infra`: the number of servers switched on or off so far. */
    var changes: nat
    /** How many of the changes were activations and deactivations; the source keeps only their sum. */
    ghost var activations: nat
    ghost var deactivations: nat
    /** The draws `random.expovariate` has still to consume, in order. */
    var draws: seq<UnitDraw>

    /** The invariants that hold between any two operations of an event. */
    ghost predicate Core()
      reads this
    {
      && Inv(mu, minServers, maxServers, clock, servers, events, history, queue, activations, deactivations)
      && changes == activations + deactivations
      && LogOk(log, clock, maxServers)
    }

    /** The invariants that hold between two events. */
    ghost predicate Valid()
      reads this
    {
      Core() && WorkConserving(servers, queue)
    }

    /** `__init__`; the fleet is `InitialFleet(min_serv, max_serv)`, which fails when `min_serv > max_serv`. */
    constructor (baseRate: real, mu: real, minServers: nat, maxServers: nat, upMinutes: real, downMinutes: real, draws: seq<UnitDraw>)
      requires mu > 0.0 && minServers <= maxServers
      ensures Valid()
      ensures this.baseRate == baseRate && this.mu == mu && this.minServers == minServers && this.maxServers == maxServers
      ensures up == upMinutes / 60.0 && down == downMinutes / 60.0
      ensures clock == 0.0 && queue == [] && events == [] && history == [] && log == []
      ensures changes == 0 && this.draws == draws
      ensures servers == InitialFleet(minServers, maxServers).value
    {
      var fleet := BuildFleet(minServers, maxServers);
      this.baseRate := baseRate;
      this.mu := mu;
      this.minServers := minServers;
      this.maxServers := maxServers;
      up := upMinutes / 60.0;
      down := downMinutes / 60.0;
      clock := 0.0;
      queue := [];
      servers := fleet.value;
      events := [];
      history := [];
      log := [];
      changes := 0;
      activations := 0;
      deactivations := 0;
      this.draws := draws;
      new;
      InvStart(mu, minServers, maxServers, servers);
    }

    /** `_get_tasa_actual`: the base rate times this copy's curve. */
    function Rate(): (r: real)
      reads this`clock
      ensures r > 0.0 <==> baseRate > 0.0
    {
      RateAt(clock)
    }

    /** The arrival rate at hour `t`. */
    function RateAt(t: real): (r: real)
      ensures r > 0.0 <==> baseRate > 0.0
    {
      RateSign(t, baseRate);
      baseRate * FinalFactor(t)
    }

    /** `_calcular_ewt`. */
    function CurrentEwt(): real
      reads this`queue, this`servers
      requires mu > 0.0
    {
      Ewt(|queue|, ActiveCount(servers), mu, Sentinel)
    }

    /** The part of the state the event handlers change. */
    function State(): Office
      reads this`servers, this`queue, this`history, this`events, this`draws
    {
      Office(servers, queue, history, events, draws)
    }

    /** The decision the scaler takes on an arrival: on the estimate before the customer joins. */
    function ArrivalChange(o: Office): Change
      requires mu > 0.0
    {
      Decide(o.servers, Ewt(|o.queue|, ActiveCount(o.servers), mu, Sentinel), up, down, minServers)
    }

    /**
     * The `LLEGADA` branch up to the assignment, on values: customer
     * `len(historial) + len(cola)` records the line it finds, the fleet is
     * scaled on the estimate before it joins, it joins the end of the line
     * and an assignment is attempted.
     */
    function Joined(o: Office, clock: real): Office
      requires mu > 0.0 && o.draws != []
    {
      var c := Customer(|o.history| + |o.queue|, clock, |o.queue|, 0.0);
      AssignNext(mu, clock, o.(servers := Apply(o.servers, ArrivalChange(o)), queue := o.queue + [c]))
    }

    /** The decision the scaler takes after a departure: on 0.0 when the line is empty after the assignment. */
    function DepartureChange(o: Office, clock: real): Change
      requires mu > 0.0 && (o.queue == [] || o.draws != [])
    {
      var r := AssignNext(mu, clock, o);
      if r.queue == [] then Decide(r.servers, 0.0, up, down, minServers) else NoChange
    }

    /** The `SALIDA` branch after the server is freed, on values: an assignment, then the scaler on 0.0 if nobody waits. */
    function Departed(o: Office, clock: real): Office
      requires mu > 0.0 && (o.queue == [] || o.draws != [])
    {
      var r := AssignNext(mu, clock, o);
      r.(servers := Apply(r.servers, DepartureChange(o, clock)))
    }

    /**
     * `_gestionar_escalado(ewt)`: applies the hysteresis decision; a change
     * adds one to `cambios_infra`.
     */
    method Scale(ewt: real)
      requires Core()
      modifies this
      ensures Core()
      ensures servers == Apply(old(servers), Decide(old(servers), ewt, up, down, minServers))
      ensures activations == old(activations) + (if Decide(old(servers), ewt, up, down, minServers).Activate? then 1 else 0)
      ensures deactivations == old(deactivations) + (if Decide(old(servers), ewt, up, down, minServers).Deactivate? then 1 else 0)
      ensures changes == old(changes) + (if Decide(old(servers), ewt, up, down, minServers) == NoChange then 0 else 1)
      ensures clock == old(clock) && queue == old(queue) && events == old(events)
      ensures history == old(history) && log == old(log) && draws == old(draws)
    {
      var c := Decide(servers, ewt, up, down, minServers);
      ScaleKeepsInv(mu, minServers, maxServers, clock, servers, events, history, queue, activations, deactivations,
                    ewt, up, down, c);
      var active := ActiveCount(servers);
      if ewt > up && active < maxServers {
        var i := FirstInactive(servers);
        if i.Some? {
          servers := servers[i.value := servers[i.value].(active := true)];
          changes := changes + 1;
          activations := activations + 1;
        }
      } else if ewt < down && active > minServers {
        var i := LastIdleActive(servers);
        if i.Some? {
          servers := servers[i.value := servers[i.value].(active := false)];
          changes := changes + 1;
          deactivations := deactivations + 1;
        }
      }
    }

    /**
     * `_programar_llegada`: nothing when the rate is not positive; otherwise
     * one draw and one arrival, whatever its time.
     */
    method ScheduleArrival()
      requires Core() && |draws| >= 1
      modifies this
      ensures Core()
      ensures State() == Scheduled(old(State()), clock, Rate(), false)
      ensures Rate() <= 0.0 ==> draws == old(draws) && events == old(events)
      ensures Rate() > 0.0 ==> draws == old(draws)[1..] && events == old(events) + [Arrival(clock + Gap(old(draws)[0], Rate()))]
      ensures clock == old(clock) && queue == old(queue) && servers == old(servers) && history == old(history)
      ensures log == old(log) && changes == old(changes) && activations == old(activations) && deactivations == old(deactivations)
    {
      var rate := baseRate * FinalFactor(clock);
      if rate <= 0.0 {
        return;
      }
      var t := clock + Gap(draws[0], rate);
      assert rate == Rate();
      ScheduleKeepsInv(mu, minServers, maxServers, clock, servers, events, history, queue, activations, deactivations, t, Closing);
      draws := draws[1..];
      events := events + [Arrival(t)];
    }

    /**
     * `_intentar_asignar`: when someone waits and a server on shift is idle,
     * the head of the line goes to the lowest such server for one drawn
     * duration, which is added to the server's busy time.
     */
    method TryAssign() returns (started: bool)
      requires Core() && |draws| >= 1
      modifies this
      ensures Core()
      ensures started <==> CanServe(old(State()))
      ensures State() == AssignNext(mu, clock, old(State()))
      ensures clock == old(clock) && log == old(log) && changes == old(changes)
      ensures activations == old(activations) && deactivations == old(deactivations)
    {
      if queue == [] {
        return false;
      }
      var candidate := FirstIdleActive(servers);
      if candidate.None? {
        return false;
      }
      var j := candidate.value;
      var d := Gap(draws[0], mu);
      var v := servers[j].(busy := true, busyTime := servers[j].busyTime + d);
      AssignKeepsInv(mu, minServers, maxServers, clock, servers, events, history, queue, activations, deactivations, j, d, v, Closing);
      draws := draws[1..];
      history := history + [Served(queue[0], clock, clock + d, 0)];
      queue := queue[1..];
      events := events + [Departure(clock + d, j)];
      servers := servers[j := v];
      return true;
    }

    /** `_registrar_estado`. */
    method TakeSnapshot()
      requires Core()
      modifies this
      ensures Core()
      ensures log == old(log) + [Snapshot(clock, |queue|, ActiveCount(servers), BusyCount(servers), CurrentEwt() * 60.0)]
      ensures clock == old(clock) && queue == old(queue) && servers == old(servers) && events == old(events)
      ensures history == old(history) && draws == old(draws) && changes == old(changes)
      ensures activations == old(activations) && deactivations == old(deactivations)
    {
      var snap := Snapshot(clock, |queue|, ActiveCount(servers), BusyCount(servers), CurrentEwt() * 60.0);
      ActiveCountBounds(servers);
      BusyAtMostActive(servers);
      LogAppend(log, clock, maxServers, snap);
      log := log + [snap];
    }

    /**
     * The `LLEGADA` branch up to the assignment: the fleet is scaled on the
     * estimate before customer `c` joins, then `c` joins the end of the line.
     * While someone already waited, the only idle server on shift is the
     * one just switched on, and there is none when nothing was switched on.
     */
    method Enqueue(c: Customer)
      requires Valid() && c == Customer(|history| + |queue|, clock, |queue|, 0.0)
      modifies this
      ensures Core()
      ensures State() == old(State()).(servers := Apply(old(servers), ArrivalChange(old(State()))), queue := old(queue) + [c])
      ensures activations == old(activations) + (if ArrivalChange(old(State())).Activate? then 1 else 0)
      ensures deactivations == old(deactivations) + (if ArrivalChange(old(State())).Deactivate? then 1 else 0)
      ensures changes == old(changes) + (if ArrivalChange(old(State())) == NoChange then 0 else 1)
      ensures clock == old(clock) && log == old(log)
      ensures old(queue) != [] && ArrivalChange(old(State())).Activate? ==> OnlyIdle(servers, ArrivalChange(old(State())).index)
      ensures old(queue) != [] && !ArrivalChange(old(State())).Activate? ==> LowestIdleActive(servers).None?
    {
      var ewt := CurrentEwt();
      ghost var change := Decide(servers, ewt, up, down, minServers);
      assert change == ArrivalChange(State());
      ScaleKeepsFleet(servers, ewt, up, down, minServers);
      ScaleLeavesOneIdle(servers, queue, change);
      Scale(ewt);
      BooksEnqueue(minServers, maxServers, clock, servers, events, history, queue, c);
      queue := queue + [c];
    }

    /**
     * The `LLEGADA` branch up to the assignment: the new customer sees the
     * queue, the estimate is computed before it joins and fed to the
     * scaler, then it joins and an assignment is attempted.
     */
    method Arrive()
      requires Valid() && |draws| >= 1
      modifies this
      ensures Valid()
      ensures State() == Joined(old(State()), clock)
      ensures activations == old(activations) + (if ArrivalChange(old(State())).Activate? then 1 else 0)
      ensures deactivations == old(deactivations) + (if ArrivalChange(old(State())).Deactivate? then 1 else 0)
      ensures changes == old(changes) + (if ArrivalChange(old(State())) == NoChange then 0 else 1)
      ensures clock == old(clock) && log == old(log)
      ensures old(history) <= history && |history| + |queue| == old(|history|) + old(|queue|) + 1
      ensures |draws| < old(|draws|) || (draws == old(draws) && events == old(events))
      ensures |draws| + 1 >= old(|draws|)
    {
      var c := Customer(|history| + |queue|, clock, |queue|, 0.0);
      ghost var waiting := queue;
      ghost var o := State();
      ghost var change := ArrivalChange(o);
      Enqueue(c);
      assert State() == o.(servers := Apply(o.servers, change), queue := o.queue + [c]);
      ghost var scaled := servers;
      var started := TryAssign();
      if started && waiting != [] {
        OnlyIdleIsLowest(scaled, change.index);
        AssignRestores(scaled, waiting + [c], change.index, servers[change.index]);
      } else if !started {
        NothingToAssign(scaled, waiting + [c]);
      }
    }

    /**
     * The `SALIDA` branch after the server is freed: an assignment is
     * attempted and the scaler is fed 0.0 when nobody waits.
     */
    method Depart(ghost freed: nat)
      requires Core() && |draws| >= 1
      requires queue != [] ==> OnlyIdle(servers, freed)
      modifies this
      ensures Valid()
      ensures State() == Departed(old(State()), clock)
      ensures activations == old(activations) + (if DepartureChange(old(State()), clock).Activate? then 1 else 0)
      ensures deactivations == old(deactivations) + (if DepartureChange(old(State()), clock).Deactivate? then 1 else 0)
      ensures changes == old(changes) + (if DepartureChange(old(State()), clock) == NoChange then 0 else 1)
      ensures clock == old(clock) && log == old(log)
      ensures old(history) <= history && |history| + |queue| == old(|history|) + old(|queue|)
      ensures |draws| < old(|draws|) || (draws == old(draws) && events == old(events))
    {
      ghost var before := servers;
      var started := TryAssign();
      if started {
        OnlyIdleIsLowest(before, freed);
        AssignRestores(before, old(queue), freed, servers[freed]);
      } else {
        NothingToAssign(before, queue);
      }
      if queue == [] {
        Scale(0.0);
      }
    }

    /**
     * The head of an iteration of `correr`: pop the earliest event. An
     * arrival after closing time is dropped with nothing else changed
     * (`handled` is false); otherwise active time is integrated over the
     * gap, the clock moves to the event and a departure frees its server.
     */
    method Pop() returns (popped: Event, k: nat, handled: bool)
      requires Valid() && events != []
      modifies this
      ensures k < old(|events|) && popped == old(events)[k] && forall x :: x in old(events) ==> Le(popped, x)
      ensures handled <==> !(popped.Arrival? && popped.time > Closing)
      ensures !handled ==> Valid() && State() == Popped(old(State()), k, old(servers)) && clock == old(clock)
      ensures handled ==> clock == popped.time
                          && State() == Popped(old(State()), k, Advanced(old(servers), popped.time - old(clock)))
      ensures handled && popped.Arrival? ==> Valid()
      ensures handled && popped.Departure? ==> Core() && (queue != [] ==> OnlyIdle(servers, popped.server))
      ensures log == old(log) && changes == old(changes)
      ensures activations == old(activations) && deactivations == old(deactivations)
      ensures old(clock) <= clock
    {
      var rest;
      popped, k, rest := PopMin(events);
      if popped.Arrival? && popped.time > Closing {
        DropArrivalKeepsInv(mu, minServers, maxServers, clock, servers, events, history, queue, activations, deactivations, k);
        events := rest;
        return popped, k, false;
      }
      var advanced := AdvanceActive(servers, popped.time - clock);
      match popped {
        case Arrival(t) =>
          PopArrivalKeepsInv(mu, minServers, maxServers, clock, servers, events, history, queue, activations, deactivations, k, t, Closing);
          LogLater(log, clock, t, maxServers);
          servers := advanced;
        case Departure(t, s) =>
          PopDepartureKeepsInv(mu, minServers, maxServers, clock, servers, events, history, queue, activations, deactivations,
                               k, t, s, advanced, Closing);
          LogLater(log, clock, t, maxServers);
          servers := advanced[s := advanced[s].(busy := false)];
      }
      clock := popped.time;
      events := rest;
      handled := true;
    }

    /**
     * The body of an iteration of `correr` once the event is popped: an
     * arrival is handled and the next one scheduled, a departure is
     * handled; then the state is recorded.
     */
    method Handle(popped: Event)
      requires clock == popped.time && |draws| >= 2
      requires popped.Arrival? ==> Valid()
      requires popped.Departure? ==> Core() && (queue != [] ==> OnlyIdle(servers, popped.server))
      modifies this
      ensures Valid()
      ensures popped.Arrival? ==> State() == Scheduled(Joined(old(State()), clock), clock, RateAt(clock), false)
                                  && changes == old(changes) + (if ArrivalChange(old(State())) == NoChange then 0 else 1)
      ensures popped.Departure? ==> State() == Departed(old(State()), clock)
                                    && changes == old(changes) + (if DepartureChange(old(State()), clock) == NoChange then 0 else 1)
      ensures clock == old(clock)
      ensures log == old(log) + [Snapshot(clock, |queue|, ActiveCount(servers), BusyCount(servers), CurrentEwt() * 60.0)]
      ensures old(history) <= history
      ensures |draws| < old(|draws|) || (draws == old(draws) && events == old(events))
    {
      if popped.Arrival? {
        Arrive();
        ScheduleArrival();
      } else {
        Depart(popped.server);
      }
      TakeSnapshot();
    }

    /**
     * One iteration of `correr`: pop the earliest event; an arrival after
     * closing time is dropped with nothing else changed. Otherwise handle
     * it (an arrival also schedules the next one) and record the state.
     * Every event consumes a draw or shrinks the event list.
     */
    method Step() returns (popped: Event, k: nat)
      requires Valid() && events != [] && |draws| >= 2
      modifies this
      ensures Valid()
      ensures k < old(|events|) && popped == old(events)[k] && forall x :: x in old(events) ==> Le(popped, x)
      ensures popped.Arrival? && popped.time > Closing ==>
                && State() == Popped(old(State()), k, old(servers))
                && clock == old(clock) && log == old(log) && changes == old(changes)
      ensures !(popped.Arrival? && popped.time > Closing) ==>
                && clock == popped.time
                && log == old(log) + [Snapshot(clock, |queue|, ActiveCount(servers), BusyCount(servers), CurrentEwt() * 60.0)]
      ensures popped.Arrival? && popped.time <= Closing ==>
                var p := Popped(old(State()), k, Advanced(old(servers), popped.time - old(clock)));
                && State() == Scheduled(Joined(p, popped.time), popped.time, RateAt(popped.time), false)
                && changes == old(changes) + (if ArrivalChange(p) == NoChange then 0 else 1)
      ensures popped.Departure? ==>
                var p := Popped(old(State()), k, Advanced(old(servers), popped.time - old(clock)));
                && State() == Departed(p, popped.time)
                && changes == old(changes) + (if DepartureChange(p, popped.time) == NoChange then 0 else 1)
      ensures old(clock) <= clock && old(history) <= history
      ensures |draws| < old(|draws|) || (|draws| == old(|draws|) && |events| < old(|events|))
    {
      var handled;
      popped, k, handled := Pop();
      if handled {
        Handle(popped);
      }
    }

    /**
     * `correr`: schedule the first arrival, then handle events until none
     * is pending. The draws are finite here, so the run also stops when
     * fewer than two remain; `completed` tells the two apart. A completed
     * run leaves every server idle, the busy time of each within its
     * active time, and so every reported utilization within [0, 100].
     */
    method Run() returns (completed: bool)
      requires Valid()
      modifies this
      ensures Valid()
      ensures completed ==> events == []
      ensures !completed ==> |draws| < 2
      ensures completed ==> forall i :: 0 <= i < |servers| ==>
                !servers[i].busy && servers[i].busyTime <= servers[i].activeTime
                && 0.0 <= Utilization(servers[i].busyTime, servers[i].activeTime, UtilizationGuard) <= 100.0
      ensures completed && queue != [] ==> forall i :: 0 <= i < |servers| ==> !servers[i].active
    {
      if |draws| == 0 {
        return false;
      }
      ScheduleArrival();
      while events != [] && |draws| >= 2
        invariant Valid()
        decreases |draws|, |events|
      {
        var _, _ := Step();
      }
      if events != [] {
        return false;
      }
      Drained(servers);
      IdleWithinActive(servers, events, clock);
      DrainedConserving(servers, queue);
      return true;
    }
  }
}
