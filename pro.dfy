/**
 * simulacion_pro.py: `SimulacionAvanzada`, the engine that accounts active
 * time per change of state. Every switch of a server goes through
 * `_cambiar_estado_servidor`, busy time is credited in full when a service
 * starts, arrivals are always scheduled but one popped after closing time
 * is dropped (which ends the arrivals for good), and a final sweep credits
 * the servers still on shift.
 */
module ProSim {
  import opened Common
  import opened Events
  import opened Fleet
  import opened Customers
  import opened Ledger
  import opened Demand
  import opened Engine
  import opened Accrual
  import Timed

  /** `_calcular_ewt` returns 999.0 when no server is on shift. */
  const Sentinel: real := 999.0

  /**
   * The shared books, the active count accounted for by the changes made,
   * and busy time within accrued active time.
   */
  ghost predicate Inv(mu: real, minServers: nat, maxServers: nat, clock: real, servers: seq<Server>,
                      events: seq<Event>, history: seq<Served>, queue: seq<Customer>,
                      activations: nat, deactivations: nat)
  {
    && mu > 0.0 && 0.0 <= clock
    && Books(minServers, maxServers, clock, servers, events, history, queue)
    && ActiveCount(servers) + deactivations == minServers + activations
    && AccruedWithin(servers, events, clock)
  }

  /** The state right after `__init__`. */
  lemma InvStart(mu: real, minServers: nat, maxServers: nat, servers: seq<Server>)
    requires mu > 0.0 && InitialFleet(minServers, maxServers) == Success(servers)
    ensures Inv(mu, minServers, maxServers, 0.0, servers, [], [], [], 0, 0)
    ensures WorkConserving(servers, [])
  {
    BooksStart(minServers, maxServers, servers);
    StartAccrued(minServers, maxServers, servers);
  }

  /** Starting a service of length `d` on server `j`, which becomes `v`, keeps the invariant and the pending arrivals. */
  lemma AssignKeepsInv(mu: real, minServers: nat, maxServers: nat, clock: real, servers: seq<Server>,
                       events: seq<Event>, history: seq<Served>, queue: seq<Customer>,
                       activations: nat, deactivations: nat, j: nat, d: real, v: Server)
    requires Inv(mu, minServers, maxServers, clock, servers, events, history, queue, activations, deactivations)
    requires queue != [] && LowestIdleActive(servers) == Some(j) && d > 0.0
    requires v == servers[j].(busy := true, busyTime := servers[j].busyTime + d)
    ensures Inv(mu, minServers, maxServers, clock, servers[j := v], events + [Departure(clock + d, j)],
                history + [Served(queue[0], clock, clock + d, 0)], queue[1..], activations, deactivations)
    ensures Arrivals(events + [Departure(clock + d, j)]) == Arrivals(events)
  {
    BooksAssign(minServers, maxServers, clock, servers, events, history, queue, j, v, d, 0);
    AssignKeepsAccrued(servers, events, clock, j, d);
    ActiveCountSet(servers, j, v);
    ArrivalsPush(events, Departure(clock + d, j));
  }

  /** Scheduling an arrival no earlier than now keeps the invariant; one pending arrival more. */
  lemma ScheduleKeepsInv(mu: real, minServers: nat, maxServers: nat, clock: real, servers: seq<Server>,
                         events: seq<Event>, history: seq<Served>, queue: seq<Customer>,
                         activations: nat, deactivations: nat, t: real)
    requires Inv(mu, minServers, maxServers, clock, servers, events, history, queue, activations, deactivations)
    requires clock <= t
    ensures Inv(mu, minServers, maxServers, clock, servers, events + [Arrival(t)], history, queue, activations, deactivations)
    ensures Arrivals(events + [Arrival(t)]) == Arrivals(events) + 1
  {
    BooksSchedule(minServers, maxServers, clock, servers, events, history, queue, t);
    ArrivalKeepsAccrued(servers, events, clock, t);
    ArrivalsPush(events, Arrival(t));
  }

  /** The scaling decision `c`, applied through `_cambiar_estado_servidor` and counted, keeps the invariant. */
  lemma ScaleKeepsInv(mu: real, minServers: nat, maxServers: nat, clock: real, servers: seq<Server>,
                      events: seq<Event>, history: seq<Served>, queue: seq<Customer>,
                      activations: nat, deactivations: nat, ewt: real, up: real, down: real, c: Change)
    requires Inv(mu, minServers, maxServers, clock, servers, events, history, queue, activations, deactivations)
    requires c == Decide(servers, ewt, up, down, minServers)
    ensures Inv(mu, minServers, maxServers, clock, ApplyAt(servers, c, clock), events, history, queue,
                activations + (if c.Activate? then 1 else 0), deactivations + (if c.Deactivate? then 1 else 0))
  {
    ScaleAtKeepsFleet(servers, ewt, up, down, minServers, clock);
    BooksFleet(minServers, maxServers, clock, servers, ApplyAt(servers, c, clock), events, history, queue);
    if c != NoChange {
      ToggleKeepsAccrued(servers, events, clock, c.index, c.Activate?);
    }
  }

  /**
   * Popping the earliest pending event, an arrival due at `t`, and moving
   * the clock to it keeps the invariant; one pending arrival fewer.
   */
  lemma PopArrivalKeepsInv(mu: real, minServers: nat, maxServers: nat, clock: real, servers: seq<Server>,
                           events: seq<Event>, history: seq<Served>, queue: seq<Customer>,
                           activations: nat, deactivations: nat, k: nat, t: real)
    requires Inv(mu, minServers, maxServers, clock, servers, events, history, queue, activations, deactivations)
    requires k < |events| && events[k].Arrival? && t == events[k].time && forall x :: x in events ==> Le(events[k], x)
    ensures clock <= t
    ensures Inv(mu, minServers, maxServers, t, servers, Remove(events, k), history, queue, activations, deactivations)
    ensures Arrivals(Remove(events, k)) + 1 == Arrivals(events)
  {
    BooksPopArrival(minServers, maxServers, clock, servers, events, history, queue, k);
    PoppedFirst(events, k);
    LaterKeepsAccrued(servers, events, clock, t);
    DropKeepsAccrued(servers, events, k, t);
    ArrivalsRemove(events, k);
  }

  /** Popping a pending arrival and dropping it, clock untouched, keeps the invariant; one pending arrival fewer. */
  lemma DropArrivalKeepsInv(mu: real, minServers: nat, maxServers: nat, clock: real, servers: seq<Server>,
                            events: seq<Event>, history: seq<Served>, queue: seq<Customer>,
                            activations: nat, deactivations: nat, k: nat)
    requires Inv(mu, minServers, maxServers, clock, servers, events, history, queue, activations, deactivations)
    requires k < |events| && events[k].Arrival?
    ensures Inv(mu, minServers, maxServers, clock, servers, Remove(events, k), history, queue, activations, deactivations)
    ensures Arrivals(Remove(events, k)) + 1 == Arrivals(events)
  {
    PopArrival(events, k, servers);
    DropKeepsDue(events, k, clock);
    DropKeepsAccrued(servers, events, k, clock);
    ArrivalsRemove(events, k);
  }

  /**
   * Popping the earliest pending event, a departure of server `s` due at
   * `t`, moving the clock and freeing `s` keeps the invariant and the
   * pending arrivals; `s` was busy and on shift, and is then the only idle
   * server on shift while someone waits.
   */
  lemma PopDepartureKeepsInv(mu: real, minServers: nat, maxServers: nat, clock: real, servers: seq<Server>,
                             events: seq<Event>, history: seq<Served>, queue: seq<Customer>,
                             activations: nat, deactivations: nat, k: nat, t: real, s: nat)
    requires Inv(mu, minServers, maxServers, clock, servers, events, history, queue, activations, deactivations)
    requires k < |events| && events[k] == Departure(t, s) && forall x :: x in events ==> Le(events[k], x)
    ensures clock <= t && s < |servers| && servers[s].busy && servers[s].active
    ensures Inv(mu, minServers, maxServers, t, servers[s := servers[s].(busy := false)], Remove(events, k), history, queue,
                activations, deactivations)
    ensures Arrivals(Remove(events, k)) == Arrivals(events)
    ensures WorkConserving(servers, queue) && queue != [] ==> OnlyIdle(servers[s := servers[s].(busy := false)], s)
  {
    BooksPopDeparture(minServers, maxServers, clock, servers, events, history, queue, k);
    PoppedFirst(events, k);
    LaterKeepsAccrued(servers, events, clock, t);
    FreeKeepsAccrued(servers, events, k, t);
    ActiveCountSet(servers, s, servers[s].(busy := false));
    ArrivalsRemove(events, k);
    if WorkConserving(servers, queue) {
      FreeLeavesOneIdle(servers, queue, s);
    }
  }

  /**
   * One row of `log_serie_tiempo`: `Tiempo_Exacto`, `Hora_Dia` (the same
   * value), queue length, servers on shift and busy, the arrival rate of
   * the moment and the estimate in minutes.
   */
  datatype Snapshot = Snapshot(time: real, hour: real, queue: nat, active: nat, busy: nat, rate: real, ewtMinutes: real)

  /** Snapshot `k` is not after `clock`, reports a consistent fleet and a positive rate, and is not before snapshot `k - 1`. */
  ghost predicate Logged(log: seq<Snapshot>, k: nat, clock: real, maxServers: nat)
    requires k < |log|
  {
    && log[k].time == log[k].hour <= clock && log[k].busy <= log[k].active <= maxServers
    && log[k].rate > 0.0 && log[k].ewtMinutes >= 0.0
    && (k > 0 ==> log[k - 1].time <= log[k].time)
  }

  /** Snapshots are taken in time order, never after the clock, and report a consistent fleet. */
  ghost predicate LogOk(log: seq<Snapshot>, clock: real, maxServers: nat)
  {
    forall k :: 0 <= k < |log| ==> Logged(log, k, clock, maxServers)
  }

  lemma LogLater(log: seq<Snapshot>, clock: real, later: real, maxServers: nat)
    requires LogOk(log, clock, maxServers) && clock <= later
    ensures LogOk(log, later, maxServers)
  {
    forall k | 0 <= k < |log|
      ensures Logged(log, k, later, maxServers)
    {
      assert Logged(log, k, clock, maxServers);
    }
  }

  /** A snapshot taken now of a consistent fleet extends the log. */
  lemma LogAppend(log: seq<Snapshot>, clock: real, maxServers: nat, snap: Snapshot)
    requires LogOk(log, clock, maxServers)
    requires snap.time == snap.hour == clock && snap.busy <= snap.active <= maxServers
    requires snap.rate > 0.0 && snap.ewtMinutes >= 0.0
    ensures LogOk(log + [snap], clock, maxServers)
  {
    forall k | 0 <= k < |log| + 1
      ensures Logged(log + [snap], k, clock, maxServers)
    {
      if k < |log| {
        assert Logged(log, k, clock, maxServers);
      } else if k > 0 {
        assert Logged(log, k - 1, clock, maxServers);
      }
    }
  }

  class Simulation {
    /** `tasa_base`, arrivals per hour before the demand curve. */
    const baseRate: real
    const mu: real
    const minServers: nat
    const maxServers: nat
    /** `umbral_up / 60`, in hours. */
    const up: real
    /** `umbral_down / 60`, in hours. */
    const down: real

    var clock: real
    var queue: seq<Customer>
    var servers: seq<Server>
    var events: seq<Event>
    var history: seq<Served>
    var log: seq<Snapshot>
    /** `contador_activaciones`. */
    var activations: nat
    /** `contador_desactivaciones`. */
    var deactivations: nat
    /** The draws `random.expovariate` has still to consume, in order. */
    var draws: seq<UnitDraw>

    /** The invariants that hold between any two operations of an event; at most one arrival is ever pending. */
    ghost predicate Core()
      reads this
    {
      && baseRate > 0.0
      && Inv(mu, minServers, maxServers, clock, servers, events, history, queue, activations, deactivations)
      && Arrivals(events) <= 1
      && LogOk(log, clock, maxServers)
    }

    /** The invariants that hold between two events. */
    ghost predicate Valid()
      reads this
    {
      Core() && WorkConserving(servers, queue)
    }

    /** `__init__`; the fleet is `InitialFleet(min_serv, max_serv)`, which fails when `min_serv > max_serv`. */
    constructor (baseRate: real, mu: real, minServers: nat, maxServers: nat, upMinutes: real, downMinutes: real, draws: seq<UnitDraw>)
      requires baseRate > 0.0 && mu > 0.0 && minServers <= maxServers
      ensures Valid()
      ensures this.baseRate == baseRate && this.mu == mu && this.minServers == minServers && this.maxServers == maxServers
      ensures up == upMinutes / 60.0 && down == downMinutes / 60.0
      ensures clock == 0.0 && queue == [] && events == [] && history == [] && log == []
      ensures activations == 0 && deactivations == 0 && this.draws == draws
      ensures servers == InitialFleet(minServers, maxServers).value
    {
      var fleet := BuildFleet(minServers, maxServers);
      this.baseRate := baseRate;
      this.mu := mu;
      this.minServers := minServers;
      this.maxServers := maxServers;
      up := upMinutes / 60.0;
      down := downMinutes / 60.0;
      clock := 0.0;
      queue := [];
      servers := fleet.value;
      events := [];
      history := [];
      log := [];
      activations := 0;
      deactivations := 0;
      this.draws := draws;
      new;
      InvStart(mu, minServers, maxServers, servers);
    }

    /** `_get_tasa_actual` at hour `t`: the base rate times this copy's curve, positive at every hour. */
    function RateAt(t: real): (r: real)
      requires baseRate > 0.0
      ensures r > 0.0
    {
      RateSign(t, baseRate);
      baseRate * ProFactor(t)
    }

    /** `_get_tasa_actual`: the rate at the clock. */
    function Rate(): (r: real)
      reads this`clock
      requires baseRate > 0.0
      ensures r > 0.0
    {
      RateAt(clock)
    }

    /** The part of the simulation a handler changes, as a value. */
    function State(): Office
      reads this`servers, this`queue, this`history, this`events, this`draws
    {
      Office(servers, queue, history, events, draws)
    }

    /** The decision the scaler takes on an arrival: on the estimate before the customer joins. */
    function ArrivalChange(o: Office): Change
      requires mu > 0.0
    {
      Decide(o.servers, Ewt(|o.queue|, ActiveCount(o.servers), mu, Sentinel), up, down, minServers)
    }

    /**
     * The `LLEGADA` branch up to the assignment, on values, for customer
     * `c`: the fleet is scaled at `clock` on the estimate before `c` joins,
     * `c` joins the end of the line and an assignment is attempted.
     */
    function Joined(o: Office, clock: real, c: Customer): Office
      requires mu > 0.0 && o.draws != []
    {
      Timed.AssignNext(mu, clock, o.(servers := ApplyAt(o.servers, ArrivalChange(o), clock), queue := o.queue + [c]))
    }

    /**
     * The whole `LLEGADA` branch on values: customer
     * `len(historial) + len(cola)` records the line it finds and joins,
     * then the next arrival is scheduled at the rate of `clock`.
     */
    function Arrived(o: Office, clock: real): Office
      requires mu > 0.0 && baseRate > 0.0 && |o.draws| >= 2
    {
      var j := Joined(o, clock, Customer(|o.history| + |o.queue|, clock, |o.queue|, 0.0));
      Scheduled(j, clock, RateAt(clock), false)
    }

    /** The decision the scaler takes after a departure: on 0.0 when the line is empty after the assignment. */
    function DepartureChange(o: Office, clock: real): Change
      requires mu > 0.0 && (o.queue == [] || o.draws != [])
    {
      var r := Timed.AssignNext(mu, clock, o);
      if r.queue == [] then Decide(r.servers, 0.0, up, down, minServers) else NoChange
    }

    /** The `SALIDA` branch after the server is freed, on values: an assignment, then the scaler at `clock` on 0.0 if nobody waits. */
    function Departed(o: Office, clock: real): Office
      requires mu > 0.0 && (o.queue == [] || o.draws != [])
    {
      var r := Timed.AssignNext(mu, clock, o);
      r.(servers := ApplyAt(r.servers, DepartureChange(o, clock), clock))
    }

    /** `_calcular_ewt`. */
    function CurrentEwt(): real
      reads this`queue, this`servers
      requires mu > 0.0
    {
      Ewt(|queue|, ActiveCount(servers), mu, Sentinel)
    }

    /**
     * `_cambiar_estado_servidor(servidores[i], on)`: credit the stretch on
     * shift that ends now, set the flag, stamp the change and count it.
     */
    method SetState(i: nat, on: bool)
      requires i < |servers|
      modifies this
      ensures servers == old(servers)[i := Toggle(old(servers)[i], clock, on)]
      ensures activations == old(activations) + (if on then 1 else 0)
      ensures deactivations == old(deactivations) + (if on then 0 else 1)
      ensures clock == old(clock) && queue == old(queue) && events == old(events)
      ensures history == old(history) && log == old(log) && draws == old(draws)
    {
      var s := servers[i];
      var elapsed := clock - s.lastChange;
      if s.active {
        s := s.(activeTime := s.activeTime + elapsed);
      }
      s := s.(active := on, lastChange := clock);
      servers := servers[i := s];
      if on {
        activations := activations + 1;
      } else {
        deactivations := deactivations + 1;
      }
    }

    /**
     * `_gestionar_escalado(ewt)`: applies the hysteresis decision through
     * `_cambiar_estado_servidor`.
     */
    method Scale(ewt: real)
      requires Core()
      modifies this
      ensures Core()
      ensures servers == ApplyAt(old(servers), Decide(old(servers), ewt, up, down, minServers), clock)
      ensures activations == old(activations) + (if Decide(old(servers), ewt, up, down, minServers).Activate? then 1 else 0)
      ensures deactivations == old(deactivations) + (if Decide(old(servers), ewt, up, down, minServers).Deactivate? then 1 else 0)
      ensures clock == old(clock) && queue == old(queue) && events == old(events)
      ensures history == old(history) && log == old(log) && draws == old(draws)
    {
      var c := Decide(servers, ewt, up, down, minServers);
      ScaleKeepsInv(mu, minServers, maxServers, clock, servers, events, history, queue, activations, deactivations,
                    ewt, up, down, c);
      var active := ActiveCount(servers);
      if ewt > up && active < maxServers {
        var i := FirstInactive(servers);
        if i.Some? {
          SetState(i.value, true);
        }
      } else if ewt < down && active > minServers {
        var i := LastIdleActive(servers);
        if i.Some? {
          SetState(i.value, false);
        }
      }
    }

    /** `_programar_llegada`: one draw at the rate of the moment; the arrival is always scheduled. */
    method ScheduleArrival()
      requires Core() && |draws| >= 1 && Arrivals(events) == 0
      modifies this
      ensures Core()
      ensures draws == old(draws)[1..]
      ensures events == old(events) + [Arrival(clock + Gap(old(draws)[0], Rate()))]
      ensures State() == Scheduled(old(State()), clock, Rate(), false)
      ensures Arrivals(events) == 1
      ensures clock == old(clock) && queue == old(queue) && servers == old(servers) && history == old(history)
      ensures log == old(log) && activations == old(activations) && deactivations == old(deactivations)
    {
      var rate := Rate();
      var t := clock + Gap(draws[0], rate);
      ScheduleKeepsInv(mu, minServers, maxServers, clock, servers, events, history, queue, activations, deactivations, t);
      draws := draws[1..];
      events := events + [Arrival(t)];
    }

    /**
     * `_intentar_asignar`: when someone waits and a server on shift is
     * idle, the head of the line goes to the lowest such server for one
     * drawn duration, which is credited in full to the server's busy time;
     * otherwise nothing changes.
     */
    method TryAssign() returns (started: bool)
      requires Core() && (queue == [] || |draws| >= 1)
      modifies this
      ensures Core()
      ensures started <==> CanServe(old(State()))
      ensures State() == Timed.AssignNext(mu, clock, old(State()))
      ensures Arrivals(events) == old(Arrivals(events))
      ensures clock == old(clock) && log == old(log) && activations == old(activations) && deactivations == old(deactivations)
    {
      if queue == [] {
        return false;
      }
      var candidate := FirstIdleActive(servers);
      if candidate.None? {
        return false;
      }
      var j := candidate.value;
      var d := Gap(draws[0], mu);
      var v := servers[j].(busy := true, busyTime := servers[j].busyTime + d);
      AssignKeepsInv(mu, minServers, maxServers, clock, servers, events, history, queue, activations, deactivations, j, d, v);
      draws := draws[1..];
      history := history + [Served(queue[0], clock, clock + d, 0)];
      queue := queue[1..];
      events := events + [Departure(clock + d, j)];
      servers := servers[j := v];
      return true;
    }

    /** `_registrar_estado`. */
    method TakeSnapshot()
      requires Core()
      modifies this
      ensures Core()
      ensures log == old(log) + [Snapshot(clock, clock, |queue|, ActiveCount(servers), BusyCount(servers), Rate(), CurrentEwt() * 60.0)]
      ensures clock == old(clock) && queue == old(queue) && servers == old(servers) && events == old(events)
      ensures history == old(history) && draws == old(draws)
      ensures activations == old(activations) && deactivations == old(deactivations)
    {
      var snap := Snapshot(clock, clock, |queue|, ActiveCount(servers), BusyCount(servers), Rate(), CurrentEwt() * 60.0);
      ActiveCountBounds(servers);
      BusyAtMostActive(servers);
      LogAppend(log, clock, maxServers, snap);
      log := log + [snap];
    }

    /**
     * The `LLEGADA` branch from the scaler on, for customer `c` created now
     * with the line it found: the estimate before it joins is fed to the
     * scaler, the customer joins the line and an assignment is attempted.
     */
    method Join(c: Customer)
      requires Valid() && c.id == |history| + |queue| && c.arrival == clock && |draws| >= 1
      modifies this
      ensures Valid()
      ensures State() == Joined(old(State()), clock, c)
      ensures activations == old(activations) + (if ArrivalChange(old(State())).Activate? then 1 else 0)
      ensures deactivations == old(deactivations) + (if ArrivalChange(old(State())).Deactivate? then 1 else 0)
      ensures clock == old(clock) && log == old(log) && old(history) <= history
      ensures queue != [] ==> queue[|queue| - 1] == c
      ensures queue == [] ==> history != [] && history[|history| - 1].customer == c
      ensures |history| <= old(|history|) + 1 && |history| + |queue| == c.id + 1
      ensures |draws| + (|history| - old(|history|)) == old(|draws|)
      ensures Arrivals(events) == old(Arrivals(events))
    {
      var ewt := CurrentEwt();
      ghost var waiting := queue;
      ghost var change := Decide(servers, ewt, up, down, minServers);
      assert change == ArrivalChange(State());
      ScaleAtKeepsFleet(servers, ewt, up, down, minServers, clock);
      ScaleAtLeavesOneIdle(servers, queue, change, clock);
      Scale(ewt);
      ghost var scaled := servers;
      BooksEnqueue(minServers, maxServers, clock, servers, events, history, queue, c);
      queue := queue + [c];
      assert State() == old(State()).(servers := ApplyAt(old(servers), change, clock), queue := old(queue) + [c]);
      var started := TryAssign();
      if started && waiting != [] {
        OnlyIdleIsLowest(scaled, change.index);
        AssignRestores(scaled, waiting + [c], change.index, servers[change.index]);
      } else if !started {
        NothingToAssign(scaled, waiting + [c]);
      }
    }

    /**
     * The `LLEGADA` branch: customer `len(historial) + len(cola)` records
     * the line it finds and joins, the next arrival is scheduled and the
     * state is recorded.
     */
    method Arrive()
      requires Valid() && |draws| >= 2 && Arrivals(events) == 0
      modifies this
      ensures Valid()
      ensures State() == Arrived(old(State()), clock)
      ensures activations == old(activations) + (if ArrivalChange(old(State())).Activate? then 1 else 0)
      ensures deactivations == old(deactivations) + (if ArrivalChange(old(State())).Deactivate? then 1 else 0)
      ensures log == old(log) + [Snapshot(clock, clock, |queue|, ActiveCount(servers), BusyCount(servers), Rate(), CurrentEwt() * 60.0)]
      ensures clock == old(clock) && old(history) <= history
      ensures |history| + |queue| == old(|history|) + old(|queue|) + 1
      ensures queue != [] ==> queue[|queue| - 1] == Customer(old(|history|) + old(|queue|), clock, old(|queue|), 0.0)
      ensures queue == [] ==> history[|history| - 1].customer == Customer(old(|history|) + old(|queue|), clock, old(|queue|), 0.0)
      ensures |log| == old(|log|) + 1 && |draws| < old(|draws|) && Arrivals(events) == 1
    {
      var c := Customer(|history| + |queue|, clock, |queue|, 0.0);
      Join(c);
      ghost var joined := State();
      ScheduleArrival();
      assert State() == Scheduled(joined, clock, RateAt(clock), false);
      ghost var scheduled := State();
      TakeSnapshot();
      assert State() == scheduled;
    }

    /**
     * The `SALIDA` branch after server `freed` is freed, up to the record:
     * an assignment is attempted and the scaler is fed 0.0 when nobody
     * waits.
     */
    method Release(ghost freed: nat)
      requires Core() && (queue == [] || |draws| >= 1)
      requires queue != [] ==> OnlyIdle(servers, freed)
      modifies this
      ensures Valid()
      ensures State() == Departed(old(State()), clock)
      ensures activations == old(activations) + (if DepartureChange(old(State()), clock).Activate? then 1 else 0)
      ensures deactivations == old(deactivations) + (if DepartureChange(old(State()), clock).Deactivate? then 1 else 0)
      ensures clock == old(clock) && log == old(log) && old(history) <= history
      ensures |history| + |queue| == old(|history|) + old(|queue|)
      ensures Arrivals(events) == old(Arrivals(events))
      ensures |draws| < old(|draws|) || (draws == old(draws) && events == old(events))
    {
      ghost var before := servers;
      var started := TryAssign();
      if started {
        OnlyIdleIsLowest(before, freed);
        AssignRestores(before, old(queue), freed, servers[freed]);
      } else {
        NothingToAssign(before, queue);
      }
      if queue == [] {
        Scale(0.0);
      }
    }

    /**
     * The `SALIDA` branch after server `freed` is freed: an assignment is
     * attempted, the scaler is fed 0.0 when nobody waits, and the state is
     * recorded.
     */
    method Depart(ghost freed: nat)
      requires Core() && (queue == [] || |draws| >= 1)
      requires queue != [] ==> OnlyIdle(servers, freed)
      modifies this
      ensures Valid()
      ensures State() == Departed(old(State()), clock)
      ensures activations == old(activations) + (if DepartureChange(old(State()), clock).Activate? then 1 else 0)
      ensures deactivations == old(deactivations) + (if DepartureChange(old(State()), clock).Deactivate? then 1 else 0)
      ensures log == old(log) + [Snapshot(clock, clock, |queue|, ActiveCount(servers), BusyCount(servers), Rate(), CurrentEwt() * 60.0)]
      ensures clock == old(clock) && old(history) <= history
      ensures |history| + |queue| == old(|history|) + old(|queue|)
      ensures |log| == old(|log|) + 1 && Arrivals(events) == old(Arrivals(events))
      ensures |draws| < old(|draws|) || (draws == old(draws) && events == old(events))
    {
      Release(freed);
      TakeSnapshot();
    }

    /**
     * The head of an iteration of the loop of `correr_simulacion`: pop the
     * earliest event. An arrival after closing time is dropped with nothing
     * else changed (`handled` is false); otherwise the clock moves to the
     * event and a departure frees its server.
     */
    method Pop() returns (popped: Event, k: nat, handled: bool)
      requires Valid() && events != []
      modifies this
      ensures k < old(|events|) && popped == old(events)[k] && forall x :: x in old(events) ==> Le(popped, x)
      ensures handled <==> !(popped.Arrival? && popped.time > Closing)
      ensures State() == Popped(old(State()), k, old(servers))
      ensures !handled ==> Valid() && clock == old(clock)
      ensures handled ==> clock == popped.time
      ensures handled && popped.Arrival? ==> Valid()
      ensures handled && popped.Departure? ==> Core() && (queue != [] ==> OnlyIdle(servers, popped.server))
      ensures popped.Arrival? ==> Arrivals(events) == 0 && Arrivals(events) + 1 == old(Arrivals(events))
      ensures Arrivals(events) <= old(Arrivals(events))
      ensures log == old(log) && activations == old(activations) && deactivations == old(deactivations)
      ensures old(clock) <= clock
    {
      var rest;
      popped, k, rest := PopMin(events);
      if popped.Arrival? && popped.time > Closing {
        DropArrivalKeepsInv(mu, minServers, maxServers, clock, servers, events, history, queue, activations, deactivations, k);
        events := rest;
        return popped, k, false;
      }
      match popped {
        case Arrival(t) =>
          PopArrivalKeepsInv(mu, minServers, maxServers, clock, servers, events, history, queue, activations, deactivations, k, t);
          LogLater(log, clock, t, maxServers);
        case Departure(t, s) =>
          PopDepartureKeepsInv(mu, minServers, maxServers, clock, servers, events, history, queue, activations, deactivations,
                               k, t, s);
          LogLater(log, clock, t, maxServers);
          servers := servers[s := servers[s].(busy := false)];
      }
      clock := popped.time;
      events := rest;
      handled := true;
    }

    /** The body of an iteration of the loop of `correr_simulacion` once the event is popped. */
    method Handle(popped: Event)
      requires clock == popped.time && |draws| >= 2
      requires popped.Arrival? ==> Valid() && Arrivals(events) == 0
      requires popped.Departure? ==> Core() && (queue != [] ==> OnlyIdle(servers, popped.server))
      modifies this
      ensures Valid()
      ensures popped.Arrival? ==>
                && State() == Arrived(old(State()), clock) && Arrivals(events) == 1
                && activations == old(activations) + (if ArrivalChange(old(State())).Activate? then 1 else 0)
                && deactivations == old(deactivations) + (if ArrivalChange(old(State())).Deactivate? then 1 else 0)
      ensures popped.Departure? ==>
                && State() == Departed(old(State()), clock) && Arrivals(events) == old(Arrivals(events))
                && activations == old(activations) + (if DepartureChange(old(State()), clock).Activate? then 1 else 0)
                && deactivations == old(deactivations) + (if DepartureChange(old(State()), clock).Deactivate? then 1 else 0)
      ensures clock == old(clock)
      ensures log == old(log) + [Snapshot(clock, clock, |queue|, ActiveCount(servers), BusyCount(servers), Rate(), CurrentEwt() * 60.0)]
      ensures old(history) <= history
      ensures |draws| < old(|draws|) || (draws == old(draws) && events == old(events))
    {
      if popped.Arrival? {
        Arrive();
      } else {
        Depart(popped.server);
      }
    }

    /**
     * One iteration of the loop of `correr_simulacion`: pop the earliest
     * event. An arrival after closing time is dropped, clock untouched, and
     * no arrival is pending afterwards; otherwise the clock moves to the
     * event and it is handled. No arrival is ever pending again once none
     * is. Every event consumes a draw or shrinks the event list.
     */
    method Step() returns (popped: Event, k: nat)
      requires Valid() && events != [] && |draws| >= 2
      modifies this
      ensures Valid()
      ensures k < old(|events|) && popped == old(events)[k] && forall x :: x in old(events) ==> Le(popped, x)
      ensures popped.Arrival? && popped.time > Closing ==>
                && State() == Popped(old(State()), k, old(servers)) && Arrivals(events) == 0
                && clock == old(clock) && log == old(log)
                && activations == old(activations) && deactivations == old(deactivations)
      ensures !(popped.Arrival? && popped.time > Closing) ==>
                && clock == popped.time
                && log == old(log) + [Snapshot(clock, clock, |queue|, ActiveCount(servers), BusyCount(servers), Rate(), CurrentEwt() * 60.0)]
      ensures popped.Arrival? && popped.time <= Closing ==>
                && State() == Arrived(Popped(old(State()), k, old(servers)), popped.time)
                && activations == old(activations) + (if ArrivalChange(Popped(old(State()), k, old(servers))).Activate? then 1 else 0)
                && deactivations == old(deactivations) + (if ArrivalChange(Popped(old(State()), k, old(servers))).Deactivate? then 1 else 0)
      ensures popped.Departure? ==>
                && State() == Departed(Popped(old(State()), k, old(servers)), popped.time)
                && activations == old(activations) + (if DepartureChange(Popped(old(State()), k, old(servers)), popped.time).Activate? then 1 else 0)
                && deactivations == old(deactivations) + (if DepartureChange(Popped(old(State()), k, old(servers)), popped.time).Deactivate? then 1 else 0)
      ensures Arrivals(events) <= old(Arrivals(events))
      ensures old(clock) <= clock && old(history) <= history
      ensures |draws| < old(|draws|) || (|draws| == old(|draws|) && |events| < old(|events|))
    {
      var handled;
      popped, k, handled := Pop();
      if handled {
        ghost var p := State();
        assert p == Popped(old(State()), k, old(servers));
        Handle(popped);
      }
    }

    /**
     * The closing sweep of `correr_simulacion`: every server still on shift
     * is credited the time since its last change.
     */
    method CloseTimers()
      modifies this
      ensures servers == Swept(old(servers), clock)
      ensures clock == old(clock) && queue == old(queue) && events == old(events) && history == old(history)
      ensures log == old(log) && draws == old(draws)
      ensures activations == old(activations) && deactivations == old(deactivations)
    {
      ghost var before := servers;
      for i := 0 to |servers|
        invariant |servers| == |before|
        invariant forall j :: 0 <= j < i ==> servers[j] == Swept(before, clock)[j]
        invariant forall j :: i <= j < |servers| ==> servers[j] == before[j]
        invariant clock == old(clock) && queue == old(queue) && events == old(events) && history == old(history)
        invariant log == old(log) && draws == old(draws)
        invariant activations == old(activations) && deactivations == old(deactivations)
      {
        if servers[i].active {
          servers := servers[i := servers[i].(activeTime := servers[i].activeTime + (clock - servers[i].lastChange))];
        }
      }
    }

    /**
     * `correr_simulacion` on a fresh simulation: schedule the first arrival,
     * handle events until none is pending, then sweep. The draws are finite
     * here, so the run also stops when fewer than two remain; `completed`
     * tells the two apart. A completed run leaves every server idle, with
     * its active time as accrued by the end and its busy time within it,
     * so every reported utilization lies within [0, 100].
     */
    method Run() returns (completed: bool)
      requires Valid() && events == []
      modifies this
      ensures !completed ==> Valid() && |draws| < 2
      ensures completed ==> events == [] && forall i :: 0 <= i < |servers| ==>
                !servers[i].busy && 0.0 <= servers[i].busyTime <= servers[i].activeTime
                && 0.0 <= Utilization(servers[i].busyTime, servers[i].activeTime, 0.0) <= 100.0
    {
      if |draws| == 0 {
        return false;
      }
      ScheduleArrival();
      while events != [] && |draws| >= 2
        invariant Valid()
        decreases |draws|, |events|
      {
        var _, _ := Step();
      }
      if events != [] {
        return false;
      }
      Drained(servers);
      SweptWithin(servers, events, clock);
      CloseTimers();
      return true;
    }
  }
}
