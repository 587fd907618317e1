# Bank-queue simulators, modelled in Dafny

This project models the simulation cores of a small repository of queueing
simulators for bank tellers and supermarket cashiers. The heart of the
repository is one discrete-event engine, copied with small changes into seven
Python files:

- `simulacion_banco.py`
- `app_banco.py`
- `simulacion_master.py`
- `simulacion_dashboard_final.py`
- `simulacion_final.py`
- `simulacion_pro.py`
- `simulacion_variable.py`

The engine keeps four things:

- a fleet of tellers (`Servidor`), each with an on-shift flag (`activo`) and a busy flag (`ocupado`);
- a FIFO waiting line (`cola_clientes`);
- a `heapq` of `(time, "LLEGADA"|"SALIDA", data)` tuples;
- a history of served customers.

An auto-scaler with hysteresis does the following:

- It puts the lowest-indexed off-shift teller on shift when the estimated wait exceeds `umbral_up`.
- It takes the highest-indexed idle teller off shift when the estimate falls below `umbral_down`.
- Each call changes at most one teller, and the fleet stays between `min_servers` and `max_servers`.

The copies differ in five ways, and the model follows each file:

- the demand curve;
- where the 8-hour closing time is applied;
- how active time is accounted: per event, or per change of state plus a final sweep;
- the counters and snapshots kept;
- whether a run ends at a customer count or at closing time.

There are also two closed-form simulators:

- `simular_escenario_fijo` (supermercado_myth.py): several cashiers, each customer served by the cashier that frees up first. It returns a row for each customer who found a line.
- `SimuladorMM1::correr` (mi_modulo.cpp): a single server driven by the Lindley recursion. It returns averages, utilization and a sample of waits.

## How it is modelled

Random draws come from the caller:

- Each engine takes `draws`, a sequence of positive unit-rate exponential draws. A gap at rate `r` is `draw / r`, which is what `random.expovariate(r)` computes from its own draw.
- The two closed-form simulators take their gaps and durations (or the unit draws for them) as sequences.

Times are `real`.

The heap is an unordered sequence, and the event popped is the minimum in Python's tuple order:

- at equal times, `"LLEGADA"` comes before `"SALIDA"`;
- departures at equal times are ordered by teller id.

Module layout:

- **Shared value-level modules:**
  - `Events`: the event set and its order.
  - `Fleet`: tellers, counts, the three index scans, the scaling rule, the wait estimate and utilization.
  - `Customers`: the FIFO discipline.
  - `Demand`: the four demand curves.
  - `Ledger`: one pending departure per busy teller, no event before the clock, and time-integral bounds.
  - `Engine`: the shared invariant `Books` and the work-conserving rule.
- **Per-timing-family invariants:**
  - `Timed`: the per-event active-time integration of the master, dashboard and final copies.
  - `Stamped`: the service-end stamping of the banco, app and variable copies.
  - `Accrual`: accounting per change of state, for the pro copy.
- **Engine classes:** one `class Simulation` per engine file (`BancoSim`, `AppBancoSim`, `MasterSim`, `DashboardSim`, `FinalSim`, `ProSim`, `VariableSim`). Its fields mirror the Python object's fields, its methods mirror the Python methods, and its `Valid()` invariant is preserved by every step.
- **Handlers as transitions:** the part of an engine that its handlers change (fleet, line, history, pending events, draws) is one `Engine.Office` value, `State()`. Each engine states its branches as functions on it: `Joined` and `Arrived` for `LLEGADA`, `Departed` for `SALIDA`, built from `Engine.Popped`, `Engine.Scheduled` and one assignment step (`Stamped.ServeNext` or `Timed.AssignNext`). Each handler method ensures that its new `State()` is that function of the old one.
- **Closed-form simulators:** `Market` and `MM1`. Each loop is a method proved against a recursive specification function.

## Model

| member | source | states |
|---|---|---|
| Events.LeIsTotalOrder | simulacion_banco.py:122 | the tuple order on events is total, antisymmetric and transitive, and orders by time first, so the popped minimum is unique |
| Events.ArrivalBeforeDeparture | simulacion_banco.py:122 | at equal times an arrival comes before a departure, and departures are ordered by teller id |
| Events.Remove | simulacion_banco.py:122 | removing entry k keeps every other event, in order |
| Events.PopMin | simulacion_banco.py:122 | `heappop` returns an event of the set that is no later than any other in tuple order, and leaves the rest |
| Fleet.ActiveCountBounds | simulacion_banco.py:67 | the on-shift count is at most the fleet size, with equality exactly when every teller is on shift |
| Fleet.BusyAtMostActive | simulacion_banco.py:184 | when busy implies on shift, the busy count never exceeds the on-shift count |
| Fleet.LowestInactive | simulacion_banco.py:84-86 | the index found is off shift and every lower index is on shift; none exactly when all are on shift |
| Fleet.HighestIdleActive | simulacion_banco.py:95-97 | the index found is on shift and idle and every higher one is not; none exactly when no teller is on shift and idle |
| Fleet.LowestIdleActive | simulacion_banco.py:170-173 | the index found is on shift and idle and every lower one is not; none exactly when no teller is on shift and idle |
| Fleet.FirstInactive | simulacion_banco.py:84-86 | the forward scan finds exactly `LowestInactive` |
| Fleet.LastIdleActive | simulacion_banco.py:95-97 | the backward scan over `range(max-1, -1, -1)` finds exactly `HighestIdleActive` |
| Fleet.FirstIdleActive | simulacion_banco.py:168-173 | the forward scan for a candidate finds exactly `LowestIdleActive` |
| Fleet.InitialFleet | simulacion_banco.py:50-54 | fails exactly when min > max (the index error of the start-up loop); otherwise max tellers, exactly 0..min-1 on shift, none busy |
| Fleet.BuildFleet | simulacion_banco.py:50-54 | the start-up loop builds exactly `InitialFleet` |
| Fleet.Decide | simulacion_banco.py:77-101 | scale up if and only if estimate > up and some teller is off, taking the lowest off index; else scale down if and only if estimate < down, more than min on and an idle on-shift teller exists, taking the highest such index |
| Fleet.Apply | simulacion_banco.py:84-101 | applying a decision keeps the fleet size |
| Fleet.ApplyOnly | simulacion_banco.py:84-101 | applying a decision flips only the named teller's shift flag, on for an activation and off for a deactivation, and leaves every other teller as it was |
| Fleet.Hysteresis | simulacion_banco.py:82-92 | with the estimate between the two thresholds the scaler changes nothing |
| Fleet.ScaleKeepsFleet | simulacion_banco.py:77-101 | a scaling step keeps min ≤ on-shift and busy ⇒ on shift, changes the on-shift count by exactly the decision, flips only the chosen teller's flag, and never takes a busy teller off shift |
| Fleet.AdvanceActive | simulacion_master.py:79-83 | the timer loop adds delta to the active time of exactly the on-shift tellers |
| Fleet.AdvanceKeepsFlags | simulacion_master.py:79-83 | advancing the timers changes no flag and no count, and keeps the fleet invariant |
| Fleet.Advanced | simulacion_master.py:79-83 | advancing the timers keeps the fleet size and every field but active time, and adds delta to the active time of exactly the on-shift tellers |
| Fleet.Ewt | simulacion_banco.py:64-75 | the sentinel when no teller is on shift; otherwise a non-negative r with r × (active × mu) = queue length, zero exactly when the line is empty |
| Fleet.Utilization | simulacion_master.py:233-236 | 0 unless active time exceeds the guard; otherwise u × active = busy × 100; within [0, 100] whenever 0 ≤ busy ≤ active |
| Customers.EmptyFifo | simulacion_banco.py:49-61 | an empty line and history satisfy the FIFO invariant |
| Customers.Enqueue | simulacion_banco.py:128-140 | appending a customer stamped with the next id and the clock keeps the FIFO invariant |
| Customers.ServeHead | simulacion_banco.py:177-193 | moving the head of the line to the history, started at the clock with a positive duration, keeps the FIFO invariant |
| Customers.LaterClock | simulacion_banco.py:122-123 | moving the clock forward keeps the FIFO invariant |
| Customers.Sorted | simulacion_banco.py:177-193 | history entries are in non-decreasing order of both start and arrival |
| Customers.FifoService | simulacion_banco.py:177-193 | whoever arrived earlier (or has a lower id) started service no later |
| Customers.ReportBounds | app_banco.py:149-150 | every reported wait is ≥ 0 and strictly below the reported time in the system |
| Customers.WaitMinutes | app_banco.py:149 | the reported wait in minutes is non-negative exactly when service started no earlier than arrival |
| Customers.SystemMinutes | app_banco.py:150 | the reported time in the system exceeds the reported wait by exactly the service time in minutes |
| Demand.MasterFactor | simulacion_master.py:21-33 | the factor lies in [0, 1.8]; it is 0 exactly outside [0, 8] and 1.8 exactly on [3, 5) |
| Demand.FinalFactor | simulacion_final.py:14-21 | the factor lies in [0.1, 2.0]; it is 0.1 exactly outside [0, 8] and 2.0 exactly on [4, 6) |
| Demand.ProFactor | simulacion_pro.py:14-21 | the factor lies in [0.1, 1.8]; it is 0.1 exactly outside [0, 8] and 1.8 exactly on [4, 6) |
| Demand.VariableFactor | simulacion_variable.py:29-40 | the factor lies in [0.4, 1.8]; it is the 0.5 default exactly outside [0, 8] and equals the pro factor inside |
| Demand.PeakIsMaximum | simulacion_master.py:29 | each curve's peak band is its maximum |
| Demand.RateSign | simulacion_master.py:133-134 | the master and dashboard rate is positive exactly for a positive base inside opening hours; the other three rates are positive exactly for a positive base |
| Demand.Gap | simulacion_banco.py:105-106 | a gap at rate r times r is the unit draw, and it is positive for a positive draw |
| Demand.GapShrinks | simulacion_variable.py:115-120 | a higher rate never gives a longer gap for the same draw |
| Ledger.PopDeparture | simulacion_banco.py:149-152 | a popped departure names a busy teller, and freeing it keeps one pending departure per busy teller |
| Ledger.PushDeparture | simulacion_banco.py:184-196 | marking an idle teller busy and pushing its departure keeps one pending departure per busy teller |
| Ledger.Drained | simulacion_banco.py:118-119 | once no event is pending, no teller is busy |
| Ledger.PushKeepsDue | simulacion_banco.py:106-107 | pushing an event no earlier than the clock keeps every event at or after the clock |
| Ledger.PushKeepsArrivals | simulacion_dashboard_final.py:147-148 | pushing only arrivals up to closing time keeps every pending arrival at or before closing time |
| Ledger.DropKeepsArrivals | simulacion_dashboard_final.py:110 | popping any event keeps every pending arrival at or before closing time |
| Ledger.IdleWithinActive | simulacion_master.py:233-236 | once every teller is idle, each teller's busy time lies between 0 and its active time |
| Ledger.AdvanceKeepsBound | simulacion_master.py:112-114 | advancing the timers and the clock together keeps busy time within active time accrued by each service's end |
| Ledger.AssignKeepsBound | simulacion_master.py:156-163 | crediting a whole service duration to busy time at its start keeps the bound, because its departure is pending |
| Ledger.FreeKeepsBound | simulacion_master.py:197-199 | freeing a teller at its departure time keeps the bound |
| Ledger.AssignKeepsEnds | simulacion_variable.py:179-182 | stamping `tiempo_fin_servicio` equal to the pushed departure keeps stamps and pending departures in agreement |
| Ledger.FreeKeepsEnds | simulacion_variable.py:157-159 | freeing a teller keeps stamps and pending departures in agreement |
| Engine.Freed | simulacion_banco.py:150-152 | the departing teller, and only it, becomes idle; the fleet keeps its size |
| Engine.Popped | simulacion_master.py:173-199 | the popped event leaves the pending list, a departure's teller is freed in the fleet the timers left, and line, history and draws are unchanged |
| Engine.Scheduled | simulacion_master.py:132-142 | nothing at a non-positive rate; otherwise one draw is consumed and at most one arrival is pushed, strictly after the clock and, under the closing check, no later than 8.0; exactly one without a closing check; fleet, line and history unchanged |
| Engine.BooksStart | simulacion_banco.py:47-62 | the initial state satisfies the shared invariant and is work-conserving |
| Engine.BooksFleet | simulacion_banco.py:77-101 | a change of on-shift flags that keeps the fleet invariant and the busy flags keeps the shared invariant |
| Engine.BooksEnqueue | simulacion_banco.py:128-140 | appending the next customer at the clock keeps the shared invariant |
| Engine.BooksSchedule | simulacion_banco.py:103-107 | pushing an arrival no earlier than the clock keeps the shared invariant |
| Engine.BooksAssign | simulacion_banco.py:163-199 | serving the head on the lowest idle on-shift teller, with a departure pushed at clock + duration, keeps the shared invariant |
| Engine.PoppedFirst | simulacion_banco.py:122 | after the minimum is popped, every pending event is at or after its time |
| Engine.BooksPopArrival | simulacion_banco.py:122-126 | a popped arrival is not before the clock, and moving the clock to it keeps the shared invariant |
| Engine.BooksPopDeparture | simulacion_banco.py:149-152 | a popped departure is not before the clock and names a busy on-shift teller; freeing it at the new clock keeps the shared invariant |
| Engine.FreeLeavesOneIdle | simulacion_banco.py:149-156 | after a departure frees a teller while customers wait, that teller is the only idle on-shift one |
| Engine.ScaleLeavesOneIdle | simulacion_banco.py:135-143 | when customers wait, a scale-up leaves exactly the new teller idle, and anything else leaves none idle |
| Engine.NoIdleWhileWaiting | simulacion_banco.py:165-175 | in a work-conserving state with a waiting customer no idle on-shift teller exists |
| Engine.OnlyIdleIsLowest | simulacion_banco.py:170-173 | if only teller j may be idle and on shift, the scan finds j |
| Engine.AssignRestores | simulacion_banco.py:175-184 | serving the head on the only idle teller restores the work-conserving rule |
| Engine.DrainedConserving | simulacion_banco.py:118-119 | if all tellers are idle and a customer still waits, no teller is on shift |
| Engine.NothingToAssign | simulacion_banco.py:165-175 | when the line is empty or no idle on-shift teller exists, the state is work-conserving |
| Timed.InvStart | simulacion_master.py:53-77 | the initial state satisfies the timed invariant, with no arrival after closing pending |
| Timed.AssignNext | simulacion_master.py:144-163 | when someone waits and an on-shift teller is idle, the head starts now on the lowest such teller, whose busy time gains the duration; the customer joins the history and its departure is pushed; otherwise nothing changes; one more busy teller per service, the on-shift count kept |
| Timed.AssignKeepsInv | simulacion_master.py:144-163 | FIFO assignment with busy time credited keeps the timed invariant and pending arrivals |
| Timed.ScheduleKeepsInv | simulacion_master.py:132-142 | pushing an arrival at or after the clock keeps the timed invariant, and keeps arrivals within closing time when it is within |
| Timed.ScaleKeepsInv | simulacion_master.py:109-130 | a scaling decision keeps the timed invariant and moves the activation or deactivation counter by exactly the change |
| Timed.PopArrivalKeepsInv | simulacion_master.py:173-180 | popping an arrival, advancing timers by delta and moving the clock keeps the timed invariant and work conservation |
| Timed.DropArrivalKeepsInv | simulacion_final.py:124 | dropping a late arrival without touching timers or clock keeps the timed invariant |
| Timed.PopDepartureKeepsInv | simulacion_master.py:173-199 | popping a departure, advancing timers and freeing its teller keeps the timed invariant and leaves that teller the only idle one |
| Stamped.InvStart | simulacion_banco.py:30-62 | the initial state satisfies the stamped invariant with no busy teller |
| Stamped.ServeNext | simulacion_banco.py:163-199 | when someone waits and an on-shift teller is idle, the head starts now on the lowest such teller, which is stamped with the departure; the customer joins the history with the line left behind (or 0) and its departure is pushed; otherwise nothing changes; one more busy teller per service, the on-shift count kept |
| Stamped.AssignKeepsInv | simulacion_banco.py:163-199 | FIFO assignment with the service end stamped keeps the stamped invariant, adds one busy teller and no arrival |
| Stamped.ScheduleKeepsInv | simulacion_banco.py:103-107 | pushing an arrival keeps the stamped invariant and adds exactly one pending arrival |
| Stamped.ScaleKeepsInv | simulacion_banco.py:77-101 | a scaling decision keeps the stamped invariant and the busy count, and moves the on-shift count by exactly the change |
| Stamped.PopArrivalKeepsInv | simulacion_banco.py:122-126 | popping an arrival and moving the clock keeps the stamped invariant and removes one pending arrival |
| Stamped.PopDepartureKeepsInv | simulacion_banco.py:122-152 | popping a departure and freeing its teller keeps the stamped invariant, lowers the busy count by one and leaves that teller the only idle one |
| Accrual.Toggle | simulacion_pro.py:99-108 | switching a teller folds the time since its last change into active time only if it was on shift, stamps the clock and sets the new flag |
| Accrual.Accrued | simulacion_pro.py:177-180 | an off-shift teller's accrued time is its active time; an on-shift teller's is at least it once the clock has reached its last change |
| Accrual.ApplyAt | simulacion_pro.py:112-125 | a decision applied through the state change keeps the fleet size, toggles only the named teller at the clock and leaves every teller's accrued time at the clock unchanged |
| Accrual.ScaleAtKeepsFleet | simulacion_pro.py:112-125 | a scaling step routed through the state change keeps the fleet invariant, moves the on-shift count by exactly the change and toggles only the chosen teller |
| Accrual.ScaleAtLeavesOneIdle | simulacion_pro.py:151-155 | when customers wait, a scale-up leaves only the new teller idle, and anything else keeps the work-conserving rule |
| Accrual.StartAccrued | simulacion_pro.py:42-65 | initially no busy time exceeds accrued active time |
| Accrual.LaterKeepsAccrued | simulacion_pro.py:145 | moving the clock to the popped time keeps busy time within the active time accrued by each service's end |
| Accrual.FreeKeepsAccrued | simulacion_pro.py:159-162 | freeing a teller at its departure keeps the accrual bound |
| Accrual.AssignKeepsAccrued | simulacion_pro.py:189-205 | crediting a whole service to `tiempo_total_ocupado` at its start keeps the accrual bound |
| Accrual.ToggleKeepsAccrued | simulacion_pro.py:99-110 | a change of state keeps the accrual bound |
| Accrual.DropKeepsAccrued | simulacion_pro.py:139 | dropping a late arrival keeps the accrual bound |
| Accrual.ArrivalKeepsAccrued | simulacion_pro.py:184-187 | pushing an arrival keeps the accrual bound |
| Accrual.SweptWithin | simulacion_pro.py:177-180 | after the final sweep each teller's active time is its accrued time, and its busy time lies between 0 and it |
| Accrual.Swept | simulacion_pro.py:177-180 | the final sweep keeps the fleet size and sets each teller's active time to its accrued time, changing nothing else |
| BancoSim.LogLater | simulacion_banco.py:87-99 | the scaling log stays consistent as the clock moves forward |
| BancoSim.LogAppend | simulacion_banco.py:87-99 | appending a change at the clock keeps the log consistent and moves the ACTIVAR or DESACTIVAR count by one |
| BancoSim.CountsAppend | simulacion_banco.py:87-99 | appending an entry raises the ACTIVAR count by one for an activation and the DESACTIVAR count by one otherwise, leaving the other count |
| BancoSim.Logged | simulacion_banco.py:87-99 | a decision logs nothing exactly when it changes nothing, and otherwise one entry (clock, ACTIVAR or DESACTIVAR, teller index, estimate × 60) |
| BancoSim.Simulation.constructor | simulacion_banco.py:30-62 | rates and thresholds as given (thresholds in hours), empty line, events, history and log, and the fleet is `InitialFleet` |
| BancoSim.Simulation.CurrentEwt | simulacion_banco.py:64-75 | the estimate of the current state is `Fleet.Ewt` of the line length and the on-shift count, with the 9999.0 sentinel |
| BancoSim.Simulation.Newcomer | simulacion_banco.py:128-136 | the new customer's id is len(history) + len(line), it arrives at the clock and records the line length; its estimate is the sentinel with nobody on shift and otherwise line ÷ (on-shift × mu) |
| BancoSim.Simulation.Joined | simulacion_banco.py:136-143 | on values: the fleet scaled on the customer's recorded estimate, the customer appended to the line, then `ServeNext` with the line left behind recorded |
| BancoSim.Simulation.Arrived | simulacion_banco.py:126-146 | on values: `Joined` for the `Newcomer`, then `Scheduled` at rate `lambd` with no closing check |
| BancoSim.Simulation.Departed | simulacion_banco.py:155-161 | on values: `ServeNext` when someone can be served, otherwise the scaler applied on an estimate of 0.0 |
| BancoSim.Simulation.Scale | simulacion_banco.py:77-101 | the fleet becomes `Decide` applied, one log entry per change (time, kind, id, estimate × 60), nothing else changes |
| BancoSim.Simulation.ScheduleArrival | simulacion_banco.py:103-107 | consumes one draw and pushes one arrival at clock + gap: the new state is `Scheduled` at rate `lambd` with no closing check |
| BancoSim.Simulation.TryAssign | simulacion_banco.py:163-199 | returns true exactly when the line is non-empty and an idle on-shift teller exists; the new state is `ServeNext`: the head served FIFO on the lowest such teller, stamped with its departure, with `largo_cola_al_entrar` = the line left behind, else nothing changes |
| BancoSim.Simulation.Join | simulacion_banco.py:136-143 | the new state is `Joined`: the fleet scaled on the estimate the customer recorded, the customer appended to the line, then `ServeNext`; the log gains that decision's entry; the customer ends last in the line or, served at once, last in the history |
| BancoSim.Simulation.Arrive | simulacion_banco.py:126-146 | the new state is `Arrived`: customer `id` is created at the clock recording the line length and the estimate found before scaling and enqueueing, the scaler is fed that estimate, the customer joins, and exactly one arrival is scheduled; the log gains the decision's entry |
| BancoSim.Simulation.Depart | simulacion_banco.py:155-161 | serves the next customer exactly when one waits; the new state is `Departed`: `ServeNext`, and the scaler with 0.0 exactly when nobody was served; the log gains that decision's entry |
| BancoSim.Simulation.Step | simulacion_banco.py:118-161 | pops the earliest pending event (minimal in tuple order) and moves the clock to its time; the new state is `Arrived` of the popped office for an arrival while fewer than n customers exist, the popped office alone for a later arrival, and `Departed` of the popped office (teller freed) for a departure; the counters move by at most one and the pending work strictly drops |
| BancoSim.Simulation.Run | simulacion_banco.py:109-161 | ends with no pending event, exactly n customers created, the processed count equal to the history and no teller busy |
| AppBancoSim.LogLater | app_banco.py:49-58 | the time series stays consistent as the clock moves forward |
| AppBancoSim.LogAppend | app_banco.py:49-58 | appending a snapshot at the clock with busy ≤ on-shift ≤ max keeps the series consistent |
| AppBancoSim.Simulation.constructor | app_banco.py:29-47 | parameters as given, thresholds in hours, empty state, fleet `InitialFleet` |
| AppBancoSim.Simulation.CurrentEwt | app_banco.py:60-63 | the estimate of the current state is `Fleet.Ewt` of the line length and the on-shift count, with the 999.0 sentinel |
| AppBancoSim.Simulation.Joined | app_banco.py:105-110 | on values: the fleet scaled on the estimate before the customer joins, the customer appended, then `ServeNext` |
| AppBancoSim.Simulation.Arrived | app_banco.py:100-112 | on values: `Joined` for customer len(history) + len(line) at the clock, then `Scheduled` at the base rate |
| AppBancoSim.Simulation.Departed | app_banco.py:119-121 | on values: `ServeNext`, then the scaler on 0.0 exactly when the line is empty afterwards |
| AppBancoSim.Simulation.Scale | app_banco.py:65-80 | the fleet becomes `Decide` applied; busy count and everything else unchanged |
| AppBancoSim.Simulation.ScheduleArrival | app_banco.py:82-84 | consumes one draw and pushes one arrival at clock + gap: the new state is `Scheduled` at rate `lambd` with no closing check |
| AppBancoSim.Simulation.TryAssign | app_banco.py:130-143 | the new state is `ServeNext`: the head served FIFO on the lowest idle on-shift teller with `tiempo_fin_servicio` = its departure, or nothing changes when that is impossible |
| AppBancoSim.Simulation.TakeSnapshot | app_banco.py:49-58 | appends exactly (clock, line length, on-shift count, busy count) and changes nothing else |
| AppBancoSim.Simulation.Join | app_banco.py:105-110 | the new state is `Joined`: the fleet scaled on the estimate seen before the customer joins, the customer appended, then `ServeNext`; the customer ends last in the line or last in the history |
| AppBancoSim.Simulation.Arrive | app_banco.py:100-112 | the new state is `Arrived`: the next customer, with the line length seen on arrival, is created, the scaler is fed the pre-enqueue estimate, the customer joins and one arrival is scheduled; exactly one snapshot of the new state is logged |
| AppBancoSim.Simulation.Depart | app_banco.py:119-121 | the new state is `Departed`: `ServeNext`, then the scaler with 0.0 exactly when the line is empty afterwards; whoever waited is served, and exactly one snapshot is logged |
| AppBancoSim.Simulation.Step | app_banco.py:94-121 | pops the earliest pending event and moves the clock to its time; the new state is `Arrived`, the popped office alone, or `Departed` (teller freed) by event kind and count; one snapshot per created or processed customer, and the pending work strictly drops |
| AppBancoSim.Simulation.Run | app_banco.py:86-128 | ends with no pending event, exactly n customers created, processed = history, no teller busy |
| MasterSim.LogLater | simulacion_master.py:95-107 | the snapshot log stays consistent as the clock moves forward |
| MasterSim.LogAppend | simulacion_master.py:95-107 | appending a snapshot at the clock with busy ≤ on-shift ≤ max and a non-negative estimate keeps the log consistent |
| MasterSim.Simulation.constructor | simulacion_master.py:53-77 | parameters as given, thresholds in hours, both counters 0, fleet `InitialFleet` |
| MasterSim.Simulation.Rate | simulacion_master.py:85-86 | the rate at the clock is positive exactly for a positive base rate inside opening hours [0, 8] |
| MasterSim.Simulation.RateAt | simulacion_master.py:85-86 | the rate at hour t is positive exactly for a positive base rate inside opening hours [0, 8] |
| MasterSim.Simulation.CurrentEwt | simulacion_master.py:88-94 | the estimate of the current state is `Fleet.Ewt` of the line length and the on-shift count, with the 999.0 sentinel |
| MasterSim.Simulation.Joined | simulacion_master.py:183-193 | on values: customer len(history) + len(line) at the clock, the fleet scaled on the estimate before it joins, the customer appended, then `AssignNext` |
| MasterSim.Simulation.Departed | simulacion_master.py:201-202 | on values: `AssignNext`, then the scaler on 0.0 exactly when the line is empty afterwards |
| MasterSim.Simulation.Scale | simulacion_master.py:109-130 | the fleet becomes `Decide` applied and the matching counter rises by exactly one per change |
| MasterSim.Simulation.ScheduleArrival | simulacion_master.py:132-142 | the new state is `Scheduled` with the closing check: nothing when the rate ≤ 0; otherwise one draw consumed, and one arrival pushed exactly when clock + gap ≤ 8.0 |
| MasterSim.Simulation.TryAssign | simulacion_master.py:144-163 | answers whether someone could be served; the new state is `AssignNext`: the head served FIFO on the lowest idle on-shift teller with the duration added to its busy time, or nothing changes |
| MasterSim.Simulation.TakeSnapshot | simulacion_master.py:95-107 | appends exactly (clock, line, on-shift, busy, rate, estimate × 60) and changes nothing else |
| MasterSim.Simulation.Enqueue | simulacion_master.py:185-192 | the customer len(history) + len(line) with the pre-enqueue line length is appended and the fleet becomes `Decide` on the pre-enqueue estimate applied; the matching counter rises by one; while others already waited, only a teller just put on shift can be idle |
| MasterSim.Simulation.Arrive | simulacion_master.py:183-193 | the new state is `Joined`: customer len(history) + len(line) with `cola_al_llegar` = the pre-enqueue length, the scaler fed the pre-enqueue estimate, the customer appended, then `AssignNext`; the counter of the decision rises by one; scheduling and the snapshot are `Handle`'s |
| MasterSim.Simulation.Depart | simulacion_master.py:201-202 | after the teller is freed, the new state is `Departed`: `AssignNext`, then the scaler with 0.0 exactly when the line is empty afterwards; the counter of that decision rises by one |
| MasterSim.Simulation.Pop | simulacion_master.py:173-199 | pops an event that is minimal in tuple order; every on-shift timer advances by event time − old clock (`Advanced`), the clock moves to the event's time, and a departure's teller is freed (`Popped`); log and counters unchanged |
| MasterSim.Simulation.Handle | simulacion_master.py:183-203 | an arrival makes the state `Scheduled` of `Joined` with the closing check, a departure makes it `Departed`; the counters follow the decision and exactly one snapshot of the new state is logged |
| MasterSim.Simulation.Step | simulacion_master.py:172-203 | pops the earliest event; the timers advance by event time − old clock (`Advanced`) before the clock moves to the event's time; the new state is `Scheduled` of `Joined` (arrival) or `Departed` (departure) of that popped office, the counters follow the decision, and exactly one snapshot (clock, line, on-shift, busy, rate, estimate × 60) is logged |
| MasterSim.Simulation.Run | simulacion_master.py:165-212 | when the events drain, no teller is busy and each reported utilization lies in [0, 100] |
| DashboardSim.LogLater | simulacion_dashboard_final.py:76-85 | the snapshot log stays consistent as the clock moves forward |
| DashboardSim.LogAppend | simulacion_dashboard_final.py:76-85 | appending a snapshot at the clock keeps the log consistent |
| DashboardSim.Simulation.constructor | simulacion_dashboard_final.py:43-61 | parameters as given, thresholds in hours, both counters 0, fleet `InitialFleet` |
| DashboardSim.Simulation.Rate | simulacion_dashboard_final.py:68-69 | the rate at the clock is positive exactly for a positive base rate inside opening hours [0, 8] |
| DashboardSim.Simulation.RateAt | simulacion_dashboard_final.py:68-69 | the rate at hour t is positive exactly for a positive base rate inside opening hours [0, 8] |
| DashboardSim.Simulation.CurrentEwt | simulacion_dashboard_final.py:71-74 | the estimate of the current state is `Fleet.Ewt` of the line length and the on-shift count, with the 999.0 sentinel |
| DashboardSim.Simulation.Joined | simulacion_dashboard_final.py:119-126 | on values: customer len(history) + len(line) at the clock, the fleet scaled on the estimate before it joins, the customer appended, then `AssignNext` |
| DashboardSim.Simulation.Departed | simulacion_dashboard_final.py:133-134 | on values: `AssignNext`, then the scaler on 0.0 exactly when the line is empty afterwards |
| DashboardSim.Simulation.Scale | simulacion_dashboard_final.py:87-101 | the fleet becomes `Decide` applied and the matching counter rises by exactly one per change |
| DashboardSim.Simulation.ScheduleArrival | simulacion_dashboard_final.py:143-148 | the new state is `Scheduled` with the closing check: nothing when the rate ≤ 0; otherwise one draw consumed and an arrival pushed exactly when clock + gap ≤ 8.0 |
| DashboardSim.Simulation.TryAssign | simulacion_dashboard_final.py:150-162 | answers whether someone could be served; the new state is `AssignNext`: the head served FIFO on the lowest idle on-shift teller, the duration credited and its departure pushed, or nothing changes |
| DashboardSim.Simulation.TakeSnapshot | simulacion_dashboard_final.py:76-85 | appends exactly (clock, line, on-shift, estimate × 60) and changes nothing else |
| DashboardSim.Simulation.Enqueue | simulacion_dashboard_final.py:119-125 | the customer len(history) + len(line) with the pre-enqueue line length is appended and the fleet becomes `Decide` on the pre-enqueue estimate applied; the matching counter rises by one; while others already waited, only a teller just put on shift can be idle |
| DashboardSim.Simulation.Arrive | simulacion_dashboard_final.py:119-126 | the new state is `Joined`: customer len(history) + len(line) with the pre-enqueue line length, the scaler fed the pre-enqueue estimate, the customer appended, then `AssignNext`; the counter of the decision rises by one; scheduling and the snapshot are `Handle`'s |
| DashboardSim.Simulation.Depart | simulacion_dashboard_final.py:133-134 | after the teller is freed, the new state is `Departed`: `AssignNext`, then the scaler with 0.0 exactly when the line is empty afterwards; the counter of that decision rises by one |
| DashboardSim.Simulation.Pop | simulacion_dashboard_final.py:110-132 | pops an event that is minimal in tuple order; every on-shift timer advances by event time − old clock, the clock moves to the event's time (never past 8.0 for an arrival), and a departure's teller is freed; log and counters unchanged |
| DashboardSim.Simulation.Handle | simulacion_dashboard_final.py:116-135 | an arrival makes the state `Scheduled` of `Joined` with the closing check, a departure makes it `Departed`; the counters follow the decision and exactly one snapshot (clock, line, on-shift, estimate × 60) is logged |
| DashboardSim.Simulation.Step | simulacion_dashboard_final.py:109-135 | pops the earliest event; the timers advance by event time − old clock before the clock moves to the event's time; the new state is `Scheduled` of `Joined` or `Departed` of that popped office (so the closing check at line 117 never fires), the counters follow the decision, and exactly one snapshot is logged |
| DashboardSim.Simulation.Run | simulacion_dashboard_final.py:103-141 | when the events drain, no teller is busy and each utilization lies in [0, 100] |
| FinalSim.LogLater | simulacion_final.py:77-87 | the snapshot log stays consistent as the clock moves forward |
| FinalSim.LogAppend | simulacion_final.py:77-87 | appending a snapshot at the clock with busy ≤ on-shift ≤ max keeps the log consistent |
| FinalSim.Simulation.constructor | simulacion_final.py:41-62 | parameters as given, thresholds in hours, `cambios_infra` 0, fleet `InitialFleet` |
| FinalSim.Simulation.Rate | simulacion_final.py:74-75 | the rate at the clock is positive exactly for a positive base rate, since this curve never falls below 0.1 |
| FinalSim.Simulation.RateAt | simulacion_final.py:74-75 | the rate at hour t is positive exactly for a positive base rate, since this curve never falls below 0.1 |
| FinalSim.Simulation.CurrentEwt | simulacion_final.py:89-94 | the estimate of the current state is `Fleet.Ewt` of the line length and the on-shift count, with the 999.0 sentinel |
| FinalSim.Simulation.Joined | simulacion_final.py:136-143 | on values: customer len(history) + len(line) at the clock, the fleet scaled on the estimate before it joins, the customer appended, then `AssignNext` |
| FinalSim.Simulation.Departed | simulacion_final.py:152-153 | on values: `AssignNext`, then the scaler on 0.0 exactly when the line is empty afterwards |
| FinalSim.Simulation.Scale | simulacion_final.py:95-113 | the fleet becomes `Decide` applied and `cambios_infra` rises by exactly one per change |
| FinalSim.Simulation.ScheduleArrival | simulacion_final.py:163-167 | the new state is `Scheduled` with no closing check: nothing when the rate ≤ 0; otherwise one draw consumed and one arrival pushed at clock + gap |
| FinalSim.Simulation.TryAssign | simulacion_final.py:169-185 | answers whether someone could be served; the new state is `AssignNext`: the head served FIFO on the lowest idle on-shift teller with the duration credited, or nothing changes |
| FinalSim.Simulation.TakeSnapshot | simulacion_final.py:77-87 | appends exactly (clock, line, on-shift, busy, estimate × 60) and changes nothing else |
| FinalSim.Simulation.Enqueue | simulacion_final.py:136-142 | the customer len(history) + len(line) with the pre-enqueue line length is appended and the fleet becomes `Decide` on the pre-enqueue estimate applied; `cambios_infra` and the matching counter rise by one per change; while others already waited, only a teller just put on shift can be idle |
| FinalSim.Simulation.Arrive | simulacion_final.py:136-143 | the new state is `Joined`: customer len(history) + len(line) with the pre-enqueue line length, the scaler fed the pre-enqueue estimate, the customer appended, then `AssignNext`; `cambios_infra` rises by one exactly when the scaler changed a teller; scheduling and the snapshot are `Handle`'s |
| FinalSim.Simulation.Depart | simulacion_final.py:152-153 | after the teller is freed, the new state is `Departed`: `AssignNext`, then the scaler with 0.0 exactly when the line is empty afterwards; `cambios_infra` rises by one exactly when that changed a teller |
| FinalSim.Simulation.Pop | simulacion_final.py:121-150 | pops an event that is minimal in tuple order; an arrival after 8.0 is dropped with timers and clock unchanged; otherwise every on-shift timer advances by event time − old clock, the clock moves to the event's time, and a departure's teller is freed; log and counters unchanged |
| FinalSim.Simulation.Handle | simulacion_final.py:134-154 | an arrival makes the state `Scheduled` of `Joined` with no closing check, a departure makes it `Departed`; `cambios_infra` follows the decision and exactly one snapshot (clock, line, on-shift, busy, estimate × 60) is logged |
| FinalSim.Simulation.Step | simulacion_final.py:120-154 | pops the earliest event; an arrival after 8.0 is dropped, leaving timers, clock, log and counter unchanged; otherwise the timers advance by event time − old clock before the clock moves to the event's time, the new state is `Scheduled` of `Joined` or `Departed` of that popped office, `cambios_infra` follows the decision, and exactly one snapshot is logged |
| FinalSim.Simulation.Run | simulacion_final.py:115-161 | when the events drain, no teller is busy and each utilization lies in [0, 100] |
| VariableSim.LogLater | simulacion_variable.py:83-90 | the time series stays consistent as the clock moves forward |
| VariableSim.LogAppend | simulacion_variable.py:83-90 | appending a snapshot at the clock with a positive rate keeps the series consistent |
| VariableSim.Simulation.constructor | simulacion_variable.py:62-77 | parameters as given, thresholds in hours, empty state, fleet `InitialFleet` |
| VariableSim.Simulation.Rate | simulacion_variable.py:79-81 | the rate of the moment is positive |
| VariableSim.Simulation.RateAt | simulacion_variable.py:79-81 | the rate at any hour is positive for a positive base rate |
| VariableSim.Simulation.CurrentEwt | simulacion_variable.py:92-95 | the estimate of the current state is `Fleet.Ewt` of the line length and the on-shift count, with the 999.0 sentinel |
| VariableSim.Simulation.Joined | simulacion_variable.py:145-152 | on values: customer len(history) + len(line) at the clock, the fleet scaled on the estimate before it joins, the customer appended |
| VariableSim.Simulation.Departed | simulacion_variable.py:160-161 | on values: `ServeNext`, then the scaler on 0.0 exactly when the line is empty afterwards |
| VariableSim.Simulation.Scale | simulacion_variable.py:97-110 | the fleet becomes `Decide` applied and nothing else changes |
| VariableSim.Simulation.ScheduleArrival | simulacion_variable.py:112-126 | the new state is `Scheduled` with the closing check: one draw consumed and an arrival pushed exactly when clock + gap ≤ 8.0 |
| VariableSim.Simulation.TryAssign | simulacion_variable.py:171-182 | answers whether someone could be served; the new state is `ServeNext`: the head served FIFO on the lowest idle on-shift teller, stamping `tiempo_fin_servicio` with its departure, or nothing changes |
| VariableSim.Simulation.TakeSnapshot | simulacion_variable.py:83-90 | appends exactly (clock, line, on-shift, rate) and changes nothing else |
| VariableSim.Simulation.Enqueue | simulacion_variable.py:145-152 | the customer len(history) + len(line) with the pre-enqueue line length is appended and the fleet becomes `Decide` on the pre-enqueue estimate applied; while others already waited, only a teller just put on shift can be idle |
| VariableSim.Simulation.ServeJoined | simulacion_variable.py:153 | after the customer joined, the new state is `ServeNext` and the work-conserving invariant is restored |
| VariableSim.Simulation.Arrive | simulacion_variable.py:145-153 | the new state is `Joined`: customer len(history) + len(line) with the pre-enqueue line length, the scaler fed the pre-enqueue estimate, the customer appended, then `ServeNext`; scheduling and the snapshot are `Step`'s |
| VariableSim.Simulation.Depart | simulacion_variable.py:160-161 | after the teller is freed, the new state is `Departed`: `ServeNext`, then the scaler with 0.0 exactly when the line is empty afterwards |
| VariableSim.Simulation.Step | simulacion_variable.py:134-162 | pops the earliest event and moves the clock to its time; the new state is `Scheduled` of `Joined` (arrival; the drop at line 138 never fires, since no arrival after 8.0 is ever pushed) or `Departed` (departure, teller freed) of the popped office, and exactly one snapshot (clock, line, on-shift, rate) is logged |
| VariableSim.Simulation.Run | simulacion_variable.py:128-169 | when the events drain, no teller is busy |
| ProSim.InvStart | simulacion_pro.py:42-65 | the initial state satisfies the pro invariant |
| ProSim.AssignKeepsInv | simulacion_pro.py:189-205 | FIFO assignment with `tiempo_total_ocupado` credited keeps the pro invariant and the pending arrivals |
| ProSim.ScheduleKeepsInv | simulacion_pro.py:184-187 | pushing an arrival keeps the pro invariant and adds one pending arrival |
| ProSim.ScaleKeepsInv | simulacion_pro.py:112-125 | a scaling step through `_cambiar_estado_servidor` keeps the pro invariant and moves the matching counter by one per change |
| ProSim.PopArrivalKeepsInv | simulacion_pro.py:135-147 | popping an arrival and moving the clock keeps the pro invariant and removes one pending arrival |
| ProSim.DropArrivalKeepsInv | simulacion_pro.py:139 | dropping a late arrival keeps the pro invariant and removes one pending arrival |
| ProSim.PopDepartureKeepsInv | simulacion_pro.py:159-162 | popping a departure and freeing its teller keeps the pro invariant and leaves that teller the only idle one |
| ProSim.LogLater | simulacion_pro.py:79-92 | the time series stays consistent as the clock moves forward |
| ProSim.LogAppend | simulacion_pro.py:79-92 | appending a snapshot whose time and hour are the clock keeps the series consistent |
| ProSim.Simulation.constructor | simulacion_pro.py:42-65 | parameters as given, thresholds in hours, both counters 0, fleet `InitialFleet` |
| ProSim.Simulation.Rate | simulacion_pro.py:76-77 | the rate of the moment is positive |
| ProSim.Simulation.RateAt | simulacion_pro.py:76-77 | the rate at any hour is positive for a positive base rate |
| ProSim.Simulation.CurrentEwt | simulacion_pro.py:94-97 | the estimate of the current state is `Fleet.Ewt` of the line length and the on-shift count, with the 999.0 sentinel |
| ProSim.Simulation.Joined | simulacion_pro.py:151-155 | on values: the fleet scaled through `ApplyAt` on the estimate before the customer joins, the customer appended, then `AssignNext` |
| ProSim.Simulation.Arrived | simulacion_pro.py:147-157 | on values: `Joined` for customer len(history) + len(line) at the clock, then `Scheduled` at the rate of the clock |
| ProSim.Simulation.Departed | simulacion_pro.py:164-165 | on values: `AssignNext`, then the scaler through `ApplyAt` on 0.0 exactly when the line is empty afterwards |
| ProSim.Simulation.SetState | simulacion_pro.py:99-110 | the teller becomes `Toggle` of itself and exactly one of the two counters rises by one |
| ProSim.Simulation.Scale | simulacion_pro.py:112-125 | the fleet becomes `Decide` applied through `Toggle`, with the matching counter moved |
| ProSim.Simulation.ScheduleArrival | simulacion_pro.py:184-187 | always consumes one draw and pushes one arrival at clock + gap, the only pending arrival: the new state is `Scheduled` with no closing check |
| ProSim.Simulation.TryAssign | simulacion_pro.py:189-205 | answers whether someone could be served; the new state is `AssignNext`: the head served FIFO on the lowest idle on-shift teller with `tiempo_total_ocupado` credited, or nothing changes |
| ProSim.Simulation.TakeSnapshot | simulacion_pro.py:79-92 | appends exactly (clock, clock, line, on-shift, busy, rate, estimate × 60) and changes nothing else |
| ProSim.Simulation.Join | simulacion_pro.py:151-155 | the new state is `Joined`: the fleet scaled through `_cambiar_estado_servidor` at the clock on the pre-enqueue estimate, the customer appended, then `AssignNext`; the counter of the decision rises by one; the customer ends last in the line or last in the history |
| ProSim.Simulation.Arrive | simulacion_pro.py:147-157 | the new state is `Arrived`: customer len(history) + len(line) with the pre-enqueue line length, the scaler fed the pre-enqueue estimate, the customer joins, and the single next arrival is scheduled; the counter of the decision rises by one and exactly one snapshot is logged |
| ProSim.Simulation.Release | simulacion_pro.py:164-165 | after the teller is freed, the new state is `Departed`: `AssignNext`, then the scaler at the clock with 0.0 exactly when the line is empty afterwards; the counter of that decision rises by one; no pending arrival added |
| ProSim.Simulation.Depart | simulacion_pro.py:164-166 | after the teller is freed, the new state is `Departed`: `AssignNext`, then the scaler at the clock with 0.0 exactly when the line is empty afterwards; the counter of that decision rises by one and exactly one snapshot is logged |
| ProSim.Simulation.Pop | simulacion_pro.py:136-162 | pops an event that is minimal in tuple order with no timer update; an arrival after 8.0 is dropped with the clock unchanged; otherwise the clock moves to the event's time and a departure's teller is freed (`Popped`); a popped arrival leaves none pending |
| ProSim.Simulation.Handle | simulacion_pro.py:147-166 | an arrival makes the state `Arrived` with one pending arrival, a departure makes it `Departed`; the counters follow the decision and exactly one snapshot of the new state is logged |
| ProSim.Simulation.Step | simulacion_pro.py:135-166 | pops the earliest event; an arrival after 8.0 is dropped with clock, log and counters unchanged and leaves no pending arrival; otherwise the clock moves to the event's time, the new state is `Arrived` or `Departed` of the popped office, the counters follow the decision, and exactly one snapshot is logged; pending arrivals never increase |
| ProSim.Simulation.CloseTimers | simulacion_pro.py:177-180 | the final sweep sets each teller to `Swept`: accrued time folded in for exactly the on-shift ones |
| ProSim.Simulation.Run | simulacion_pro.py:127-182 | when the events drain and the sweep runs, no teller is busy, 0 ≤ busy time ≤ active time, and each utilization lies in [0, 100] |
| MM1.StartOf | mi_modulo.cpp:53 | service starts at the later of arrival and server-free time |
| MM1.ArrivalOf | mi_modulo.cpp:49 | customer i arrives at the sum of the gaps before it plus its own gap |
| MM1.FreeAfter | mi_modulo.cpp:53-59 | the server is free at 0 before anyone arrives, and after customer k−1 no earlier than its arrival plus its service |
| MM1.Waits | mi_modulo.cpp:55-69 | the first k waits, one per customer, each non-negative |
| MM1.WaitOf | mi_modulo.cpp:55 | every wait is ≥ 0, and it is 0 exactly when the server is free by the arrival |
| MM1.WaitsNonNegative | mi_modulo.cpp:63 | the sum of waits is ≥ 0 |
| MM1.LindleyRecursion | mi_modulo.cpp:49-59 | wait(i+1) = max(0, wait(i) + duration(i) − gap(i+1)) |
| MM1.FreeMonotone | mi_modulo.cpp:59 | the server-free time never decreases |
| MM1.ServiceWithinFree | mi_modulo.cpp:59-60 | total service time never exceeds the final server-free time, because services do not overlap |
| MM1.ServerUtilization | mi_modulo.cpp:78 | utilization lies in (0, 1] |
| MM1.Accumulate | mi_modulo.cpp:43-70 | the loop's free time, wait sum, service total and system sum equal their specifications, and the sample is the first min(n, 5000) waits in order |
| MM1.Run | mi_modulo.cpp:29-82 | fails exactly for a negative count; total = n; averages are sums / n with 0 ≤ average wait < average system time; for n = 0 all three ratios are NaN (None) |
| Market.ArrivalRate | supermercado_myth.py:28 | the rate is n × mu × 1.3: non-negative, positive exactly when both factors are, and then above the joint capacity |
| Market.Prune | supermercado_myth.py:38-41 | each departure time after the clock is kept exactly as often as it occurs and no other is kept, so the count of people inside is the number of departures after the clock |
| Market.Position | supermercado_myth.py:47 | the position is positive exactly when more people are inside than cashiers, and then it is people − cashiers |
| Market.FirstMin | supermercado_myth.py:51 | the chosen cashier has the minimum release time, and no earlier index has it |
| Market.Draws | supermercado_myth.py:32 | each gap times the rate is its unit draw, and it is positive |
| Market.Serve | supermercado_myth.py:32-73 | one customer's step keeps the number of cashiers |
| Market.Replay | supermercado_myth.py:30-73 | replaying any prefix of the customers leaves exactly one release time per cashier |
| Market.ServeFacts | supermercado_myth.py:32-73 | a customer's step advances the clock, starts no earlier than arrival or release, updates that cashier and the departures, and adds a row exactly when the position is positive |
| Market.ServeKeeps | supermercado_myth.py:38-62 | a customer's step keeps the state consistent: departures after the clock, each busy cashier's release among them, rows well formed |
| Market.ReplayConsistent | supermercado_myth.py:30-73 | every prefix of the run leaves a consistent state |
| Market.Admit | supermercado_myth.py:51-62 | the in-place update of the release array, departures and rows is exactly one `Serve` step |
| Market.Simulate | supermercado_myth.py:30-73 | the loop's rows are exactly those of the specification `Replay` |
| Market.Run | supermercado_myth.py:17-75 | fails exactly when customers exist and the arrival rate is 0 (expovariate(0)); no customers gives no rows; otherwise the rows of `Replay`, each with a positive position and a non-negative wait |

## Left out

- Streamlit and Plotly code (pages, sliders, tabs, progress bars, charts) and the `random.random()` calls that only pace the progress bars.
  - The progress test in app_banco.py line 124 divides by `num_clientes // 10`. It would fail for 0 < n < 10, but the page only passes n ≥ 1000.
- pandas DataFrame construction and the ETL helpers (`fusionar_realidad_vs_estimado`, `procesar_series_tiempo`, `generar_dataset_timeseries`, `generar_dataset_comparativo`, `get_espera_promedio`). Only the per-row arithmetic is modelled: the wait, the time in the system and utilization.
- The console demo and `print` calls of simulacion_banco.py, and the pybind11 binding of mi_modulo.cpp with app.py. They are I/O and foreign glue.
- Random number generation. `random.expovariate`, `std::mt19937` and `std::random_device` are replaced by caller-supplied positive draws; their distributions are not modelled.
- Floating point. Times and rates are reals, so IEEE rounding is not modelled, and a C++ `0.0 / 0.0` NaN is `None`.
- The binary-heap layout of `heapq`. Only which event is popped is modelled.
- `_actualizar_tiempos_servidores` (simulacion_pro.py) is not modelled: its body is `pass`, it is never called, and it changes no state.
- Constructors require min ≤ max. The source fails there with an index error, which `Fleet.InitialFleet` models as a failure.
- The banco, app_banco, variable and pro constructors require positive arrival and service rates, and the master, dashboard and final ones require a positive service rate.
  - The source accepts any rate and then fails inside `random.expovariate` for a zero rate.
  - A negative rate yields negative gaps, which would put events before the clock.
- The constructors do not check that `umbral_down` ≤ `umbral_up`, and the event loop has no guard against an event before the clock. The model follows the code:
  - any thresholds are accepted;
  - no event is ever scheduled before the clock, which is proved rather than checked.
- Snapshot fields and the utilization guard (0.001 hours, or 0 in the pro copy) differ between the copies, and each engine follows its own file.
- BancoSim.Simulation.Run: runs while the draws last (2n + 1 are required up front). The Python loop draws from an endless RNG.
- AppBancoSim.Simulation.Run: requires 2n + 1 draws up front, for the same reason.
- MasterSim.Simulation.Run: stops when fewer than two draws remain and reports whether the events drained. Its guarantees on busy time and utilization are stated only for a drained run.
- DashboardSim.Simulation.Run: stops when fewer than two draws remain. Its guarantees are stated only for a drained run.
- FinalSim.Simulation.Run: stops when fewer than two draws remain. Its guarantees are stated only for a drained run.
- VariableSim.Simulation.Run: stops when fewer than two draws remain. Its guarantees are stated only for a drained run.
- ProSim.Simulation.Run: stops when fewer than two draws remain. The final sweep and the utilization bounds are stated only for a drained run.
- Market.Run: requires a non-negative service rate. A negative one makes `expovariate` return negative times.
- MM1.Run: requires positive service durations and at least n draws of each kind.
