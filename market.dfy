/**
 * supermercado_myth.py: `simular_escenario_fijo`, a fixed set of cashiers
 * fed at 130% of their joint capacity. Each arriving customer counts the
 * earlier customers still in the system, derives its place in the line
 * from that count, and is served by the cashier that frees up first; a row
 * is kept for every customer who found a line. The exponential draws are
 * the inputs `arrivalDraws` and `serviceDraws`.
 */
module Market {
  import opened Common
  import opened Demand

  /** One kept row: the scenario (its cashier count), the place in the line and the wait in minutes. */
  datatype Row = Row(cashiers: nat, position: nat, waitMinutes: real)

  /** `random.expovariate(0)` divides by zero: no cashier, or a zero service rate. */
  datatype Error = ZeroArrivalRate

  /** The state between two customers: the clock, when each cashier frees up, the departures kept, the rows. */
  datatype State = State(clock: real, release: seq<real>, departures: seq<real>, rows: seq<Row>)

  /** `tasa_llegada`: 30% above what the cashiers can serve together; positive exactly when they serve at all. */
  function ArrivalRate(cashiers: nat, serviceRate: real): (r: real)
    requires serviceRate >= 0.0
    ensures r > 0.0 <==> cashiers > 0 && serviceRate > 0.0
    ensures r >= 0.0
    ensures r > 0.0 ==> r > cashiers as real * serviceRate
  {
    (cashiers as real * serviceRate) * 1.3
  }

  /** `gente_en_sistema`: the departures still ahead of `clock`, in their order. */
  function Prune(departures: seq<real>, clock: real): (r: seq<real>)
    ensures forall t :: t in r <==> t in departures && t > clock
    ensures |r| <= |departures|
    ensures forall t :: multiset(r)[t] == if t > clock then multiset(departures)[t] else 0
  {
    if departures == [] then []
    else
      assert departures == [departures[0]] + departures[1..];
      if departures[0] > clock then [departures[0]] + Prune(departures[1..], clock)
      else Prune(departures[1..], clock)
  }

  /** `posicion_en_fila`: the people in the system beyond one per cashier, none when they fit. */
  function Position(people: nat, cashiers: nat): (p: nat)
    ensures p > 0 <==> people > cashiers
    ensures p > 0 ==> p + cashiers == people
  {
    if people > cashiers then people - cashiers else 0
  }

  /** `cajeros_liberacion.index(min(cajeros_liberacion))`: the first cashier that frees up earliest. */
  function FirstMin(release: seq<real>): (i: nat)
    requires release != []
    ensures i < |release|
    ensures forall j :: 0 <= j < |release| ==> release[i] <= release[j]
    ensures forall j :: 0 <= j < i ==> release[j] > release[i]
  {
    if |release| == 1 then 0
    else
      var rest := FirstMin(release[1..]);
      if release[0] <= release[rest + 1] then 0 else rest + 1
  }

  /** One turn of the loop: customer arrives `gap` later and needs `duration` of service. */
  function Serve(st: State, cashiers: nat, gap: real, duration: real): (r: State)
    requires st.release != []
    ensures |r.release| == |st.release|
  {
    var clock := st.clock + gap;
    var people := Prune(st.departures, clock);
    var position := Position(|people|, cashiers);
    var i := FirstMin(st.release);
    var start := Max(clock, st.release[i]);
    var end := start + duration;
    var wait := (start - clock) * 60.0;
    State(clock, st.release[i := end], people + [end],
          if position > 0 then st.rows + [Row(cashiers, position, wait)] else st.rows)
  }

  lemma ServeIs(st: State, cashiers: nat, gap: real, duration: real, clock: real, people: seq<real>, i: nat, start: real)
    requires st.release != [] && clock == st.clock + gap && people == Prune(st.departures, clock)
    requires i == FirstMin(st.release) && start == Max(clock, st.release[i])
    ensures Serve(st, cashiers, gap, duration)
              == State(clock, st.release[i := start + duration], people + [start + duration],
                       if Position(|people|, cashiers) > 0
                       then st.rows + [Row(cashiers, Position(|people|, cashiers), (start - clock) * 60.0)]
                       else st.rows)
  {
  }

  /** `random.expovariate(rate)` for each unit draw, in order: positive times. */
  function Draws(units: seq<UnitDraw>, rate: real): (r: seq<real>)
    requires rate > 0.0
    ensures |r| == |units|
    ensures forall i :: 0 <= i < |r| ==> r[i] > 0.0 && r[i] * rate == units[i]
  {
    seq(|units|, i requires 0 <= i < |units| => Gap(units[i], rate))
  }

  /** The state after the first `k` customers, arriving `gaps` apart and served for `durations`. */
  function Replay(cashiers: nat, gaps: seq<real>, durations: seq<real>, k: nat): (r: State)
    requires cashiers > 0 && k <= |gaps| && k <= |durations|
    ensures |r.release| == cashiers
  {
    if k == 0 then State(0.0, seq(cashiers, _ => 0.0), [], [])
    else Serve(Replay(cashiers, gaps, durations, k - 1), cashiers, gaps[k - 1], durations[k - 1])
  }

  /** A kept row is for a customer who found a line, with a wait that is not negative. */
  ghost predicate RowOk(rows: seq<Row>, k: nat, cashiers: nat)
    requires k < |rows|
  {
    rows[k].cashiers == cashiers && rows[k].position > 0 && rows[k].waitMinutes >= 0.0
  }

  /**
   * One release time per cashier; every departure kept is still ahead of
   * the clock; a cashier still busy at the clock has its customer among
   * the departures kept, so it is counted among the people in the system;
   * every row is well formed.
   */
  ghost predicate Consistent(st: State, cashiers: nat)
  {
    && |st.release| == cashiers && 0.0 <= st.clock
    && (forall t :: t in st.departures ==> t > st.clock)
    && (forall c :: 0 <= c < |st.release| && st.release[c] > st.clock ==> st.release[c] in st.departures)
    && (forall k :: 0 <= k < |st.rows| ==> RowOk(st.rows, k, cashiers))
  }

  /**
   * What one customer does: the clock moves on, the departures are pruned
   * to those still ahead and the new one is added, the earliest cashier
   * starts at the later of the arrival and its release and is held for the
   * duration, and a row is kept exactly when the customer found a line.
   */
  lemma ServeFacts(st: State, cashiers: nat, gap: real, duration: real)
    requires st.release != [] && gap > 0.0 && duration > 0.0
    ensures var r := Serve(st, cashiers, gap, duration);
            var i := FirstMin(st.release);
            var start := Max(r.clock, st.release[i]);
            && r.clock > st.clock
            && start >= r.clock && start >= st.release[i]
            && r.release == st.release[i := start + duration]
            && r.departures == Prune(st.departures, r.clock) + [start + duration]
            && (|Prune(st.departures, r.clock)| > cashiers <==> |r.rows| == |st.rows| + 1)
            && st.rows <= r.rows
            && (|r.rows| > |st.rows| ==>
                  r.rows[|st.rows|] == Row(cashiers, |Prune(st.departures, r.clock)| - cashiers, (start - r.clock) * 60.0))
  {
  }

  /** One customer keeps the state consistent. */
  lemma ServeKeeps(st: State, cashiers: nat, gap: real, duration: real)
    requires st.release != [] && Consistent(st, cashiers) && gap > 0.0 && duration > 0.0
    ensures Consistent(Serve(st, cashiers, gap, duration), cashiers)
  {
    var r := Serve(st, cashiers, gap, duration);
    var i := FirstMin(st.release);
    var start := Max(r.clock, st.release[i]);
    forall c | 0 <= c < |r.release| && r.release[c] > r.clock
      ensures r.release[c] in r.departures
    {
      if c != i {
        assert st.release[c] in st.departures;
        assert st.release[c] in Prune(st.departures, r.clock);
      }
    }
    forall k | 0 <= k < |r.rows|
      ensures RowOk(r.rows, k, cashiers)
    {
      if k < |st.rows| {
        assert RowOk(st.rows, k, cashiers);
      }
    }
  }

  /** Every state the loop goes through is consistent. */
  lemma {:induction false} ReplayConsistent(cashiers: nat, gaps: seq<real>, durations: seq<real>, k: nat)
    requires cashiers > 0 && k <= |gaps| && k <= |durations|
    requires forall i :: 0 <= i < k ==> gaps[i] > 0.0 && durations[i] > 0.0
    ensures Consistent(Replay(cashiers, gaps, durations, k), cashiers)
  {
    if k > 0 {
      ReplayConsistent(cashiers, gaps, durations, k - 1);
      ServeKeeps(Replay(cashiers, gaps, durations, k - 1), cashiers, gaps[k - 1], durations[k - 1]);
    }
  }

  /**
   * One turn of the loop of `simular_escenario_fijo`: the customer arrives
   * after its gap, counts the people still in the system, takes its place
   * in the line, goes to the first cashier that frees up earliest, holds it
   * from the later of its arrival and the release for its duration, and
   * leaves a row when it found a line.
   */
  method Admit(cashiers: nat, release: array<real>, clock: real, departures: seq<real>, rows: seq<Row>,
               gap: real, duration: real)
    returns (clock': real, departures': seq<real>, rows': seq<Row>)
    requires release.Length > 0
    modifies release
    ensures var next := Serve(State(clock, old(release[..]), departures, rows), cashiers, gap, duration);
            clock' == next.clock && release[..] == next.release && departures' == next.departures && rows' == next.rows
  {
    ghost var before := State(clock, release[..], departures, rows);
    clock' := clock + gap;
    var people := Prune(departures, clock');
    departures' := people;
    var position := Position(|people|, cashiers);
    var j := FirstMin(release[..]);
    var start := Max(clock', release[j]);
    var end := start + duration;
    ServeIs(before, cashiers, gap, duration, clock', people, j, start);
    release[j] := end;
    assert release[..] == before.release[j := end];
    departures' := departures' + [end];
    var wait := (start - clock') * 60.0;
    rows' := rows;
    if position > 0 {
      rows' := rows' + [Row(cashiers, position, wait)];
    }
  }

  /** The loop of `simular_escenario_fijo`, one `Admit` per customer. */
  method Simulate(cashiers: nat, customers: nat, gaps: seq<real>, durations: seq<real>) returns (rows: seq<Row>)
    requires cashiers > 0 && customers <= |gaps| && customers <= |durations|
    ensures rows == Replay(cashiers, gaps, durations, customers).rows
  {
    var release := new real[cashiers](_ => 0.0);
    var clock := 0.0;
    var departures: seq<real> := [];
    rows := [];
    ghost var st := Replay(cashiers, gaps, durations, 0);
    for i := 0 to customers
      invariant st == Replay(cashiers, gaps, durations, i)
      invariant clock == st.clock && release[..] == st.release && departures == st.departures && rows == st.rows
    {
      assert State(clock, release[..], departures, rows) == st;
      clock, departures, rows := Admit(cashiers, release, clock, departures, rows, gaps[i], durations[i]);
      st := Serve(st, cashiers, gaps[i], durations[i]);
    }
  }

  /**
   * `simular_escenario_fijo(n_cajeros, tasa_servicio, n_clientes)`: the
   * rows of the customers who found a line, in arrival order. A
   * non-positive count yields no row; otherwise a zero arrival rate fails.
   * The gaps are drawn at `ArrivalRate`, the durations at the service rate.
   */
  method Run(cashiers: nat, serviceRate: real, customers: int, arrivalDraws: seq<UnitDraw>, serviceDraws: seq<UnitDraw>)
    returns (r: Result<seq<Row>, Error>)
    requires serviceRate >= 0.0
    requires customers <= |arrivalDraws| && customers <= |serviceDraws|
    ensures r.Failure? <==> customers > 0 && (cashiers == 0 || serviceRate == 0.0)
    ensures r.Success? && customers <= 0 ==> r.value == []
    ensures r.Success? && customers > 0 ==>
              r.value == Replay(cashiers, Draws(arrivalDraws, ArrivalRate(cashiers, serviceRate)),
                                Draws(serviceDraws, serviceRate), customers).rows
    ensures r.Success? ==> forall k :: 0 <= k < |r.value| ==> RowOk(r.value, k, cashiers)
  {
    if customers <= 0 {
      return Success([]);
    }
    var rate := ArrivalRate(cashiers, serviceRate);
    if rate == 0.0 {
      return Failure(ZeroArrivalRate);
    }
    var gaps, durations := Draws(arrivalDraws, rate), Draws(serviceDraws, serviceRate);
    var rows := Simulate(cashiers, customers, gaps, durations);
    ReplayConsistent(cashiers, gaps, durations, customers);
    return Success(rows);
  }
}
