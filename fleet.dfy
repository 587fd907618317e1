/**
 * The cashier fleet (`Servidor` list) shared by the seven engine copies: the
 * counts, the three index scans, the hysteresis scaling rule and the
 * estimated wait time.
 */
module Fleet {
  import opened Common

  /**
   * One cashier. `active` is `activo` (on shift), `busy` is `ocupado`.
   * The accumulators are the union of what the copies keep:
   * `activeTime` is `tiempo_acumulado_activo` / `tiempo_total_activo`,
   * `busyTime` is `tiempo_acumulado_trabajando` / `tiempo_total_ocupado`,
   * `lastChange` is `ultimo_cambio_estado`, `serviceEnd` is
   * `tiempo_fin_servicio`. A copy that lacks a field leaves it at 0.0.
   */
  datatype Server = Server(active: bool, busy: bool, activeTime: real, busyTime: real, lastChange: real, serviceEnd: real)

  const Off := Server(false, false, 0.0, 0.0, 0.0, 0.0)

  /** `sum(1 for s in servidores if s.activo)` */
  function ActiveCount(s: seq<Server>): nat
  {
    if s == [] then 0 else (if s[0].active then 1 else 0) + ActiveCount(s[1..])
  }

  /** `sum(1 for s in servidores if s.ocupado)` */
  function BusyCount(s: seq<Server>): nat
  {
    if s == [] then 0 else (if s[0].busy then 1 else 0) + BusyCount(s[1..])
  }

  /** Server `i` is busy only while on shift. */
  ghost predicate OnShiftIfBusy(s: seq<Server>, i: nat)
    requires i < |s|
  {
    s[i].busy ==> s[i].active
  }

  ghost predicate BusyImpliesActive(s: seq<Server>)
  {
    forall i :: 0 <= i < |s| ==> OnShiftIfBusy(s, i)
  }

  /** The fleet invariant: at least `minServers` on shift (at most `|s|` by construction), and busy implies active. */
  ghost predicate FleetOk(s: seq<Server>, minServers: nat)
  {
    minServers <= ActiveCount(s) && BusyImpliesActive(s)
  }

  lemma {:induction false} ActiveCountBounds(s: seq<Server>)
    ensures ActiveCount(s) <= |s|
    ensures ActiveCount(s) == |s| <==> forall i :: 0 <= i < |s| ==> s[i].active
  {
    if s != [] {
      ActiveCountBounds(s[1..]);
      assert forall i :: 1 <= i < |s| ==> s[i] == s[1..][i - 1];
    }
  }

  /** Replacing one server changes the active count by the change of its flag. */
  lemma {:induction false} ActiveCountSet(s: seq<Server>, i: nat, v: Server)
    requires i < |s|
    ensures ActiveCount(s[i := v]) == ActiveCount(s) - (if s[i].active then 1 else 0) + (if v.active then 1 else 0)
  {
    if i == 0 {
      assert s[i := v][1..] == s[1..];
    } else {
      assert s[i := v][1..] == s[1..][i - 1 := v];
      ActiveCountSet(s[1..], i - 1, v);
    }
  }

  /** Replacing one server changes the busy count by the change of its flag. */
  lemma {:induction false} BusyCountSet(s: seq<Server>, i: nat, v: Server)
    requires i < |s|
    ensures BusyCount(s[i := v]) == BusyCount(s) - (if s[i].busy then 1 else 0) + (if v.busy then 1 else 0)
  {
    if i == 0 {
      assert s[i := v][1..] == s[1..];
    } else {
      assert s[i := v][1..] == s[1..][i - 1 := v];
      BusyCountSet(s[1..], i - 1, v);
    }
  }

  /** A fleet with no busy server has busy count zero, and conversely. */
  lemma {:induction false} BusyCountZero(s: seq<Server>)
    ensures BusyCount(s) == 0 <==> forall i :: 0 <= i < |s| ==> !s[i].busy
  {
    if s != [] {
      BusyCountZero(s[1..]);
      assert forall i :: 1 <= i < |s| ==> s[i] == s[1..][i - 1];
    }
  }

  /** Two fleets with the same flags have the same counts. */
  lemma {:induction false} SameFlagsSameCounts(a: seq<Server>, b: seq<Server>)
    requires |a| == |b|
    requires forall i :: 0 <= i < |a| ==> a[i].active == b[i].active && a[i].busy == b[i].busy
    ensures ActiveCount(a) == ActiveCount(b) && BusyCount(a) == BusyCount(b)
  {
    if a != [] {
      SameFlagsSameCounts(a[1..], b[1..]);
    }
  }

  /** No more servers are busy than on shift. */
  lemma {:induction false} BusyAtMostActive(s: seq<Server>)
    requires BusyImpliesActive(s)
    ensures BusyCount(s) <= ActiveCount(s)
  {
    if s != [] {
      assert OnShiftIfBusy(s, 0);
      forall i | 0 <= i < |s[1..]|
        ensures OnShiftIfBusy(s[1..], i)
      {
        assert OnShiftIfBusy(s, i + 1);
      }
      BusyAtMostActive(s[1..]);
    }
  }

  // ---------------------------------------------------------------- scans

  /** Specification of the scale-up scan: the lowest-indexed server off shift. */
  function LowestInactive(s: seq<Server>): (r: Option<nat>)
    ensures r.Some? ==> r.value < |s| && !s[r.value].active && forall j :: 0 <= j < r.value ==> s[j].active
    ensures r.None? ==> forall j :: 0 <= j < |s| ==> s[j].active
  {
    if s == [] then None
    else if !s[0].active then Some(0)
    else match LowestInactive(s[1..])
      case None => None
      case Some(j) => Some(j + 1)
  }

  /** Specification of the scale-down scan: the highest-indexed server on shift and idle. */
  function HighestIdleActive(s: seq<Server>): (r: Option<nat>)
    ensures r.Some? ==> r.value < |s| && s[r.value].active && !s[r.value].busy
                        && forall j :: r.value < j < |s| ==> !s[j].active || s[j].busy
    ensures r.None? ==> forall j :: 0 <= j < |s| ==> !s[j].active || s[j].busy
  {
    if s == [] then None
    else if s[|s| - 1].active && !s[|s| - 1].busy then Some(|s| - 1)
    else HighestIdleActive(s[..|s| - 1])
  }

  /** Specification of the assignment scan: the lowest-indexed server on shift and idle. */
  function LowestIdleActive(s: seq<Server>): (r: Option<nat>)
    ensures r.Some? ==> r.value < |s| && s[r.value].active && !s[r.value].busy
                        && forall j :: 0 <= j < r.value ==> !s[j].active || s[j].busy
    ensures r.None? ==> forall j :: 0 <= j < |s| ==> !s[j].active || s[j].busy
  {
    if s == [] then None
    else if s[0].active && !s[0].busy then Some(0)
    else match LowestIdleActive(s[1..])
      case None => None
      case Some(j) => Some(j + 1)
  }

  /** `for s in self.servidores: if not s.activo: ... return` */
  method FirstInactive(s: seq<Server>) returns (r: Option<nat>)
    ensures r == LowestInactive(s)
  {
    var i := 0;
    while i < |s|
      invariant i <= |s|
      invariant forall j :: 0 <= j < i ==> s[j].active
    {
      if !s[i].active {
        LowestIsUnique(s, i);
        return Some(i);
      }
      i := i + 1;
    }
    return None;
  }

  /** `for i in range(self.max_servers - 1, -1, -1): if s.activo and not s.ocupado: ... return` */
  method LastIdleActive(s: seq<Server>) returns (r: Option<nat>)
    ensures r == HighestIdleActive(s)
  {
    var i := |s|;
    while i > 0
      invariant 0 <= i <= |s|
      invariant forall j :: i <= j < |s| ==> !s[j].active || s[j].busy
    {
      i := i - 1;
      if s[i].active && !s[i].busy {
        HighestIsUnique(s, i);
        return Some(i);
      }
    }
    return None;
  }

  /** `next((s for s in self.servidores if s.activo and not s.ocupado), None)` */
  method FirstIdleActive(s: seq<Server>) returns (r: Option<nat>)
    ensures r == LowestIdleActive(s)
  {
    var i := 0;
    while i < |s|
      invariant i <= |s|
      invariant forall j :: 0 <= j < i ==> !s[j].active || s[j].busy
    {
      if s[i].active && !s[i].busy {
        LowestIdleIsUnique(s, i);
        return Some(i);
      }
      i := i + 1;
    }
    return None;
  }

  lemma LowestIsUnique(s: seq<Server>, i: nat)
    requires i < |s| && !s[i].active && forall j :: 0 <= j < i ==> s[j].active
    ensures LowestInactive(s) == Some(i)
  {
  }

  lemma HighestIsUnique(s: seq<Server>, i: nat)
    requires i < |s| && s[i].active && !s[i].busy && forall j :: i < j < |s| ==> !s[j].active || s[j].busy
    ensures HighestIdleActive(s) == Some(i)
  {
  }

  lemma LowestIdleIsUnique(s: seq<Server>, i: nat)
    requires i < |s| && s[i].active && !s[i].busy && forall j :: 0 <= j < i ==> !s[j].active || s[j].busy
    ensures LowestIdleActive(s) == Some(i)
  {
  }

  // ------------------------------------------------------------ start-up

  datatype FleetError = IndexError

  /**
   * The fleet built by `__init__`: `max` servers off shift, then servers
   * `0 .. min-1` switched on; `servidores[i]` fails when `min > max`.
   */
  function InitialFleet(minServers: nat, maxServers: nat): (r: Result<seq<Server>, FleetError>)
    ensures r.Failure? <==> minServers > maxServers
    ensures r.Success? ==> |r.value| == maxServers && ActiveCount(r.value) == minServers && BusyCount(r.value) == 0
    ensures r.Success? ==> forall i :: 0 <= i < maxServers ==> r.value[i] == Off.(active := i < minServers)
    ensures r.Success? ==> FleetOk(r.value, minServers)
  {
    if minServers > maxServers then Failure(IndexError)
    else
      var s := seq(maxServers, i => Off.(active := i < minServers));
      InitialCounts(s, minServers);
      Success(s)
  }

  lemma {:induction false} InitialCounts(s: seq<Server>, m: nat)
    requires m <= |s|
    requires forall i :: 0 <= i < |s| ==> s[i] == Off.(active := i < m)
    ensures ActiveCount(s) == m && BusyCount(s) == 0
  {
    if s != [] {
      var m' := if m == 0 then 0 else m - 1;
      assert forall i :: 0 <= i < |s[1..]| ==> s[1..][i] == Off.(active := i < m');
      InitialCounts(s[1..], m');
    }
  }

  /** The constructor's `for i in range(min_serv): self.servidores[i].activo = True`. */
  method BuildFleet(minServers: nat, maxServers: nat) returns (r: Result<seq<Server>, FleetError>)
    ensures r == InitialFleet(minServers, maxServers)
  {
    var s := seq(maxServers, i => Off);
    var i := 0;
    while i < minServers
      invariant i <= minServers && i <= maxServers && |s| == maxServers
      invariant forall j :: 0 <= j < maxServers ==> s[j] == Off.(active := j < i)
    {
      if i >= |s| {
        return Failure(IndexError);
      }
      s := s[i := s[i].(active := true)];
      i := i + 1;
    }
    assert s == seq(maxServers, j => Off.(active := j < minServers));
    return Success(s);
  }

  // ------------------------------------------------------------ scaling

  datatype Change = NoChange | Activate(index: nat) | Deactivate(index: nat)

  /**
   * The hysteresis rule of `_gestionar_escalado` / `_gestionar_auto_scaling`
   * (the fleet size is `max_servers`): scale up only when the estimate is
   * above `up` and some server is off, taking the lowest index; otherwise
   * scale down only when the estimate is below `down` and more than
   * `minServers` are on, taking the highest index that is on and idle.
   */
  function Decide(s: seq<Server>, ewt: real, up: real, down: real, minServers: nat): (c: Change)
    ensures c.Activate? <==> ewt > up && ActiveCount(s) < |s|
    ensures c.Activate? ==> Some(c.index) == LowestInactive(s)
    ensures c.Deactivate? <==> (!(ewt > up && ActiveCount(s) < |s|) && ewt < down && ActiveCount(s) > minServers
                                && HighestIdleActive(s).Some?)
    ensures c.Deactivate? ==> Some(c.index) == HighestIdleActive(s)
  {
    ActiveCountBounds(s);
    if ewt > up && ActiveCount(s) < |s| then
      (match LowestInactive(s)
        case Some(i) => Activate(i)
        case None => NoChange)
    else if ewt < down && ActiveCount(s) > minServers then
      (match HighestIdleActive(s)
        case Some(i) => Deactivate(i)
        case None => NoChange)
    else NoChange
  }

  /** The fleet after a decision: one `activo` flag flipped, or none. */
  function Apply(s: seq<Server>, c: Change): (r: seq<Server>)
    ensures |r| == |s|
  {
    match c
    case NoChange => s
    case Activate(i) => if i < |s| then s[i := s[i].(active := true)] else s
    case Deactivate(i) => if i < |s| then s[i := s[i].(active := false)] else s
  }

  /** Applying a decision flips only the shift flag of the teller it names, to on for an
      activation and off for a deactivation; every other teller is left as it was. */
  lemma ApplyOnly(s: seq<Server>, c: Change)
    ensures forall j :: 0 <= j < |s| ==>
      Apply(s, c)[j] == if !c.NoChange? && j == c.index then s[j].(active := c.Activate?) else s[j]
  {
  }

  /** Between the two thresholds the controller never changes the fleet. */
  lemma Hysteresis(s: seq<Server>, ewt: real, up: real, down: real, minServers: nat)
    requires down <= ewt <= up
    ensures Decide(s, ewt, up, down, minServers) == NoChange
  {
  }

  /**
   * One evaluation of the controller changes at most one server, only its
   * `active` flag, never switches off a busy server, moves the active count
   * by at most one and keeps `minServers <= active <= max` and busy => active.
   */
  lemma ScaleKeepsFleet(s: seq<Server>, ewt: real, up: real, down: real, minServers: nat)
    requires FleetOk(s, minServers)
    ensures var c := Decide(s, ewt, up, down, minServers);
            var r := Apply(s, c);
            && |r| == |s| && FleetOk(r, minServers)
            && ActiveCount(r) == ActiveCount(s) + (if c.Activate? then 1 else 0) - (if c.Deactivate? then 1 else 0)
            && (forall j :: 0 <= j < |s| ==> r[j] == s[j].(active := r[j].active))
            && (forall j :: 0 <= j < |s| && r[j] != s[j] ==> c != NoChange && j == c.index)
            && (c.Deactivate? ==> !s[c.index].busy)
  {
    var c := Decide(s, ewt, up, down, minServers);
    var r := Apply(s, c);
    match c {
      case NoChange =>
      case Activate(i) =>
        ActiveCountSet(s, i, s[i].(active := true));
      case Deactivate(i) =>
        ActiveCountSet(s, i, s[i].(active := false));
    }
    forall j | 0 <= j < |r|
      ensures OnShiftIfBusy(r, j)
    {
      assert OnShiftIfBusy(s, j);
    }
  }

  // ------------------------------------------------------------ time and load

  /** The fleet after `delta` hours have passed: every server on shift has `delta` more active time. */
  function Advanced(s: seq<Server>, delta: real): (r: seq<Server>)
    ensures |r| == |s|
    ensures forall i :: 0 <= i < |s| ==> r[i] == s[i].(activeTime := r[i].activeTime)
    ensures forall i :: 0 <= i < |s| ==> r[i].activeTime - s[i].activeTime == if s[i].active then delta else 0.0
  {
    seq(|s|, i requires 0 <= i < |s| => if s[i].active then s[i].(activeTime := s[i].activeTime + delta) else s[i])
  }

  /**
   * `_actualizar_cronometros(delta)`: add `delta` to the active-time
   * accumulator of exactly the servers on shift.
   */
  method AdvanceActive(s: seq<Server>, delta: real) returns (r: seq<Server>)
    ensures r == Advanced(s, delta)
  {
    r := s;
    for i := 0 to |s|
      invariant |r| == |s|
      invariant forall j :: 0 <= j < i ==> r[j] == Advanced(s, delta)[j]
      invariant forall j :: i <= j < |s| ==> r[j] == s[j]
    {
      if r[i].active {
        r := r[i := r[i].(activeTime := r[i].activeTime + delta)];
      }
    }
  }

  /**
   * Integrating time changes no flag, hence neither count nor the fleet
   * invariant, and nothing but the active time of servers on shift.
   */
  lemma AdvanceKeepsFlags(s: seq<Server>, delta: real, minServers: nat)
    ensures |Advanced(s, delta)| == |s|
    ensures forall i :: 0 <= i < |s| ==> Advanced(s, delta)[i] == s[i].(activeTime := Advanced(s, delta)[i].activeTime)
    ensures ActiveCount(Advanced(s, delta)) == ActiveCount(s) && BusyCount(Advanced(s, delta)) == BusyCount(s)
    ensures FleetOk(s, minServers) ==> FleetOk(Advanced(s, delta), minServers)
  {
    var r := Advanced(s, delta);
    SameFlagsSameCounts(s, r);
    if FleetOk(s, minServers) {
      forall i | 0 <= i < |r|
        ensures OnShiftIfBusy(r, i)
      {
        assert OnShiftIfBusy(s, i);
      }
    }
  }

  /**
   * `_calcular_ewt`: the queue length over the combined service rate of the
   * active servers, or the copy's sentinel when none is active.
   */
  function Ewt(queueLength: nat, active: nat, mu: real, sentinel: real): (r: real)
    requires mu > 0.0
    ensures active == 0 ==> r == sentinel
    ensures active > 0 ==> r >= 0.0 && r * (active as real * mu) == queueLength as real
    ensures active > 0 ==> (r == 0.0 <==> queueLength == 0)
  {
    if active == 0 then sentinel else queueLength as real / (active as real * mu)
  }

  /**
   * The reported utilization percentage: busy over active time times 100
   * when active time exceeds `guard`, else 0.
   */
  function Utilization(busy: real, active: real, guard: real): (u: real)
    requires guard >= 0.0
    ensures active <= guard ==> u == 0.0
    ensures active > guard ==> u * active == busy * 100.0
    ensures 0.0 <= busy <= active ==> 0.0 <= u <= 100.0
  {
    if active > guard then busy / active * 100.0 else 0.0
  }
}
