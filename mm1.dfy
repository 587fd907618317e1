/**
 * mi_modulo.cpp: `SimuladorMM1::correr`, a single server fed in arrival
 * order (the Lindley recursion). Customer `i` arrives after the `i + 1`
 * first inter-arrival gaps, starts when both it and the server are there,
 * and holds the server for its service duration. The exponential draws are
 * the inputs `gaps` and `durations`.
 */
module MM1 {
  import opened Common

  /** How many waits `correr` keeps for plotting. */
  const SampleSize: nat := 5000

  /** `SimResult`; an average or ratio of `0.0 / 0.0` (a NaN in the source) is `None`. */
  datatype SimResult = SimResult(avgWait: Option<real>, avgSystem: Option<real>, utilization: Option<real>,
                                 total: nat, samples: seq<real>)

  /** Why `correr` does not return: `reserve` refuses a negative count. */
  datatype Error = NegativeCount

  function Sum(s: seq<real>): real
  {
    if s == [] then 0.0 else Sum(s[..|s| - 1]) + s[|s| - 1]
  }

  lemma {:induction false} SumNonNegative(s: seq<real>)
    requires forall i :: 0 <= i < |s| ==> s[i] >= 0.0
    ensures Sum(s) >= 0.0
  {
    if s != [] {
      SumNonNegative(s[..|s| - 1]);
    }
  }

  ghost predicate Positive(s: seq<real>)
  {
    forall i :: 0 <= i < |s| ==> s[i] > 0.0
  }

  /** The clock when customer `i` arrives: the running sum of the first `i + 1` gaps. */
  function ArrivalOf(gaps: seq<real>, i: nat): (r: real)
    requires i < |gaps|
    ensures r == Sum(gaps[..i]) + gaps[i]
  {
    assert gaps[..i + 1][..i] == gaps[..i];
    Sum(gaps[..i + 1])
  }

  /** When the server frees up after the first `k` customers (0.0 before any). */
  function FreeAfter(gaps: seq<real>, durations: seq<real>, k: nat): (r: real)
    requires k <= |gaps| && k <= |durations|
    ensures k == 0 ==> r == 0.0
    ensures k > 0 ==> r >= ArrivalOf(gaps, k - 1) + durations[k - 1]
  {
    if k == 0 then 0.0
    else Max(ArrivalOf(gaps, k - 1), FreeAfter(gaps, durations, k - 1)) + durations[k - 1]
  }

  /** Customer `i` starts when it has arrived and the server is free, whichever is later. */
  function StartOf(gaps: seq<real>, durations: seq<real>, i: nat): (r: real)
    requires i < |gaps| && i < |durations|
    ensures r >= ArrivalOf(gaps, i) && r >= FreeAfter(gaps, durations, i)
    ensures r == ArrivalOf(gaps, i) || r == FreeAfter(gaps, durations, i)
  {
    Max(ArrivalOf(gaps, i), FreeAfter(gaps, durations, i))
  }

  /** Customer `i`'s wait, never negative, and zero exactly when the server is free on arrival. */
  function WaitOf(gaps: seq<real>, durations: seq<real>, i: nat): (w: real)
    requires i < |gaps| && i < |durations|
    ensures w >= 0.0
    ensures w == 0.0 <==> FreeAfter(gaps, durations, i) <= ArrivalOf(gaps, i)
  {
    StartOf(gaps, durations, i) - ArrivalOf(gaps, i)
  }

  /** The waits of the first `k` customers, in order. */
  function Waits(gaps: seq<real>, durations: seq<real>, k: nat): (r: seq<real>)
    requires k <= |gaps| && k <= |durations|
    ensures |r| == k
    ensures forall i :: 0 <= i < k ==> r[i] >= 0.0
  {
    if k == 0 then [] else Waits(gaps, durations, k - 1) + [WaitOf(gaps, durations, k - 1)]
  }

  lemma {:induction false} WaitsAt(gaps: seq<real>, durations: seq<real>, k: nat, i: nat)
    requires k <= |gaps| && k <= |durations| && i < k
    ensures Waits(gaps, durations, k)[i] == WaitOf(gaps, durations, i)
  {
    if i < k - 1 {
      WaitsAt(gaps, durations, k - 1, i);
    }
  }

  /** Every recorded wait is non-negative, so is their sum. */
  lemma WaitsNonNegative(gaps: seq<real>, durations: seq<real>, k: nat)
    requires k <= |gaps| && k <= |durations|
    ensures Sum(Waits(gaps, durations, k)) >= 0.0
  {
    forall i | 0 <= i < k
      ensures Waits(gaps, durations, k)[i] >= 0.0
    {
      WaitsAt(gaps, durations, k, i);
    }
    SumNonNegative(Waits(gaps, durations, k));
  }

  /**
   * The Lindley recursion: each wait is the previous wait plus the
   * previous service, less the gap between the two arrivals, floored at 0.
   */
  lemma LindleyRecursion(gaps: seq<real>, durations: seq<real>, i: nat)
    requires i + 1 < |gaps| && i + 1 < |durations|
    ensures WaitOf(gaps, durations, i + 1) == Max(0.0, WaitOf(gaps, durations, i) + durations[i] - gaps[i + 1])
  {
    assert gaps[..i + 2][..i + 1] == gaps[..i + 1];
    assert ArrivalOf(gaps, i + 1) == ArrivalOf(gaps, i) + gaps[i + 1];
  }

  /** The server-free time never decreases from one customer to the next. */
  lemma {:induction false} FreeMonotone(gaps: seq<real>, durations: seq<real>, i: nat, j: nat)
    requires i <= j <= |gaps| && j <= |durations| && Positive(durations)
    ensures FreeAfter(gaps, durations, i) <= FreeAfter(gaps, durations, j)
  {
    if i < j {
      FreeMonotone(gaps, durations, i, j - 1);
      assert durations[j - 1] > 0.0;
    }
  }

  /**
   * One server serves one customer at a time: the total service handed out
   * to the first `k` customers fits before the server frees up.
   */
  lemma {:induction false} ServiceWithinFree(gaps: seq<real>, durations: seq<real>, k: nat)
    requires k <= |gaps| && k <= |durations|
    ensures Sum(durations[..k]) <= FreeAfter(gaps, durations, k)
  {
    if k > 0 {
      ServiceWithinFree(gaps, durations, k - 1);
      assert durations[..k][..k - 1] == durations[..k - 1];
    }
  }

  /** The prefix sums of a positive sequence are positive. */
  lemma PositiveSum(s: seq<real>, k: nat)
    requires 0 < k <= |s| && Positive(s)
    ensures Sum(s[..k]) > 0.0
  {
    SumNonNegative(s[..k - 1]);
    assert s[..k][..k - 1] == s[..k - 1];
  }

  lemma RatioWithinOne(a: real, b: real)
    requires 0.0 < a <= b
    ensures 0.0 < a / b <= 1.0
  {
  }

  /**
   * `tiempo_total_servicio / momento_servidor_libre` after `n` customers:
   * with a positive count and positive durations the server is used a
   * positive share of the time, and never more than all of it.
   */
  function ServerUtilization(gaps: seq<real>, durations: seq<real>, n: nat): (u: real)
    requires 0 < n <= |gaps| && n <= |durations| && Positive(durations)
    ensures 0.0 < u <= 1.0
  {
    ServiceWithinFree(gaps, durations, n);
    PositiveSum(durations, n);
    RatioWithinOne(Sum(durations[..n]), FreeAfter(gaps, durations, n));
    Sum(durations[..n]) / FreeAfter(gaps, durations, n)
  }

  /** What one turn of the loop of `correr` adds, customer `i` being served. */
  lemma Extend(gaps: seq<real>, durations: seq<real>, i: nat)
    requires i < |gaps| && i < |durations|
    ensures ArrivalOf(gaps, i) == Sum(gaps[..i]) + gaps[i]
    ensures FreeAfter(gaps, durations, i + 1) == StartOf(gaps, durations, i) + durations[i]
    ensures Sum(Waits(gaps, durations, i + 1)) == Sum(Waits(gaps, durations, i)) + WaitOf(gaps, durations, i)
    ensures Sum(durations[..i + 1]) == Sum(durations[..i]) + durations[i]
  {
    assert gaps[..i + 1][..i] == gaps[..i];
    assert durations[..i + 1][..i] == durations[..i];
  }

  /**
   * The loop of `correr(n_clientes)`: customer by customer, advance the
   * clock by the next gap, start the service at the later of the clock and
   * the server-free time, free the server after the service, accumulate the
   * wait, the time in system and the service, and keep the first 5000 waits.
   */
  method Accumulate(n: nat, gaps: seq<real>, durations: seq<real>)
    returns (free: real, sumWait: real, sumSystem: real, totalService: real, samples: seq<real>)
    requires n <= |gaps| && n <= |durations|
    ensures free == FreeAfter(gaps, durations, n)
    ensures sumWait == Sum(Waits(gaps, durations, n))
    ensures totalService == Sum(durations[..n])
    ensures sumSystem == sumWait + totalService
    ensures |samples| == (if n < SampleSize then n else SampleSize)
    ensures forall i :: 0 <= i < |samples| ==> samples[i] == WaitOf(gaps, durations, i)
  {
    samples := [];
    var clock := 0.0;
    free := 0.0;
    sumWait := 0.0;
    sumSystem := 0.0;
    totalService := 0.0;
    for i := 0 to n
      invariant clock == Sum(gaps[..i])
      invariant free == FreeAfter(gaps, durations, i)
      invariant sumWait == Sum(Waits(gaps, durations, i))
      invariant totalService == Sum(durations[..i])
      invariant sumSystem == sumWait + totalService
      invariant |samples| == (if i < SampleSize then i else SampleSize)
      invariant forall k :: 0 <= k < |samples| ==> samples[k] == WaitOf(gaps, durations, k)
    {
      Extend(gaps, durations, i);
      clock := clock + gaps[i];
      var start := Max(clock, free);
      var wait := start - clock;
      assert wait == WaitOf(gaps, durations, i);
      var system := wait + durations[i];
      free := start + durations[i];
      totalService := totalService + durations[i];
      sumWait := sumWait + wait;
      sumSystem := sumSystem + system;
      if i < SampleSize {
        samples := samples + [wait];
      }
    }
  }

  /**
   * `correr(n_clientes)`: the loop, then the averages over `n` and the
   * utilization, the service total over the final server-free time. With no
   * customer the three ratios are `0.0 / 0.0`.
   */
  method Run(n: int, gaps: seq<real>, durations: seq<real>) returns (r: Result<SimResult, Error>)
    requires n >= 0 ==> n <= |gaps| && n <= |durations|
    requires Positive(durations)
    ensures n < 0 <==> r.Failure?
    ensures r.Success? ==>
              && r.value.total == n
              && |r.value.samples| == (if n < SampleSize then n else SampleSize)
              && (forall i :: 0 <= i < |r.value.samples| ==> r.value.samples[i] == WaitOf(gaps, durations, i))
    ensures r.Success? && n == 0 ==> r.value.avgWait.None? && r.value.avgSystem.None? && r.value.utilization.None?
    ensures r.Success? && n > 0 ==>
              && r.value.avgWait == Some(Sum(Waits(gaps, durations, n)) / n as real)
              && r.value.avgSystem == Some((Sum(Waits(gaps, durations, n)) + Sum(durations[..n])) / n as real)
              && r.value.utilization == Some(ServerUtilization(gaps, durations, n))
              && 0.0 <= r.value.avgWait.value < r.value.avgSystem.value
  {
    if n < 0 {
      return Failure(NegativeCount);
    }
    var free, sumWait, sumSystem, totalService, samples := Accumulate(n, gaps, durations);
    if n == 0 {
      return Success(SimResult(None, None, None, 0, samples));
    }
    SumsSigns(gaps, durations, n);
    var count := n as real;
    AverageOrder(sumWait, totalService, count);
    var avgWait := sumWait / count;
    var avgSystem := sumSystem / count;
    var utilization := totalService / free;
    assert utilization == ServerUtilization(gaps, durations, n);
    return Success(SimResult(Some(avgWait), Some(avgSystem), Some(utilization), n, samples));
  }

  lemma AverageOrder(a: real, b: real, n: real)
    requires a >= 0.0 && b > 0.0 && n > 0.0
    ensures 0.0 <= a / n < (a + b) / n
  {
    assert (a + b) / n == a / n + b / n;
  }

  /** With a positive count and positive durations, the waits sum to at least zero, the services to more, and the server frees up at a positive time. */
  lemma SumsSigns(gaps: seq<real>, durations: seq<real>, n: nat)
    requires 0 < n <= |gaps| && n <= |durations| && Positive(durations)
    ensures Sum(Waits(gaps, durations, n)) >= 0.0 && Sum(durations[..n]) > 0.0
    ensures FreeAfter(gaps, durations, n) > 0.0
  {
    WaitsNonNegative(gaps, durations, n);
    PositiveSum(durations, n);
    ServiceWithinFree(gaps, durations, n);
  }
}
