/**
 * Customers (`Cliente`) in the waiting line and in the history, and the FIFO
 * discipline every engine copy keeps between them.
 */
module Customers {

  /**
   * A customer as created on arrival: `id`, `hora_llegada`, the queue length
   * seen on arrival (`largo_cola_al_llegar` / `cola_al_llegar`) and, in
   * simulacion_banco.py only, the estimate seen on arrival (`ewt_al_llegar`,
   * 0.0 in the other copies).
   */
  datatype Customer = Customer(id: nat, arrival: real, queueAtArrival: nat, ewtAtArrival: real)

  /**
   * A customer once assigned: `hora_inicio_atencion`, `hora_salida` and, in
   * simulacion_banco.py only, the queue left behind (`largo_cola_al_entrar`,
   * 0 in the other copies).
   */
  datatype Served = Served(customer: Customer, start: real, departure: real, queueAtEntry: nat)

  /**
   * Entry `k` of the history: customer `k`, who arrived no later than its
   * service started, started no later than the clock and left strictly
   * after starting; it arrived and started no earlier than entry `k - 1`.
   */
  ghost predicate ServedOk(history: seq<Served>, k: nat, clock: real)
    requires k < |history|
  {
    && history[k].customer.id == k
    && history[k].customer.arrival <= history[k].start <= clock
    && history[k].start < history[k].departure
    && (k > 0 ==> history[k - 1].start <= history[k].start
                  && history[k - 1].customer.arrival <= history[k].customer.arrival)
  }

  /**
   * Entry `k` of the waiting line: the next id after the history and the
   * customers ahead, arrived by the clock and no earlier than whoever is
   * ahead of it (the last served customer for the head of the line).
   */
  ghost predicate WaitingOk(history: seq<Served>, queue: seq<Customer>, k: nat, clock: real)
    requires k < |queue|
  {
    && queue[k].id == |history| + k
    && queue[k].arrival <= clock
    && (k > 0 ==> queue[k - 1].arrival <= queue[k].arrival)
    && (k == 0 && history != [] ==> history[|history| - 1].customer.arrival <= queue[0].arrival)
  }

  /**
   * The history holds customers 0, 1, ... in service order and the waiting
   * line holds the next ids in arrival order. Orders are stated between
   * neighbours; `Sorted` gives them for any pair.
   */
  ghost predicate FifoOk(history: seq<Served>, queue: seq<Customer>, clock: real)
  {
    && (forall k :: 0 <= k < |history| ==> ServedOk(history, k, clock))
    && (forall k :: 0 <= k < |queue| ==> WaitingOk(history, queue, k, clock))
  }

  lemma EmptyFifo(clock: real)
    ensures FifoOk([], [], clock)
  {
  }

  /** Appending the customer just created (next id, arriving now) keeps the discipline. */
  lemma Enqueue(history: seq<Served>, queue: seq<Customer>, clock: real, c: Customer)
    requires FifoOk(history, queue, clock)
    requires c.id == |history| + |queue| && c.arrival == clock
    ensures FifoOk(history, queue + [c], clock)
  {
    var q := queue + [c];
    forall k | 0 <= k < |q|
      ensures WaitingOk(history, q, k, clock)
    {
      if k < |queue| {
        assert WaitingOk(history, queue, k, clock);
      } else if k > 0 {
        assert WaitingOk(history, queue, k - 1, clock);
      } else if history != [] {
        assert ServedOk(history, |history| - 1, clock);
      }
    }
  }

  /** Serving the head of the line now, for a positive duration, keeps the discipline. */
  lemma ServeHead(history: seq<Served>, queue: seq<Customer>, clock: real, duration: real, behind: nat)
    requires FifoOk(history, queue, clock)
    requires queue != [] && duration > 0.0
    ensures FifoOk(history + [Served(queue[0], clock, clock + duration, behind)], queue[1..], clock)
  {
    var h := history + [Served(queue[0], clock, clock + duration, behind)];
    var q := queue[1..];
    assert WaitingOk(history, queue, 0, clock);
    forall k | 0 <= k < |h|
      ensures ServedOk(h, k, clock)
    {
      if k < |history| {
        assert ServedOk(history, k, clock);
      } else if k > 0 {
        assert ServedOk(history, k - 1, clock);
      }
    }
    forall k | 0 <= k < |q|
      ensures WaitingOk(h, q, k, clock)
    {
      assert WaitingOk(history, queue, k + 1, clock);
    }
  }

  /** Moving the clock forward keeps the discipline. */
  lemma LaterClock(history: seq<Served>, queue: seq<Customer>, clock: real, later: real)
    requires FifoOk(history, queue, clock) && clock <= later
    ensures FifoOk(history, queue, later)
  {
    forall k | 0 <= k < |history|
      ensures ServedOk(history, k, later)
    {
      assert ServedOk(history, k, clock);
    }
    forall k | 0 <= k < |queue|
      ensures WaitingOk(history, queue, k, later)
    {
      assert WaitingOk(history, queue, k, clock);
    }
  }

  /** Neighbour order in the history extends to every pair. */
  lemma {:induction false} Sorted(history: seq<Served>, queue: seq<Customer>, clock: real, i: nat, j: nat)
    requires FifoOk(history, queue, clock) && i <= j < |history|
    ensures history[i].start <= history[j].start && history[i].customer.arrival <= history[j].customer.arrival
    decreases j - i
  {
    if i < j {
      Sorted(history, queue, clock, i + 1, j);
      assert ServedOk(history, i + 1, clock);
    }
  }

  /**
   * The FIFO property: a customer who arrived strictly earlier than another
   * started service no later, and ids follow service order.
   */
  lemma FifoService(history: seq<Served>, queue: seq<Customer>, clock: real, i: nat, j: nat)
    requires FifoOk(history, queue, clock)
    requires i < |history| && j < |history|
    ensures history[i].customer.arrival < history[j].customer.arrival ==> history[i].start <= history[j].start
    ensures history[i].customer.id < history[j].customer.id ==> history[i].start <= history[j].start
  {
    assert ServedOk(history, i, clock) && ServedOk(history, j, clock);
    if i <= j {
      Sorted(history, queue, clock, i, j);
    } else {
      Sorted(history, queue, clock, j, i);
    }
  }

  /** Reported wait, `(hora_inicio_atencion - hora_llegada) * 60`, in minutes. */
  function WaitMinutes(r: Served): (w: real)
    ensures w >= 0.0 <==> r.start >= r.customer.arrival
  {
    (r.start - r.customer.arrival) * 60.0
  }

  /** Reported time in the system, `(hora_salida - hora_llegada) * 60`, in minutes. */
  function SystemMinutes(r: Served): (t: real)
    ensures t - WaitMinutes(r) == (r.departure - r.start) * 60.0
  {
    (r.departure - r.customer.arrival) * 60.0
  }

  /** Every reported wait is non-negative and strictly below the reported time in the system. */
  lemma ReportBounds(history: seq<Served>, queue: seq<Customer>, clock: real, k: nat)
    requires FifoOk(history, queue, clock) && k < |history|
    ensures 0.0 <= WaitMinutes(history[k]) < SystemMinutes(history[k])
  {
    assert ServedOk(history, k, clock);
  }
}
