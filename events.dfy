/**
 * The scheduler's pending events. Every engine keeps a Python list managed by
 * `heapq` holding tuples `(time, "LLEGADA", None)` and `(time, "SALIDA", id)`;
 * here an event is a tagged value and the list an unordered sequence from which
 * the minimum in tuple order is removed.
 */
module Events {

  datatype Event = Arrival(time: real) | Departure(time: real, server: nat)

  /** Position of the kind tag in string order: "LLEGADA" < "SALIDA". */
  function Rank(e: Event): nat
  {
    if e.Arrival? then 0 else 1
  }

  /**
   * Python's lexicographic order on the event tuples: time first, then the
   * kind string, then the payload (a server id for departures; two arrival
   * tuples with the same time are equal, so their `None` payloads are never
   * compared with `<`).
   */
  predicate Le(a: Event, b: Event)
  {
    a.time < b.time
    || (a.time == b.time && Rank(a) < Rank(b))
    || (a.time == b.time && Rank(a) == Rank(b) && (a.Arrival? || a.server <= b.server))
  }

  /** The tuple order is total, antisymmetric and transitive, so the minimum popped by `heappop` is unique. */
  lemma LeIsTotalOrder(a: Event, b: Event, c: Event)
    ensures Le(a, b) || Le(b, a)
    ensures Le(a, b) && Le(b, a) ==> a == b
    ensures Le(a, b) && Le(b, c) ==> Le(a, c)
    ensures Le(a, b) ==> a.time <= b.time
  {
  }

  /** At equal times an arrival is popped before any departure, and departures go by server id. */
  lemma ArrivalBeforeDeparture(t: real, s: nat, s': nat)
    ensures Le(Arrival(t), Departure(t, s)) && !Le(Departure(t, s), Arrival(t))
    ensures Le(Departure(t, s), Departure(t, s')) <==> s <= s'
  {
  }

  /** The pending events once the one at position `k` is taken out. */
  function Remove(h: seq<Event>, k: nat): (r: seq<Event>)
    requires k < |h|
    ensures |r| == |h| - 1
    ensures forall i :: 0 <= i < |r| ==> r[i] == h[if i < k then i else i + 1]
  {
    h[..k] + h[k + 1..]
  }

  /**
   * `heapq.heappop`: the position and value of the least pending event in
   * tuple order, and the events that remain.
   */
  method PopMin(h: seq<Event>) returns (e: Event, k: nat, rest: seq<Event>)
    requires h != []
    ensures k < |h| && e == h[k] && rest == Remove(h, k)
    ensures forall x :: x in h ==> Le(e, x)
  {
    k := 0;
    var i := 1;
    while i < |h|
      invariant 1 <= i <= |h| && k < i
      invariant forall j :: 0 <= j < i ==> Le(h[k], h[j])
    {
      if !Le(h[k], h[i]) {
        k := i;
      }
      i := i + 1;
    }
    e := h[k];
    rest := Remove(h, k);
  }

  /** Server ids carried by the pending departures, with multiplicity. */
  function DepartureIds(h: seq<Event>): multiset<nat>
  {
    if h == [] then multiset{}
    else (if h[0].Departure? then multiset{h[0].server} else multiset{}) + DepartureIds(h[1..])
  }

  lemma {:induction false} DepartureIdsConcat(a: seq<Event>, b: seq<Event>)
    ensures DepartureIds(a + b) == DepartureIds(a) + DepartureIds(b)
  {
    if a == [] {
      assert a + b == b;
    } else {
      assert (a + b)[0] == a[0];
      assert (a + b)[1..] == a[1..] + b;
      DepartureIdsConcat(a[1..], b);
    }
  }

  /** Removing the event at position k removes exactly its departure id, if any. */
  lemma RemoveAt(h: seq<Event>, k: nat)
    requires k < |h|
    ensures DepartureIds(h) == DepartureIds(Remove(h, k)) + DepartureIds([h[k]])
  {
    var front, back := h[..k], h[k + 1..];
    Split(h, k);
    DepartureIdsConcat(front + [h[k]], back);
    DepartureIdsConcat(front, [h[k]]);
    DepartureIdsConcat(front, back);
  }

  /** Pushing one event adds exactly its departure id, if any. */
  lemma Push(h: seq<Event>, e: Event)
    ensures DepartureIds(h + [e]) == DepartureIds(h) + DepartureIds([e])
  {
    DepartureIdsConcat(h, [e]);
  }

  /** The history around position `k`: what comes before it, it, and what comes after. */
  lemma Split(h: seq<Event>, k: nat)
    requires k < |h|
    ensures h == (h[..k] + [h[k]]) + h[k + 1..]
    ensures Remove(h, k) == h[..k] + h[k + 1..]
  {
  }

  /** Number of pending arrivals. */
  function Arrivals(h: seq<Event>): nat
  {
    if h == [] then 0 else (if h[0].Arrival? then 1 else 0) + Arrivals(h[1..])
  }

  lemma {:induction false} ArrivalsConcat(a: seq<Event>, b: seq<Event>)
    ensures Arrivals(a + b) == Arrivals(a) + Arrivals(b)
  {
    if a == [] {
      assert a + b == b;
    } else {
      assert (a + b)[0] == a[0];
      assert (a + b)[1..] == a[1..] + b;
      ArrivalsConcat(a[1..], b);
    }
  }

  /** Removing the event at position k removes one arrival exactly when it is one. */
  lemma ArrivalsRemove(h: seq<Event>, k: nat)
    requires k < |h|
    ensures Arrivals(h) == Arrivals(Remove(h, k)) + (if h[k].Arrival? then 1 else 0)
  {
    var front, back := h[..k], h[k + 1..];
    Split(h, k);
    ArrivalsConcat(front + [h[k]], back);
    ArrivalsConcat(front, [h[k]]);
    ArrivalsConcat(front, back);
    assert Arrivals([h[k]]) == if h[k].Arrival? then 1 else 0 by {
      assert [h[k]][1..] == [];
    }
  }

  /** Pushing one event adds one arrival exactly when it is one. */
  lemma ArrivalsPush(h: seq<Event>, e: Event)
    ensures Arrivals(h + [e]) == Arrivals(h) + (if e.Arrival? then 1 else 0)
  {
    ArrivalsConcat(h, [e]);
  }
}
