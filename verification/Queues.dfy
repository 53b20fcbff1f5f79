/** A bounded queue behind a filter: what a non-blocking send does. */
module Queues {
  import opened Wrappers
  import opened Interest

  /** A `TelemetryEvent`: the two ids it is routed by, and its JSON. */
  datatype Event = Event(fleet: string, vin: string, json: string)

  const CLIENT_BUFFER := 512

  datatype Fate = Unmatched | Delivered | Dropped

  /** What becomes of an event offered to a queue that holds `queued` of at most `cap`. */
  function Outcome(filter: Filter, queued: nat, cap: nat, ev: Event): Fate {
    if !filter.Admits(ev.fleet, ev.vin) then Unmatched
    else if queued < cap then Delivered
    else Dropped
  }

  /** An event gets in if and only if it is admitted and there is room, and is lost if and only if it is
      admitted and there is none. */
  lemma OutcomeIff(filter: Filter, queued: nat, cap: nat, ev: Event)
    ensures Outcome(filter, queued, cap, ev) == Delivered <==> filter.Admits(ev.fleet, ev.vin) && queued < cap
    ensures Outcome(filter, queued, cap, ev) == Dropped <==> filter.Admits(ev.fleet, ev.vin) && cap <= queued
  {
  }

  function Offered(filter: Filter, queue: seq<Event>, cap: nat, ev: Event): seq<Event> {
    if Outcome(filter, |queue|, cap, ev) == Delivered then queue + [ev] else queue
  }

  function Tally(fates: seq<Fate>, fate: Fate): nat {
    if fates == [] then 0 else Tally(Init(fates), fate) + if Last(fates) == fate then 1 else 0
  }

  /** Counting along the order of visits is counting the set. */
  lemma {:induction false} TallyCounts<T>(order: seq<T>, fates: seq<Fate>, fate: Fate, fated: set<T>)
    requires |order| == |fates| && forall i, j :: 0 <= i < j < |order| ==> order[i] != order[j]
    requires forall s :: s in fated ==> s in order
    requires forall j :: 0 <= j < |order| ==> (order[j] in fated <==> fates[j] == fate)
    ensures Tally(fates, fate) == |fated|
  {
    if order != [] {
      var s := Last(order);
      TallyCounts(Init(order), Init(fates), fate, fated - {s});
    } else {
      assert fated == {};
    }
  }
}
