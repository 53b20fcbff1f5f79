/** The browser's map of newest reports per vehicle (web/src/useTelemetryStream.ts). */
module Browser {
  import opened Wrappers

  /** A parsed `Telemetry` event; `rest` stands for its other fields. */
  datatype Report = Report(vin: string, deviceTimestamp: int, rest: string)

  type Vehicles = map<string, Report>

  /** One event of `merge`: a report replaces what is shown unless it is older. */
  function Put(m: Vehicles, ev: Report): Vehicles {
    if ev.vin !in m || ev.deviceTimestamp >= m[ev.vin].deviceTimestamp then m[ev.vin := ev] else m
  }

  function PutAll(m: Vehicles, events: seq<Report>): Vehicles {
    if events == [] then m else Put(PutAll(m, Init(events)), Last(events))
  }

  /** `merge`. */
  method Merge(prev: Vehicles, events: seq<Report>) returns (next: Vehicles)
    ensures next == PutAll(prev, events)
  {
    next := prev;
    for i := 0 to |events|
      invariant next == PutAll(prev, events[..i])
    {
      assert Init(events[..i + 1]) == events[..i];
      var ev := events[i];
      if ev.vin !in next || ev.deviceTimestamp >= next[ev.vin].deviceTimestamp {
        next := next[ev.vin := ev];
      }
    }
    assert events[..|events|] == events;
  }

  /** What happens to the hook: an event arrives, the flush timer fires, the initial snapshot is there. */
  datatype Op = Arrive(ev: Report) | Flush | Snapshot(events: seq<Report>)

  datatype State = State(vehicles: Vehicles, pending: seq<Report>)

  function Step(s: State, op: Op): State {
    match op
    case Arrive(ev) => s.(pending := s.pending + [ev])
    case Flush => State(PutAll(s.vehicles, s.pending), [])
    case Snapshot(events) => s.(vehicles := PutAll(s.vehicles, events))
  }

  function Run(ops: seq<Op>): State {
    if ops == [] then State(map[], []) else Step(Run(Init(ops)), Last(ops))
  }

  class Hook {
    var vehicles: Vehicles
    var pending: seq<Report>

    constructor ()
      ensures View() == Run([])
    {
      vehicles, pending := map[], [];
    }

    function View(): State
      reads this
    {
      State(vehicles, pending)
    }

    method OnTelemetry(ev: Report)
      modifies this
      ensures View() == Step(old(View()), Arrive(ev))
    {
      pending := pending + [ev];
    }

    method OnTimer()
      modifies this
      ensures View() == Step(old(View()), Flush)
    {
      if |pending| == 0 {
        return;
      }
      var batch := pending;
      pending := [];
      vehicles := Merge(vehicles, batch);
    }

    method OnInitial(initial: Option<seq<Report>>)
      modifies this
      ensures View() == if initial.Some? then Step(old(View()), Snapshot(initial.value)) else old(View())
    {
      if initial.Some? {
        vehicles := Merge(vehicles, initial.value);
      }
    }
  }

  // ---------- what the map holds ----------

  /** Everything that reached the hook, from the stream or the snapshot. */
  function Seen(ops: seq<Op>): set<Report> {
    if ops == [] then {}
    else
      Seen(Init(ops)) +
      match Last(ops)
      case Arrive(ev) => {ev}
      case Flush => {}
      case Snapshot(events) => set ev | ev in events
  }

  /** The map holds, for each VIN that occurs, one of its newest reports. */
  ghost predicate Newest(m: Vehicles, seen: set<Report>) {
    && (forall vin :: vin in m ==> m[vin] in seen && m[vin].vin == vin)
    && (forall ev :: ev in seen ==> ev.vin in m && ev.deviceTimestamp <= m[ev.vin].deviceTimestamp)
  }

  lemma {:induction false} PutAllKeepsNewest(m: Vehicles, seen: set<Report>, events: seq<Report>)
    requires Newest(m, seen)
    ensures Newest(PutAll(m, events), seen + set ev | ev in events)
  {
    if events != [] {
      PutAllKeepsNewest(m, seen, Init(events));
      assert (set ev | ev in events) == (set ev | ev in Init(events)) + {Last(events)};
    } else {
      assert seen + (set ev | ev in events) == seen;
    }
  }

  /** Merged and pending reports together are all that were seen. */
  lemma {:induction false} MergedAndPending(ops: seq<Op>) returns (merged: set<Report>)
    ensures Newest(Run(ops).vehicles, merged)
    ensures merged + (set ev | ev in Run(ops).pending) == Seen(ops)
  {
    if ops == [] {
      merged := {};
    } else {
      var before := MergedAndPending(Init(ops));
      var s := Run(Init(ops));
      match Last(ops)
      case Arrive(ev) =>
        merged := before;
        assert (set e | e in s.pending + [ev]) == (set e | e in s.pending) + {ev};
      case Flush =>
        PutAllKeepsNewest(s.vehicles, before, s.pending);
        merged := before + set ev | ev in s.pending;
      case Snapshot(events) =>
        PutAllKeepsNewest(s.vehicles, before, events);
        merged := before + set ev | ev in events;
    }
  }

  /** For any batching, order, repetition and placement of the snapshot: once flushed, the map shows each
      vehicle's maximum timestamp over all reports seen. */
  lemma ShowsTheNewest(ops: seq<Op>)
    requires Run(ops).pending == []
    ensures Newest(Run(ops).vehicles, Seen(ops))
  {
    var merged := MergedAndPending(ops);
    assert (set ev: Report | ev in Run(ops).pending) == {};
    assert merged == Seen(ops);
  }

  /** A report with its vehicle's maximum timestamp. */
  ghost predicate IsNewest(seen: set<Report>, ev: Report) {
    ev in seen && forall other :: other in seen && other.vin == ev.vin ==> other.deviceTimestamp <= ev.deviceTimestamp
  }

  /** Each vehicle has one newest report; older ones may conflict. */
  ghost predicate Decided(seen: set<Report>) {
    forall a, b :: IsNewest(seen, a) && IsNewest(seen, b) && a.vin == b.vin ==> a == b
  }

  ghost predicate Flushed(ops: seq<Op>, seen: set<Report>) {
    Run(ops).pending == [] && Seen(ops) == seen
  }

  /** Then the whole map depends only on the set of reports seen. */
  lemma Convergence(a: seq<Op>, b: seq<Op>, seen: set<Report>)
    requires Flushed(a, seen) && Flushed(b, seen) && Decided(seen)
    ensures Run(a).vehicles == Run(b).vehicles
  {
    ShowsTheNewest(a);
    ShowsTheNewest(b);
    var m, n := Run(a).vehicles, Run(b).vehicles;
    forall vin ensures vin in m <==> vin in n {
      assert vin in m ==> m[vin] in seen;
      assert vin in n ==> n[vin] in seen;
    }
    forall vin | vin in m ensures m[vin] == n[vin] {
      assert IsNewest(seen, m[vin]) && IsNewest(seen, n[vin]);
    }
  }

  lemma ListOf(seen: set<Report>) returns (all: seq<Report>)
    ensures (set ev | ev in all) == seen
  {
    if ev :| ev in seen {
      var rest := ListOf(seen - {ev});
      all := rest + [ev];
      assert (set e | e in all) == (set e | e in rest) + {ev};
    } else {
      all := [];
    }
  }

  /** The snapshot with all reports, then once more with one of the newest: this one is shown. */
  lemma LastNewestIsShown(seen: set<Report>, all: seq<Report>, ev: Report)
    requires (set e | e in all) == seen && IsNewest(seen, ev)
    ensures var ops := [] + [Snapshot(all)] + [Snapshot([ev])];
      Flushed(ops, seen) && ev.vin in Run(ops).vehicles && Run(ops).vehicles[ev.vin] == ev
  {
    OneMore([], Snapshot(all));
    OneMore([] + [Snapshot(all)], Snapshot([ev]));
    assert (set e | e in [ev]) == {ev};
    assert Seen([] + [Snapshot(all)]) == seen && seen + {ev} == seen;
    ShowsTheNewest([] + [Snapshot(all)]);
    var m := Run([] + [Snapshot(all)]).vehicles;
    assert Init([ev]) == [];
    assert PutAll(m, [ev]) == Put(m, ev);
    assert m[ev.vin] in seen;
  }

  /** All runs over a set of reports end with the same map if and only if each vehicle has one newest
      report in it. */
  lemma ConvergesIff(seen: set<Report>)
    ensures (forall a, b :: Flushed(a, seen) && Flushed(b, seen) ==> Run(a).vehicles == Run(b).vehicles) <==>
      Decided(seen)
  {
    if Decided(seen) {
      forall a, b | Flushed(a, seen) && Flushed(b, seen) ensures Run(a).vehicles == Run(b).vehicles {
        Convergence(a, b, seen);
      }
    } else {
      var a, b :| IsNewest(seen, a) && IsNewest(seen, b) && a.vin == b.vin && a != b;
      var all := ListOf(seen);
      LastNewestIsShown(seen, all, a);
      LastNewestIsShown(seen, all, b);
    }
  }

  /** Of two conflicting newest reports the later one is shown. */
  lemma TiesDependOnOrder(vin: string, ts: int, x: string, y: string)
    requires x != y
    ensures var a, b := Report(vin, ts, x), Report(vin, ts, y);
      && Seen([Arrive(a), Arrive(b), Flush]) == Seen([Arrive(b), Arrive(a), Flush])
      && Run([Arrive(a), Arrive(b), Flush]).vehicles == map[vin := b]
      && Run([Arrive(b), Arrive(a), Flush]).vehicles == map[vin := a]
  {
    var a, b := Report(vin, ts, x), Report(vin, ts, y);
    TwoThenFlush(a, b);
    TwoThenFlush(b, a);
  }

  lemma OneMore(ops: seq<Op>, op: Op)
    ensures Run(ops + [op]) == Step(Run(ops), op)
    ensures Seen(ops + [op]) ==
      Seen(ops) + (match op case Arrive(ev) => {ev} case Flush => {} case Snapshot(events) => set ev | ev in events)
  {
    assert Init(ops + [op]) == ops;
  }

  lemma TwoThenFlush(a: Report, b: Report)
    requires a.vin == b.vin && a.deviceTimestamp == b.deviceTimestamp
    ensures Run([Arrive(a), Arrive(b), Flush]).vehicles == map[a.vin := b]
    ensures Seen([Arrive(a), Arrive(b), Flush]) == {a, b}
  {
    OneMore([], Arrive(a));
    OneMore([] + [Arrive(a)], Arrive(b));
    OneMore([] + [Arrive(a)] + [Arrive(b)], Flush);
    assert [] + [Arrive(a)] + [Arrive(b)] + [Flush] == [Arrive(a), Arrive(b), Flush];
    var pending := [] + [a] + [b];
    assert Init(pending) == [] + [a] && Init([] + [a]) == [];
    assert PutAll(map[], [] + [a]) == map[a.vin := a];
    assert PutAll(map[], pending) == map[a.vin := a][a.vin := b];
  }
}
