/** Which fleet an event carries: what Redis showed for its own vehicle at one of the run's lookups. */
module IngestFleets {
  import opened Wrappers
  import opened Keys
  import opened Telemetry
  import opened Batch
  import opened IngestMachine
  import opened IngestSafety
  import opened IngestOrder

  /** This step looks up a report of the vehicle that no live key marks, and Redis shows this fleet. */
  ghost predicate Looks(w: World, l: Label, vin: string, fleet: string) {
    && l.Lookup? && Enabled(w, l)
    && var it := ItemsOf(w.pods[l.id].phase)[w.pods[l.id].phase.next];
       it.ev.vin == vin && it.dedupKey !in w.st.redis && ShowsFleet(w.st.redis, vin, fleet)
  }

  /** Some step of the run does. */
  ghost predicate LookedUpIn(w: World, ls: seq<Label>, vin: string, fleet: string)
    requires CanRun(w, ls)
    decreases |ls|
  {
    ls != [] && (LookedUpIn(w, Init(ls), vin, fleet) || Looks(Run(w, Init(ls)), Last(ls), vin, fleet))
  }

  ghost predicate ItemsShown(w: World, ls: seq<Label>, items: seq<Item>)
    requires CanRun(w, ls)
  {
    forall it :: it in items ==> LookedUpIn(w, ls, it.ev.vin, it.ev.fleetId)
  }

  ghost predicate PhaseShown(w: World, ls: seq<Label>, ph: Phase)
    requires CanRun(w, ls)
  {
    ph.Looking? ==> ItemsShown(w, ls, ph.kept)
  }

  ghost predicate Shown(w: World, ls: seq<Label>)
    requires CanRun(w, ls)
  {
    && (forall o :: o in Run(w, ls).st.history && o.Canonical? ==> LookedUpIn(w, ls, o.ev.vin, o.ev.fleetId))
    && (forall id :: id in Run(w, ls).pods ==> PhaseShown(w, ls, Run(w, ls).pods[id].phase))
  }

  lemma OutCarriesItems(batch: seq<Record>, kept: seq<Item>, processedAt: int, now: int, o: Output)
    requires o in Out(batch, kept, processedAt, now) && o.Canonical?
    ensures exists it :: it in kept && it.ev.vin == o.ev.vin && it.ev.fleetId == o.ev.fleetId
  {
    var dead := DeadAreTheRefused(batch, now);
    var i :| 0 <= i < |Out(batch, kept, processedAt, now)| && Out(batch, kept, processedAt, now)[i] == o;
    assert i >= |Dead(batch, now)|;
    assert kept[i - |Dead(batch, now)|] in kept;
  }

  lemma ProduceKeepsShown(w: World, ls: seq<Label>)
    requires CanRun(w, ls) && ls != [] && Last(ls).Produce? && Shown(w, Init(ls))
    ensures Shown(w, ls)
  {
    var v, l := Run(w, Init(ls)), Last(ls);
    var ph := v.pods[l.id].phase;
    var out := Out(ph.batch, ph.kept, l.processedAt, ph.now);
    if l.reached.Some? {
      PickIsPart(out, l.reached.value);
    }
    assert PhaseShown(w, Init(ls), ph);
    forall o | o in Run(w, ls).st.history && o.Canonical? ensures LookedUpIn(w, ls, o.ev.vin, o.ev.fleetId) {
      if o !in v.st.history {
        OutCarriesItems(ph.batch, ph.kept, l.processedAt, ph.now, o);
      }
    }
    forall id | id in Run(w, ls).pods ensures PhaseShown(w, ls, Run(w, ls).pods[id].phase) {
      assert id != l.id ==> PhaseShown(w, Init(ls), v.pods[id].phase);
    }
  }

  lemma LookupKeepsShown(w: World, ls: seq<Label>)
    requires CanRun(w, ls) && ls != [] && Last(ls).Lookup? && Shown(w, Init(ls))
    ensures Shown(w, ls)
  {
    var v, l := Run(w, Init(ls)), Last(ls);
    forall id | id in Run(w, ls).pods ensures PhaseShown(w, ls, Run(w, ls).pods[id].phase) {
      assert PhaseShown(w, Init(ls), v.pods[id].phase);
      if id == l.id {
        var it := ItemsOf(v.pods[id].phase)[v.pods[id].phase.next];
        assert it.dedupKey !in v.st.redis ==> Looks(v, l, it.ev.vin, WithFleet(it, v.st.redis).ev.fleetId);
      }
    }
  }

  lemma OtherStepKeepsShown(w: World, ls: seq<Label>)
    requires CanRun(w, ls) && ls != [] && !Last(ls).Lookup? && !Last(ls).Produce? && Shown(w, Init(ls))
    ensures Shown(w, ls)
  {
    var v := Run(w, Init(ls));
    QuietStepPhases(v, Last(ls));
    forall id | id in Run(w, ls).pods ensures PhaseShown(w, ls, Run(w, ls).pods[id].phase) {
      assert id in v.pods ==> PhaseShown(w, Init(ls), v.pods[id].phase);
    }
  }

  lemma {:induction false} RunsShow(w: World, ls: seq<Label>)
    requires Initial(w) && CanRun(w, ls)
    ensures Shown(w, ls)
    decreases |ls|
  {
    if ls != [] {
      RunsShow(w, Init(ls));
      if Last(ls).Produce? {
        ProduceKeepsShown(w, ls);
      } else if Last(ls).Lookup? {
        LookupKeepsShown(w, ls);
      } else {
        OtherStepKeepsShown(w, ls);
      }
    }
  }

  /** Over every run, every canonical event carries the fleet that Redis held for its own vehicle at some
      lookup of the run, or UNASSIGNED, and that only if there was no fleet key then (or this was its value). */
  lemma {:induction false} FleetIsLookedUp(w: World, ls: seq<Label>, i: nat)
    requires Initial(w) && CanRun(w, ls)
    requires i < |Run(w, ls).st.history| && Run(w, ls).st.history[i].Canonical?
    ensures LookedUpIn(w, ls, Run(w, ls).st.history[i].ev.vin, Run(w, ls).st.history[i].ev.fleetId)
  {
    RunsShow(w, ls);
  }
}
