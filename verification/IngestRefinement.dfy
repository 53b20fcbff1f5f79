/** An uninterrupted call of `processBatch` is a run of the ingest machine, so what holds of every run
    holds across the calls the processor really makes. */
module IngestRefinement {
  import opened Wrappers
  import opened Log
  import opened Batch
  import opened IngestMachine
  import opened IngestSafety
  import P = Processor

  lemma OneStep(w: World, l: Label)
    requires Enabled(w, l)
    ensures CanRun(w, [l]) && Run(w, [l]) == Apply(w, l)
  {
    assert Init([l]) == [];
  }

  lemma {:induction false} RunConcat(w: World, a: seq<Label>, b: seq<Label>)
    requires CanRun(w, a) && CanRun(Run(w, a), b)
    ensures CanRun(w, a + b) && Run(w, a + b) == Run(Run(w, a), b)
  {
    if b == [] {
      assert a + b == a;
    } else {
      RunConcat(w, a, Init(b));
      assert Init(a + b) == a + Init(b) && Last(a + b) == Last(b);
    }
  }

  /** One more step at the end of a run. */
  lemma ThenStep(w: World, a: seq<Label>, l: Label)
    requires CanRun(w, a) && Enabled(Run(w, a), l)
    ensures CanRun(w, a + [l]) && Run(w, a + [l]) == Apply(Run(w, a), l)
  {
    OneStep(Run(w, a), l);
    RunConcat(w, a, [l]);
  }

  function Lookups(id: nat, n: nat): seq<Label> {
    seq(n, _ => Lookup(id))
  }

  /** The pod after `n` of its lookups were answered. */
  function AfterLookups(w: World, id: nat, batch: seq<Record>, now: int, n: nat): World
    requires id in w.pods && n <= |Items(batch, now)|
  {
    To(w, id, Looking(batch, now, n, Kept(Items(batch, now)[..n], w.st.redis)))
  }

  /** Answering `n` lookups in a row keeps what the filter keeps of the first `n` items. */
  lemma {:induction false} LookupsRun(w: World, id: nat, batch: seq<Record>, now: int, n: nat)
    requires id in w.pods && w.pods[id].phase == Looking(batch, now, 0, []) && n <= |Items(batch, now)|
    ensures CanRun(w, Lookups(id, n)) && Run(w, Lookups(id, n)) == AfterLookups(w, id, batch, now, n)
  {
    if n == 0 {
      assert w.pods[id := w.pods[id].(phase := Looking(batch, now, 0, []))] == w.pods;
    } else {
      LookupsRun(w, id, batch, now, n - 1);
      NextLookup(w, id, batch, now, n - 1);
      ThenStep(w, Lookups(id, n - 1), Lookup(id));
      assert Lookups(id, n) == Lookups(id, n - 1) + [Lookup(id)];
    }
  }

  lemma NextLookup(w: World, id: nat, batch: seq<Record>, now: int, n: nat)
    requires id in w.pods && n < |Items(batch, now)|
    ensures var v := AfterLookups(w, id, batch, now, n);
      Enabled(v, Lookup(id)) && Apply(v, Lookup(id)) == AfterLookups(w, id, batch, now, n + 1)
  {
    assert Init(Items(batch, now)[..n + 1]) == Items(batch, now)[..n];
  }

  /** From the start of an attempt to the point where all lookups are answered. */
  lemma LookedUpRun(w: World, id: nat, batch: seq<Record>) returns (ls: seq<Label>)
    requires id in w.pods && w.pods[id].phase == Ready(batch)
    ensures CanRun(w, ls)
    ensures Run(w, ls) ==
      To(w, id, Looking(batch, w.clock, |Items(batch, w.clock)|, Kept(Items(batch, w.clock), w.st.redis)))
  {
    var items := Items(batch, w.clock);
    var w1 := To(w, id, Looking(batch, w.clock, 0, []));
    OneStep(w, Start(id));
    LookupsRun(w1, id, batch, w.clock, |items|);
    RunConcat(w, [Start(id)], Lookups(id, |items|));
    assert items[..|items|] == items;
    ls := [Start(id)] + Lookups(id, |items|);
  }

  lemma ThreeSteps(w: World, a: Label, b: Label, c: Label)
    requires Enabled(w, a) && Enabled(Apply(w, a), b) && Enabled(Apply(Apply(w, a), b), c)
    ensures CanRun(w, [a] + [b] + [c]) && Run(w, [a] + [b] + [c]) == Apply(Apply(Apply(w, a), b), c)
  {
    OneStep(w, a);
    ThenStep(w, [a], b);
    ThenStep(w, [a] + [b], c);
  }

  /** The pod polls again, from behind the batch. */
  function Past(pod: Pod, batch: seq<Record>): Pod {
    Pod(map p | p in pod.pos :: Target(batch, p, pod.pos[p]), Polling)
  }

  /** Of the pods only `id` changed: it polls on if the attempt succeeded and is ready to retry otherwise. */
  ghost predicate Delivered(w: World, w': World, id: nat, batch: seq<Record>, r: Result)
    requires id in w.pods
  {
    && w'.st == r.st && w'.raw == w.raw && w'.clock == w.clock && w'.pods.Keys == w.pods.Keys
    && (forall other :: other in w.pods && other != id ==> w'.pods[other] == w.pods[other])
    && w'.pods[id] == if r.ok then Past(w.pods[id], batch) else w.pods[id].(phase := Ready(batch))
  }

  /** What an attempt leaves: the stores of `Attempt`, everything else as above. */
  ghost predicate Attempted(w: World, w': World, id: nat, batch: seq<Record>, processedAt: int, f: Faults)
    requires id in w.pods
  {
    Delivered(w, w', id, batch, Attempt(w.st, batch, w.clock, processedAt, f))
  }

  lemma DeliverRun(w: World, id: nat, batch: seq<Record>, now: int, kept: seq<Item>, processedAt: int, f: Faults)
    returns (ls: seq<Label>)
    requires id in w.pods && w.pods[id].phase == Looking(batch, now, |Items(batch, now)|, kept) && AllMarshal(kept)
    ensures CanRun(w, ls)
    ensures Delivered(w, Run(w, ls), id, batch, Deliver(w.st, batch, kept, Out(batch, kept, processedAt, now), f))
  {
    var out := Out(batch, kept, processedAt, now);
    if out != [] && f.produce.Some? {
      ls := [Produce(id, processedAt, f.produce)];
      OneStep(w, ls[0]);
    } else {
      var w1 := Produced(w, id, processedAt, None);
      var w2 := MarkedBy(w1, id, f.mark);
      ThreeSteps(w, Produce(id, processedAt, None), Mark(id, f.mark), CommitOffsets(id, f.commit));
      ls := [Produce(id, processedAt, None)] + [Mark(id, f.mark)] + [CommitOffsets(id, f.commit)];
      ThreeStages(w, id, batch, now, kept, processedAt, f);
    }
  }

  lemma ThreeStages(w: World, id: nat, batch: seq<Record>, now: int, kept: seq<Item>, processedAt: int, f: Faults)
    requires id in w.pods && w.pods[id].phase == Looking(batch, now, |Items(batch, now)|, kept) && AllMarshal(kept)
    requires Out(batch, kept, processedAt, now) != [] ==> f.produce.None?
    ensures var w1 := Produced(w, id, processedAt, None);
      var w2 := MarkedBy(w1, id, f.mark);
      Delivered(w, CommittedBy(w2, id, f.commit), id, batch,
                Deliver(w.st, batch, kept, Out(batch, kept, processedAt, now), f))
  {
  }

  /** Every attempt, with any faults, is a run of the machine from the pod's ready state. */
  lemma AttemptIsARun(w: World, id: nat, batch: seq<Record>, processedAt: int, f: Faults) returns (ls: seq<Label>)
    requires id in w.pods && w.pods[id].phase == Ready(batch)
    ensures CanRun(w, ls) && Attempted(w, Run(w, ls), id, batch, processedAt, f)
  {
    if LookupBreaks(f.lookup, |Items(batch, w.clock)|) {
      ls := BrokenLookupRun(w, id, batch);
    } else if AllMarshal(Kept(Items(batch, w.clock), w.st.redis)) {
      ls := CompleteRun(w, id, batch, processedAt, f);
    } else {
      ls := RefusedRun(w, id, batch);
    }
  }

  lemma BrokenLookupRun(w: World, id: nat, batch: seq<Record>) returns (ls: seq<Label>)
    requires id in w.pods && w.pods[id].phase == Ready(batch)
    ensures CanRun(w, ls) && Run(w, ls) == w
  {
    OneStep(w, Start(id));
    ThenStep(w, [Start(id)], LookupFail(id));
    ls := [Start(id)] + [LookupFail(id)];
    assert w.pods[id := w.pods[id].(phase := Ready(batch))] == w.pods;
  }

  lemma RefusedRun(w: World, id: nat, batch: seq<Record>) returns (ls: seq<Label>)
    requires id in w.pods && w.pods[id].phase == Ready(batch) && !AllMarshal(Kept(Items(batch, w.clock), w.st.redis))
    ensures CanRun(w, ls) && Run(w, ls) == w
  {
    var looked := LookedUpRun(w, id, batch);
    ThenStep(w, looked, Refuse(id));
    ls := looked + [Refuse(id)];
    assert w.pods[id := w.pods[id].(phase := Ready(batch))] == w.pods;
  }

  lemma CompleteRun(w: World, id: nat, batch: seq<Record>, processedAt: int, f: Faults) returns (ls: seq<Label>)
    requires id in w.pods && w.pods[id].phase == Ready(batch) && AllMarshal(Kept(Items(batch, w.clock), w.st.redis))
    requires !LookupBreaks(f.lookup, |Items(batch, w.clock)|)
    ensures CanRun(w, ls) && Attempted(w, Run(w, ls), id, batch, processedAt, f)
  {
    var kept := Kept(Items(batch, w.clock), w.st.redis);
    var looked := LookedUpRun(w, id, batch);
    var w1 := To(w, id, Looking(batch, w.clock, |Items(batch, w.clock)|, kept));
    var rest := DeliverRun(w1, id, batch, w.clock, kept, processedAt, f);
    RunConcat(w, looked, rest);
    ls := looked + rest;
    DeliveredFrom(w, w1, Run(w1, rest), id, batch, Attempt(w.st, batch, w.clock, processedAt, f));
  }

  lemma DeliveredFrom(w: World, w1: World, w': World, id: nat, batch: seq<Record>, r: Result)
    requires id in w.pods && id in w1.pods && w1 == To(w, id, w1.pods[id].phase) && Delivered(w1, w', id, batch, r)
    ensures Delivered(w, w', id, batch, r)
  {
  }

  lemma {:induction false} RunKeepsSafe(w: World, ls: seq<Label>)
    requires Safe(w) && CanRun(w, ls)
    ensures Safe(Run(w, ls))
    decreases |ls|
  {
    if ls != [] {
      RunKeepsSafe(w, Init(ls));
      StepKeepsSafe(Run(w, Init(ls)), Last(ls));
    }
  }

  /** The class method inside the machine: calling `ProcessBatch` on the stores of a safe world, for a
      pod that holds the batch, gives the stores of a safe world again, reached by a run. */
  method ProcessInWorld(
      p: P.Processor, ghost w: World, ghost id: nat, recs: seq<Record>, processedAt: int, now: int, f: Faults)
    returns (ok: bool, ghost w': World, ghost ls: seq<Label>)
    requires Safe(w) && p.View() == w.st && now == w.clock
    requires id in w.pods && w.pods[id].phase == Ready(recs)
    modifies p, p.cl, p.rdb
    ensures CanRun(w, ls) && w' == Run(w, ls) && Safe(w') && p.View() == w'.st
    ensures Attempted(w, w', id, recs, processedAt, f)
    ensures ok <==> w'.pods[id].phase == Polling
  {
    var err := p.ProcessBatch(recs, now, processedAt, f);
    ls := AttemptIsARun(w, id, recs, processedAt, f);
    w' := Run(w, ls);
    RunKeepsSafe(w, ls);
    ok := err == None;
  }
}
