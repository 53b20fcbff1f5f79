/** Provenance and order of the output: every canonical event is the event of an accepted raw record,
    every dead letter a record refused at its time, and no record is dead-lettered after its event was
    produced. The opposite order does occur. */
module IngestOrder {
  import opened Wrappers
  import opened Keys
  import opened Telemetry
  import opened Log
  import opened Batch
  import opened IngestMachine
  import opened IngestShape
  import opened IngestSafety
  import opened IngestRefinement

  ghost predicate InRaw(raw: seq<seq<Record>>, r: Record) {
    r.part < |raw| && r.off < |raw[r.part]| && raw[r.part][r.off] == r
  }

  /** The event says what the record says; fleet and processing time are added by the processor. */
  predicate EventOf(ev: Event, r: Record) {
    r.value.Encoded? && ev.(fleetId := "", processedTimestamp := 0) == ToItem(r).ev
  }

  ghost predicate Sourced(o: Output) {
    match o
    case Canonical(ev, src, at) => Accepted(src, at) && EventOf(ev, src)
    case DeadLetter(src, reason, at) => Reject(src, at) == Some(reason)
  }

  ghost predicate ItemOf(it: Item, batch: seq<Record>, now: int) {
    it.src in batch && Accepted(it.src, now) && EventOf(it.ev, it.src)
  }

  /** Every event already produced from a record of the batch was produced no later than `now`. */
  ghost predicate NoNewer(h: seq<Output>, batch: seq<Record>, now: int) {
    forall o :: o in h && o.Canonical? && o.src in batch ==> o.at <= now
  }

  ghost predicate NoLateDeadLetter(h: seq<Output>) {
    forall i, j :: 0 <= i < j < |h| && h[i].Canonical? && h[j].DeadLetter? ==> h[i].src != h[j].src
  }

  ghost predicate PhaseTimed(w: World, ph: Phase) {
    ph.Looking? ==>
      && ph.now <= w.clock && NoNewer(w.st.history, ph.batch, ph.now)
      && forall it :: it in ph.kept ==> ItemOf(it, ph.batch, ph.now)
  }

  ghost predicate PhasesTimed(w: World) {
    forall id :: id in w.pods ==> PhaseTimed(w, w.pods[id].phase)
  }

  ghost predicate HistoryTimed(w: World) {
    && (forall o :: o in w.st.history ==> Sourced(o) && InRaw(w.raw, o.src) && o.at <= w.clock)
    && NoLateDeadLetter(w.st.history)
  }

  ghost predicate Timed(w: World) {
    Shape(w) && HistoryTimed(w) && PhasesTimed(w)
  }

  // ---------- one batch ----------

  lemma {:induction false} ItemsAreOfTheBatch(recs: seq<Record>, now: int)
    ensures forall it :: it in Items(recs, now) ==> ItemOf(it, recs, now)
  {
    if recs != [] {
      ItemsAreOfTheBatch(Init(recs), now);
      assert forall r :: r in recs <==> r in Init(recs) || r == Last(recs);
    }
  }

  lemma {:induction false} DeadAreOfTheBatch(recs: seq<Record>, now: int)
    ensures forall o :: o in Dead(recs, now) ==> o.DeadLetter? && o.src in recs && Sourced(o) && o.at == now
  {
    if recs != [] {
      DeadAreOfTheBatch(Init(recs), now);
      assert forall r :: r in recs <==> r in Init(recs) || r == Last(recs);
    }
  }

  /** Output of one produce: sourced in the batch, at the time of the attempt. */
  ghost predicate FromBatch(o: Output, batch: seq<Record>, now: int) {
    o.src in batch && Sourced(o) && o.at == now
  }

  lemma OutIsFromBatch(batch: seq<Record>, kept: seq<Item>, processedAt: int, now: int)
    requires forall it :: it in kept ==> ItemOf(it, batch, now)
    ensures forall o :: o in Out(batch, kept, processedAt, now) ==> FromBatch(o, batch, now)
  {
    DeadAreOfTheBatch(batch, now);
    forall o | o in Outputs(kept, processedAt, now) ensures FromBatch(o, batch, now) {
      var i :| 0 <= i < |kept| && Outputs(kept, processedAt, now)[i] == o;
      assert kept[i] in kept && o == ToOutput(kept[i], processedAt, now);
    }
  }

  /** New output from one attempt never buries a record whose event is already out. */
  lemma NoLateDeadLetterAppend(h: seq<Output>, more: seq<Output>, batch: seq<Record>, now: int)
    requires NoLateDeadLetter(h) && (forall o :: o in h ==> Sourced(o)) && NoNewer(h, batch, now)
    requires forall o :: o in more ==> FromBatch(o, batch, now)
    ensures NoLateDeadLetter(h + more)
  {
    var h' := h + more;
    forall i, j | 0 <= i < j < |h'| && h'[i].Canonical? && h'[j].DeadLetter? ensures h'[i].src != h'[j].src {
      if j >= |h| {
        assert h'[j] in more;
        if i < |h| {
          assert h'[i] in h;
          if h'[i].src == h'[j].src {
            VerdictOverTime(h'[i].src.value.msg, h'[i].at, now);
          }
        } else {
          assert h'[i] in more;
        }
      }
    }
  }

  // ---------- every step keeps it ----------

  /** A record is in the batch of one pod only. */
  lemma BatchesDisjoint(w: World, a: nat, b: nat, r: Record)
    requires Shape(w) && a in w.pods && b in w.pods && r in BatchOf(w.pods[a].phase) && r in BatchOf(w.pods[b].phase)
    ensures a == b
  {
    assert PodShape(w.raw, w.st.committed, w.pods[a]) && PodShape(w.raw, w.st.committed, w.pods[b]);
    assert FromPartition(w.raw, w.pods[a].pos, r) && FromPartition(w.raw, w.pods[b].pos, r);
  }

  lemma BatchInRaw(w: World, id: nat, r: Record)
    requires Shape(w) && id in w.pods && r in BatchOf(w.pods[id].phase)
    ensures InRaw(w.raw, r)
  {
    assert PodShape(w.raw, w.st.committed, w.pods[id]);
    assert FromPartition(w.raw, w.pods[id].pos, r);
  }

  lemma ProduceKeepsHistory(w: World, id: nat, more: seq<Output>)
    requires Timed(w) && id in w.pods && w.pods[id].phase.Looking?
    requires forall o :: o in more ==> FromBatch(o, w.pods[id].phase.batch, w.pods[id].phase.now)
    ensures HistoryTimed(w.(st := w.st.(history := w.st.history + more)))
  {
    var ph := w.pods[id].phase;
    assert PhaseTimed(w, ph);
    NoLateDeadLetterAppend(w.st.history, more, ph.batch, ph.now);
    forall o | o in more ensures InRaw(w.raw, o.src) {
      BatchInRaw(w, id, o.src);
    }
  }

  lemma ProduceKeepsOthers(w: World, id: nat, more: seq<Output>, other: nat)
    requires Timed(w) && id in w.pods && w.pods[id].phase.Looking? && other in w.pods && other != id
    requires forall o :: o in more ==> FromBatch(o, w.pods[id].phase.batch, w.pods[id].phase.now)
    ensures PhaseTimed(w.(st := w.st.(history := w.st.history + more)), w.pods[other].phase)
  {
    var ph := w.pods[other].phase;
    assert PhaseTimed(w, ph);
    if ph.Looking? {
      forall o | o in w.st.history + more && o.Canonical? && o.src in ph.batch ensures o.at <= ph.now {
        if o in more {
          BatchesDisjoint(w, id, other, o.src);
        }
      }
    }
  }

  lemma ProduceKeepsTimed(w: World, id: nat, processedAt: int, reached: Option<set<nat>>)
    requires Timed(w) && id in w.pods && w.pods[id].phase.Looking?
    ensures HistoryTimed(Produced(w, id, processedAt, reached)) && PhasesTimed(Produced(w, id, processedAt, reached))
  {
    var ph := w.pods[id].phase;
    var w' := Produced(w, id, processedAt, reached);
    assert PhaseTimed(w, ph);
    var out := Out(ph.batch, ph.kept, processedAt, ph.now);
    OutIsFromBatch(ph.batch, ph.kept, processedAt, ph.now);
    var more := match reached case None => out case Some(s) => Pick(out, s);
    if reached.Some? {
      PickIsPart(out, reached.value);
    }
    ProduceKeepsHistory(w, id, more);
    forall other | other in w'.pods ensures PhaseTimed(w', w'.pods[other].phase) {
      if other != id {
        ProduceKeepsOthers(w, id, more, other);
      }
    }
  }

  lemma LookupKeepsTimed(w: World, id: nat)
    requires Timed(w) && id in w.pods && w.pods[id].phase.Looking?
    requires w.pods[id].phase.next < |ItemsOf(w.pods[id].phase)|
    ensures PhasesTimed(LookedUp(w, id))
  {
    var ph := w.pods[id].phase;
    assert PhaseTimed(w, ph);
    ItemsAreOfTheBatch(ph.batch, ph.now);
    assert ItemsOf(ph)[ph.next] in ItemsOf(ph);
    forall other | other in w.pods && other != id ensures PhaseTimed(w, w.pods[other].phase) {
    }
  }

  /** Steps that neither produce nor look up: a pod keeps its attempt, leaves it, or starts one now. */
  ghost predicate QuietPhases(w: World, w': World) {
    && w'.st.history == w.st.history && w.clock <= w'.clock
    && forall id :: id in w'.pods ==>
         || (id in w.pods && w'.pods[id].phase == w.pods[id].phase)
         || (w'.pods[id].phase.Looking? ==> w'.pods[id].phase.now == w'.clock && w'.pods[id].phase.kept == [])
  }

  lemma QuietStepPhases(w: World, l: Label)
    requires Enabled(w, l) && !l.Produce? && !l.Lookup?
    ensures QuietPhases(w, Apply(w, l))
    ensures |Apply(w, l).raw| == |w.raw| && forall p :: 0 <= p < |w.raw| ==> w.raw[p] <= Apply(w, l).raw[p]
  {
  }

  lemma QuietKeepsTimed(w: World, w': World)
    requires Timed(w) && QuietPhases(w, w')
    requires |w'.raw| == |w.raw| && forall p :: 0 <= p < |w.raw| ==> w.raw[p] <= w'.raw[p]
    ensures HistoryTimed(w') && PhasesTimed(w')
  {
    forall o | o in w'.st.history ensures InRaw(w'.raw, o.src) {
      assert InRaw(w.raw, o.src);
    }
    forall id | id in w'.pods ensures PhaseTimed(w', w'.pods[id].phase) {
      if id in w.pods && w'.pods[id].phase == w.pods[id].phase {
        assert PhaseTimed(w, w.pods[id].phase);
      }
    }
  }

  lemma StepKeepsTimed(w: World, l: Label)
    requires Timed(w) && Enabled(w, l)
    ensures Timed(Apply(w, l))
  {
    StepKeepsShape(w, l);
    if l.Produce? {
      ProduceKeepsTimed(w, l.id, l.processedAt, l.reached);
    } else if l.Lookup? {
      LookupKeepsTimed(w, l.id);
    } else {
      QuietStepPhases(w, l);
      QuietKeepsTimed(w, Apply(w, l));
    }
  }

  // ---------- over every run ----------

  lemma {:induction false} RunsAreTimed(w: World, ls: seq<Label>)
    requires Initial(w) && CanRun(w, ls)
    ensures Timed(Run(w, ls))
    decreases |ls|
  {
    if ls == [] {
      InitialHasShape(w);
    } else {
      RunsAreTimed(w, Init(ls));
      StepKeepsTimed(Run(w, Init(ls)), Last(ls));
    }
  }

  /** Acceptance is stable: once a record's event is out, no retry or replay sends that record to the
      dead-letter topic. */
  lemma {:induction false} NeverDeadAfterCanonical(w: World, ls: seq<Label>, i: nat, j: nat)
    requires Initial(w) && CanRun(w, ls)
    requires i < j < |Run(w, ls).st.history|
    requires Run(w, ls).st.history[i].Canonical? && Run(w, ls).st.history[j].DeadLetter?
    ensures Run(w, ls).st.history[i].src != Run(w, ls).st.history[j].src
  {
    RunsAreTimed(w, ls);
  }

  /** The verdicts on one record differ only around the moment its timestamp stops being in the future. */
  lemma RefusedThenAccepted(src: Record, reason: Reason, refusedAt: int, acceptedAt: int)
    requires Reject(src, refusedAt) == Some(reason) && Accepted(src, acceptedAt)
    ensures reason == Invalid(FutureTimestamp)
    ensures refusedAt + FUTURE_SLACK < src.value.msg.deviceTimestamp <= acceptedAt + FUTURE_SLACK
  {
    if refusedAt <= acceptedAt {
      VerdictOverTime(src.value.msg, refusedAt, acceptedAt);
    } else {
      VerdictOverTime(src.value.msg, acceptedAt, refusedAt);
    }
  }

  /** Over every run, a record has both a dead letter and an event only if it was refused for a timestamp
      in the future: the dead letter comes first, and the clock passed the timestamp in between. */
  lemma {:induction false} BothOutputs(w: World, ls: seq<Label>, i: nat, j: nat)
    requires Initial(w) && CanRun(w, ls)
    requires i < |Run(w, ls).st.history| && j < |Run(w, ls).st.history|
    requires Run(w, ls).st.history[i].DeadLetter? && Run(w, ls).st.history[j].Canonical?
    requires Run(w, ls).st.history[i].src == Run(w, ls).st.history[j].src
    ensures var h := Run(w, ls).st.history;
      && i < j && h[i].reason == Invalid(FutureTimestamp) && h[j].src.value.Encoded?
      && h[i].at + FUTURE_SLACK < h[j].src.value.msg.deviceTimestamp <= h[j].at + FUTURE_SLACK
  {
    RunsAreTimed(w, ls);
    var h := Run(w, ls).st.history;
    assert h[i] in h && h[j] in h;
    RefusedThenAccepted(h[i].src, h[i].reason, h[i].at, h[j].at);
  }

  /** Nothing is invented: a canonical event repeats a raw record that validation accepted, and a dead
      letter is a raw record that it refused, with the reason. */
  lemma {:induction false} OutputIsFaithful(w: World, ls: seq<Label>, i: nat)
    requires Initial(w) && CanRun(w, ls) && i < |Run(w, ls).st.history|
    ensures var o := Run(w, ls).st.history[i];
      && InRaw(Run(w, ls).raw, o.src)
      && match o
         case Canonical(ev, src, at) =>
           src.value.Encoded? && Validate(src.value.msg, at) == None && Reports(ev, src)
         case DeadLetter(src, _, at) => Buries(o, src, at)
  {
    RunsAreTimed(w, ls);
    var o := Run(w, ls).st.history[i];
    assert o in Run(w, ls).st.history;
    if o.Canonical? {
      assert o.ev.(fleetId := "", processedTimestamp := 0) == ToItem(o.src).ev;
    }
  }

  // ---------- the opposite order occurs ----------

  /** From an initial world, one pod polls the one record there is. */
  lemma PollOne(w: World, rec: Record) returns (ls: seq<Label>)
    requires Initial(w) && rec.part < |w.raw| && rec.off == 0
    ensures CanRun(w, ls)
    ensures var w' := Run(w, ls);
      && w'.st == w.st && w'.clock == w.clock
      && 0 in w'.pods && w'.pods[0].phase == Ready([rec])
  {
    var w1 := w.(raw := w.raw[rec.part := [rec]]);
    assert w.raw[rec.part] + [rec] == [rec];
    var w2 := w1.(pods := map[0 := Pod(map[rec.part := 0], Polling)]);
    OneStep(w, Append(rec));
    ThenStep(w, [Append(rec)], Assign(0, rec.part));
    PollsOne(w2.raw, rec);
    ThenStep(w, [Append(rec)] + [Assign(0, rec.part)], Poll(0, [rec]));
    ls := [Append(rec)] + [Assign(0, rec.part)] + [Poll(0, [rec])];
  }

  lemma PollsOne(raw: seq<seq<Record>>, rec: Record)
    requires rec.part < |raw| && raw[rec.part] == [rec] && rec.off == 0
    ensures Polled(raw, map[rec.part := 0], [rec])
  {
    assert Init([rec]) == [];
    assert Target([rec], rec.part, 0) == 1;
  }

  /** A record from the future is dead-lettered; if that batch's commit fails, a later retry accepts
      the same record: first a dead letter, then its event. */
  lemma DeadThenCanonical(w: World, rec: Record, t: int) returns (ls: seq<Label>)
    requires Initial(w) && rec.part < |w.raw| && rec.off == 0
    requires rec.value.Encoded? && Reject(rec, w.clock) == Some(Invalid(FutureTimestamp))
    requires w.clock <= t && rec.value.msg.deviceTimestamp <= t + FUTURE_SLACK && !HasNaN(rec.value.msg)
    ensures CanRun(w, ls)
    ensures var h := Run(w, ls).st.history;
      |h| == 2 && h[0].DeadLetter? && h[0].src == rec && h[1].Canonical? && h[1].src == rec
  {
    var polled := PollOne(w, rec);
    var w0 := Run(w, polled);
    var first := RefusedAttempt(w0, rec);
    RunConcat(w, polled, first);
    ThenStep(w, polled + first, Tick(t));
    var w2 := Apply(Run(w0, first), Tick(t));
    var second := AcceptedAttempt(w2, rec);
    RunConcat(w, polled + first + [Tick(t)], second);
    ls := polled + first + [Tick(t)] + second;
  }

  lemma RefusedAttempt(w: World, rec: Record) returns (ls: seq<Label>)
    requires 0 in w.pods && w.pods[0].phase == Ready([rec]) && Reject(rec, w.clock).Some?
    ensures CanRun(w, ls)
    ensures var w' := Run(w, ls);
      && w'.clock == w.clock && 0 in w'.pods && w'.pods[0].phase == Ready([rec]) && w'.st.redis == w.st.redis
      && w'.st.history == w.st.history + [DeadLetter(rec, Reject(rec, w.clock).value, w.clock)]
  {
    var f := Faults(Healthy, None, None, Some({}));
    OneRefused(w.st, rec, w.clock, f);
    ls := AttemptIsARun(w, 0, [rec], 0, f);
  }

  lemma AcceptedAttempt(w: World, rec: Record) returns (ls: seq<Label>)
    requires 0 in w.pods && w.pods[0].phase == Ready([rec])
    requires Accepted(rec, w.clock) && !HasNaN(rec.value.msg) && KeyOf(rec) !in w.st.redis
    ensures CanRun(w, ls)
    ensures var h, h' := w.st.history, Run(w, ls).st.history;
      |h'| == |h| + 1 && h <= h' && Last(h').Canonical? && Last(h').src == rec
  {
    OneAccepted(w.st, rec, w.clock);
    ls := AttemptIsARun(w, 0, [rec], 0, NO_FAULTS);
  }

  lemma OneRefused(st: Stores, rec: Record, now: int, f: Faults)
    requires Reject(rec, now).Some? && f == Faults(Healthy, None, None, Some({}))
    ensures var r := Attempt(st, [rec], now, 0, f);
      !r.ok && r.st.redis == st.redis && r.st.history == st.history + [DeadLetter(rec, Reject(rec, now).value, now)]
  {
    assert Init([rec]) == [];
    assert Items([rec], now) == [] && Dead([rec], now) == [DeadLetter(rec, Reject(rec, now).value, now)];
    P.MarkNothing(st.redis, [], None);
  }

  lemma OneAccepted(st: Stores, rec: Record, now: int)
    requires Accepted(rec, now) && !HasNaN(rec.value.msg) && KeyOf(rec) !in st.redis
    ensures var r := Attempt(st, [rec], now, 0, NO_FAULTS);
      r.ok && |r.st.history| == |st.history| + 1 && st.history <= r.st.history
      && Last(r.st.history).Canonical? && Last(r.st.history).src == rec
  {
    assert Init([rec]) == [];
    assert Items([rec], now) == [ToItem(rec)] && Dead([rec], now) == [];
    assert Init([ToItem(rec)]) == [];
    var kept := Kept([ToItem(rec)], st.redis);
    assert kept == Kept([], st.redis) + KeepOne(Last([ToItem(rec)]), st.redis);
    assert kept == [WithFleet(ToItem(rec), st.redis)];
    AcceptedMarshalsUnlessNaN(rec.value.msg, now, kept[0].ev);
    assert Out([rec], kept, 0, now) == [ToOutput(kept[0], 0, now)];
  }
}
