/** The range checks let a NaN through, and a NaN cannot be marshalled: over every run, a partition's
    committed offset never passes a record that holds a NaN, was acceptable when it arrived and is the
    first of its key that validation ever accepts. No retry, crash, re-batching or rebalance helps. */
module IngestPoison {
  import opened Wrappers
  import opened Telemetry
  import opened Log
  import opened Batch
  import opened IngestMachine
  import opened IngestShape
  import opened IngestSafety
  import opened IngestOrder

  /** No earlier record of the partition with this key is ever accepted. */
  ghost predicate FirstOfKey(raw: seq<seq<Record>>, rec: Record)
    requires rec.value.Encoded?
  {
    forall o :: rec.part < |raw| && 0 <= o < |raw[rec.part]| && o < rec.off && EverAccepted(raw[rec.part][o])
      ==> KeyOf(raw[rec.part][o]) != KeyOf(rec)
  }

  ghost predicate PhaseStuck(ph: Phase, rec: Record)
    requires rec.value.Encoded?
  {
    ph.Looking? ==>
      && (rec in ph.batch ==> Accepted(rec, ph.now))
      && forall it :: it in ph.kept && it.dedupKey == KeyOf(rec) ==> !Marshals(it.ev)
  }

  ghost predicate PhasesStuck(pods: map<nat, Pod>, rec: Record)
    requires rec.value.Encoded?
  {
    forall id :: id in pods ==> PhaseStuck(pods[id].phase, rec)
  }

  /** The record can neither be published nor dead-lettered. */
  ghost predicate Stuck(w: World, rec: Record) {
    && InRaw(w.raw, rec) && rec.value.Encoded? && HasNaN(rec.value.msg) && Accepted(rec, w.clock)
    && FirstOfKey(w.raw, rec) && !Accounted(w.st.history, rec) && PhasesStuck(w.pods, rec)
  }

  /** A stuck record is not committed. */
  lemma StuckIsNotCommitted(w: World, rec: Record)
    requires Safe(w) && Stuck(w, rec)
    ensures w.st.committed[rec.part] <= rec.off
  {
    assert w.raw[rec.part][rec.off] == rec;
  }

  // ---------- a batch that reaches the key holds the record ----------

  /** A batch with any acceptable record of the key contains the stuck record, at or before that one. */
  lemma BatchHoldsStuck(w: World, id: nat, rec: Record, s: Record)
    requires Safe(w) && Stuck(w, rec) && id in w.pods && s in BatchOf(w.pods[id].phase)
    requires EverAccepted(s) && KeyOf(s) == KeyOf(rec)
    ensures rec in BatchOf(w.pods[id].phase) && s.part == rec.part && rec.off <= s.off
  {
    var pod := w.pods[id];
    var batch := BatchOf(pod.phase);
    var p := rec.part;
    assert PodShape(w.raw, w.st.committed, pod);
    assert FromPartition(w.raw, pod.pos, s);
    assert SameVin(w.raw[s.part][s.off], w.raw[p][rec.off]);
    StuckIsNotCommitted(w, rec);
    TargetTop(batch, s, pod.pos[p]);
    assert w.raw[p][rec.off] in batch;
  }

  lemma StuckComesFirst(w: World, id: nat, rec: Record, n: nat) returns (m: nat)
    requires Safe(w) && Stuck(w, rec) && id in w.pods && n < |BatchOf(w.pods[id].phase)|
    requires EverAccepted(BatchOf(w.pods[id].phase)[n]) && KeyOf(BatchOf(w.pods[id].phase)[n]) == KeyOf(rec)
    ensures m <= n && BatchOf(w.pods[id].phase)[m] == rec
  {
    var batch := BatchOf(w.pods[id].phase);
    BatchHoldsStuck(w, id, rec, batch[n]);
    m :| 0 <= m < |batch| && batch[m] == rec;
    assert PodShape(w.raw, w.st.committed, w.pods[id]);
  }

  /** The item of the stuck key is the stuck record's, so it holds the NaN. */
  lemma StuckItem(w: World, id: nat, rec: Record, j: nat)
    requires Safe(w) && Stuck(w, rec) && id in w.pods && w.pods[id].phase.Looking?
    requires j < |ItemsOf(w.pods[id].phase)| && ItemsOf(w.pods[id].phase)[j].dedupKey == KeyOf(rec)
    ensures !Marshals(ItemsOf(w.pods[id].phase)[j].ev)
  {
    var batch, now := w.pods[id].phase.batch, w.pods[id].phase.now;
    var idx := ItemsAreFirstOccurrences(batch, now);
    assert idx[j] in Firsts(batch, now);
    assert PhaseStuck(w.pods[id].phase, rec);
    AcceptedIsEver(batch[idx[j]]);
    var m := StuckComesFirst(w, id, rec, idx[j]);
    assert rec in batch;
    assert m == idx[j];
    AcceptedMarshalsUnlessNaN(rec.value.msg, now, ToItem(rec).ev);
  }

  lemma CompleteSettles(h: seq<Output>, ph: Phase)
    requires PhaseSafe(h, ph) && Complete(ph)
    ensures forall r :: r in ph.batch && Accepted(r, ph.now) ==> KeyOf(r) in KeysOf(ph.kept) || Emitted(h, KeyOf(r))
  {
    ItemsHaveTheKeys(ph.batch, ph.now);
    forall r | r in ph.batch && Accepted(r, ph.now) ensures KeyOf(r) in KeysOf(ph.kept) || Emitted(h, KeyOf(r)) {
      assert KeyOf(r) in KeysOf(ItemsOf(ph));
      var it :| it in ItemsOf(ph) && it.dedupKey == KeyOf(r);
      var j :| 0 <= j < |ItemsOf(ph)| && ItemsOf(ph)[j] == it;
      assert Settled(h, ItemsOf(ph)[j], ph.kept);
    }
  }

  /** A produce that gets past `json.Marshal` does not carry the stuck record or its key. */
  lemma ProduceAvoidsStuck(w: World, id: nat, rec: Record)
    requires Safe(w) && Stuck(w, rec) && id in w.pods && Complete(w.pods[id].phase) && AllMarshal(w.pods[id].phase.kept)
    ensures rec !in w.pods[id].phase.batch && KeyOf(rec) !in KeysOf(w.pods[id].phase.kept)
  {
    var ph := w.pods[id].phase;
    assert PhaseSafe(w.st.history, ph) && PhaseStuck(ph, rec);
    assert KeyOf(rec) !in KeysOf(ph.kept);
    CompleteSettles(w.st.history, ph);
  }

  // ---------- every step keeps it ----------

  lemma ProduceKeepsUnaccounted(w: World, id: nat, processedAt: int, reached: Option<set<nat>>, rec: Record)
    requires Safe(w) && Stuck(w, rec) && id in w.pods && Complete(w.pods[id].phase) && AllMarshal(w.pods[id].phase.kept)
    ensures !Accounted(Produced(w, id, processedAt, reached).st.history, rec)
  {
    var ph := w.pods[id].phase;
    var h' := Produced(w, id, processedAt, reached).st.history;
    var out := Out(ph.batch, ph.kept, processedAt, ph.now);
    ProduceAvoidsStuck(w, id, rec);
    assert PhaseSafe(w.st.history, ph);
    DeadAreOfTheBatch(ph.batch, ph.now);
    if reached.Some? {
      PickIsPart(out, reached.value);
    }
    forall o | o in h' ensures !(o.Canonical? && OutKey(o) == KeyOf(rec)) && !(o.DeadLetter? && o.src == rec) {
      if o !in w.st.history {
        assert o in out;
        if o !in Dead(ph.batch, ph.now) {
          var i :| 0 <= i < |ph.kept| && o == ToOutput(ph.kept[i], processedAt, ph.now);
          assert ph.kept[i] in ph.kept;
        }
      }
    }
  }

  lemma LookupKeepsStuck(w: World, id: nat, rec: Record)
    requires Safe(w) && Stuck(w, rec)
    requires id in w.pods && w.pods[id].phase.Looking? && w.pods[id].phase.next < |ItemsOf(w.pods[id].phase)|
    ensures PhasesStuck(LookedUp(w, id).pods, rec)
  {
    var ph := w.pods[id].phase;
    assert PhaseStuck(ph, rec);
    if ItemsOf(ph)[ph.next].dedupKey == KeyOf(rec) {
      StuckItem(w, id, rec, ph.next);
    }
  }

  /** Other steps: a pod keeps its phase, leaves its attempt, or starts one at the present clock. */
  lemma OtherPhases(w: World, l: Label)
    requires Enabled(w, l) && !l.Lookup?
    ensures var w' := Apply(w, l);
      && w.clock <= w'.clock && |w.raw| == |w'.raw| && (forall p :: 0 <= p < |w.raw| ==> w.raw[p] <= w'.raw[p])
      && (!l.Produce? ==> w'.st.history == w.st.history)
      && forall id :: id in w'.pods ==>
           || (id in w.pods && w'.pods[id].phase == w.pods[id].phase)
           || (w'.pods[id].phase.Looking? ==> w'.pods[id].phase.now == w.clock && w'.pods[id].phase.kept == [])
  {
  }

  lemma StepKeepsStuck(w: World, l: Label, rec: Record)
    requires Safe(w) && Stuck(w, rec) && Enabled(w, l)
    ensures Stuck(Apply(w, l), rec)
  {
    if l.Lookup? {
      LookupKeepsStuck(w, l.id, rec);
    } else {
      OtherPhases(w, l);
      VerdictOverTime(rec.value.msg, w.clock, Apply(w, l).clock);
      if l.Produce? {
        ProduceKeepsUnaccounted(w, l.id, l.processedAt, l.reached, rec);
      }
      StuckElsewhere(w, Apply(w, l), rec);
    }
  }

  lemma StuckElsewhere(w: World, w': World, rec: Record)
    requires Stuck(w, rec) && Accepted(rec, w'.clock) && !Accounted(w'.st.history, rec)
    requires |w.raw| == |w'.raw| && forall p :: 0 <= p < |w.raw| ==> w.raw[p] <= w'.raw[p]
    requires forall id :: id in w'.pods ==>
      || (id in w.pods && w'.pods[id].phase == w.pods[id].phase)
      || (w'.pods[id].phase.Looking? ==> w'.pods[id].phase.now == w.clock && w'.pods[id].phase.kept == [])
    ensures Stuck(w', rec)
  {
    forall id | id in w'.pods ensures PhaseStuck(w'.pods[id].phase, rec) {
      if id in w.pods {
        assert PhaseStuck(w.pods[id].phase, rec);
      }
    }
  }

  // ---------- a NaN record arrives ----------

  /** Neither output nor any attempt knows a record that has only just arrived and whose key is new. */
  lemma ArrivalIsStuck(w: World, rec: Record)
    requires Safe(w) && Timed(w) && Enabled(w, Append(rec))
    requires rec.value.Encoded? && HasNaN(rec.value.msg) && Accepted(rec, w.clock)
    requires forall o :: 0 <= o < |w.raw[rec.part]| && EverAccepted(w.raw[rec.part][o]) ==>
      KeyOf(w.raw[rec.part][o]) != KeyOf(rec)
    ensures Stuck(Apply(w, Append(rec)), rec)
  {
    forall o | o in w.st.history
      ensures !(o.Canonical? && OutKey(o) == KeyOf(rec)) && !(o.DeadLetter? && o.src == rec)
    {
      assert Sourced(o) && InRaw(w.raw, o.src);
      if o.Canonical? && OutKey(o) == KeyOf(rec) {
        AcceptedIsEver(o.src);
        NoSuchKey(w, rec, o.src);
      }
    }
    forall id | id in w.pods ensures PhaseStuck(w.pods[id].phase, rec) {
      ArrivalPhase(w, rec, id);
    }
  }

  lemma NoSuchKey(w: World, rec: Record, src: Record)
    requires Enabled(w, Append(rec)) && rec.value.Encoded? && InRaw(w.raw, src) && EverAccepted(src)
    requires forall o :: 0 <= o < |w.raw[rec.part]| && EverAccepted(w.raw[rec.part][o]) ==>
      KeyOf(w.raw[rec.part][o]) != KeyOf(rec)
    ensures KeyOf(src) != KeyOf(rec)
  {
    if KeyOf(src) == KeyOf(rec) {
      assert SameVin(w.raw[src.part][src.off], rec);
    }
  }

  lemma ArrivalPhase(w: World, rec: Record, id: nat)
    requires Safe(w) && Timed(w) && Enabled(w, Append(rec)) && rec.value.Encoded? && id in w.pods
    requires forall o :: 0 <= o < |w.raw[rec.part]| && EverAccepted(w.raw[rec.part][o]) ==>
      KeyOf(w.raw[rec.part][o]) != KeyOf(rec)
    ensures PhaseStuck(w.pods[id].phase, rec)
  {
    var ph := w.pods[id].phase;
    assert PhaseTimed(w, ph) && PhaseSafe(w.st.history, ph);
    if ph.Looking? {
      if rec in ph.batch {
        BatchInRaw(w, id, rec);
      }
      forall it | it in ph.kept ensures it.dedupKey != KeyOf(rec) {
        assert ItemOf(it, ph.batch, ph.now);
        BatchInRaw(w, id, it.src);
        AcceptedIsEver(it.src);
        NoSuchKey(w, rec, it.src);
      }
    }
  }

  lemma {:induction false} RunKeepsStuck(w: World, ls: seq<Label>, rec: Record)
    requires Safe(w) && Stuck(w, rec) && CanRun(w, ls)
    ensures Safe(Run(w, ls)) && Stuck(Run(w, ls), rec)
    decreases |ls|
  {
    if ls != [] {
      RunKeepsStuck(w, Init(ls), rec);
      StepKeepsSafe(Run(w, Init(ls)), Last(ls));
      StepKeepsStuck(Run(w, Init(ls)), Last(ls), rec);
    }
  }

  /** After any history `before`, let a record with a NaN arrive that validation accepts at that time and
      that is the first of its key in its partition that validation ever accepts. Then in every continuation
      its partition's committed offset stays at or below it, and it is neither published nor dead-lettered. */
  lemma {:induction false} NaNNeverCommits(w: World, before: seq<Label>, rec: Record, after: seq<Label>)
    requires Initial(w) && CanRun(w, before) && Enabled(Run(w, before), Append(rec))
    requires CanRun(Apply(Run(w, before), Append(rec)), after)
    requires rec.value.Encoded? && HasNaN(rec.value.msg) && Accepted(rec, Run(w, before).clock)
    requires var part := Run(w, before).raw[rec.part];
      forall o :: 0 <= o < |part| && EverAccepted(part[o]) ==> KeyOf(part[o]) != KeyOf(rec)
    ensures var w' := Run(Apply(Run(w, before), Append(rec)), after);
      && rec.part < |w'.st.committed| && w'.st.committed[rec.part] <= rec.off
      && !HasEvent(w'.st.history, rec.value.msg.vin, rec.value.msg.deviceTimestamp)
      && !HasDeadLetter(w'.st.history, rec.part, rec.off)
  {
    var w1 := Run(w, before);
    RunsAreSafe(w, before);
    RunsAreTimed(w, before);
    ArrivalIsStuck(w1, rec);
    StepKeepsSafe(w1, Append(rec));
    StepKeepsTimed(w1, Append(rec));
    var w2 := Apply(w1, Append(rec));
    RunKeepsStuck(w2, after, rec);
    RunKeepsTimed(w2, after);
    var w' := Run(w2, after);
    StuckIsNotCommitted(w', rec);
    StuckHasNoOutput(w', rec);
  }

  lemma {:induction false} RunKeepsTimed(w: World, ls: seq<Label>)
    requires Timed(w) && CanRun(w, ls)
    ensures Timed(Run(w, ls))
    decreases |ls|
  {
    if ls != [] {
      RunKeepsTimed(w, Init(ls));
      StepKeepsTimed(Run(w, Init(ls)), Last(ls));
    }
  }

  lemma StuckHasNoOutput(w: World, rec: Record)
    requires Timed(w) && Stuck(w, rec)
    ensures !HasEvent(w.st.history, rec.value.msg.vin, rec.value.msg.deviceTimestamp)
    ensures !HasDeadLetter(w.st.history, rec.part, rec.off)
  {
    var h := w.st.history;
    forall i | 0 <= i < |h| && h[i].Canonical?
      ensures !(h[i].ev.vin == rec.value.msg.vin && h[i].ev.deviceTimestamp == rec.value.msg.deviceTimestamp)
    {
      assert h[i] in h;
    }
    forall i | 0 <= i < |h| && h[i].DeadLetter? ensures !(h[i].src.part == rec.part && h[i].src.off == rec.off) {
      assert h[i] in h && InRaw(w.raw, h[i].src);
    }
  }
}
