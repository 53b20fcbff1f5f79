/** At least once, never lost: in every reachable state each raw record below its partition's committed
    offset has its event in the canonical log or its copy in the dead-letter log. */
module IngestSafety {
  import opened Wrappers
  import opened Keys
  import opened Batch
  import opened IngestMachine
  import opened IngestShape

  // ---------- what has been produced ----------

  function OutKey(o: Output): Key
    requires o.Canonical?
  {
    Dedup(o.ev.vin, o.ev.deviceTimestamp)
  }

  /** Some canonical event carries this VIN and timestamp. */
  ghost predicate Emitted(h: seq<Output>, k: Key) {
    exists o :: o in h && o.Canonical? && OutKey(o) == k
  }

  ghost predicate Buried(h: seq<Output>, rec: Record) {
    exists o :: o in h && o.DeadLetter? && o.src == rec
  }

  ghost predicate Accounted(h: seq<Output>, rec: Record) {
    (rec.value.Encoded? && Emitted(h, KeyOf(rec))) || Buried(h, rec)
  }

  lemma AccountedGrows(h: seq<Output>, h': seq<Output>)
    requires h <= h'
    ensures forall k :: Emitted(h, k) ==> Emitted(h', k)
    ensures forall r :: Accounted(h, r) ==> Accounted(h', r)
  {
    assert forall o :: o in h ==> o in h';
  }

  // ---------- the invariant ----------

  /** Every live deduplication key already has its event. */
  ghost predicate Backed(st: Stores) {
    forall k :: k in st.redis && k.Dedup? ==> Emitted(st.history, k)
  }

  ghost predicate Covered(w: World) {
    forall p, o :: 0 <= p < |w.raw| && p < |w.st.committed| && 0 <= o < |w.raw[p]| && o < w.st.committed[p]
      ==> Accounted(w.st.history, w.raw[p][o])
  }

  ghost predicate Settled(h: seq<Output>, it: Item, kept: seq<Item>) {
    it.dedupKey in KeysOf(kept) || Emitted(h, it.dedupKey)
  }

  ghost predicate KeysTrue(kept: seq<Item>) {
    forall it :: it in kept ==> it.dedupKey == Dedup(it.ev.vin, it.ev.deviceTimestamp)
  }

  /** What a pod may rely on in each phase. */
  ghost predicate PhaseSafe(h: seq<Output>, ph: Phase) {
    match ph
    case Polling => true
    case Ready(_) => true
    case Looking(batch, now, next, kept) =>
      && next <= |Items(batch, now)| && KeysTrue(kept)
      && forall j :: 0 <= j < next ==> Settled(h, Items(batch, now)[j], kept)
    case Acked(batch, kept) =>
      (forall r :: r in batch ==> Accounted(h, r)) && (forall it :: it in kept ==> Emitted(h, it.dedupKey))
    case Marked(batch) => forall r :: r in batch ==> Accounted(h, r)
  }

  ghost predicate PhasesSafe(w: World) {
    forall id :: id in w.pods ==> PhaseSafe(w.st.history, w.pods[id].phase)
  }

  ghost predicate Safe(w: World) {
    Shape(w) && Backed(w.st) && Covered(w) && PhasesSafe(w)
  }

  lemma PhaseSafeGrows(h: seq<Output>, h': seq<Output>, ph: Phase)
    requires h <= h' && PhaseSafe(h, ph)
    ensures PhaseSafe(h', ph)
  {
    AccountedGrows(h, h');
  }

  // ---------- a batch that was produced is accounted for ----------

  lemma {:induction false} RefusedAreBuried(recs: seq<Record>, now: int, r: Record)
    requires r in recs && !Accepted(r, now)
    ensures Buried(Dead(recs, now), r)
  {
    if r == Last(recs) {
      assert DeadLetter(r, Reject(r, now).value, now) in Dead(recs, now);
    } else {
      RefusedAreBuried(Init(recs), now, r);
      AccountedGrows(Dead(Init(recs), now), Dead(recs, now));
      var o :| o in Dead(Init(recs), now) && o.DeadLetter? && o.src == r;
      assert o in Dead(recs, now);
    }
  }

  lemma {:induction false} ItemsHaveTheKeys(recs: seq<Record>, now: int)
    ensures KeysOf(Items(recs, now)) == AcceptedKeys(recs, now)
    ensures KeysTrue(Items(recs, now))
  {
    if recs != [] {
      ItemsHaveTheKeys(Init(recs), now);
      var rec := Last(recs);
      assert forall r :: r in recs <==> r in Init(recs) || r == rec;
      if Accepted(rec, now) {
        assert AcceptedKeys(recs, now) == AcceptedKeys(Init(recs), now) + {KeyOf(rec)};
        if KeyOf(rec) !in AcceptedKeys(Init(recs), now) {
          KeysOfAppend(Items(Init(recs), now), [ToItem(rec)]);
        }
      } else {
        assert AcceptedKeys(recs, now) == AcceptedKeys(Init(recs), now);
      }
    }
  }

  lemma KeysOfAppend(a: seq<Item>, b: seq<Item>)
    ensures KeysOf(a + b) == KeysOf(a) + KeysOf(b)
  {
    assert forall it :: it in a + b <==> it in a || it in b;
  }

  lemma OutputsEmit(kept: seq<Item>, processedAt: int, at: int)
    requires KeysTrue(kept)
    ensures forall k :: k in KeysOf(kept) ==> Emitted(Outputs(kept, processedAt, at), k)
  {
    forall k | k in KeysOf(kept) ensures Emitted(Outputs(kept, processedAt, at), k) {
      var it :| it in kept && it.dedupKey == k;
      var i :| 0 <= i < |kept| && kept[i] == it;
      assert Outputs(kept, processedAt, at)[i] == ToOutput(it, processedAt, at);
      assert ToOutput(it, processedAt, at) in Outputs(kept, processedAt, at);
    }
  }

  lemma ProducedIsAccounted(h: seq<Output>, batch: seq<Record>, now: int, kept: seq<Item>, processedAt: int)
    requires KeysTrue(kept)
    requires forall j :: 0 <= j < |Items(batch, now)| ==> Settled(h, Items(batch, now)[j], kept)
    ensures var h' := h + Out(batch, kept, processedAt, now);
      && (forall r :: r in batch ==> Accounted(h', r))
      && (forall it :: it in kept ==> Emitted(h', it.dedupKey))
  {
    var dead, out := Dead(batch, now), Outputs(kept, processedAt, now);
    var h' := h + Out(batch, kept, processedAt, now);
    assert forall o :: o in h || o in dead || o in out ==> o in h';
    OutputsEmit(kept, processedAt, now);
    ItemsHaveTheKeys(batch, now);
    forall k | Emitted(h, k) || Emitted(out, k) ensures Emitted(h', k) {
    }
    forall it | it in kept ensures Emitted(h', it.dedupKey) {
      assert it.dedupKey in KeysOf(kept);
    }
    forall r | r in batch ensures Accounted(h', r) {
      if Accepted(r, now) {
        assert KeyOf(r) in KeysOf(Items(batch, now));
        var j :| 0 <= j < |Items(batch, now)| && Items(batch, now)[j].dedupKey == KeyOf(r);
        assert Settled(h, Items(batch, now)[j], kept);
      } else {
        RefusedAreBuried(batch, now, r);
        var o :| o in dead && o.DeadLetter? && o.src == r;
        assert o in h';
      }
    }
  }

  // ---------- every step keeps it ----------

  lemma LookupKeepsPhase(w: World, id: nat)
    requires Safe(w) && Enabled(w, Lookup(id))
    ensures PhaseSafe(w.st.history, LookedUp(w, id).pods[id].phase)
  {
    var ph := w.pods[id].phase;
    var items := Items(ph.batch, ph.now);
    var it := items[ph.next];
    var kept' := ph.kept + KeepOne(it, w.st.redis);
    KeysOfAppend(ph.kept, KeepOne(it, w.st.redis));
    ItemsHaveTheKeys(ph.batch, ph.now);
    assert it in items;
    if it.dedupKey !in w.st.redis {
      assert WithFleet(it, w.st.redis) in kept';
    }
    forall j | 0 <= j < ph.next + 1 ensures Settled(w.st.history, items[j], kept') {
      if j < ph.next {
        assert Settled(w.st.history, items[j], ph.kept);
      }
    }
  }

  lemma ProduceKeepsSafe(w: World, id: nat, processedAt: int, reached: Option<set<nat>>)
    requires Safe(w) && id in w.pods && Complete(w.pods[id].phase)
    ensures Backed(Produced(w, id, processedAt, reached).st) && Covered(Produced(w, id, processedAt, reached))
    ensures PhasesSafe(Produced(w, id, processedAt, reached))
  {
    var ph := w.pods[id].phase;
    var w' := Produced(w, id, processedAt, reached);
    AccountedGrows(w.st.history, w'.st.history);
    if reached.None? {
      ProducedIsAccounted(w.st.history, ph.batch, ph.now, ph.kept, processedAt);
    }
    forall other | other in w'.pods ensures PhaseSafe(w'.st.history, w'.pods[other].phase) {
      if other != id {
        PhaseSafeGrows(w.st.history, w'.st.history, w.pods[other].phase);
      }
    }
  }

  lemma MarkKeepsSafe(w: World, id: nat, reached: Option<set<nat>>)
    requires Safe(w) && id in w.pods && w.pods[id].phase.Acked?
    ensures Backed(MarkedBy(w, id, reached).st) && Covered(MarkedBy(w, id, reached))
    ensures PhasesSafe(MarkedBy(w, id, reached))
  {
    var kept := w.pods[id].phase.kept;
    forall k | k in MarkedKeys(kept, reached) ensures Emitted(w.st.history, k) {
      MarkedKeysAreKept(kept, reached);
      var it :| it in kept && it.dedupKey == k;
    }
  }

  lemma {:induction false} PickIsPart<T>(s: seq<T>, chosen: set<nat>)
    ensures forall x :: x in Pick(s, chosen) ==> x in s
  {
    if s != [] {
      PickIsPart(Init(s), chosen);
    }
  }

  lemma MarkedKeysAreKept(kept: seq<Item>, reached: Option<set<nat>>)
    ensures MarkedKeys(kept, reached) <= KeysOf(kept)
  {
    if reached.Some? {
      PickIsPart(kept, reached.value);
    }
  }

  lemma CommitKeepsSafe(w: World, id: nat, reached: Option<set<nat>>)
    requires Safe(w) && id in w.pods && w.pods[id].phase.Marked?
    ensures Backed(CommittedBy(w, id, reached).st) && Covered(CommittedBy(w, id, reached))
    ensures PhasesSafe(CommittedBy(w, id, reached))
  {
    var w' := CommittedBy(w, id, reached);
    var pod := w.pods[id];
    forall p, o | 0 <= p < |w.raw| && 0 <= o < |w.raw[p]| && o < w'.st.committed[p]
      ensures Accounted(w.st.history, w.raw[p][o])
    {
      CommitAt(w, id, p);
      if o >= w.st.committed[p] {
        assert w.raw[p][o] in pod.phase.batch;
      }
    }
  }

  lemma StepKeepsSafe(w: World, l: Label)
    requires Safe(w) && Enabled(w, l)
    ensures Safe(Apply(w, l))
  {
    StepKeepsShape(w, l);
    if l.Produce? {
      ProduceKeepsSafe(w, l.id, l.processedAt, l.reached);
    } else if l.Mark? {
      MarkKeepsSafe(w, l.id, l.reached);
    } else if l.CommitOffsets? {
      CommitKeepsSafe(w, l.id, l.reached);
    } else {
      QuietStepKeepsSafe(w, l);
    }
  }

  /** Steps other than produce, mark and commit leave output and offsets alone and add no deduplication key. */
  lemma QuietStep(w: World, l: Label)
    requires Enabled(w, l) && !l.Produce? && !l.Mark? && !l.CommitOffsets?
    ensures var w' := Apply(w, l);
      && w'.st.history == w.st.history && w'.st.committed == w.st.committed
      && (forall k :: k in w'.st.redis && k.Dedup? ==> k in w.st.redis)
      && |w'.raw| == |w.raw| && (forall p :: 0 <= p < |w.raw| ==> w.raw[p] <= w'.raw[p])
  {
  }

  lemma QuietStepKeepsPhases(w: World, l: Label)
    requires Safe(w) && Enabled(w, l) && !l.Produce? && !l.Mark? && !l.CommitOffsets?
    ensures forall id :: id in Apply(w, l).pods ==> PhaseSafe(w.st.history, Apply(w, l).pods[id].phase)
  {
    if l.Lookup? {
      LookupKeepsPhase(w, l.id);
    }
  }

  lemma QuietStepKeepsSafe(w: World, l: Label)
    requires Safe(w) && Enabled(w, l) && !l.Produce? && !l.Mark? && !l.CommitOffsets?
    ensures Backed(Apply(w, l).st) && Covered(Apply(w, l)) && PhasesSafe(Apply(w, l))
  {
    var w' := Apply(w, l);
    QuietStep(w, l);
    QuietStepKeepsPhases(w, l);
    forall p, o | 0 <= p < |w'.raw| && 0 <= o < |w'.raw[p]| && o < w'.st.committed[p]
      ensures Accounted(w.st.history, w'.raw[p][o])
    {
      assert w'.raw[p][o] == w.raw[p][o];
    }
  }

  // ---------- over every run ----------

  lemma {:induction false} RunsAreSafe(w: World, ls: seq<Label>)
    requires Initial(w) && CanRun(w, ls)
    ensures Safe(Run(w, ls))
    decreases |ls|
  {
    if ls == [] {
      InitialHasShape(w);
    } else {
      RunsAreSafe(w, Init(ls));
      StepKeepsSafe(Run(w, Init(ls)), Last(ls));
    }
  }

  ghost predicate HasEvent(h: seq<Output>, vin: string, ts: int64) {
    exists i :: 0 <= i < |h| && h[i].Canonical? && h[i].ev.vin == vin && h[i].ev.deviceTimestamp == ts
  }

  ghost predicate HasDeadLetter(h: seq<Output>, p: nat, o: nat) {
    exists i :: 0 <= i < |h| && h[i].DeadLetter? && h[i].src.part == p && h[i].src.off == o
  }

  /** Nothing is lost, over any interleaving of polls, partial produces, failed or partial SETs, key
      expiry, failed commits, retries, rebalances and crashes: a raw record below its partition's
      committed offset has a canonical event with its VIN and timestamp, or a dead letter with its
      partition and offset. */
  lemma {:induction false} NothingLost(w: World, ls: seq<Label>, p: nat, o: nat)
    requires Initial(w) && CanRun(w, ls)
    requires p < |Run(w, ls).raw| && p < |Run(w, ls).st.committed| && o < Run(w, ls).st.committed[p]
    ensures o < |Run(w, ls).raw[p]|
    ensures var rec, h := Run(w, ls).raw[p][o], Run(w, ls).st.history;
      || (rec.value.Encoded? && HasEvent(h, rec.value.msg.vin, rec.value.msg.deviceTimestamp))
      || HasDeadLetter(h, p, o)
  {
    RunsAreSafe(w, ls);
    var rec, h := Run(w, ls).raw[p][o], Run(w, ls).st.history;
    assert Accounted(h, rec);
    if Buried(h, rec) {
      var d :| d in h && d.DeadLetter? && d.src == rec;
    } else {
      var e :| e in h && e.Canonical? && OutKey(e) == KeyOf(rec);
    }
  }

  /** The reason it holds: a live deduplication key always has its event in the canonical log. */
  lemma {:induction false} LiveKeysAreEmitted(w: World, ls: seq<Label>, k: Key)
    requires Initial(w) && CanRun(w, ls) && k in Run(w, ls).st.redis && k.Dedup?
    ensures HasEvent(Run(w, ls).st.history, k.vin, k.ts)
  {
    RunsAreSafe(w, ls);
    var e :| e in Run(w, ls).st.history && e.Canonical? && OutKey(e) == k;
  }
}
