/** What every step of the ingest machine keeps about logs, offsets, ownership and polled batches. */
module IngestShape {
  import opened Wrappers
  import opened Log
  import opened Batch
  import opened IngestMachine

  function BatchOf(ph: Phase): seq<Record> {
    match ph
    case Polling => []
    case Ready(batch) => batch
    case Looking(batch, _, _, _) => batch
    case Acked(batch, _) => batch
    case Marked(batch) => batch
  }

  ghost predicate RawOk(raw: seq<seq<Record>>) {
    forall p, o :: 0 <= p < |raw| && 0 <= o < |raw[p]| ==> raw[p][o].part == p && raw[p][o].off == o
  }

  ghost predicate Apart(raw: seq<seq<Record>>) {
    forall p, o, q, u ::
      && 0 <= p < |raw| && 0 <= o < |raw[p]| && 0 <= q < |raw| && 0 <= u < |raw[q]|
      && SameVin(raw[p][o], raw[q][u])
      ==> p == q
  }

  /** Between polls a pod's positions are the committed offsets; while it holds a batch the committed
      offsets lie between the positions and the end of the batch. */
  ghost predicate PodShape(raw: seq<seq<Record>>, committed: seq<nat>, pod: Pod)
    requires |committed| == |raw|
  {
    && (forall p :: p in pod.pos ==>
          p < |raw| && pod.pos[p] <= committed[p] <= Target(BatchOf(pod.phase), p, pod.pos[p]))
    && (pod.phase.Polling? || (BatchOf(pod.phase) != [] && Polled(raw, pod.pos, BatchOf(pod.phase))))
  }

  ghost predicate Shape(w: World) {
    && |w.st.committed| == |w.raw|
    && RawOk(w.raw) && Apart(w.raw) && Exclusive(w.pods)
    && (forall p :: 0 <= p < |w.raw| ==> w.st.committed[p] <= |w.raw[p]|)
    && (forall id :: id in w.pods ==> PodShape(w.raw, w.st.committed, w.pods[id]))
  }

  // ---------- the steps ----------

  lemma AppendKeepsShape(w: World, rec: Record)
    requires Shape(w) && Enabled(w, Append(rec))
    ensures Shape(Apply(w, Append(rec)))
  {
    var raw' := w.raw[rec.part := w.raw[rec.part] + [rec]];
    forall id | id in w.pods ensures PodShape(raw', w.st.committed, w.pods[id]) {
      PolledSurvivesAppend(w, rec, w.pods[id]);
    }
    forall p, o, q, u |
      && 0 <= p < |raw'| && 0 <= o < |raw'[p]| && 0 <= q < |raw'| && 0 <= u < |raw'[q]|
      && SameVin(raw'[p][o], raw'[q][u])
      ensures p == q
    {
      var oldA, oldB := o < |w.raw[p]|, u < |w.raw[q]|;
      assert oldA ==> raw'[p][o] == w.raw[p][o];
      assert oldB ==> raw'[q][u] == w.raw[q][u];
      assert !oldA ==> p == rec.part && raw'[p][o] == rec;
      assert !oldB ==> q == rec.part && raw'[q][u] == rec;
      assert oldA && !oldB ==> SameVin(w.raw[p][o], rec);
      assert !oldA && oldB ==> SameVin(w.raw[q][u], rec);
    }
  }

  lemma PolledSurvivesAppend(w: World, rec: Record, pod: Pod)
    requires Shape(w) && Enabled(w, Append(rec)) && PodShape(w.raw, w.st.committed, pod)
    ensures PodShape(w.raw[rec.part := w.raw[rec.part] + [rec]], w.st.committed, pod)
  {
    var raw' := w.raw[rec.part := w.raw[rec.part] + [rec]];
    var recs := BatchOf(pod.phase);
    if !pod.phase.Polling? {
      forall p, o: nat | p in pod.pos && p < |raw'| && o < |raw'[p]| && pod.pos[p] <= o < Target(recs, p, pod.pos[p])
        ensures raw'[p][o] in recs
      {
        PolledTarget(w.raw, pod.pos, recs, p);
        assert raw'[p][o] == w.raw[p][o];
      }
    }
  }

  /** One pod and the offsets of its partitions change; everything else stays. */
  lemma OnePodKeepsShape(w: World, w': World, id: nat)
    requires Shape(w) && id in w.pods && id in w'.pods && w'.raw == w.raw && w'.pods == w.pods[id := w'.pods[id]]
    requires |w'.st.committed| == |w.raw|
    requires forall p :: 0 <= p < |w.raw| ==> w'.st.committed[p] <= |w.raw[p]|
    requires forall p :: 0 <= p < |w.raw| && p !in w.pods[id].pos ==> w'.st.committed[p] == w.st.committed[p]
    requires w'.pods[id].pos.Keys <= w.pods[id].pos.Keys
    requires PodShape(w'.raw, w'.st.committed, w'.pods[id])
    ensures Shape(w')
  {
    forall other | other in w'.pods ensures PodShape(w'.raw, w'.st.committed, w'.pods[other]) {
      if other != id {
        assert PodShape(w.raw, w.st.committed, w.pods[other]);
        assert forall p :: p in w.pods[other].pos ==> p !in w.pods[id].pos;
      }
    }
    forall a, b, p | a in w'.pods && b in w'.pods && p in w'.pods[a].pos && p in w'.pods[b].pos ensures a == b {
      assert p in w.pods[a].pos && p in w.pods[b].pos;
    }
  }

  lemma CommitKeepsShape(w: World, id: nat, reached: Option<set<nat>>)
    requires Shape(w) && Enabled(w, CommitOffsets(id, reached))
    ensures Shape(CommittedBy(w, id, reached))
  {
    forall p | 0 <= p < |w.raw| {
      CommitAt(w, id, p);
    }
    CommitKeepsOwnShape(w, id, reached);
    OnePodKeepsShape(w, CommittedBy(w, id, reached), id);
  }

  lemma CommitKeepsOwnShape(w: World, id: nat, reached: Option<set<nat>>)
    requires Shape(w) && Enabled(w, CommitOffsets(id, reached))
    ensures PodShape(w.raw, CommittedBy(w, id, reached).st.committed, CommittedBy(w, id, reached).pods[id])
  {
    forall p | p in w.pods[id].pos {
      CommitAt(w, id, p);
    }
  }

  lemma CommitAt(w: World, id: nat, p: nat)
    requires Shape(w) && id in w.pods && w.pods[id].phase.Marked? && p < |w.raw|
    ensures var t := Target(w.pods[id].phase.batch, p, w.st.committed[p]);
      && w.st.committed[p] <= t <= |w.raw[p]|
      && (p in w.pods[id].pos ==> t == Target(w.pods[id].phase.batch, p, w.pods[id].pos[p]))
      && (p !in w.pods[id].pos ==> t == w.st.committed[p])
  {
    var pod := w.pods[id];
    var recs := pod.phase.batch;
    if p in pod.pos {
      TargetDefault(recs, p, w.st.committed[p], pod.pos[p]);
      TargetDefault(recs, p, pod.pos[p], w.st.committed[p]);
      PolledTarget(w.raw, pod.pos, recs, p);
    } else {
      TargetDefault(recs, p, w.st.committed[p], 0);
    }
  }

  /** A pod moved on inside its batch: same positions, same batch, still (not) polling. */
  predicate SameBatch(a: Pod, b: Pod) {
    a.pos == b.pos && BatchOf(a.phase) == BatchOf(b.phase) && (a.phase.Polling? <==> b.phase.Polling?)
  }

  ghost predicate SameBatches(w: World, w': World) {
    && w'.raw == w.raw && w'.st.committed == w.st.committed && w'.pods.Keys == w.pods.Keys
    && forall id :: id in w.pods ==> SameBatch(w.pods[id], w'.pods[id])
  }

  lemma SameBatchesKeepShape(w: World, w': World)
    requires Shape(w) && SameBatches(w, w')
    ensures Shape(w')
  {
    forall id | id in w'.pods ensures PodShape(w'.raw, w'.st.committed, w'.pods[id]) {
      assert PodShape(w.raw, w.st.committed, w.pods[id]);
    }
    forall a, b, p | a in w'.pods && b in w'.pods && p in w'.pods[a].pos && p in w'.pods[b].pos ensures a == b {
      assert p in w.pods[a].pos && p in w.pods[b].pos;
    }
  }

  predicate Deciding(l: Label) {
    l.Start? || l.Lookup? || l.LookupFail? || l.Refuse?
  }

  predicate Outside(l: Label) {
    l.Tick? || l.Expire? || l.SetFleet? || l.DropFleet?
  }

  /** Until it produces, a pod changes nothing but its own phase. */
  lemma DecidingKeepsBatches(w: World, l: Label)
    requires Enabled(w, l) && Deciding(l)
    ensures SameBatches(w, Apply(w, l)) && Apply(w, l).st == w.st && Apply(w, l).charges == w.charges
    ensures forall id :: id in w.pods && id != l.id ==> Apply(w, l).pods[id] == w.pods[id]
  {
  }

  lemma ProduceKeepsBatches(w: World, id: nat, processedAt: int, reached: Option<set<nat>>)
    requires id in w.pods && w.pods[id].phase.Looking?
    ensures SameBatches(w, Produced(w, id, processedAt, reached))
  {
  }

  lemma MarkKeepsBatches(w: World, id: nat, reached: Option<set<nat>>)
    requires id in w.pods && w.pods[id].phase.Acked?
    ensures SameBatches(w, MarkedBy(w, id, reached))
  {
  }

  lemma OutsideKeepsBatches(w: World, l: Label)
    requires Enabled(w, l) && Outside(l)
    ensures SameBatches(w, Apply(w, l)) && Apply(w, l).pods == w.pods
  {
  }

  /** A pod without a batch satisfies its shape as soon as its positions are the committed offsets. */
  lemma AssignKeepsPods(w: World, id: nat, part: nat)
    requires Shape(w) && Enabled(w, Assign(id, part))
    ensures var w' := Apply(w, Assign(id, part));
      forall other :: other in w'.pods ==> PodShape(w'.raw, w'.st.committed, w'.pods[other])
  {
    var w' := Apply(w, Assign(id, part));
    forall other | other in w'.pods ensures PodShape(w'.raw, w'.st.committed, w'.pods[other]) {
      assert other in w.pods ==> PodShape(w.raw, w.st.committed, w.pods[other]);
    }
  }

  lemma AssignKeepsShape(w: World, id: nat, part: nat)
    requires Shape(w) && Enabled(w, Assign(id, part))
    ensures Shape(Apply(w, Assign(id, part)))
  {
    AssignKeepsPods(w, id, part);
    AssignKeepsExclusive(w.pods, id, Apply(w, Assign(id, part)).pods[id], part);
  }

  lemma RevokeKeepsShape(w: World, id: nat, part: nat)
    requires Shape(w) && Enabled(w, Revoke(id, part))
    ensures Shape(Apply(w, Revoke(id, part)))
  {
    assert PodShape(w.raw, w.st.committed, w.pods[id]);
    OnePodKeepsShape(w, Apply(w, Revoke(id, part)), id);
  }

  lemma CrashKeepsShape(w: World, id: nat)
    requires Shape(w) && Enabled(w, Crash(id))
    ensures Shape(Crashed(w, id))
  {
    var w' := Crashed(w, id);
    forall other | other in w'.pods ensures PodShape(w'.raw, w'.st.committed, w'.pods[other]) {
      assert PodShape(w.raw, w.st.committed, w.pods[other]);
    }
  }

  lemma PollKeepsShape(w: World, id: nat, recs: seq<Record>)
    requires Shape(w) && Enabled(w, Poll(id, recs))
    ensures Shape(To(w, id, Ready(recs)))
  {
    var pod := w.pods[id];
    forall p | p in pod.pos ensures pod.pos[p] <= Target(recs, p, pod.pos[p]) {
      PolledTarget(w.raw, pod.pos, recs, p);
    }
    OnePodKeepsShape(w, To(w, id, Ready(recs)), id);
  }

  lemma StepKeepsShape(w: World, l: Label)
    requires Shape(w) && Enabled(w, l)
    ensures Shape(Apply(w, l))
  {
    if Deciding(l) {
      DecidingKeepsBatches(w, l);
      SameBatchesKeepShape(w, Apply(w, l));
    } else if l.Produce? {
      ProduceKeepsBatches(w, l.id, l.processedAt, l.reached);
      SameBatchesKeepShape(w, Apply(w, l));
    } else if l.Mark? {
      MarkKeepsBatches(w, l.id, l.reached);
      SameBatchesKeepShape(w, Apply(w, l));
    } else if Outside(l) {
      OutsideKeepsBatches(w, l);
      SameBatchesKeepShape(w, Apply(w, l));
    } else if l.Append? {
      AppendKeepsShape(w, l.rec);
    } else if l.CommitOffsets? {
      CommitKeepsShape(w, l.id, l.reached);
    } else if l.Poll? {
      PollKeepsShape(w, l.id, l.recs);
    } else if l.Assign? {
      AssignKeepsShape(w, l.id, l.part);
    } else if l.Revoke? {
      RevokeKeepsShape(w, l.id, l.part);
    } else {
      CrashKeepsShape(w, l.id);
    }
  }

  /** Committed offsets and raw logs only grow, whatever fails or crashes. */
  lemma StepNeverRewinds(w: World, l: Label)
    requires Shape(w) && Enabled(w, l)
    ensures var w' := Apply(w, l);
      && |w'.raw| == |w.raw| && |w'.st.committed| == |w.st.committed|
      && (forall p :: 0 <= p < |w.raw| ==> w.raw[p] <= w'.raw[p] && w.st.committed[p] <= w'.st.committed[p])
      && w.st.history <= w'.st.history
  {
    if l.CommitOffsets? {
      forall p | 0 <= p < |w.raw| ensures w.st.committed[p] <= Apply(w, l).st.committed[p] {
        CommitAt(w, l.id, p);
      }
    }
  }

  lemma InitialHasShape(w: World)
    requires Initial(w)
    ensures Shape(w)
  {
  }
}
