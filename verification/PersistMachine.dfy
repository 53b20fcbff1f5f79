/** The canonical log, any number of persister pods and the document store as a transition system.

    Assumptions: an errored bulk request may apply any subset of its actions, but nothing of it takes
    effect after the retry begins; rebalances happen only between batches, so a partition has at most
    one owner; records of one document share a partition, because the processor keys them by VIN. */
module PersistMachine {
  import opened Wrappers
  import opened Log
  import opened Bulk

  datatype Phase =
    | Polling
    | Holding(recs: seq<Rec>)    // `Retry` is about to call `bulk`
    | Indexed(recs: seq<Rec>)    // `bulk` returned nil, offsets not yet committed

  type Pod = Consumer<Phase>

  /** `lost` are the records whose request was refused as a whole while neither they nor a later record of
      their document was stored, and that no request has stored since. */
  datatype World = World(
    log: seq<seq<Rec>>,
    committed: seq<nat>,
    store: Store,
    pods: map<nat, Pod>,
    lost: set<Rec>)

  datatype Label =
    | Append(rec: Rec)                                     // the processor publishes a canonical event
    | Assign(id: nat, part: nat)
    | Revoke(id: nat, part: nat)
    | Crash(id: nat)
    | Poll(id: nat, recs: seq<Rec>)
    | SendBulk(id: nat, x: Exchange)
    | NothingToSend(id: nat)
    | CommitOffsets(id: nat, reached: Option<set<nat>>)    // a failed commit is only logged

  predicate SameDocument(a: Rec, b: Rec) {
    Indexable(a) && Indexable(b) && KeyOf(a) == KeyOf(b)
  }

  ghost predicate Apart(log: seq<seq<Rec>>, rec: Rec) {
    forall p, o :: 0 <= p < |log| && 0 <= o < |log[p]| && SameDocument(log[p][o], rec) ==> p == rec.part
  }

  ghost predicate Enabled(w: World, l: Label) {
    match l
    case Append(rec) => rec.part < |w.log| && rec.off == |w.log[rec.part]| && Apart(w.log, rec)
    case Assign(id, part) =>
      && part < |w.log| && part < |w.committed|
      && (id in w.pods ==> w.pods[id].phase.Polling?)
      && (forall other :: other in w.pods ==> part !in w.pods[other].pos)
    case Revoke(id, part) => id in w.pods && w.pods[id].phase.Polling? && part in w.pods[id].pos
    case Crash(id) => id in w.pods
    case Poll(id, recs) =>
      id in w.pods && w.pods[id].phase.Polling? && recs != [] && Polled(w.log, w.pods[id].pos, recs)
    case SendBulk(id, x) =>
      && id in w.pods && w.pods[id].phase.Holding?
      && Body(w.pods[id].phase.recs) != [] && Honest(Body(w.pods[id].phase.recs), x)
    case NothingToSend(id) => id in w.pods && w.pods[id].phase.Holding? && Body(w.pods[id].phase.recs) == []
    case CommitOffsets(id, _) => id in w.pods && w.pods[id].phase.Indexed?
  }

  function PodOf(w: World, id: nat): Pod {
    if id in w.pods then w.pods[id] else Pod(map[], Polling)
  }

  function To(w: World, id: nat, ph: Phase): World
    requires id in w.pods
  {
    w.(pods := w.pods[id := w.pods[id].(phase := ph)])
  }

  /** The records among `rs` that the store does not reflect. */
  function Behind(store: Store, rs: set<Rec>): set<Rec> {
    set r | r in rs && Storable(r) && !Ahead(store, r)
  }

  /** The records a refused request drops. */
  function Refused(recs: seq<Rec>, v: Verdict): set<Rec> {
    if v.Dropped? then set r | r in recs && Storable(r) else {}
  }

  function Sent(w: World, id: nat, x: Exchange): World
    requires id in w.pods && w.pods[id].phase.Holding?
  {
    var recs := w.pods[id].phase.recs;
    var store := Applied(w.store, Body(recs), x.applied);
    var w' := w.(store := store, lost := Behind(store, w.lost + Refused(recs, Judge(x.reply))));
    if Judge(x.reply).Failed? then w' else To(w', id, Indexed(recs))
  }

  /** The fetch positions move past the batch whether or not the commit succeeded. */
  function Advanced(pod: Pod): Pod
    requires pod.phase.Indexed?
  {
    Pod(map p | p in pod.pos :: Target(pod.phase.recs, p, pod.pos[p]), Polling)
  }

  function CommittedBy(w: World, id: nat, reached: Option<set<nat>>): World
    requires id in w.pods && w.pods[id].phase.Indexed?
  {
    w.(committed := Commit(w.committed, w.pods[id].phase.recs, reached),
       pods := w.pods[id := Advanced(w.pods[id])])
  }

  ghost function Apply(w: World, l: Label): World
    requires Enabled(w, l)
  {
    match l
    case Append(rec) => w.(log := w.log[rec.part := w.log[rec.part] + [rec]])
    case Assign(id, part) =>
      w.(pods := w.pods[id := PodOf(w, id).(pos := PodOf(w, id).pos[part := w.committed[part]])])
    case Revoke(id, part) => w.(pods := w.pods[id := w.pods[id].(pos := w.pods[id].pos - {part})])
    case Crash(id) => w.(pods := w.pods - {id})
    case Poll(id, recs) => To(w, id, Holding(recs))
    case SendBulk(id, x) => Sent(w, id, x)
    case NothingToSend(id) => To(w, id, Indexed(w.pods[id].phase.recs))
    case CommitOffsets(id, reached) => CommittedBy(w, id, reached)
  }

  // ---------- runs ----------

  ghost predicate CanRun(w: World, ls: seq<Label>)
    decreases |ls|, 0
  {
    ls == [] || (CanRun(w, Init(ls)) && Enabled(Run(w, Init(ls)), Last(ls)))
  }

  ghost function Run(w: World, ls: seq<Label>): World
    requires CanRun(w, ls)
    decreases |ls|, 1
  {
    if ls == [] then w else Apply(Run(w, Init(ls)), Last(ls))
  }

  /** One more step at the end of a run. */
  lemma ThenStep(w: World, ls: seq<Label>, l: Label)
    requires CanRun(w, ls) && Enabled(Run(w, ls), l)
    ensures CanRun(w, ls + [l]) && Run(w, ls + [l]) == Apply(Run(w, ls), l)
  {
    assert Init(ls + [l]) == ls;
  }

  ghost predicate Initial(w: World) {
    && (forall p :: 0 <= p < |w.log| ==> w.log[p] == [])
    && w.committed == seq(|w.log|, _ => 0)
    && w.store == map[] && w.pods == map[] && w.lost == {}
  }

  // ---------- shape ----------

  ghost predicate LogOk(log: seq<seq<Rec>>) {
    forall p, o :: 0 <= p < |log| && 0 <= o < |log[p]| ==> log[p][o].part == p && log[p][o].off == o
  }

  ghost predicate KeysApart(log: seq<seq<Rec>>) {
    forall p, o, q, u ::
      && 0 <= p < |log| && 0 <= o < |log[p]| && 0 <= q < |log| && 0 <= u < |log[q]|
      && SameDocument(log[p][o], log[q][u])
      ==> p == q
  }

  ghost predicate PodShape(log: seq<seq<Rec>>, committed: seq<nat>, pod: Pod)
    requires |committed| == |log|
  {
    && (forall p :: p in pod.pos ==> p < |log| && committed[p] <= pod.pos[p] <= |log[p]|)
    && (!pod.phase.Polling? ==> pod.phase.recs != [] && Polled(log, pod.pos, pod.phase.recs))
  }

  ghost predicate Shape(w: World) {
    && |w.committed| == |w.log|
    && LogOk(w.log) && KeysApart(w.log) && Exclusive(w.pods)
    && (forall p :: 0 <= p < |w.log| ==> w.committed[p] <= |w.log[p]|)
    && (forall id :: id in w.pods ==> PodShape(w.log, w.committed, w.pods[id]))
  }

  lemma AppendKeepsPod(w: World, rec: Rec, pod: Pod)
    requires Shape(w) && Enabled(w, Append(rec)) && PodShape(w.log, w.committed, pod)
    ensures PodShape(w.log[rec.part := w.log[rec.part] + [rec]], w.committed, pod)
  {
    var log' := w.log[rec.part := w.log[rec.part] + [rec]];
    if !pod.phase.Polling? {
      var recs := pod.phase.recs;
      forall p, o: nat | p in pod.pos && p < |log'| && o < |log'[p]| && pod.pos[p] <= o < Target(recs, p, pod.pos[p])
        ensures log'[p][o] in recs
      {
        PolledTarget(w.log, pod.pos, recs, p);
        assert log'[p][o] == w.log[p][o];
      }
    }
  }

  lemma AppendKeepsShape(w: World, rec: Rec)
    requires Shape(w) && Enabled(w, Append(rec))
    ensures Shape(Apply(w, Append(rec)))
  {
    var log' := w.log[rec.part := w.log[rec.part] + [rec]];
    forall id | id in w.pods ensures PodShape(log', w.committed, w.pods[id]) {
      AppendKeepsPod(w, rec, w.pods[id]);
    }
    forall p, o, q, u |
      && 0 <= p < |log'| && 0 <= o < |log'[p]| && 0 <= q < |log'| && 0 <= u < |log'[q]|
      && SameDocument(log'[p][o], log'[q][u])
      ensures p == q
    {
      var oldA, oldB := o < |w.log[p]|, u < |w.log[q]|;
      assert oldA ==> log'[p][o] == w.log[p][o];
      assert oldB ==> log'[q][u] == w.log[q][u];
      assert !oldA ==> p == rec.part && log'[p][o] == rec;
      assert !oldB ==> q == rec.part && log'[q][u] == rec;
      assert oldA && !oldB ==> SameDocument(w.log[p][o], rec);
      assert !oldA && oldB ==> SameDocument(w.log[q][u], rec);
    }
  }

  lemma CommitAt(w: World, id: nat, p: nat)
    requires Shape(w) && id in w.pods && w.pods[id].phase.Indexed? && p < |w.log|
    ensures var t := Target(w.pods[id].phase.recs, p, w.committed[p]);
      && w.committed[p] <= t <= |w.log[p]|
      && (p in w.pods[id].pos ==> t <= Target(w.pods[id].phase.recs, p, w.pods[id].pos[p]) <= |w.log[p]|)
      && (p in w.pods[id].pos ==> w.pods[id].pos[p] <= Target(w.pods[id].phase.recs, p, w.pods[id].pos[p]))
      && (p !in w.pods[id].pos ==> t == w.committed[p])
  {
    var pod := w.pods[id];
    var recs := pod.phase.recs;
    assert PodShape(w.log, w.committed, pod);
    if p in pod.pos {
      TargetDefault(recs, p, w.committed[p], pod.pos[p]);
      TargetDefault(recs, p, pod.pos[p], w.committed[p]);
      PolledTarget(w.log, pod.pos, recs, p);
      TargetBound(recs, p, w.committed[p], w.committed[p], |w.log[p]|);
    } else {
      TargetDefault(recs, p, w.committed[p], 0);
    }
  }

  /** One pod and the offsets of its partitions change; everything else stays. */
  lemma OnePodKeepsShape(w: World, w': World, id: nat)
    requires Shape(w) && id in w.pods && id in w'.pods && w'.log == w.log && w'.pods == w.pods[id := w'.pods[id]]
    requires |w'.committed| == |w.log|
    requires forall p :: 0 <= p < |w.log| ==> w'.committed[p] <= |w.log[p]|
    requires forall p :: 0 <= p < |w.log| && p !in w.pods[id].pos ==> w'.committed[p] == w.committed[p]
    requires w'.pods[id].pos.Keys <= w.pods[id].pos.Keys
    requires PodShape(w'.log, w'.committed, w'.pods[id])
    ensures Shape(w')
  {
    forall other | other in w'.pods ensures PodShape(w'.log, w'.committed, w'.pods[other]) {
      if other != id {
        assert PodShape(w.log, w.committed, w.pods[other]);
        assert forall p :: p in w.pods[other].pos ==> p !in w.pods[id].pos;
      }
    }
    forall a, b, p | a in w'.pods && b in w'.pods && p in w'.pods[a].pos && p in w'.pods[b].pos ensures a == b {
      assert p in w.pods[a].pos && p in w.pods[b].pos;
    }
  }

  lemma CommitKeepsShape(w: World, id: nat, reached: Option<set<nat>>)
    requires Shape(w) && Enabled(w, CommitOffsets(id, reached))
    ensures Shape(CommittedBy(w, id, reached))
  {
    forall p | 0 <= p < |w.log| {
      CommitAt(w, id, p);
    }
    OnePodKeepsShape(w, CommittedBy(w, id, reached), id);
  }

  lemma AssignKeepsShape(w: World, id: nat, part: nat)
    requires Shape(w) && Enabled(w, Assign(id, part))
    ensures Shape(Apply(w, Assign(id, part)))
  {
    var w' := Apply(w, Assign(id, part));
    forall other | other in w'.pods ensures PodShape(w'.log, w'.committed, w'.pods[other]) {
      assert other in w.pods ==> PodShape(w.log, w.committed, w.pods[other]);
    }
    AssignKeepsExclusive(w.pods, id, w'.pods[id], part);
  }

  lemma OwnStepKeepsShape(w: World, l: Label)
    requires Shape(w) && Enabled(w, l) && (l.Revoke? || l.Poll? || l.SendBulk? || l.NothingToSend?)
    ensures Shape(Apply(w, l))
  {
    assert PodShape(w.log, w.committed, w.pods[l.id]);
    OnePodKeepsShape(w, Apply(w, l), l.id);
  }

  lemma StepKeepsShape(w: World, l: Label)
    requires Shape(w) && Enabled(w, l)
    ensures Shape(Apply(w, l))
  {
    if l.Append? {
      AppendKeepsShape(w, l.rec);
    } else if l.CommitOffsets? {
      CommitKeepsShape(w, l.id, l.reached);
    } else if l.Assign? {
      AssignKeepsShape(w, l.id, l.part);
    } else if l.Crash? {
    } else {
      OwnStepKeepsShape(w, l);
    }
  }

  lemma InitialHasShape(w: World)
    requires Initial(w)
    ensures Shape(w)
  {
  }
}
