/** Replay refines a sequential fold: however often batches are retried, re-polled or re-indexed after
    crashes and failed commits, a drained log leaves the store that indexing it once, in order, would. */
module PersistReplay {
  import opened Wrappers
  import opened Log
  import opened Bulk
  import opened PersistMachine

  // ---------- the invariant ----------

  ghost predicate InLog(log: seq<seq<Rec>>, r: Rec) {
    r.part < |log| && r.off < |log[r.part]| && log[r.part][r.off] == r
  }

  /** Every stored document was built from a record of the log under its own key. */
  ghost predicate Truthful(log: seq<seq<Rec>>, store: Store) {
    forall k :: k in store ==>
      InLog(log, store[k].src) && Storable(store[k].src) && store[k] == ActionOf(store[k].src) && store[k].key == k
  }

  /** All records of partition `p` below `n` are reflected in the store, unless their request was refused. */
  ghost predicate Caught(w: World, p: nat, n: nat) {
    forall o :: p < |w.log| && 0 <= o < n && o < |w.log[p]| && Storable(w.log[p][o]) && w.log[p][o] !in w.lost
      ==> Ahead(w.store, w.log[p][o])
  }

  ghost predicate CaughtAt(w: World, pod: Pod, p: nat)
    requires p in pod.pos
  {
    Caught(w, p, pod.pos[p]) && (pod.phase.Indexed? ==> Caught(w, p, Target(pod.phase.recs, p, pod.pos[p])))
  }

  ghost predicate PodCaught(w: World, pod: Pod) {
    forall p :: p in pod.pos ==> CaughtAt(w, pod, p)
  }

  /** Lost records are really missing from the store. */
  ghost predicate LostOk(w: World) {
    forall r :: r in w.lost ==> InLog(w.log, r) && Storable(r) && !Ahead(w.store, r)
  }

  ghost predicate Fresh(w: World) {
    && Shape(w) && Truthful(w.log, w.store) && LostOk(w)
    && (forall p :: 0 <= p < |w.log| ==> Caught(w, p, w.committed[p]))
    && (forall id :: id in w.pods ==> PodCaught(w, w.pods[id]))
  }

  // ---------- one bulk request ----------

  /** An action of a polled batch comes from an owned partition, at or past its position. */
  lemma ActionFromBatch(log: seq<seq<Rec>>, pos: map<nat, nat>, recs: seq<Rec>, a: Action)
    requires Polled(log, pos, recs) && a in Body(recs)
    ensures Indexable(a.src) && a == ActionOf(a.src) && InLog(log, a.src)
    ensures a.src.part in pos && pos[a.src.part] <= a.src.off
  {
    BodyHas(recs);
    var r :| r in recs && Indexable(r) && ActionOf(r) == a;
    assert FromPartition(log, pos, r);
  }

  lemma SentIsTruthful(w: World, id: nat, x: Exchange)
    requires Fresh(w) && Enabled(w, SendBulk(id, x))
    ensures Truthful(w.log, Sent(w, id, x).store)
  {
    var pod := w.pods[id];
    var body := Body(pod.phase.recs);
    var store' := Applied(w.store, body, x.applied);
    assert PodShape(w.log, w.committed, pod);
    forall k | k in store'
      ensures InLog(w.log, store'[k].src) && Storable(store'[k].src) && store'[k] == ActionOf(store'[k].src)
      ensures store'[k].key == k
    {
      var i := AppliedAt(w.store, body, x.applied, k);
      if i.Some? {
        ActionFromBatch(w.log, pod.pos, pod.phase.recs, body[i.value]);
      }
    }
  }

  /** A request never takes a document back behind the positions it was polled from. */
  lemma SentKeepsAhead(w: World, id: nat, x: Exchange, r: Rec)
    requires Shape(w) && Enabled(w, SendBulk(id, x))
    requires InLog(w.log, r) && Indexable(r) && Ahead(w.store, r)
    requires r.part in w.pods[id].pos ==> r.off <= w.pods[id].pos[r.part]
    ensures Ahead(Sent(w, id, x).store, r)
  {
    var pod := w.pods[id];
    var body := Body(pod.phase.recs);
    assert PodShape(w.log, w.committed, pod);
    var i := AppliedAt(w.store, body, x.applied, KeyOf(r));
    if i.Some? {
      ActionFromBatch(w.log, pod.pos, pod.phase.recs, body[i.value]);
      assert SameDocument(w.log[r.part][r.off], w.log[body[i.value].src.part][body[i.value].src.off]);
    }
  }

  /** In an ascending body the last applied action with a record's key is that record's or a later one. */
  lemma LastAppliedIsLater(recs: seq<Rec>, chosen: set<nat>, r: Rec, i: nat)
    requires Ascending(recs) && r in recs && Indexable(r)
    requires LastOf(Body(recs), chosen, KeyOf(r), i) && Body(recs)[i].src.part == r.part
    requires forall j :: 0 <= j < |Body(recs)| && Body(recs)[j].src == r ==> j in chosen
    ensures r.off <= Body(recs)[i].src.off
  {
    BodyHas(recs);
    BodyAscends(recs);
    assert ActionOf(r) in Body(recs);
    var j :| 0 <= j < |Body(recs)| && Body(recs)[j] == ActionOf(r);
  }

  lemma CarriedIsApplied(recs: seq<Rec>, x: Exchange, r: Rec)
    requires Honest(Body(recs), x) && Judge(x.reply).Done? && r in recs && Storable(r)
    ensures forall j :: 0 <= j < |Body(recs)| && Body(recs)[j].src == r ==> j in x.applied
    ensures exists j :: 0 <= j < |Body(recs)| && j in x.applied && Body(recs)[j].key == KeyOf(r)
  {
    var body := Body(recs);
    forall j | 0 <= j < |body| && body[j].src == r ensures j in x.applied {
      JudgeIff(x.reply);
      DoneMeansApplied(body, x, j);
    }
    BodyHas(recs);
    assert ActionOf(r) in body;
    var j :| 0 <= j < |body| && body[j] == ActionOf(r);
    assert j in x.applied && body[j].key == KeyOf(r);
  }

  /** What a successful request carried is stored, from that record or a later one. */
  lemma SentIsAhead(w: World, id: nat, x: Exchange, r: Rec)
    requires Shape(w) && Enabled(w, SendBulk(id, x)) && Judge(x.reply).Done?
    requires r in w.pods[id].phase.recs && Storable(r)
    ensures Ahead(Sent(w, id, x).store, r)
  {
    var pod := w.pods[id];
    var recs := pod.phase.recs;
    var body := Body(recs);
    assert PodShape(w.log, w.committed, pod) && FromPartition(w.log, pod.pos, r);
    CarriedIsApplied(recs, x, r);
    var i := AppliedAt(w.store, body, x.applied, KeyOf(r));
    ActionFromBatch(w.log, pod.pos, recs, body[i.value]);
    assert SameDocument(w.log[r.part][r.off], w.log[body[i.value].src.part][body[i.value].src.off]);
    LastAppliedIsLater(recs, x.applied, r, i.value);
  }

  lemma NothingApplied(store: Store, body: seq<Action>)
    ensures Applied(store, body, {}) == store
  {
    if body != [] {
      NothingApplied(store, Init(body));
    }
  }

  /** Exactly what committing after `bulk` returned nil gives away: a storable record of the batch is
      reflected in the store if and only if the request was answered, or it was reflected before. */
  lemma SettledReflectsIff(w: World, id: nat, x: Exchange, r: Rec)
    requires Shape(w) && Enabled(w, SendBulk(id, x)) && (RefusedWhole(x.reply) || AnsweredInFull(x.reply))
    requires r in w.pods[id].phase.recs && Storable(r)
    ensures Ahead(Sent(w, id, x).store, r) <==> AnsweredInFull(x.reply) || Ahead(w.store, r)
  {
    JudgeIff(x.reply);
    if Judge(x.reply).Done? {
      SentIsAhead(w, id, x, r);
    } else {
      NothingApplied(w.store, Body(w.pods[id].phase.recs));
    }
  }

  /** Below the positions of a partition's owner nothing gets worse. */
  lemma SentKeepsCaught(w: World, id: nat, x: Exchange, p: nat, n: nat)
    requires Fresh(w) && Enabled(w, SendBulk(id, x)) && Caught(w, p, n)
    requires p in w.pods[id].pos ==> n <= w.pods[id].pos[p]
    ensures Caught(Sent(w, id, x), p, n)
  {
    var w' := Sent(w, id, x);
    forall o | p < |w'.log| && 0 <= o < n && o < |w'.log[p]| && Storable(w'.log[p][o]) && w'.log[p][o] !in w'.lost
      ensures Ahead(w'.store, w'.log[p][o])
    {
      if w.log[p][o] !in w.lost {
        SentKeepsAhead(w, id, x, w.log[p][o]);
      }
    }
  }

  /** After a request that does not have to be retried, the whole batch is reflected or lost. */
  lemma SentCatchesUp(w: World, id: nat, x: Exchange, p: nat)
    requires Fresh(w) && Enabled(w, SendBulk(id, x)) && !Judge(x.reply).Failed? && p in w.pods[id].pos
    ensures Caught(Sent(w, id, x), p, Target(w.pods[id].phase.recs, p, w.pods[id].pos[p]))
  {
    var w' := Sent(w, id, x);
    var pod := w.pods[id];
    var recs := pod.phase.recs;
    assert PodShape(w.log, w.committed, pod) && PodCaught(w, pod);
    forall o |
      && p < |w'.log| && 0 <= o < Target(recs, p, pod.pos[p]) && o < |w'.log[p]|
      && Storable(w'.log[p][o]) && w'.log[p][o] !in w'.lost
      ensures Ahead(w'.store, w'.log[p][o])
    {
      var r := w.log[p][o];
      if r !in w.lost && o < pod.pos[p] {
        SentKeepsAhead(w, id, x, r);
      } else if Judge(x.reply).Done? && o >= pod.pos[p] {
        assert r in recs;
        SentIsAhead(w, id, x, r);
      } else {
        assert o >= pod.pos[p] ==> r in Refused(recs, Judge(x.reply));
      }
    }
  }

  // ---------- every step keeps it ----------

  lemma SentKeepsLostOk(w: World, id: nat, x: Exchange)
    requires Shape(w) && LostOk(w) && Enabled(w, SendBulk(id, x))
    ensures LostOk(Sent(w, id, x))
  {
    var pod := w.pods[id];
    assert PodShape(w.log, w.committed, pod);
    forall r | r in pod.phase.recs ensures InLog(w.log, r) {
      assert FromPartition(w.log, pod.pos, r);
    }
  }

  lemma SendKeepsFresh(w: World, id: nat, x: Exchange)
    requires Fresh(w) && Enabled(w, SendBulk(id, x))
    ensures Fresh(Sent(w, id, x))
  {
    StepKeepsShape(w, SendBulk(id, x));
    SentIsTruthful(w, id, x);
    SentKeepsLostOk(w, id, x);
    var w' := Sent(w, id, x);
    forall p | 0 <= p < |w'.log| ensures Caught(w', p, w'.committed[p]) {
      assert PodShape(w.log, w.committed, w.pods[id]);
      SentKeepsCaught(w, id, x, p, w.committed[p]);
    }
    forall other | other in w'.pods ensures PodCaught(w', w'.pods[other]) {
      if other == id {
        SendKeepsOwnPod(w, id, x);
      } else {
        SendKeepsOtherPod(w, id, x, other);
      }
    }
  }

  lemma SendKeepsOwnPod(w: World, id: nat, x: Exchange)
    requires Fresh(w) && Enabled(w, SendBulk(id, x))
    ensures PodCaught(Sent(w, id, x), Sent(w, id, x).pods[id])
  {
    var pod := w.pods[id];
    forall p | p in pod.pos ensures CaughtAt(Sent(w, id, x), Sent(w, id, x).pods[id], p) {
      assert PodCaught(w, pod) && CaughtAt(w, pod, p);
      SentKeepsCaught(w, id, x, p, pod.pos[p]);
      if !Judge(x.reply).Failed? {
        SentCatchesUp(w, id, x, p);
      }
    }
  }

  lemma SendKeepsOtherPod(w: World, id: nat, x: Exchange, other: nat)
    requires Fresh(w) && Enabled(w, SendBulk(id, x)) && other in w.pods && other != id
    ensures PodCaught(Sent(w, id, x), w.pods[other])
  {
    var pod := w.pods[other];
    forall p | p in pod.pos ensures CaughtAt(Sent(w, id, x), pod, p) {
      assert PodCaught(w, pod) && CaughtAt(w, pod, p);
      assert p !in w.pods[id].pos;
      SentKeepsCaught(w, id, x, p, pod.pos[p]);
      if pod.phase.Indexed? {
        SentKeepsCaught(w, id, x, p, Target(pod.phase.recs, p, pod.pos[p]));
      }
    }
  }

  /** Logs only grow and the store stays. */
  lemma CaughtSurvives(w: World, w': World, p: nat, n: nat)
    requires Caught(w, p, n) && w'.store == w.store && w'.lost == w.lost
    requires |w'.log| == |w.log| && forall q :: 0 <= q < |w.log| ==> w.log[q] <= w'.log[q]
    requires p < |w.log| ==> n <= |w.log[p]|
    ensures Caught(w', p, n)
  {
  }

  lemma AppendKeepsFresh(w: World, rec: Rec)
    requires Fresh(w) && Enabled(w, Append(rec))
    ensures Fresh(Apply(w, Append(rec)))
  {
    var w' := Apply(w, Append(rec));
    StepKeepsShape(w, Append(rec));
    forall p | 0 <= p < |w'.log| ensures Caught(w', p, w'.committed[p]) {
      CaughtSurvives(w, w', p, w.committed[p]);
    }
    forall id | id in w'.pods ensures PodCaught(w', w'.pods[id]) {
      AppendKeepsCaught(w, rec, w.pods[id]);
    }
  }

  lemma AppendKeepsCaught(w: World, rec: Rec, pod: Pod)
    requires Enabled(w, Append(rec)) && |w.committed| == |w.log| && PodShape(w.log, w.committed, pod)
    requires PodCaught(w, pod)
    ensures PodCaught(Apply(w, Append(rec)), pod)
  {
    var w' := Apply(w, Append(rec));
    forall p | p in pod.pos ensures CaughtAt(w', pod, p) {
      assert CaughtAt(w, pod, p);
      CaughtSurvives(w, w', p, pod.pos[p]);
      if pod.phase.Indexed? {
        PolledTarget(w.log, pod.pos, pod.phase.recs, p);
        CaughtSurvives(w, w', p, Target(pod.phase.recs, p, pod.pos[p]));
      }
    }
  }

  lemma CommitKeepsFresh(w: World, id: nat, reached: Option<set<nat>>)
    requires Fresh(w) && Enabled(w, CommitOffsets(id, reached))
    ensures Fresh(CommittedBy(w, id, reached))
  {
    StepKeepsShape(w, CommitOffsets(id, reached));
    var w' := CommittedBy(w, id, reached);
    var pod := w.pods[id];
    assert PodCaught(w, pod);
    forall p | 0 <= p < |w.log| ensures Caught(w, p, w'.committed[p]) {
      CommitAt(w, id, p);
      assert Caught(w, p, w.committed[p]);
      assert p in pod.pos ==> CaughtAt(w, pod, p);
    }
    SameStoreKeepsFresh(w, w', id);
  }

  lemma NothingCatchesUp(w: World, id: nat, p: nat)
    requires Fresh(w) && Enabled(w, NothingToSend(id)) && p in w.pods[id].pos
    ensures Caught(w, p, Target(w.pods[id].phase.recs, p, w.pods[id].pos[p]))
  {
    var pod := w.pods[id];
    BodyHas(pod.phase.recs);
    assert PodShape(w.log, w.committed, pod) && PodCaught(w, pod);
    assert forall r :: r in pod.phase.recs && Indexable(r) ==> ActionOf(r) in Body(pod.phase.recs);
  }

  lemma NothingKeepsFresh(w: World, id: nat)
    requires Fresh(w) && Enabled(w, NothingToSend(id))
    ensures Fresh(Apply(w, NothingToSend(id)))
  {
    StepKeepsShape(w, NothingToSend(id));
    var w' := Apply(w, NothingToSend(id));
    forall p | p in w.pods[id].pos {
      NothingCatchesUp(w, id, p);
    }
    SameStoreKeepsFresh(w, w', id);
  }

  /** A step that leaves log, store and losses alone and moves one pod within what is caught up. */
  lemma SameStoreKeepsFresh(w: World, w': World, id: nat)
    requires Fresh(w) && Shape(w') && w'.log == w.log && w'.store == w.store && w'.lost == w.lost
    requires id in w'.pods
    requires (forall other :: other in w'.pods && other != id ==> other in w.pods && w'.pods[other] == w.pods[other])
    requires PodCaught(w, w'.pods[id])
    requires forall p :: 0 <= p < |w.log| ==> Caught(w, p, w'.committed[p])
    ensures Fresh(w')
  {
    forall p, n: nat | Caught(w, p, n) ensures Caught(w', p, n) {
    }
    forall other | other in w'.pods ensures PodCaught(w', w'.pods[other]) {
      assert other != id ==> PodCaught(w, w.pods[other]);
    }
  }

  /** A pod that gains a partition starts it at the committed offset. */
  lemma AssignedIsCaught(w: World, id: nat, part: nat)
    requires Fresh(w) && Enabled(w, Assign(id, part))
    ensures PodCaught(w, Apply(w, Assign(id, part)).pods[id])
  {
    var pod := Apply(w, Assign(id, part)).pods[id];
    forall p | p in pod.pos ensures CaughtAt(w, pod, p) {
      if p != part {
        assert PodCaught(w, w.pods[id]) && CaughtAt(w, w.pods[id], p);
      }
    }
  }

  lemma FewerIsCaught(w: World, l: Label)
    requires Fresh(w) && Enabled(w, l) && (l.Revoke? || l.Poll?)
    ensures PodCaught(w, Apply(w, l).pods[l.id])
  {
    var pod := Apply(w, l).pods[l.id];
    assert PodCaught(w, w.pods[l.id]);
    forall p | p in pod.pos ensures CaughtAt(w, pod, p) {
      assert CaughtAt(w, w.pods[l.id], p);
    }
  }

  lemma AssignKeepsFresh(w: World, id: nat, part: nat)
    requires Fresh(w) && Enabled(w, Assign(id, part))
    ensures Fresh(Apply(w, Assign(id, part)))
  {
    StepKeepsShape(w, Assign(id, part));
    AssignedIsCaught(w, id, part);
    SameStoreKeepsFresh(w, Apply(w, Assign(id, part)), id);
  }

  lemma FewerKeepsFresh(w: World, l: Label)
    requires Fresh(w) && Enabled(w, l) && (l.Revoke? || l.Poll?)
    ensures Fresh(Apply(w, l))
  {
    StepKeepsShape(w, l);
    FewerIsCaught(w, l);
    SameStoreKeepsFresh(w, Apply(w, l), l.id);
  }

  lemma CrashKeepsFresh(w: World, id: nat)
    requires Fresh(w) && Enabled(w, Crash(id))
    ensures Fresh(Apply(w, Crash(id)))
  {
    StepKeepsShape(w, Crash(id));
    var w' := Apply(w, Crash(id));
    forall p, n: nat | Caught(w, p, n) ensures Caught(w', p, n) {
    }
    forall other | other in w'.pods ensures PodCaught(w', w'.pods[other]) {
      assert PodCaught(w, w.pods[other]);
    }
  }

  lemma StepKeepsFresh(w: World, l: Label)
    requires Fresh(w) && Enabled(w, l)
    ensures Fresh(Apply(w, l))
  {
    match l
    case Append(rec) => AppendKeepsFresh(w, rec);
    case SendBulk(id, x) => SendKeepsFresh(w, id, x);
    case NothingToSend(id) => NothingKeepsFresh(w, id);
    case CommitOffsets(id, reached) => CommitKeepsFresh(w, id, reached);
    case Crash(id) => CrashKeepsFresh(w, id);
    case Assign(id, part) => AssignKeepsFresh(w, id, part);
    case _ => FewerKeepsFresh(w, l);
  }

  lemma {:induction false} RunsAreFresh(w: World, ls: seq<Label>)
    requires Initial(w) && CanRun(w, ls)
    ensures Fresh(Run(w, ls))
    decreases |ls|
  {
    if ls == [] {
      InitialHasShape(w);
    } else {
      RunsAreFresh(w, Init(ls));
      StepKeepsFresh(Run(w, Init(ls)), Last(ls));
    }
  }

  // ---------- the sequential reference ----------

  function FoldPart(recs: seq<Rec>): Store {
    if recs == [] then map[]
    else
      var before := FoldPart(Init(recs));
      if Storable(Last(recs)) then before[KeyOf(Last(recs)) := ActionOf(Last(recs))] else before
  }

  /** Indexing the whole log once, partition by partition, in order, each document overwriting the one
      before; documents the mapping rejects are skipped. */
  function Fold(log: seq<seq<Rec>>): Store {
    if log == [] then map[] else Fold(Init(log)) + FoldPart(Last(log))
  }

  ghost predicate Latest(recs: seq<Rec>, k: DocKey, o: nat) {
    && o < |recs| && Storable(recs[o]) && KeyOf(recs[o]) == k
    && forall u :: o < u < |recs| && Storable(recs[u]) ==> KeyOf(recs[u]) != k
  }

  ghost predicate Mentions(recs: seq<Rec>, k: DocKey) {
    exists o :: 0 <= o < |recs| && Storable(recs[o]) && KeyOf(recs[o]) == k
  }

  lemma {:induction false} FoldPartAt(recs: seq<Rec>, k: DocKey) returns (o: nat)
    ensures k in FoldPart(recs) <==> Mentions(recs, k)
    ensures Mentions(recs, k) ==> Latest(recs, k, o) && FoldPart(recs)[k] == ActionOf(recs[o])
  {
    o := 0;
    if recs != [] {
      o := FoldPartAt(Init(recs), k);
      var n := |recs| - 1;
      assert Mentions(recs, k) <==> Mentions(Init(recs), k) || (Storable(recs[n]) && KeyOf(recs[n]) == k);
      if Storable(recs[n]) && KeyOf(recs[n]) == k {
        o := n;
      }
    }
  }

  ghost predicate LatestAt(log: seq<seq<Rec>>, k: DocKey, r: Rec) {
    InLog(log, r) && Latest(log[r.part], k, r.off)
  }

  /** With each document confined to one partition, the fold maps a key to its last record. */
  lemma {:induction false} FoldAt(log: seq<seq<Rec>>, k: DocKey)
    requires LogOk(log) && KeysApart(log)
    ensures k in Fold(log) <==> exists p :: 0 <= p < |log| && Mentions(log[p], k)
    ensures k in Fold(log) ==> LatestAt(log, k, Fold(log)[k].src) && Fold(log)[k] == ActionOf(Fold(log)[k].src)
  {
    if log != [] {
      var n := |log| - 1;
      LogOkInit(log);
      FoldAt(Init(log), k);
      var o := FoldPartAt(log[n], k);
      assert (exists p :: 0 <= p < |log| && Mentions(log[p], k)) <==> k in Fold(Init(log)) || Mentions(log[n], k) by {
        assert forall p :: 0 <= p < n ==> Init(log)[p] == log[p];
      }
    }
  }

  lemma LogOkInit(log: seq<seq<Rec>>)
    requires log != [] && LogOk(log) && KeysApart(log)
    ensures LogOk(Init(log)) && KeysApart(Init(log))
  {
  }

  // ---------- drained ----------

  /** Every partition's records are all behind some consumer position or the committed offset. */
  ghost predicate Drained(w: World) {
    forall p :: 0 <= p < |w.log| ==> DrainedAt(w, p)
  }

  ghost predicate DrainedAt(w: World, p: nat) {
    p < |w.log| && ((p < |w.committed| && w.committed[p] == |w.log[p]|)
      || (exists id :: id in w.pods && p in w.pods[id].pos && w.pods[id].pos[p] == |w.log[p]|))
  }

  /** The last record of this document, if there is one, is not lost. */
  ghost predicate Unlost(w: World, k: DocKey) {
    forall r: Rec :: LatestAt(w.log, k, r) ==> r !in w.lost
  }

  lemma DrainedIsCaught(w: World, p: nat)
    requires Fresh(w) && DrainedAt(w, p)
    ensures Caught(w, p, |w.log[p]|)
  {
    if w.committed[p] != |w.log[p]| {
      var id :| id in w.pods && p in w.pods[id].pos && w.pods[id].pos[p] == |w.log[p]|;
      assert PodCaught(w, w.pods[id]);
    }
  }

  lemma DrainedAgreesIff(w: World, k: DocKey)
    requires Fresh(w) && Drained(w)
    ensures AgreeOn(w.store, Fold(w.log), k) <==> Unlost(w, k)
  {
    FoldAt(w.log, k);
    if k in w.store {
      assert Mentions(w.log[w.store[k].src.part], k);
    }
    if k in Fold(w.log) {
      var r := Fold(w.log)[k].src;
      if Unlost(w, k) {
        LatestIsStored(w, k, r);
      } else {
        LatestIsOne(w.log, k, r);
      }
    } else {
      LatestIsMentioned(w.log, k);
    }
  }

  lemma LatestIsOne(log: seq<seq<Rec>>, k: DocKey, r: Rec)
    requires KeysApart(log) && LatestAt(log, k, r)
    ensures forall s :: LatestAt(log, k, s) ==> s == r
  {
    forall s | LatestAt(log, k, s) ensures s == r {
      assert SameDocument(log[r.part][r.off], log[s.part][s.off]);
    }
  }

  lemma LatestIsMentioned(log: seq<seq<Rec>>, k: DocKey)
    ensures forall r :: LatestAt(log, k, r) ==> Mentions(log[r.part], k)
  {
  }

  lemma LatestIsStored(w: World, k: DocKey, r: Rec)
    requires Fresh(w) && Drained(w) && Unlost(w, k) && LatestAt(w.log, k, r)
    ensures k in w.store && w.store[k] == ActionOf(r)
  {
    assert DrainedAt(w, r.part);
    DrainedIsCaught(w, r.part);
    assert w.log[r.part][r.off] == r;
    var s := w.store[k].src;
    assert SameDocument(w.log[r.part][r.off], w.log[s.part][s.off]);
  }

  // ---------- a request refused as a whole loses its documents ----------

  const START := World([[]], [0], map[], map[], {})

  function WithPod(r: Rec, pod: Pod): World {
    START.(log := [[r]], pods := map[0 := pod])
  }

  function AtZero(ph: Phase): Pod {
    Pod(map[0 := 0], ph)
  }

  const REFUSAL := Exchange({}, Http(400, None))

  /** The record is appended, polled, refused with HTTP 400 and committed: the log is drained and its
      offset committed, yet the document is not in the store. */
  lemma RefusalLosesDocument(r: Rec) returns (ls: seq<Label>)
    requires Storable(r) && r.part == 0 && r.off == 0
    ensures Initial(START) && CanRun(START, ls)
    ensures var w := Run(START, ls);
      Drained(w) && w.committed == [1] && KeyOf(r) !in w.store && KeyOf(r) in Fold(w.log)
  {
    ls := PolledRun(r);
    RefusedStep(r);
    ThenStep(START, ls, SendBulk(0, REFUSAL));
    ls := ls + [SendBulk(0, REFUSAL)];
    CommittedStep(r);
    ThenStep(START, ls, CommitOffsets(0, None));
    ls := ls + [CommitOffsets(0, None)];
    FoldOfOne(r);
    assert DrainedAt(Run(START, ls), 0);
  }

  lemma PolledRun(r: Rec) returns (ls: seq<Label>)
    requires Storable(r) && r.part == 0 && r.off == 0
    ensures CanRun(START, ls) && Run(START, ls) == WithPod(r, AtZero(Holding([r])))
  {
    AppendStep(r);
    ThenStep(START, [], Append(r));
    AssignStep(r);
    ls := [] + [Append(r)];
    ThenStep(START, ls, Assign(0, 0));
    ls := ls + [Assign(0, 0)];
    OneRecord(r, map[0 := 0]);
    ThenStep(START, ls, Poll(0, [r]));
    ls := ls + [Poll(0, [r])];
  }

  lemma AppendStep(r: Rec)
    requires Storable(r) && r.part == 0 && r.off == 0
    ensures Enabled(START, Append(r)) && Apply(START, Append(r)) == START.(log := [[r]])
  {
    assert [] + [r] == [r];
    assert START.log[0 := START.log[0] + [r]] == [[r]];
  }

  lemma AssignStep(r: Rec)
    ensures Enabled(START.(log := [[r]]), Assign(0, 0))
    ensures Apply(START.(log := [[r]]), Assign(0, 0)) == WithPod(r, AtZero(Polling))
  {
    assert map[][0 := 0] == map[0 := 0];
  }

  lemma FoldOfOne(r: Rec)
    requires Storable(r)
    ensures KeyOf(r) in Fold([[r]])
  {
    assert Init([[r]]) == [] && Init([r]) == [];
  }

  lemma OneRecord(r: Rec, pos: map<nat, nat>)
    requires Storable(r) && r.part == 0 && r.off == 0 && pos == map[0 := 0]
    ensures Polled([[r]], pos, [r]) && Body([r]) == [ActionOf(r)] && Target([r], 0, 0) == 1
  {
    assert Init([r]) == [];
  }

  lemma RefusedStep(r: Rec)
    requires Storable(r) && r.part == 0 && r.off == 0
    ensures var w := WithPod(r, AtZero(Holding([r])));
      && Enabled(w, SendBulk(0, REFUSAL))
      && Apply(w, SendBulk(0, REFUSAL)) == WithPod(r, AtZero(Indexed([r]))).(lost := {r})
  {
    OneRecord(r, map[0 := 0]);
    assert Init(Body([r])) == [];
    assert Applied(map[], Body([r]), {}) == map[];
    assert Refused([r], Dropped) == {r};
    assert Behind(map[], {} + {r}) == {r};
  }

  lemma CommittedStep(r: Rec)
    requires Storable(r) && r.part == 0 && r.off == 0
    ensures var w := WithPod(r, AtZero(Indexed([r]))).(lost := {r});
      && Enabled(w, CommitOffsets(0, None))
      && Apply(w, CommitOffsets(0, None)) == w.(committed := [1], pods := map[0 := Pod(map[0 := 1], Polling)])
  {
    OneRecord(r, map[0 := 0]);
    assert Advanced(AtZero(Indexed([r]))).pos == map[0 := 1];
    assert Commit([0], [r], None) == [1];
  }
}
