/** When replay gives the fold, in terms of the run alone: a record is lost exactly if some request that
    carried it was refused as a whole and the store has not reflected it at any later moment. */
module PersistLosses {
  import opened Wrappers
  import opened Bulk
  import opened PersistMachine
  import opened PersistReplay

  // ---------- what a run drops ----------

  /** The worlds a run passes through, from its first to its last. */
  ghost function Moments(w: World, ls: seq<Label>): (ms: seq<World>)
    requires CanRun(w, ls)
    ensures |ms| == |ls| + 1 && Last(ms) == Run(w, ls)
    decreases |ls|
  {
    if ls == [] then [w] else Moments(w, Init(ls)) + [Run(w, ls)]
  }

  predicate Reflected(store: Store, r: Rec) {
    Indexable(r) && Ahead(store, r)
  }

  /** Label `l` is a bulk request that carries this record and is refused as a whole. */
  ghost predicate Refuses(w: World, l: Label, r: Rec) {
    && l.SendBulk? && RefusedWhole(l.x.reply)
    && l.id in w.pods && w.pods[l.id].phase.Holding? && r in w.pods[l.id].phase.recs && Storable(r)
  }

  /** After step `i` the store never reflects the record. */
  predicate MissingSince(ms: seq<World>, i: nat, r: Rec) {
    forall j :: i < j < |ms| ==> !Reflected(ms[j].store, r)
  }

  /** Some request with this record is refused, and the record is missing at every later moment. */
  ghost predicate Dropped(ms: seq<World>, ls: seq<Label>, r: Rec)
    requires |ms| == |ls| + 1
  {
    exists i :: 0 <= i < |ls| && Refuses(ms[i], ls[i], r) && MissingSince(ms, i, r)
  }

  ghost predicate DroppedForGood(w: World, ls: seq<Label>, r: Rec)
    requires CanRun(w, ls)
  {
    Dropped(Moments(w, ls), ls, r)
  }

  // ---------- lost means dropped for good ----------

  /** Such an answer leaves the batch to be sent again, and nothing is committed or given up. */
  lemma RetriedKeepsBatch(w: World, id: nat, x: Exchange)
    requires Enabled(w, SendBulk(id, x))
    requires x.reply.Http? ==> x.reply.code == 429 || x.reply.code >= 500
    ensures var v := Apply(w, SendBulk(id, x));
      v.pods == w.pods && v.committed == w.committed && v.log == w.log && v.lost <= w.lost
  {
    assert w.pods[id := w.pods[id]] == w.pods;
  }

  lemma LostStep(v: World, l: Label, r: Rec)
    requires LostOk(v) && Enabled(v, l)
    ensures r in Apply(v, l).lost <==> !Reflected(Apply(v, l).store, r) && (r in v.lost || Refuses(v, l, r))
  {
    if l.SendBulk? {
      JudgeIff(l.x.reply);
    }
  }

  lemma DroppedStep(ms: seq<World>, ls: seq<Label>, v: World, l: Label, r: Rec)
    requires |ms| == |ls| + 1
    ensures Dropped(ms + [v], ls + [l], r) <==>
      !Reflected(v.store, r) && (Dropped(ms, ls, r) || Refuses(Last(ms), l, r))
  {
    var ms', ls' := ms + [v], ls + [l];
    assert ms'[|ls|] == Last(ms) && ls'[|ls|] == l;
    forall i: nat | i < |ls'|
      ensures MissingSince(ms', i, r) <==> MissingSince(ms, i, r) && !Reflected(v.store, r)
    {
      assert ms'[|ms|] == v;
      assert forall j :: i < j < |ms| ==> ms'[j] == ms[j];
    }
    if i :| 0 <= i < |ls| && Refuses(ms[i], ls[i], r) && MissingSince(ms, i, r) {
      assert ms'[i] == ms[i] && ls'[i] == ls[i];
    }
    if !Reflected(v.store, r) && Refuses(Last(ms), l, r) {
      assert Refuses(ms'[|ls|], ls'[|ls|], r) && MissingSince(ms', |ls|, r);
    }
  }

  lemma MomentsStep(w: World, ls: seq<Label>)
    requires CanRun(w, ls) && ls != []
    ensures Moments(w, ls) == Moments(w, Init(ls)) + [Run(w, ls)] && Last(Moments(w, Init(ls))) == Run(w, Init(ls))
  {
  }

  lemma DroppedOneMore(w: World, ls: seq<Label>, r: Rec)
    requires CanRun(w, ls) && ls != []
    ensures DroppedForGood(w, ls, r) <==>
      !Reflected(Run(w, ls).store, r) && (DroppedForGood(w, Init(ls), r) || Refuses(Run(w, Init(ls)), Last(ls), r))
  {
    MomentsStep(w, ls);
    DroppedStep(Moments(w, Init(ls)), Init(ls), Run(w, ls), Last(ls), r);
    assert Init(ls) + [Last(ls)] == ls;
  }

  lemma LostOneMore(w: World, ls: seq<Label>, r: Rec)
    requires Initial(w) && CanRun(w, ls) && ls != []
    ensures r in Run(w, ls).lost <==>
      !Reflected(Run(w, ls).store, r) && (r in Run(w, Init(ls)).lost || Refuses(Run(w, Init(ls)), Last(ls), r))
  {
    RunsAreFresh(w, Init(ls));
    LostStep(Run(w, Init(ls)), Last(ls), r);
  }

  /** Over every run the machine's book-keeping is exact. */
  lemma {:induction false} LostIff(w: World, ls: seq<Label>, r: Rec)
    requires Initial(w) && CanRun(w, ls)
    ensures r in Run(w, ls).lost <==> DroppedForGood(w, ls, r)
    decreases |ls|
  {
    if ls != [] {
      LostIff(w, Init(ls), r);
      LostOneMore(w, ls, r);
      DroppedOneMore(w, ls, r);
    }
  }

  // ---------- the theorems ----------

  /** The run leads from an initial world to this one. */
  ghost predicate Reaches(w: World, ls: seq<Label>, v: World) {
    Initial(w) && CanRun(w, ls) && v == Run(w, ls)
  }

  /** The last record of this document, if there is one, is not dropped for good. */
  ghost predicate LastKept(w: World, ls: seq<Label>, k: DocKey)
    requires CanRun(w, ls)
  {
    forall r: Rec :: LatestAt(Run(w, ls).log, k, r) ==> !DroppedForGood(w, ls, r)
  }

  lemma LastKeptIsUnlost(w: World, ls: seq<Label>, k: DocKey)
    requires Initial(w) && CanRun(w, ls)
    ensures LastKept(w, ls, k) <==> Unlost(Run(w, ls), k)
  {
    forall r ensures r in Run(w, ls).lost <==> DroppedForGood(w, ls, r) {
      LostIff(w, ls, r);
    }
  }

  /** Whatever the crashes, rebalances, re-polled batches, partial bulks, refused requests and failed
      commits: once the log is drained, a document is exactly what indexing the log once in order gives
      if and only if its last record was not dropped for good. */
  lemma {:induction false} ReplayRefinesFold(w: World, ls: seq<Label>, v: World, k: DocKey)
    requires Reaches(w, ls, v) && Drained(v)
    ensures AgreeOn(v.store, Fold(v.log), k) <==> LastKept(w, ls, k)
  {
    RunsAreFresh(w, ls);
    LastKeptIsUnlost(w, ls, k);
    DrainedAgreesIff(v, k);
  }

  /** A lost record's document is not the fold's, whichever record was its last. */
  lemma LostDiffers(w: World, r: Rec)
    requires Fresh(w) && r in w.lost
    ensures w.store != Fold(w.log)
  {
    var k := KeyOf(r);
    FoldAt(w.log, k);
    assert Mentions(w.log[r.part], k);
    var s := Fold(w.log)[k].src;
    assert SameDocument(w.log[r.part][r.off], w.log[s.part][s.off]);
  }

  /** The whole store is the fold if and only if no record was dropped for good. */
  lemma {:induction false} DrainedStoreIsFold(w: World, ls: seq<Label>, v: World)
    requires Reaches(w, ls, v) && Drained(v)
    ensures v.store == Fold(v.log) <==> forall r: Rec :: !DroppedForGood(w, ls, r)
  {
    RunsAreFresh(w, ls);
    forall r ensures r in v.lost <==> DroppedForGood(w, ls, r) {
      LostIff(w, ls, r);
    }
    if r :| r in v.lost {
      LostDiffers(v, r);
    } else {
      forall k ensures AgreeOn(v.store, Fold(v.log), k) {
        DrainedAgreesIff(v, k);
      }
      AgreeEverywhere(v.store, Fold(v.log));
    }
  }

  /** Every bulk request of the run that was not a success was answered by nothing, 429 or 5xx. */
  predicate NoRefusal(ls: seq<Label>) {
    forall l :: l in ls && l.SendBulk? && l.x.reply.Http? && l.x.reply.code >= 300 ==>
      l.x.reply.code == 429 || l.x.reply.code >= 500
  }

  /** Without such a request nothing is lost at any moment, and a drained log leaves the fold. */
  lemma {:induction false} WithoutRefusals(w: World, ls: seq<Label>)
    requires Initial(w) && CanRun(w, ls) && NoRefusal(ls)
    ensures Run(w, ls).lost == {}
    ensures forall k :: LastKept(w, ls, k)
    ensures Drained(Run(w, ls)) ==> Run(w, ls).store == Fold(Run(w, ls).log)
  {
    forall r ensures !DroppedForGood(w, ls, r) && r !in Run(w, ls).lost {
      assert forall i :: 0 <= i < |ls| ==> ls[i] in ls;
      LostIff(w, ls, r);
    }
    if Drained(Run(w, ls)) {
      DrainedStoreIsFold(w, ls, Run(w, ls));
    }
  }

  /** The commit of its partition lies past the record. */
  predicate Passed(committed: seq<nat>, r: Rec) {
    r.part < |committed| && r.off < committed[r.part]
  }

  /** At any moment, drained or not: a record below its partition's committed offset that the mapping
      takes has its document, from itself or a later record, if and only if it was not dropped for good. */
  lemma {:induction false} CommittedIsStored(w: World, ls: seq<Label>, v: World, r: Rec)
    requires Reaches(w, ls, v) && Passed(v.committed, r)
    ensures InLog(v.log, r) && Storable(r) ==> (Ahead(v.store, r) <==> !DroppedForGood(w, ls, r))
  {
    RunsAreFresh(w, ls);
    assert Caught(v, r.part, v.committed[r.part]);
    LostIff(w, ls, r);
  }

  /** And that later record is one of the same partition's log. */
  lemma {:induction false} StoredFromOwnPartition(w: World, ls: seq<Label>, v: World, r: Rec)
    requires Reaches(w, ls, v) && InLog(v.log, r) && Storable(r)
    ensures KeyOf(r) in v.store ==> InLog(v.log, v.store[KeyOf(r)].src) && v.store[KeyOf(r)].src.part == r.part
  {
    RunsAreFresh(w, ls);
    if KeyOf(r) in v.store {
      var s := v.store[KeyOf(r)].src;
      assert SameDocument(v.log[r.part][r.off], v.log[s.part][s.off]);
    }
  }

  /** No committed offset lies past its partition's log. */
  lemma {:induction false} CommittedIsLogged(w: World, ls: seq<Label>, v: World, p: nat)
    requires Reaches(w, ls, v) && p < |v.committed|
    ensures p < |v.log| && v.committed[p] <= |v.log[p]|
  {
    RunsAreFresh(w, ls);
  }
}
