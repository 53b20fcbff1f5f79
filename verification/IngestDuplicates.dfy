/** Bounded duplication: the canonical log holds at most one copy of an event plus one per incident
    (failed produce, crash before the SET, key a SET did not store, expiry) charged to its key. */
module IngestDuplicates {
  import opened Wrappers
  import opened Keys
  import opened Log
  import opened Batch
  import opened IngestMachine
  import opened IngestShape
  import opened IngestSafety

  function IsCopy(o: Output, k: Key): bool {
    o.Canonical? && OutKey(o) == k
  }

  function Copies(h: seq<Output>, k: Key): nat {
    if h == [] then 0 else Copies(Init(h), k) + if IsCopy(Last(h), k) then 1 else 0
  }

  lemma {:induction false} CopiesAppend(a: seq<Output>, b: seq<Output>, k: Key)
    ensures Copies(a + b, k) == Copies(a, k) + Copies(b, k)
  {
    if b == [] {
      assert a + b == a;
    } else {
      CopiesAppend(a, Init(b), k);
      assert Init(a + b) == a + Init(b);
    }
  }

  lemma {:induction false} PickCopies(h: seq<Output>, chosen: set<nat>, k: Key)
    ensures Copies(Pick(h, chosen), k) <= Copies(h, k)
  {
    if h != [] {
      PickCopies(Init(h), chosen, k);
      CopiesAppend(Pick(Init(h), chosen), if |h| - 1 in chosen then [Last(h)] else [], k);
    }
  }

  lemma {:induction false} DeadHasNoCopies(recs: seq<Record>, now: int, k: Key)
    ensures Copies(Dead(recs, now), k) == 0
  {
    if recs != [] {
      DeadHasNoCopies(Init(recs), now, k);
      if !Accepted(Last(recs), now) {
        CopiesAppend(Dead(Init(recs), now), [DeadLetter(Last(recs), Reject(Last(recs), now).value, now)], k);
      } else {
        CopiesAppend(Dead(Init(recs), now), [], k);
      }
    }
  }

  ghost predicate DistinctKeys(items: seq<Item>) {
    forall i, j :: 0 <= i < j < |items| ==> items[i].dedupKey != items[j].dedupKey
  }

  lemma {:induction false} OutputCopies(kept: seq<Item>, processedAt: int, at: int, k: Key)
    requires DistinctKeys(kept) && KeysTrue(kept)
    ensures Copies(Outputs(kept, processedAt, at), k) == if k in KeysOf(kept) then 1 else 0
  {
    var out := Outputs(kept, processedAt, at);
    if kept != [] {
      OutputCopies(Init(kept), processedAt, at, k);
      assert Init(out) == Outputs(Init(kept), processedAt, at);
      assert kept == Init(kept) + [Last(kept)];
      KeysOfAppend(Init(kept), [Last(kept)]);
      assert Last(kept) in kept;
      if k in KeysOf(Init(kept)) {
        var it :| it in Init(kept) && it.dedupKey == k;
        var i :| 0 <= i < |kept| - 1 && kept[i] == it;
      }
    }
  }

  /** One produce adds at most one copy of each event, and only of those it carries. */
  lemma BatchCopies(batch: seq<Record>, kept: seq<Item>, processedAt: int, now: int, k: Key)
    requires DistinctKeys(kept) && KeysTrue(kept)
    ensures Copies(Out(batch, kept, processedAt, now), k) == if k in KeysOf(kept) then 1 else 0
  {
    CopiesAppend(Dead(batch, now), Outputs(kept, processedAt, now), k);
    DeadHasNoCopies(batch, now, k);
    OutputCopies(kept, processedAt, now, k);
  }

  lemma {:induction false} ItemsAreDistinct(recs: seq<Record>, now: int)
    ensures DistinctKeys(Items(recs, now))
  {
    if recs != [] {
      ItemsAreDistinct(Init(recs), now);
      ItemsHaveTheKeys(Init(recs), now);
      var rest := Items(Init(recs), now);
      assert forall i :: 0 <= i < |rest| ==> rest[i] in rest && rest[i].dedupKey in KeysOf(rest);
    }
  }

  // ---------- the invariant ----------

  /** The kept items are distinct survivors of the lookups answered so far. */
  ghost predicate Survivors(items: seq<Item>, next: nat, kept: seq<Item>)
    requires next <= |items|
  {
    DistinctKeys(kept) && KeysTrue(kept) && KeysOf(kept) <= KeysOf(items[..next])
  }

  ghost predicate HoldsKey(batch: seq<Record>, k: Key) {
    exists r :: r in batch && r.value.Encoded? && KeyOf(r) == k
  }

  ghost predicate Keyed(batch: seq<Record>, keys: set<Key>) {
    forall k :: k in keys ==> HoldsKey(batch, k)
  }

  /** The keys a pod is about to produce, or has produced and not yet marked. */
  function PendingKeys(ph: Phase): set<Key> {
    match ph
    case Looking(_, _, _, kept) => KeysOf(kept)
    case Acked(_, kept) => KeysOf(kept)
    case _ => {}
  }

  /** The pod has produced the event of this key and not yet marked it. */
  ghost predicate Awaiting(w: World, id: nat, k: Key) {
    id in w.pods && w.pods[id].phase.Acked? && k in PendingKeys(w.pods[id].phase)
  }

  /** One copy of the event is in order: its key is live, or about to be marked. */
  ghost predicate Live(w: World, k: Key) {
    k in w.st.redis || exists id :: Awaiting(w, id, k)
  }

  ghost predicate PhaseTidy(w: World, ph: Phase) {
    match ph
    case Looking(batch, now, next, kept) =>
      && next <= |Items(batch, now)| && Survivors(Items(batch, now), next, kept) && Keyed(batch, KeysOf(kept))
      && forall k :: k in KeysOf(kept) ==> !Live(w, k)
    case Acked(batch, kept) => DistinctKeys(kept) && KeysTrue(kept) && Keyed(batch, KeysOf(kept))
    case _ => true
  }

  ghost predicate Budget(w: World) {
    forall k: Key :: Copies(w.st.history, k) <= w.charges[k] + if Live(w, k) then 1 else 0
  }

  ghost predicate Tidy(w: World) {
    Shape(w) && Budget(w) && PhasesTidy(w)
  }

  /** Two pods never hold records with the same key: the VIN fixes the partition, the partition the owner. */
  lemma RecordsApart(w: World, a: nat, b: nat, r: Record, s: Record)
    requires Shape(w) && a in w.pods && b in w.pods
    requires r in BatchOf(w.pods[a].phase) && s in BatchOf(w.pods[b].phase) && SameVin(r, s)
    ensures a == b
  {
    assert PodShape(w.raw, w.st.committed, w.pods[a]) && PodShape(w.raw, w.st.committed, w.pods[b]);
    assert FromPartition(w.raw, w.pods[a].pos, r) && FromPartition(w.raw, w.pods[b].pos, s);
    assert SameVin(w.raw[r.part][r.off], w.raw[s.part][s.off]);
  }

  lemma BatchesApart(w: World, a: nat, b: nat, k: Key)
    requires Shape(w) && a in w.pods && b in w.pods
    requires HoldsKey(BatchOf(w.pods[a].phase), k) && HoldsKey(BatchOf(w.pods[b].phase), k)
    ensures a == b
  {
    var r :| r in BatchOf(w.pods[a].phase) && r.value.Encoded? && KeyOf(r) == k;
    var s :| s in BatchOf(w.pods[b].phase) && s.value.Encoded? && KeyOf(s) == k;
    RecordsApart(w, a, b, r, s);
  }

  lemma PendingApart(w: World, a: nat, b: nat, k: Key)
    requires Tidy(w) && a in w.pods && b in w.pods
    requires k in PendingKeys(w.pods[a].phase) && k in PendingKeys(w.pods[b].phase)
    ensures a == b
  {
    assert PhaseTidy(w, w.pods[a].phase) && PhaseTidy(w, w.pods[b].phase);
    BatchesApart(w, a, b, k);
  }

  // ---------- moving between states ----------

  /** Keys may stop being live; none becomes live. */
  ghost predicate LiveShrinks(w: World, w': World) {
    forall k: Key :: k.Dedup? && Live(w', k) ==> Live(w, k)
  }

  lemma PhaseTidyShrinks(w: World, w': World, ph: Phase)
    requires PhaseTidy(w, ph) && LiveShrinks(w, w')
    ensures PhaseTidy(w', ph)
  {
    if ph.Looking? {
      forall k | k in KeysOf(ph.kept) ensures !Live(w', k) {
        var it :| it in ph.kept && it.dedupKey == k;
      }
    }
  }

  /** A phase in which nothing is pending. */
  predicate Blank(ph: Phase) {
    !ph.Acked? && (ph.Looking? ==> ph.next == 0 && ph.kept == [])
  }

  ghost predicate PodsKeptOrBlank(w: World, w': World) {
    forall id :: id in w'.pods ==> Blank(w'.pods[id].phase) || (id in w.pods && w'.pods[id].phase == w.pods[id].phase)
  }

  ghost predicate PhasesTidy(w: World) {
    forall id :: id in w.pods ==> PhaseTidy(w, w.pods[id].phase)
  }

  lemma PhasesTidyShrink(w: World, w': World)
    requires PhasesTidy(w) && LiveShrinks(w, w') && PodsKeptOrBlank(w, w')
    ensures PhasesTidy(w')
  {
    forall id | id in w'.pods ensures PhaseTidy(w', w'.pods[id].phase) {
      if !Blank(w'.pods[id].phase) {
        PhaseTidyShrinks(w, w', w.pods[id].phase);
      }
    }
  }

  /** Without new output the budget survives if every key that stops being live is charged. */
  lemma BudgetMoves(w: World, w': World)
    requires Budget(w) && w'.st.history == w.st.history
    requires forall k: Key :: k.Dedup? ==> w'.charges[k] >= w.charges[k] + if Live(w, k) && !Live(w', k) then 1 else 0
    ensures Budget(w')
  {
    forall k: Key ensures Copies(w'.st.history, k) <= w'.charges[k] + (if Live(w', k) then 1 else 0) {
      if !k.Dedup? {
        OnlyDedupCopies(w.st.history, k);
      }
    }
  }

  lemma {:induction false} OnlyDedupCopies(h: seq<Output>, k: Key)
    requires !k.Dedup?
    ensures Copies(h, k) == 0
  {
    if h != [] {
      OnlyDedupCopies(Init(h), k);
    }
  }

  // ---------- every step keeps it ----------

  lemma LookupKeepsTidy(w: World, id: nat)
    requires Tidy(w) && Enabled(w, Lookup(id))
    ensures Budget(LookedUp(w, id)) && PhasesTidy(LookedUp(w, id))
  {
    var w' := LookedUp(w, id);
    forall k: Key ensures Live(w', k) <==> Live(w, k) {
      LiveUnchanged(w, w', k);
    }
    LookupKeepsOwnTidy(w, id);
    forall other | other in w'.pods ensures PhaseTidy(w', w'.pods[other].phase) {
      if other == id {
        PhaseTidyShrinks(w, w', w'.pods[id].phase);
      } else {
        PhaseTidyShrinks(w, w', w.pods[other].phase);
      }
    }
  }

  lemma LookupKeepsOwnTidy(w: World, id: nat)
    requires Shape(w) && PhasesTidy(w)
    requires id in w.pods && w.pods[id].phase.Looking? && w.pods[id].phase.next < |ItemsOf(w.pods[id].phase)|
    ensures PhaseTidy(w, LookedUp(w, id).pods[id].phase)
  {
    var ph := w.pods[id].phase;
    assert PhaseTidy(w, ph);
    LookupKeyed(ph.batch, ph.now, ph.next);
    NotAwaited(w, id, Items(ph.batch, ph.now)[ph.next].dedupKey);
    OneMoreSurvivor(w, ph);
  }

  lemma OneMoreSurvivor(w: World, ph: Phase)
    requires ph.Looking? && PhaseTidy(w, ph) && ph.next < |ItemsOf(ph)|
    requires HoldsKey(ph.batch, ItemsOf(ph)[ph.next].dedupKey)
    requires forall other :: !Awaiting(w, other, ItemsOf(ph)[ph.next].dedupKey)
    ensures PhaseTidy(w, ph.(next := ph.next + 1, kept := ph.kept + KeepOne(ItemsOf(ph)[ph.next], w.st.redis)))
  {
    var it := ItemsOf(ph)[ph.next];
    LookupKeepsSurvivors(ItemsOf(ph), ph.next, ph.kept, w.st.redis, ph.batch, ph.now);
    KeysOfAppend(ph.kept, KeepOne(it, w.st.redis));
    if it.dedupKey in w.st.redis {
      assert ph.kept + KeepOne(it, w.st.redis) == ph.kept;
    } else {
      assert KeysOf(KeepOne(it, w.st.redis)) == {it.dedupKey};
    }
  }

  /** A key of a pod's own batch is not awaited by any pod while this one is still looking. */
  lemma NotAwaited(w: World, id: nat, k: Key)
    requires Shape(w) && PhasesTidy(w) && id in w.pods && w.pods[id].phase.Looking?
    requires HoldsKey(w.pods[id].phase.batch, k)
    ensures forall other :: !Awaiting(w, other, k)
  {
    if other :| Awaiting(w, other, k) {
      assert PhaseTidy(w, w.pods[other].phase);
      BatchesApart(w, id, other, k);
    }
  }

  lemma LookupKeyed(batch: seq<Record>, now: int, next: nat)
    requires next < |Items(batch, now)|
    ensures HoldsKey(batch, Items(batch, now)[next].dedupKey)
  {
    ItemsHaveTheKeys(batch, now);
    assert Items(batch, now)[next] in Items(batch, now);
    assert Items(batch, now)[next].dedupKey in AcceptedKeys(batch, now);
  }

  lemma LookupKeepsSurvivors(
      items: seq<Item>, next: nat, kept: seq<Item>, redis: map<Key, string>, batch: seq<Record>, now: int)
    requires items == Items(batch, now) && next < |items| && Survivors(items, next, kept)
    ensures Survivors(items, next + 1, kept + KeepOne(items[next], redis))
  {
    ItemsAreDistinct(batch, now);
    ItemsHaveTheKeys(batch, now);
    var it := items[next];
    assert it in items;
    assert items[..next + 1] == items[..next] + [it];
    KeysOfAppend(items[..next], [it]);
    KeysOfAppend(kept, KeepOne(it, redis));
    forall i | 0 <= i < |kept| ensures kept[i].dedupKey != it.dedupKey {
      assert kept[i] in kept;
      assert kept[i].dedupKey in KeysOf(items[..next]);
      var x :| x in items[..next] && x.dedupKey == kept[i].dedupKey;
      var j :| 0 <= j < next && items[j] == x;
    }
  }

  /** Liveness of a key depends only on Redis and on the acknowledged batches. */
  lemma LiveUnchanged(w: World, w': World, k: Key)
    requires k in w.st.redis <==> k in w'.st.redis
    requires forall id :: Awaiting(w, id, k) <==> Awaiting(w', id, k)
    ensures Live(w', k) <==> Live(w, k)
  {
  }

  lemma ProduceKeepsTidy(w: World, id: nat, processedAt: int, reached: Option<set<nat>>)
    requires Tidy(w) && Enabled(w, Produce(id, processedAt, reached))
    ensures Budget(Produced(w, id, processedAt, reached)) && PhasesTidy(Produced(w, id, processedAt, reached))
  {
    var w' := Produced(w, id, processedAt, reached);
    var ph := w.pods[id].phase;
    assert PhaseTidy(w, ph);
    forall k: Key ensures Copies(w'.st.history, k) <= w'.charges[k] + (if Live(w', k) then 1 else 0) {
      ProduceKeepsBudget(w, id, processedAt, reached, k);
    }
    forall other | other in w'.pods && other != id ensures PhaseTidy(w', w'.pods[other].phase) {
      ProduceKeepsOthersTidy(w, id, processedAt, reached, other);
    }
  }

  /** A produce makes live only keys of the producing pod. */
  lemma LiveAfterProduce(w: World, id: nat, processedAt: int, reached: Option<set<nat>>, k: Key)
    requires id in w.pods && w.pods[id].phase.Looking? && Live(Produced(w, id, processedAt, reached), k)
    ensures Live(w, k) || k in PendingKeys(w.pods[id].phase)
  {
    var w' := Produced(w, id, processedAt, reached);
    if k !in w.st.redis {
      var third :| Awaiting(w', third, k);
      assert third != id ==> Awaiting(w, third, k);
    }
  }

  lemma ProduceKeepsOthersTidy(w: World, id: nat, processedAt: int, reached: Option<set<nat>>, other: nat)
    requires Tidy(w) && id in w.pods && w.pods[id].phase.Looking? && other in w.pods && other != id
    ensures PhaseTidy(Produced(w, id, processedAt, reached), w.pods[other].phase)
  {
    var ph := w.pods[other].phase;
    assert PhaseTidy(w, ph);
    if ph.Looking? {
      forall k | k in KeysOf(ph.kept) ensures !Live(Produced(w, id, processedAt, reached), k) {
        if Live(Produced(w, id, processedAt, reached), k) {
          LiveAfterProduce(w, id, processedAt, reached, k);
          PendingApart(w, id, other, k);
        }
      }
    }
  }

  lemma ProduceKeepsBudget(w: World, id: nat, processedAt: int, reached: Option<set<nat>>, k: Key)
    requires Budget(w) && id in w.pods && w.pods[id].phase.Looking? && PhaseTidy(w, w.pods[id].phase)
    ensures var w' := Produced(w, id, processedAt, reached);
      Copies(w'.st.history, k) <= w'.charges[k] + (if Live(w', k) then 1 else 0)
  {
    var w' := Produced(w, id, processedAt, reached);
    var ph := w.pods[id].phase;
    ProduceAddsCopies(w, id, processedAt, reached, k);
    if Live(w, k) && k !in w.st.redis {
      var other :| Awaiting(w, other, k);
      assert Awaiting(w', other, k);
    }
    if reached.None? && k in KeysOf(ph.kept) {
      assert Awaiting(w', id, k);
    }
  }

  lemma ProduceAddsCopies(w: World, id: nat, processedAt: int, reached: Option<set<nat>>, k: Key)
    requires id in w.pods && w.pods[id].phase.Looking? && PhaseTidy(w, w.pods[id].phase)
    ensures var kept := w.pods[id].phase.kept;
      && Copies(Produced(w, id, processedAt, reached).st.history, k)
         <= Copies(w.st.history, k) + (if k in KeysOf(kept) then 1 else 0)
      && (k in KeysOf(kept) ==> !Live(w, k))
  {
    var ph := w.pods[id].phase;
    var out := Out(ph.batch, ph.kept, processedAt, ph.now);
    BatchCopies(ph.batch, ph.kept, processedAt, ph.now, k);
    match reached {
      case None =>
        CopiesAppend(w.st.history, out, k);
      case Some(s) =>
        CopiesAppend(w.st.history, Pick(out, s), k);
        PickCopies(out, s, k);
    }
  }

  lemma MarkKeepsTidy(w: World, id: nat, reached: Option<set<nat>>)
    requires Budget(w) && PhasesTidy(w) && id in w.pods && w.pods[id].phase.Acked?
    ensures Budget(MarkedBy(w, id, reached)) && PhasesTidy(MarkedBy(w, id, reached))
  {
    forall k: Key {
      MarkMovesLive(w, id, reached, k);
    }
    BudgetMoves(w, MarkedBy(w, id, reached));
    PhasesTidyShrink(w, MarkedBy(w, id, reached));
  }

  lemma MarkMovesLive(w: World, id: nat, reached: Option<set<nat>>, k: Key)
    requires id in w.pods && w.pods[id].phase.Acked?
    ensures var w' := MarkedBy(w, id, reached);
      && (Live(w', k) ==> Live(w, k))
      && w'.charges[k] >= w.charges[k] + if Live(w, k) && !Live(w', k) then 1 else 0
  {
    var w' := MarkedBy(w, id, reached);
    MarkedKeysAreKept(w.pods[id].phase.kept, reached);
    if k in w'.st.redis && k !in w.st.redis {
      assert Awaiting(w, id, k);
    }
    if other :| Awaiting(w', other, k) {
      assert Awaiting(w, other, k);
    }
    if other :| Awaiting(w, other, k) && other != id {
      assert Awaiting(w', other, k);
    }
  }

  lemma CrashKeepsTidy(w: World, id: nat)
    requires Tidy(w) && Enabled(w, Crash(id))
    ensures Budget(Crashed(w, id)) && PhasesTidy(Crashed(w, id))
  {
    var w' := Crashed(w, id);
    forall k: Key ensures Live(w', k) ==> Live(w, k)
      ensures w'.charges[k] >= w.charges[k] + if Live(w, k) && !Live(w', k) then 1 else 0
    {
      CrashMovesLive(w, id, k);
    }
    BudgetMoves(w, w');
    PhasesTidyShrink(w, w');
  }

  lemma CrashMovesLive(w: World, id: nat, k: Key)
    requires id in w.pods
    ensures var w' := Crashed(w, id);
      && (Live(w', k) ==> Live(w, k))
      && w'.charges[k] >= w.charges[k] + if Live(w, k) && !Live(w', k) then 1 else 0
  {
    var w' := Crashed(w, id);
    if other :| Awaiting(w', other, k) {
      assert Awaiting(w, other, k);
    }
    if other :| Awaiting(w, other, k) && other != id {
      assert Awaiting(w', other, k);
    }
  }

  lemma ExpireKeepsTidy(w: World, key: Key)
    requires Tidy(w) && Enabled(w, Expire(key))
    ensures Budget(Apply(w, Expire(key))) && PhasesTidy(Apply(w, Expire(key)))
  {
    var w' := Apply(w, Expire(key));
    forall k: Key ensures Live(w', k) ==> Live(w, k)
      ensures w'.charges[k] >= w.charges[k] + if Live(w, k) && !Live(w', k) then 1 else 0
    {
      assert forall id :: Awaiting(w', id, k) <==> Awaiting(w, id, k);
    }
    BudgetMoves(w, w');
    PhasesTidyShrink(w, w');
  }

  /** The remaining steps touch neither output, deduplication keys, charges nor acknowledged batches. */
  predicate Neutral(l: Label) {
    !l.Lookup? && !l.Produce? && !l.Mark? && !l.Crash? && !l.Expire?
  }

  ghost predicate SamePending(ph: Phase, ph': Phase) {
    ph' == ph || (Blank(ph') && !ph.Acked?)
  }

  ghost predicate NeutralMove(w: World, w': World) {
    && w'.st.history == w.st.history && w'.charges == w.charges
    && (forall k: Key :: k.Dedup? ==> (k in w'.st.redis <==> k in w.st.redis))
    && w.pods.Keys <= w'.pods.Keys
    && (forall id :: id in w.pods ==> SamePending(w.pods[id].phase, w'.pods[id].phase))
    && (forall id :: id in w'.pods && id !in w.pods ==> w'.pods[id].phase.Polling?)
  }

  lemma NeutralStep(w: World, l: Label)
    requires Enabled(w, l) && Neutral(l)
    ensures NeutralMove(w, Apply(w, l))
  {
  }

  lemma NeutralKeepsTidy(w: World, w': World)
    requires Tidy(w) && NeutralMove(w, w')
    ensures Budget(w') && PhasesTidy(w')
  {
    forall k: Key | k.Dedup? ensures Live(w', k) <==> Live(w, k) {
      assert forall id :: Awaiting(w, id, k) <==> Awaiting(w', id, k);
    }
    BudgetMoves(w, w');
    PhasesTidyShrink(w, w');
  }

  lemma StepKeepsTidy(w: World, l: Label)
    requires Tidy(w) && Enabled(w, l)
    ensures Tidy(Apply(w, l))
  {
    StepKeepsShape(w, l);
    if l.Lookup? {
      LookupKeepsTidy(w, l.id);
    } else if l.Produce? {
      ProduceKeepsTidy(w, l.id, l.processedAt, l.reached);
    } else if l.Mark? {
      MarkKeepsTidy(w, l.id, l.reached);
    } else if l.Crash? {
      CrashKeepsTidy(w, l.id);
    } else if l.Expire? {
      ExpireKeepsTidy(w, l.key);
    } else {
      NeutralStep(w, l);
      NeutralKeepsTidy(w, Apply(w, l));
    }
  }

  // ---------- over every run ----------

  lemma {:induction false} RunsAreTidy(w: World, ls: seq<Label>)
    requires Initial(w) && CanRun(w, ls)
    ensures Tidy(Run(w, ls))
    decreases |ls|
  {
    if ls == [] {
      InitialHasShape(w);
    } else {
      RunsAreTidy(w, Init(ls));
      StepKeepsTidy(Run(w, Init(ls)), Last(ls));
    }
  }

  // ---------- what is charged ----------

  predicate Carries(items: seq<Item>, k: Key) {
    exists i :: 0 <= i < |items| && items[i].dedupKey == k
  }

  /** The incidents that can cost the event of `k` one more copy: a produce that carries it fails, its pod
      crashes between the acknowledgement and the SET, a SET does not store its key, or its key expires. */
  ghost predicate Incident(v: World, l: Label, k: Key)
    requires Enabled(v, l)
  {
    match l
    case Produce(id, _, reached) => reached.Some? && Carries(v.pods[id].phase.kept, k)
    case Crash(id) => v.pods[id].phase.Acked? && Carries(v.pods[id].phase.kept, k)
    case Mark(id, reached) =>
      var kept := v.pods[id].phase.kept;
      && Carries(kept, k) && reached.Some?
      && forall i :: 0 <= i < |kept| && i in reached.value ==> kept[i].dedupKey != k
    case Expire(key) => key == k
    case _ => false
  }

  /** How many steps of the run are such incidents. */
  ghost function Incidents(w: World, ls: seq<Label>, k: Key): nat
    requires CanRun(w, ls)
    decreases |ls|
  {
    if ls == [] then 0
    else Incidents(w, Init(ls), k) + if Incident(Run(w, Init(ls)), Last(ls), k) then 1 else 0
  }

  lemma CarriesIff(items: seq<Item>, k: Key)
    ensures Carries(items, k) <==> k in KeysOf(items)
  {
    if i :| 0 <= i < |items| && items[i].dedupKey == k {
      assert items[i] in items;
    }
  }

  lemma MarkedIff(kept: seq<Item>, reached: Option<set<nat>>, k: Key)
    ensures k in MarkedKeys(kept, reached) <==>
      exists i :: 0 <= i < |kept| && kept[i].dedupKey == k && (reached.Some? ==> i in reached.value)
  {
    if reached.None? {
      CarriesIff(kept, k);
    } else {
      var idx := PickSelects(kept, reached.value);
      CarriesIff(Pick(kept, reached.value), k);
      forall i: nat | i < |kept| && i in reached.value ensures Listed(idx, i) {
      }
    }
  }

  lemma ChargedStep(v: World, l: Label, k: Key)
    requires Enabled(v, l)
    ensures Apply(v, l).charges[k] == v.charges[k] + if Incident(v, l, k) then 1 else 0
  {
    if l.Produce? || (l.Crash? && v.pods[l.id].phase.Acked?) {
      CarriesIff(v.pods[l.id].phase.kept, k);
    } else if l.Mark? {
      CarriesIff(v.pods[l.id].phase.kept, k);
      MarkedIff(v.pods[l.id].phase.kept, l.reached, k);
    }
  }

  /** The charges of the machine are the incidents of its run. */
  lemma {:induction false} ChargesAreIncidents(w: World, ls: seq<Label>, k: Key)
    requires Initial(w) && CanRun(w, ls)
    ensures Run(w, ls).charges[k] == Incidents(w, ls, k)
    decreases |ls|
  {
    if ls != [] {
      ChargesAreIncidents(w, Init(ls), k);
      ChargedStep(Run(w, Init(ls)), Last(ls), k);
    }
  }

  /** The positions of the copies of an event. */
  function CopiesOf(h: seq<Output>, k: Key): set<nat> {
    set i | 0 <= i < |h| && h[i].Canonical? && k == Dedup(h[i].ev.vin, h[i].ev.deviceTimestamp)
  }

  lemma {:induction false} CopiesCount(h: seq<Output>, k: Key)
    ensures Copies(h, k) == |CopiesOf(h, k)|
  {
    if h != [] {
      CopiesCount(Init(h), k);
      assert CopiesOf(h, k) == CopiesOf(Init(h), k) + if IsCopy(Last(h), k) then {|h| - 1} else {};
    }
  }

  /** At most 1 + d copies of an event, where d is the number of incidents: without any at most one, even if
      commits fail and batches are retried. Unless the key is live or about to be marked, every copy
      is due to an incident, so the bound is d. */
  lemma {:induction false} BoundedDuplication(w: World, ls: seq<Label>, k: Key)
    requires Initial(w) && CanRun(w, ls)
    ensures |CopiesOf(Run(w, ls).st.history, k)| <= Incidents(w, ls, k) + if Live(Run(w, ls), k) then 1 else 0
  {
    RunsAreTidy(w, ls);
    ChargesAreIncidents(w, ls, k);
    CopiesCount(Run(w, ls).st.history, k);
  }
}
