/** The ingest pipeline as a transition system: any number of telemetry-processor pods, the raw topic,
    the acknowledged output, Redis and the committed offsets. Every interleaving, partial failure,
    key expiry, rebalance and crash is a sequence of labelled steps.

    Assumptions: an errored produce, SET pipeline or commit took effect on any subset of what it
    carried; rebalances happen only between batches (`BlockRebalanceOnPoll`), so a partition has at
    most one owner; records of one VIN share a partition; clocks agree and do not go back. */
module IngestMachine {
  import opened Wrappers
  import opened Keys
  import opened Log
  import opened Batch

  datatype Phase =
    | Polling
    | Ready(batch: seq<Record>)                                       // `Retry` is about to call `processBatch`
    | Looking(batch: seq<Record>, now: int, next: nat, kept: seq<Item>) // lookups below `next` answered
    | Acked(batch: seq<Record>, kept: seq<Item>)                      // produced, keys not yet SET
    | Marked(batch: seq<Record>)                                      // about to commit

  /** `pos` is the fetch position of each partition the pod owns. */
  type Pod = Consumer<Phase>

  /** `charges` counts, per key, the incidents that can lead to one more copy of its event. */
  datatype World = World(
    raw: seq<seq<Record>>,
    st: Stores,
    clock: int,
    pods: map<nat, Pod>,
    charges: multiset<Key>)

  datatype Label =
    | Append(rec: Record)                                  // the bridge forwards a report
    | Tick(now: int)
    | Expire(key: Key)                                     // a deduplication key reaches its TTL
    | SetFleet(vin: string, fleet: string)                 // rbac-authz writes Redis
    | DropFleet(vin: string)
    | Assign(id: nat, part: nat)
    | Revoke(id: nat, part: nat)
    | Crash(id: nat)
    | Poll(id: nat, recs: seq<Record>)
    | Start(id: nat)                                       // an attempt begins: clock read, records classified
    | Lookup(id: nat)                                      // one reply of the lookup pipeline
    | LookupFail(id: nat)
    | Refuse(id: nat)                                      // `json.Marshal` fails
    | Produce(id: nat, processedAt: int, reached: Option<set<nat>>)
    | Mark(id: nat, reached: Option<set<nat>>)
    | CommitOffsets(id: nat, reached: Option<set<nat>>)

  /** Reports of one VIN share a partition, because the bridge keys them by VIN. */
  ghost predicate SamePartition(raw: seq<seq<Record>>, rec: Record) {
    forall p, o :: 0 <= p < |raw| && 0 <= o < |raw[p]| && SameVin(raw[p][o], rec) ==> p == rec.part
  }

  predicate SameVin(a: Record, b: Record) {
    a.value.Encoded? && b.value.Encoded? && a.value.msg.vin == b.value.msg.vin
  }

  // ---------- steps ----------

  ghost predicate Enabled(w: World, l: Label) {
    match l
    case Append(rec) => rec.part < |w.raw| && rec.off == |w.raw[rec.part]| && SamePartition(w.raw, rec)
    case Tick(now) => w.clock <= now
    case Expire(key) => key.Dedup? && key in w.st.redis
    case SetFleet(_, _) => true
    case DropFleet(_) => true
    case Assign(id, part) =>
      && part < |w.raw| && part < |w.st.committed|
      && (id in w.pods ==> w.pods[id].phase.Polling?)
      && (forall other :: other in w.pods ==> part !in w.pods[other].pos)
    case Revoke(id, part) => id in w.pods && w.pods[id].phase.Polling? && part in w.pods[id].pos
    case Crash(id) => id in w.pods
    case Poll(id, recs) =>
      id in w.pods && w.pods[id].phase.Polling? && recs != [] && Polled(w.raw, w.pods[id].pos, recs)
    case Start(id) => id in w.pods && w.pods[id].phase.Ready?
    case Lookup(id) => id in w.pods && w.pods[id].phase.Looking? && w.pods[id].phase.next < |ItemsOf(w.pods[id].phase)|
    case LookupFail(id) => id in w.pods && w.pods[id].phase.Looking?
    case Refuse(id) => id in w.pods && Complete(w.pods[id].phase) && !AllMarshal(w.pods[id].phase.kept)
    case Produce(id, _, _) => id in w.pods && Complete(w.pods[id].phase) && AllMarshal(w.pods[id].phase.kept)
    case Mark(id, _) => id in w.pods && w.pods[id].phase.Acked?
    case CommitOffsets(id, _) => id in w.pods && w.pods[id].phase.Marked?
  }

  function ItemsOf(ph: Phase): seq<Item>
    requires ph.Looking?
  {
    Items(ph.batch, ph.now)
  }

  /** All lookups of the attempt are answered. */
  predicate Complete(ph: Phase) {
    ph.Looking? && ph.next == |ItemsOf(ph)|
  }

  function InitialPod(): Pod {
    Pod(map[], Polling)
  }

  function PodOf(w: World, id: nat): Pod {
    if id in w.pods then w.pods[id] else InitialPod()
  }

  function To(w: World, id: nat, ph: Phase): World
    requires id in w.pods
  {
    w.(pods := w.pods[id := w.pods[id].(phase := ph)])
  }

  /** An incident that may cost each of these keys one more copy. */
  function Charge(w: World, keys: set<Key>): World {
    w.(charges := w.charges + multiset(keys))
  }

  function Produced(w: World, id: nat, processedAt: int, reached: Option<set<nat>>): World
    requires id in w.pods && w.pods[id].phase.Looking?
  {
    var ph := w.pods[id].phase;
    var out := Out(ph.batch, ph.kept, processedAt, ph.now);
    match reached
    case None => To(w, id, Acked(ph.batch, ph.kept)).(st := w.st.(history := w.st.history + out))
    case Some(s) =>
      Charge(To(w, id, Ready(ph.batch)), KeysOf(ph.kept)).(st := w.st.(history := w.st.history + Pick(out, s)))
  }

  function MarkedBy(w: World, id: nat, reached: Option<set<nat>>): World
    requires id in w.pods && w.pods[id].phase.Acked?
  {
    var ph := w.pods[id].phase;
    var keys := MarkedKeys(ph.kept, reached);
    Charge(To(w, id, Marked(ph.batch)), KeysOf(ph.kept) - keys).(st := w.st.(redis := Batch.Marked(w.st.redis, keys)))
  }

  function CommittedBy(w: World, id: nat, reached: Option<set<nat>>): World
    requires id in w.pods && w.pods[id].phase.Marked?
  {
    var pod := w.pods[id];
    var st := w.st.(committed := Commit(w.st.committed, pod.phase.batch, reached));
    var pod' :=
      if reached.None? then Pod(map p | p in pod.pos :: Target(pod.phase.batch, p, pod.pos[p]), Polling)
      else pod.(phase := Ready(pod.phase.batch));
    w.(st := st, pods := w.pods[id := pod'])
  }

  function Crashed(w: World, id: nat): World
    requires id in w.pods
  {
    var w' := w.(pods := w.pods - {id});
    if w.pods[id].phase.Acked? then Charge(w', KeysOf(w.pods[id].phase.kept)) else w'
  }

  function LookedUp(w: World, id: nat): World
    requires id in w.pods && w.pods[id].phase.Looking? && w.pods[id].phase.next < |ItemsOf(w.pods[id].phase)|
  {
    var ph := w.pods[id].phase;
    To(w, id, ph.(next := ph.next + 1, kept := ph.kept + KeepOne(ItemsOf(ph)[ph.next], w.st.redis)))
  }

  ghost function Apply(w: World, l: Label): World
    requires Enabled(w, l)
  {
    match l
    case Append(rec) => w.(raw := w.raw[rec.part := w.raw[rec.part] + [rec]])
    case Tick(now) => w.(clock := now)
    case Expire(key) => Charge(w, {key}).(st := w.st.(redis := w.st.redis - {key}))
    case SetFleet(vin, fleet) => w.(st := w.st.(redis := w.st.redis[Fleet(vin) := fleet]))
    case DropFleet(vin) => w.(st := w.st.(redis := w.st.redis - {Fleet(vin)}))
    case Assign(id, part) =>
      w.(pods := w.pods[id := PodOf(w, id).(pos := PodOf(w, id).pos[part := w.st.committed[part]])])
    case Revoke(id, part) => w.(pods := w.pods[id := w.pods[id].(pos := w.pods[id].pos - {part})])
    case Crash(id) => Crashed(w, id)
    case Poll(id, recs) => To(w, id, Ready(recs))
    case Start(id) => To(w, id, Looking(w.pods[id].phase.batch, w.clock, 0, []))
    case Lookup(id) => LookedUp(w, id)
    case LookupFail(id) => To(w, id, Ready(w.pods[id].phase.batch))
    case Refuse(id) => To(w, id, Ready(w.pods[id].phase.batch))
    case Produce(id, processedAt, reached) => Produced(w, id, processedAt, reached)
    case Mark(id, reached) => MarkedBy(w, id, reached)
    case CommitOffsets(id, reached) => CommittedBy(w, id, reached)
  }

  // ---------- runs ----------

  ghost predicate CanRun(w: World, ls: seq<Label>)
    decreases |ls|, 0
  {
    ls == [] || (CanRun(w, Init(ls)) && Enabled(Run(w, Init(ls)), Last(ls)))
  }

  ghost function Run(w: World, ls: seq<Label>): World
    requires CanRun(w, ls)
    decreases |ls|, 1
  {
    if ls == [] then w else Apply(Run(w, Init(ls)), Last(ls))
  }

  /** Nothing consumed yet, Redis without deduplication keys, no pods. */
  ghost predicate Initial(w: World) {
    && (forall p :: 0 <= p < |w.raw| ==> w.raw[p] == [])
    && w.st.committed == seq(|w.raw|, _ => 0) && w.st.history == []
    && (forall k :: k in w.st.redis ==> !k.Dedup?)
    && w.pods == map[] && w.charges == multiset{}
  }
}
