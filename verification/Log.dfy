/** Kafka as both consumers see it: records, what a poll can return and what a commit stores. */
module Log {
  import opened Wrappers
  import opened Keys

  /** A header value together with what `strconv.ParseInt` makes of it. */
  datatype HeaderValue = HeaderValue(text: string, number: Option<int64>)

  function HeaderText(text: string): HeaderValue {
    HeaderValue(text, match ParseInt(text) case None => None case Some(v) => Some(v))
  }

  datatype Header = Header(key: string, value: HeaderValue)

  datatype KafkaRecord<+V> =
    KafkaRecord(part: nat, off: nat, key: string, value: V, headers: seq<Header>, timestamp: int64)

  /** The offset a commit of `recs` stores for partition `p`. */
  function Target<V>(recs: seq<KafkaRecord<V>>, p: nat, dflt: nat): nat {
    if recs == [] then dflt
    else if Last(recs).part == p then Last(recs).off + 1
    else Target(Init(recs), p, dflt)
  }

  /** The offsets after a commit of `recs`; an errored commit took effect on the partitions in `only`. */
  function Commit<V>(committed: seq<nat>, recs: seq<KafkaRecord<V>>, only: Option<set<nat>>): (c: seq<nat>)
    ensures |c| == |committed|
    ensures forall p :: 0 <= p < |c| ==>
      c[p] == if only.None? || p in only.value then Target(recs, p, committed[p]) else committed[p]
  {
    seq(|committed|, p requires 0 <= p < |committed| =>
      if only.None? || p in only.value then Target(recs, p, committed[p]) else committed[p])
  }

  // ---------- polling ----------

  /** `recs` is what one poll can return: for each owned partition the records from its position on,
      without gaps and in order; partitions may be mixed. */
  ghost predicate Polled<V>(log: seq<seq<KafkaRecord<V>>>, pos: map<nat, nat>, recs: seq<KafkaRecord<V>>) {
    && (forall r :: r in recs ==> FromPartition(log, pos, r))
    && (forall i, j :: 0 <= i < j < |recs| && recs[i].part == recs[j].part ==> recs[i].off < recs[j].off)
    && (forall p, o: nat :: p in pos && p < |log| && o < |log[p]| && pos[p] <= o < Target(recs, p, pos[p]) ==>
          log[p][o] in recs)
  }

  ghost predicate FromPartition<V>(log: seq<seq<KafkaRecord<V>>>, pos: map<nat, nat>, r: KafkaRecord<V>) {
    r.part in pos && r.part < |log| && pos[r.part] <= r.off < |log[r.part]| && log[r.part][r.off] == r
  }

  // ---------- group members ----------

  /** A consumer of the group: the fetch position of each partition it owns, and what it is doing. */
  datatype Consumer<+P> = Pod(pos: map<nat, nat>, phase: P)

  /** A partition has at most one owner. */
  ghost predicate Exclusive<P>(pods: map<nat, Consumer<P>>) {
    forall a, b, p :: a in pods && b in pods && p in pods[a].pos && p in pods[b].pos ==> a == b
  }

  /** Handing a consumer a partition nobody owns keeps ownership exclusive. */
  lemma AssignKeepsExclusive<P>(pods: map<nat, Consumer<P>>, id: nat, pod: Consumer<P>, part: nat)
    requires Exclusive(pods) && forall other :: other in pods ==> part !in pods[other].pos
    requires forall p :: p in pod.pos && p != part ==> id in pods && p in pods[id].pos
    ensures Exclusive(pods[id := pod])
  {
    var pods' := pods[id := pod];
    forall a, b, p | a in pods' && b in pods' && p in pods'[a].pos && p in pods'[b].pos ensures a == b {
      assert p != part ==> a in pods && b in pods && p in pods[a].pos && p in pods[b].pos;
    }
  }

  // ---------- commit targets ----------

  ghost predicate Has<V>(recs: seq<KafkaRecord<V>>, p: nat) {
    exists r :: r in recs && r.part == p
  }

  lemma {:induction false} TargetDefault<V>(recs: seq<KafkaRecord<V>>, p: nat, d: nat, d': nat)
    ensures if Has(recs, p) then Target(recs, p, d) == Target(recs, p, d') else Target(recs, p, d) == d
  {
    if recs != [] {
      TargetDefault(Init(recs), p, d, d');
      assert Last(recs) in recs;
      assert forall r :: r in Init(recs) ==> r in recs;
    }
  }

  lemma {:induction false} TargetBound<V>(recs: seq<KafkaRecord<V>>, p: nat, d: nat, lo: nat, hi: nat)
    requires forall r :: r in recs && r.part == p ==> lo <= r.off < hi
    requires lo <= d <= hi
    ensures lo <= Target(recs, p, d) <= hi
  {
    if recs != [] {
      TargetBound(Init(recs), p, d, lo, hi);
    }
  }

  lemma {:induction false} TargetTop<V>(recs: seq<KafkaRecord<V>>, r: KafkaRecord<V>, d: nat)
    requires r in recs
    requires forall i, j :: 0 <= i < j < |recs| && recs[i].part == recs[j].part ==> recs[i].off < recs[j].off
    ensures r.off < Target(recs, r.part, d)
  {
    var k :| 0 <= k < |recs| && recs[k] == r;
    if k < |recs| - 1 && Last(recs).part != r.part {
      assert Init(recs)[k] == r;
      TargetTop(Init(recs), r, d);
    }
  }

  lemma PolledTarget<V>(log: seq<seq<KafkaRecord<V>>>, pos: map<nat, nat>, recs: seq<KafkaRecord<V>>, p: nat)
    requires Polled(log, pos, recs) && p in pos && p < |log| && pos[p] <= |log[p]|
    ensures pos[p] <= Target(recs, p, pos[p]) <= |log[p]|
  {
    TargetBound(recs, p, pos[p], pos[p], |log[p]|);
  }
}
