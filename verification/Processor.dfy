/** `processBatch`, its helpers and the retry loop around it as imperative code over a Kafka client
    and a Redis client (services/internal/processor/processor.go, services/internal/platform/runtime.go). */
module Processor {
  import opened Wrappers
  import opened Keys
  import opened Telemetry
  import opened Log
  import opened Batch

  /** The Kafka client: everything acknowledged so far, and the group's committed offsets. */
  class Kafka {
    var history: seq<Output>
    var committed: seq<nat>

    constructor (partitions: nat)
      ensures history == [] && committed == seq(partitions, _ => 0)
    {
      history := [];
      committed := seq(partitions, _ => 0);
    }

    method ProduceSync(out: seq<Output>, fault: Option<set<nat>>) returns (ok: bool)
      modifies this`history
      ensures ok <==> fault.None?
      ensures history == old(history) + if ok then out else Pick(out, fault.value)
    {
      match fault
      case None =>
        history := history + out;
        ok := true;
      case Some(reached) =>
        history := history + Pick(out, reached);
        ok := false;
    }

    method CommitRecords(recs: seq<Record>, fault: Option<set<nat>>) returns (ok: bool)
      modifies this`committed
      ensures ok <==> fault.None?
      ensures committed == Commit(old(committed), recs, fault)
    {
      committed := Commit(committed, recs, fault);
      ok := fault.None?;
    }
  }

  class Redis {
    var strings: map<Key, string>

    constructor ()
      ensures strings == map[]
    {
      strings := map[];
    }

    /** The lookup pipeline: EXISTS of every deduplication key and GET of every fleet key. */
    method Lookup(dedupKeys: seq<Key>, fleetKeys: seq<Key>) returns (exists': seq<bool>, fleets: seq<Option<string>>)
      requires |dedupKeys| == |fleetKeys|
      ensures |exists'| == |fleets| == |dedupKeys|
      ensures forall i :: 0 <= i < |dedupKeys| ==> (exists'[i] <==> dedupKeys[i] in strings)
      ensures forall i :: 0 <= i < |dedupKeys| ==>
        fleets[i] == if fleetKeys[i] in strings then Some(strings[fleetKeys[i]]) else None
    {
      exists' := seq(|dedupKeys|, i requires 0 <= i < |dedupKeys| reads this => dedupKeys[i] in strings);
      fleets := seq(|fleetKeys|, i requires 0 <= i < |fleetKeys| reads this =>
        if fleetKeys[i] in strings then Some(strings[fleetKeys[i]]) else None);
    }

    /** What other clients and the clock do: keys expire and rbac-authz rewrites fleet keys. */
    method Drift(expired: set<Key>, fleets: map<Key, string>)
      modifies this
      ensures strings == Drifted(old(strings), expired, fleets)
      ensures forall k :: k in strings <==> (k in fleets && !k.Dedup?) || (k in old(strings) && k !in expired)
      ensures forall k :: k in strings ==>
        strings[k] == if k in fleets && !k.Dedup? then fleets[k] else old(strings)[k]
    {
      strings := Drifted(strings, expired, fleets);
    }

    /** The marking pipeline: SET of every key, or of those it reached before failing. */
    method SetAll(kept: seq<Item>, fault: Option<set<nat>>) returns (ok: bool)
      modifies this
      ensures ok <==> fault.None?
      ensures strings == Marked(old(strings), MarkedKeys(kept, fault))
    {
      strings := Marked(strings, MarkedKeys(kept, fault));
      ok := fault.None?;
    }
  }

  function FromReply(reply: Option<string>): string {
    match reply
    case None => UNASSIGNED_FLEET
    case Some(fleet) => fleet
  }

  /** How an attempt can fail. */
  datatype Failure = LookupError | MarshalError | ProduceError | CommitError

  class Processor {
    const cl: Kafka
    const rdb: Redis
    // telemetry_processor_records_total by outcome
    var invalid: nat
    var duplicate: nat
    var unassigned: nat
    var published: nat

    constructor (cl: Kafka, rdb: Redis)
      ensures this.cl == cl && this.rdb == rdb
      ensures invalid == duplicate == unassigned == published == 0
    {
      this.cl := cl;
      this.rdb := rdb;
      invalid, duplicate, unassigned, published := 0, 0, 0, 0;
    }

    ghost function View(): Stores
      reads this, cl, rdb
    {
      Stores(rdb.strings, cl.history, cl.committed)
    }

    /** `ingestTimestamp` */
    static method ReadIngestTimestamp(rec: Record) returns (ts: int64)
      ensures ts == IngestTimestamp(rec)
    {
      var i := 0;
      while i < |rec.headers|
        invariant 0 <= i <= |rec.headers|
        invariant IngestTimestamp(rec) == HeaderTimestamp(rec.headers[i..], rec.timestamp)
      {
        var h := rec.headers[i];
        if h.key == "ingest_ts" {
          var v := h.value.number;
          if v.Some? {
            return v.value;
          }
        }
        i := i + 1;
      }
      return rec.timestamp;
    }

    /** Stage 1: decode, validate, drop in-batch repeats. */
    method Stage1(recs: seq<Record>, now: int) returns (items: array<Item>, n: nat, out: seq<Output>)
      modifies this`invalid, this`duplicate
      ensures fresh(items) && n <= items.Length
      ensures items[..n] == Items(recs, now) && out == Dead(recs, now)
      ensures invalid == old(invalid) + |out|
      ensures duplicate == old(duplicate) + |recs| - |out| - n
    {
      items := new Item[|recs|];
      n := 0;
      out := [];
      var seen: set<Key> := {};
      var i := 0;
      while i < |recs|
        invariant 0 <= i <= |recs| && n <= i && items.Length == |recs| && fresh(items)
        invariant n == |Items(recs[..i], now)|
        invariant forall j :: 0 <= j < n ==> items[j] == Items(recs[..i], now)[j]
        invariant out == Dead(recs[..i], now)
        invariant seen == AcceptedKeys(recs[..i], now)
        invariant invalid == old(invalid) + |out|
        invariant duplicate == old(duplicate) + i - |out| - n
      {
        var rec := recs[i];
        Stage1Step(recs, i, now);
        match Reject(rec, now) {
          case Some(reason) =>
            out := out + [DeadLetter(rec, reason, now)];
            invalid := invalid + 1;
          case None =>
            var key := KeyOf(rec);
            if key in seen {
              duplicate := duplicate + 1;
            } else {
              seen := seen + {key};
              items[n] := ToItem(rec);
              n := n + 1;
            }
        }
        i := i + 1;
      }
      assert recs[..|recs|] == recs;
    }

    /** Stage 2, first half: one pipeline of lookups for all items. */
    method Query(items: array<Item>, n: nat) returns (exists': seq<bool>, fleets: seq<Option<string>>)
      requires n <= items.Length
      ensures Answers(items[..n], rdb.strings, exists', fleets)
    {
      var dedupKeys, fleetKeys := [], [];
      for i := 0 to n
        invariant |dedupKeys| == |fleetKeys| == i
        invariant forall j :: 0 <= j < i ==> dedupKeys[j] == items[j].dedupKey && fleetKeys[j] == Fleet(items[j].ev.vin)
      {
        dedupKeys := dedupKeys + [items[i].dedupKey];
        fleetKeys := fleetKeys + [Fleet(items[i].ev.vin)];
      }
      exists', fleets := rdb.Lookup(dedupKeys, fleetKeys);
    }

    /** A vehicle without a fleet mapping is tagged and counted. */
    method Resolve(reply: Option<string>) returns (fleet: string)
      modifies this`unassigned
      ensures fleet == FromReply(reply)
      ensures unassigned == old(unassigned) + if reply.None? then 1 else 0
    {
      match reply
      case None =>
        fleet := UNASSIGNED_FLEET;
        unassigned := unassigned + 1;
      case Some(f) =>
        fleet := f;
    }

    /** `items[i].ev.FleetID = fleet; kept = append(kept, items[i])`: the two slices share the array. */
    static method WriteBack(items: array<Item>, i: nat, kept: nat, fleet: string)
      requires kept <= i < items.Length
      modifies items
      ensures items[kept] == old(items[i]).(ev := old(items[i]).ev.(fleetId := fleet))
      ensures forall j :: 0 <= j < items.Length && j != i && j != kept ==> items[j] == old(items[j])
    {
      items[i] := items[i].(ev := items[i].ev.(fleetId := fleet));
      items[kept] := items[i];
    }

    /** Stage 2, second half: the filter that writes its survivors back into the array it is still
        reading. Unread items stay as they were. */
    method Filter(items: array<Item>, n: nat, exists': seq<bool>, fleets: seq<Option<string>>, f: LookupFault,
                  ghost survivors: seq<seq<Item>>, ghost lacking: seq<nat>)
      returns (kept: nat, ok: bool)
      requires n <= items.Length && Surviving(items[..n], exists', fleets, survivors)
      requires Lacking(exists', fleets, lacking)
      modifies items, this`duplicate, this`unassigned
      ensures ok <==> !(f.ReplyFails? && f.index < n)
      ensures kept <= n
      ensures ok ==> items[..kept] == survivors[n]
      ensures ok ==> duplicate == old(duplicate) + n - kept
      ensures ok ==> unassigned == old(unassigned) + lacking[n]
    {
      ghost var orig := items[..n];
      kept := 0;
      var i := 0;
      while i < n
        invariant 0 <= kept <= i <= n
        invariant forall j :: i <= j < n ==> items[j] == orig[j]
        invariant kept == |survivors[i]|
        invariant forall j :: 0 <= j < kept ==> items[j] == survivors[i][j]
        invariant duplicate == old(duplicate) + i - kept
        invariant unassigned == old(unassigned) + lacking[i]
        invariant f.ReplyFails? ==> f.index >= i
      {
        if f == ReplyFails(i) {
          return 0, false;
        }
        if exists'[i] {
          duplicate := duplicate + 1;
        } else {
          var fleet := Resolve(fleets[i]);
          WriteBack(items, i, kept, fleet);
          kept := kept + 1;
        }
        i := i + 1;
      }
      ok := true;
    }

    method Stage2(items: array<Item>, n: nat, f: LookupFault) returns (kept: nat, ok: bool)
      requires n <= items.Length
      modifies items, this`duplicate, this`unassigned
      ensures ok <==> !LookupBreaks(f, n)
      ensures kept <= n
      ensures ok ==> items[..kept] == Kept(old(items[..n]), rdb.strings)
      ensures ok ==> duplicate == old(duplicate) + n - kept
      ensures ok ==> unassigned == old(unassigned) + Unmapped(Kept(old(items[..n]), rdb.strings), rdb.strings)
    {
      if n == 0 {
        return 0, true;
      }
      var exists', fleets := Query(items, n);
      if f.ExecFails? {
        return 0, false;
      }
      ghost var survivors := SurvivorsOf(items[..n], rdb.strings, exists', fleets);
      ghost var lacking := LackingOf(items[..n], rdb.strings, exists', fleets);
      kept, ok := Filter(items, n, exists', fleets, f, survivors, lacking);
    }

    /** Stage 3, first half: stamp and marshal the survivors. */
    method Marshal(items: array<Item>, kept: nat, dead: seq<Output>, processedAt: int, now: int)
      returns (out: seq<Output>, ok: bool)
      requires kept <= items.Length
      ensures ok <==> AllMarshal(items[..kept])
      ensures ok ==> out == dead + Outputs(items[..kept], processedAt, now)
    {
      out := dead;
      var i := 0;
      while i < kept
        invariant 0 <= i <= kept
        invariant AllMarshal(items[..i])
        invariant out == dead + Outputs(items[..i], processedAt, now)
      {
        if !Marshals(items[i].ev.(processedTimestamp := processedAt)) {
          assert items[..kept][i] == items[i];
          return out, false;
        }
        assert items[..i + 1] == items[..i] + [items[i]];
        assert Outputs(items[..i + 1], processedAt, now) ==
          Outputs(items[..i], processedAt, now) + [ToOutput(items[i], processedAt, now)];
        out := out + [ToOutput(items[i], processedAt, now)];
        i := i + 1;
      }
      return out, true;
    }

    /** Stages 3 to 5: produce and wait for acks, SET the keys, commit. */
    method Publish(recs: seq<Record>, kept: seq<Item>, out: seq<Output>, f: Faults) returns (err: Option<Failure>)
      modifies this`published, cl, rdb
      ensures Result(View(), err.None?) == Deliver(old(View()), recs, kept, out, f)
      ensures err.None? ==> published == old(published) + |kept|
    {
      if |out| > 0 {
        var acked := cl.ProduceSync(out, f.produce);
        if !acked {
          return Some(ProduceError);
        }
      }
      if |kept| > 0 {
        // A failed SET is only logged: the events are out already.
        var _ := rdb.SetAll(kept, f.mark);
        published := published + |kept|;
      } else {
        MarkNothing(rdb.strings, kept, f.mark);
      }
      var committed := cl.CommitRecords(recs, f.commit);
      return if committed then None else Some(CommitError);
    }

    /** Stages 1 and 2 and the marshalling of stage 3: everything before the first effect on Kafka. */
    method Prepare(recs: seq<Record>, now: int, processedAt: int, lookup: LookupFault)
      returns (kept: seq<Item>, out: seq<Output>, err: Option<Failure>)
      modifies this`invalid, this`duplicate, this`unassigned
      ensures var items := Items(recs, now);
        err.None? <==> !LookupBreaks(lookup, |items|) && AllMarshal(Kept(items, rdb.strings))
      ensures err.None? ==> kept == Kept(Items(recs, now), rdb.strings) && out == Out(recs, kept, processedAt, now)
      ensures err.None? ==> invalid == old(invalid) + |Dead(recs, now)|
      ensures err.None? ==> invalid + duplicate + |kept| == old(invalid + duplicate) + |recs|
      ensures err.None? ==> unassigned == old(unassigned) + Unmapped(kept, rdb.strings)
    {
      ghost var survivors := Kept(Items(recs, now), rdb.strings);
      var items, n, dead := Stage1(recs, now);
      var m, found := Stage2(items, n, lookup);
      if !found {
        return [], [], Some(LookupError);
      }
      kept := items[..m];
      assert kept == survivors;
      var marshalled;
      out, marshalled := Marshal(items, m, dead, processedAt, now);
      err := if marshalled then None else Some(MarshalError);
    }

    /** `processBatch`. Its effect on Kafka and Redis is that of `Attempt`; on success every record
        was counted exactly once. */
    method ProcessBatch(recs: seq<Record>, now: int, processedAt: int, f: Faults) returns (err: Option<Failure>)
      modifies this, cl, rdb
      ensures Result(View(), err.None?) == Attempt(old(View()), recs, now, processedAt, f)
      ensures err.None? ==> invalid == old(invalid) + |Dead(recs, now)|
      ensures err.None? ==> published == old(published) + |Kept(Items(recs, now), old(rdb.strings))|
      ensures err.None? ==> invalid + duplicate + published == old(invalid + duplicate + published) + |recs|
      ensures err.None? ==>
        unassigned == old(unassigned) + Unmapped(Kept(Items(recs, now), old(rdb.strings)), old(rdb.strings))
    {
      var kept, out;
      kept, out, err := Prepare(recs, now, processedAt, f.lookup);
      if err == None {
        err := Publish(recs, kept, out, f);
      }
    }
  }

  lemma Stage1Step(recs: seq<Record>, i: nat, now: int)
    requires i < |recs|
    ensures AcceptedKeys(recs[..i + 1], now) ==
      AcceptedKeys(recs[..i], now) + if Accepted(recs[i], now) then {KeyOf(recs[i])} else {}
    ensures Items(recs[..i + 1], now) == Items(recs[..i], now) +
      if Accepted(recs[i], now) && KeyOf(recs[i]) !in AcceptedKeys(recs[..i], now) then [ToItem(recs[i])] else []
    ensures Dead(recs[..i + 1], now) == Dead(recs[..i], now) +
      if Accepted(recs[i], now) then [] else [DeadLetter(recs[i], Reject(recs[i], now).value, now)]
  {
    assert Init(recs[..i + 1]) == recs[..i];
    assert forall r :: r in recs[..i + 1] <==> r in recs[..i] || r == recs[i];
  }

  lemma KeptStep(items: seq<Item>, redis: map<Key, string>, i: nat)
    requires i < |items|
    ensures Kept(items[..i + 1], redis) == Kept(items[..i], redis) + KeepOne(items[i], redis)
  {
    assert Init(items[..i + 1]) == items[..i];
  }

  lemma {:induction false} KeptSize(items: seq<Item>, redis: map<Key, string>)
    ensures |Kept(items, redis)| <= |items|
  {
    if items != [] {
      KeptSize(Init(items), redis);
    }
  }

  lemma UnmappedStep(items: seq<Item>, redis: map<Key, string>, i: nat)
    requires i < |items|
    ensures Unmapped(Kept(items[..i + 1], redis), redis) == Unmapped(Kept(items[..i], redis), redis) +
      if items[i].dedupKey !in redis && Fleet(items[i].ev.vin) !in redis then 1 else 0
  {
    KeptStep(items, redis, i);
    if items[i].dedupKey !in redis {
      assert Init(Kept(items[..i], redis) + KeepOne(items[i], redis)) == Kept(items[..i], redis);
    } else {
      assert Kept(items[..i], redis) + KeepOne(items[i], redis) == Kept(items[..i], redis);
    }
  }

  /** One EXISTS and one GET reply per item, in order. */
  ghost predicate Answers(items: seq<Item>, redis: map<Key, string>, exists': seq<bool>, fleets: seq<Option<string>>) {
    && |exists'| == |fleets| == |items|
    && (forall i :: 0 <= i < |items| ==> (exists'[i] <==> items[i].dedupKey in redis))
    && (forall i :: 0 <= i < |items| ==> FleetOf(redis, items[i].ev.vin) == FromReply(fleets[i]))
    && (forall i :: 0 <= i < |items| ==> (fleets[i].None? <==> Fleet(items[i].ev.vin) !in redis))
  }

  /** What has been kept after each item. */
  ghost predicate Surviving(
      items: seq<Item>, exists': seq<bool>, fleets: seq<Option<string>>, survivors: seq<seq<Item>>) {
    && |exists'| == |fleets| == |items| && |survivors| == |items| + 1 && survivors[0] == []
    && (forall i :: 0 <= i < |items| ==>
          survivors[i + 1] == survivors[i] +
            if exists'[i] then [] else [items[i].(ev := items[i].ev.(fleetId := FromReply(fleets[i])))])
    && (forall i :: 0 <= i <= |items| ==> |survivors[i]| <= i)
  }

  /** How many of the kept items got no fleet, after each item. */
  ghost predicate Lacking(exists': seq<bool>, fleets: seq<Option<string>>, lacking: seq<nat>) {
    && |exists'| == |fleets| && |lacking| == |fleets| + 1 && lacking[0] == 0
    && (forall i :: 0 <= i < |fleets| ==>
          lacking[i + 1] == lacking[i] + if !exists'[i] && fleets[i].None? then 1 else 0)
  }

  lemma SurvivorsOf(items: seq<Item>, redis: map<Key, string>, exists': seq<bool>, fleets: seq<Option<string>>)
    returns (survivors: seq<seq<Item>>)
    requires Answers(items, redis, exists', fleets)
    ensures Surviving(items, exists', fleets, survivors) && survivors[|items|] == Kept(items, redis)
  {
    survivors := seq(|items| + 1, i requires 0 <= i <= |items| => Kept(items[..i], redis));
    assert items[..|items|] == items;
    forall i | 0 <= i < |items|
      ensures survivors[i + 1] == survivors[i] +
        if exists'[i] then [] else [items[i].(ev := items[i].ev.(fleetId := FromReply(fleets[i])))]
    {
      KeptStep(items, redis, i);
    }
    forall i | 0 <= i <= |items| ensures |survivors[i]| <= i {
      KeptSize(items[..i], redis);
    }
  }

  lemma LackingOf(items: seq<Item>, redis: map<Key, string>, exists': seq<bool>, fleets: seq<Option<string>>)
    returns (lacking: seq<nat>)
    requires Answers(items, redis, exists', fleets)
    ensures Lacking(exists', fleets, lacking) && lacking[|items|] == Unmapped(Kept(items, redis), redis)
  {
    lacking := seq(|items| + 1, i requires 0 <= i <= |items| => Unmapped(Kept(items[..i], redis), redis));
    assert items[..|items|] == items;
    forall i | 0 <= i < |items| ensures lacking[i + 1] == lacking[i] + if !exists'[i] && fleets[i].None? then 1 else 0 {
      UnmappedStep(items, redis, i);
    }
  }

  lemma MarkNothing(redis: map<Key, string>, kept: seq<Item>, mark: Option<set<nat>>)
    requires kept == []
    ensures Marked(redis, MarkedKeys(kept, mark)) == redis
  {
    assert MarkedKeys(kept, mark) == {};
  }
}
