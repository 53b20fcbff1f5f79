/** One poll batch of the telemetry-processor as a value: what `processBatch` decides about each
    record and what one attempt does to Kafka and Redis (services/internal/processor/processor.go). */
module Batch {
  import opened Wrappers
  import opened Keys
  import opened Telemetry
  import opened Log

  // ---------- records ----------

  /** A record value together with the result of decoding it; decoding is a partial function. */
  datatype Payload = Garbage(bytes: string, why: string) | Encoded(msg: Message)

  type Record = KafkaRecord<Payload>

  datatype Reason = Decode(why: string) | Invalid(refusal: Refusal)

  /** Why a record goes to the dead-letter topic, if it does. */
  function Reject(rec: Record, now: int): Option<Reason> {
    match rec.value
    case Garbage(_, why) => Some(Decode(why))
    case Encoded(msg) =>
      match Validate(msg, now)
      case Some(refusal) => Some(Invalid(refusal))
      case None => None
  }

  predicate Accepted(rec: Record, now: int) {
    Reject(rec, now).None?
  }

  /** Validation accepts the record at some time: once its timestamp is not in the future, if ever. */
  predicate EverAccepted(rec: Record) {
    rec.value.Encoded? && Accepted(rec, rec.value.msg.deviceTimestamp)
  }

  lemma AcceptedIsEver(rec: Record)
    ensures EverAccepted(rec) <==> exists now :: Accepted(rec, now)
  {
    forall now | Accepted(rec, now) ensures EverAccepted(rec) {
      var m := rec.value.msg;
      if now <= m.deviceTimestamp {
        VerdictOverTime(m, now, m.deviceTimestamp);
      } else {
        VerdictOverTime(m, m.deviceTimestamp, now);
      }
    }
  }

  function KeyOf(rec: Record): Key
    requires rec.value.Encoded?
  {
    Dedup(rec.value.msg.vin, rec.value.msg.deviceTimestamp)
  }

  /** The first `ingest_ts` header that parses wins; otherwise the Kafka timestamp. */
  function HeaderTimestamp(headers: seq<Header>, fallback: int64): int64 {
    if headers == [] then fallback
    else if headers[0].key == "ingest_ts" && headers[0].value.number.Some? then headers[0].value.number.value
    else HeaderTimestamp(headers[1..], fallback)
  }

  function IngestTimestamp(rec: Record): int64 {
    HeaderTimestamp(rec.headers, rec.timestamp)
  }

  /** Header `i` is an `ingest_ts` that parses. */
  predicate Stamps(headers: seq<Header>, i: nat) {
    i < |headers| && headers[i].key == "ingest_ts" && headers[i].value.number.Some?
  }

  /** The time is that of the first such header. */
  lemma {:induction false} FirstStampWins(headers: seq<Header>, fallback: int64, i: nat)
    requires Stamps(headers, i) && forall j :: 0 <= j < i ==> !Stamps(headers, j)
    ensures HeaderTimestamp(headers, fallback) == headers[i].value.number.value
  {
    if i > 0 {
      assert !Stamps(headers, 0);
      forall j | 0 <= j < i - 1 ensures !Stamps(headers[1..], j) {
        assert !Stamps(headers, j + 1);
      }
      FirstStampWins(headers[1..], fallback, i - 1);
    }
  }

  /** Without one it is the Kafka timestamp. */
  lemma {:induction false} NoStampMeansKafkaTime(headers: seq<Header>, fallback: int64)
    requires forall j :: 0 <= j < |headers| ==> !Stamps(headers, j)
    ensures HeaderTimestamp(headers, fallback) == fallback
  {
    if headers != [] {
      assert !Stamps(headers, 0);
      forall j | 0 <= j < |headers| - 1 ensures !Stamps(headers[1..], j) {
        assert !Stamps(headers, j + 1);
      }
      NoStampMeansKafkaTime(headers[1..], fallback);
    }
  }

  /** The bridge stamps `FormatInt(receive time)` as the only header; the processor reads that very time back. */
  lemma BridgeStampRoundTrip(rec: Record, received: int64)
    requires rec.headers == [Header("ingest_ts", HeaderText(Decimal(received)))]
    ensures IngestTimestamp(rec) == received
  {
    ParseDecimal(received);
  }

  // ---------- what is produced ----------

  /** An acknowledged record, with the raw record it came from and the clock reading of its attempt.
      `src` and `at` are bookkeeping of the model: `OnWire` shows what Kafka holds. */
  datatype Output =
    | Canonical(ev: Event, src: Record, at: int)
    | DeadLetter(src: Record, reason: Reason, at: int)

  datatype Body = Original(payload: Payload) | Json(ev: Event)

  datatype Outgoing = Outgoing(topic: string, key: string, body: Body, headers: seq<Header>)

  function RefusalText(r: Refusal): string {
    match r
    case BadVin => "invalid VIN"
    case BadCoordinates => "coordinates out of range"
    case BadCharge => "batterySOC out of range"
    case MissingTimestamp => "missing deviceTimestamp"
    case FutureTimestamp => "deviceTimestamp in the future"
  }

  function ReasonText(r: Reason): string {
    match r
    case Decode(why) => "decode: " + why
    case Invalid(refusal) => "validate: " + RefusalText(refusal)
  }

  function OnWire(o: Output, canonicalTopic: string, dlqTopic: string): Outgoing {
    match o
    case Canonical(ev, _, _) => Outgoing(canonicalTopic, ev.vin, Json(ev), [Header("fleet_id", HeaderText(ev.fleetId))])
    case DeadLetter(rec, reason, _) =>
      Outgoing(dlqTopic, rec.key, Original(rec.value),
               rec.headers + [
                 Header("error", HeaderText(ReasonText(reason))),
                 Header("source_partition", HeaderText(Decimal(rec.part))),
                 Header("source_offset", HeaderText(Decimal(rec.off)))])
  }

  /** A dead letter on the wire still says which raw record it is, even if the raw record's own
      headers already used the same names, and carries key, bytes and headers unchanged. */
  lemma DeadLetterNamesItsSource(rec: Record, reason: Reason, at: int, c: string, d: string)
    requires rec.part <= MAX_INT64 && rec.off <= MAX_INT64
    ensures
      var w := OnWire(DeadLetter(rec, reason, at), c, d);
      var n := |w.headers|;
      && n == |rec.headers| + 3
      && w.topic == d && w.headers[n - 3].key == "error" && w.headers[n - 3].value.text == ReasonText(reason)
      && w.headers[n - 2].key == "source_partition" && w.headers[n - 2].value.number == Some(rec.part)
      && w.headers[n - 1].key == "source_offset" && w.headers[n - 1].value.number == Some(rec.off)
      && w.key == rec.key && w.body == Original(rec.value) && w.headers[..n - 3] == rec.headers
  {
    ParseDecimal(rec.part);
    ParseDecimal(rec.off);
    assert OnWire(DeadLetter(rec, reason, at), c, d).headers[..|rec.headers|] == rec.headers;
  }

  /** An event travels under its VIN, with its fleet in the only header, to the other topic. */
  lemma CanonicalOnWire(ev: Event, src: Record, at: int, c: string, d: string)
    ensures var w := OnWire(Canonical(ev, src, at), c, d);
      && w.topic == c && w.key == ev.vin && w.body == Json(ev)
      && |w.headers| == 1 && w.headers[0].key == "fleet_id" && w.headers[0].value.text == ev.fleetId
  {
  }

  /** The text of a dead letter's `error` header tells the reasons apart. */
  lemma ReasonTextsDiffer(a: Reason, b: Reason)
    ensures ReasonText(a) == ReasonText(b) <==> a == b
  {
    assert a.Decode? ==> ReasonText(a)[0] == 'd' && ReasonText(a)[8..] == a.why;
    assert b.Decode? ==> ReasonText(b)[0] == 'd' && ReasonText(b)[8..] == b.why;
    assert a.Invalid? ==> ReasonText(a)[0] == 'v' && ReasonText(a)[10..] == RefusalText(a.refusal);
    assert b.Invalid? ==> ReasonText(b)[0] == 'v' && ReasonText(b)[10..] == RefusalText(b.refusal);
    if a.Invalid? && b.Invalid? && a != b {
      RefusalTextsDiffer(a.refusal, b.refusal);
    }
  }

  lemma RefusalTextsDiffer(a: Refusal, b: Refusal)
    requires a != b
    ensures RefusalText(a) != RefusalText(b)
  {
    assert RefusalText(BadVin)[0] == 'i' && RefusalText(BadCoordinates)[0] == 'c' && RefusalText(BadCharge)[0] == 'b';
    assert RefusalText(MissingTimestamp)[0] == 'm' && RefusalText(FutureTimestamp)[0] == 'd';
  }

  // ---------- stage 1: validate, drop in-batch duplicates ----------

  datatype Item = Item(dedupKey: Key, ev: Event, src: Record)

  function ToItem(rec: Record): Item
    requires rec.value.Encoded?
  {
    var m := rec.value.msg;
    Item(KeyOf(rec),
         Event(EventId(m.vin, m.deviceTimestamp), SCHEMA_VERSION, m.vin, "", m.lng, m.lat, m.status,
               m.soc, m.deviceTimestamp, IngestTimestamp(rec), 0),
         rec)
  }

  function AcceptedKeys(recs: seq<Record>, now: int): set<Key> {
    set r | r in recs && Accepted(r, now) :: KeyOf(r)
  }

  function Dead(recs: seq<Record>, now: int): seq<Output> {
    if recs == [] then []
    else
      Dead(Init(recs), now) +
      match Reject(Last(recs), now)
      case Some(reason) => [DeadLetter(Last(recs), reason, now)]
      case None => []
  }

  function Items(recs: seq<Record>, now: int): seq<Item> {
    if recs == [] then []
    else
      var rest, rec := Init(recs), Last(recs);
      if Accepted(rec, now) && KeyOf(rec) !in AcceptedKeys(rest, now) then Items(rest, now) + [ToItem(rec)]
      else Items(rest, now)
  }

  // ---------- stage 2: drop what Redis has seen, attach the fleet ----------

  function FleetOf(redis: map<Key, string>, vin: string): string {
    if Fleet(vin) in redis then redis[Fleet(vin)] else UNASSIGNED_FLEET
  }

  function WithFleet(it: Item, redis: map<Key, string>): Item {
    it.(ev := it.ev.(fleetId := FleetOf(redis, it.ev.vin)))
  }

  /** What one lookup adds to the items kept so far. */
  function KeepOne(it: Item, redis: map<Key, string>): seq<Item> {
    if it.dedupKey in redis then [] else [WithFleet(it, redis)]
  }

  function Kept(items: seq<Item>, redis: map<Key, string>): seq<Item> {
    if items == [] then [] else Kept(Init(items), redis) + KeepOne(Last(items), redis)
  }

  /** How many of these items have a vehicle without a fleet mapping. */
  function Unmapped(items: seq<Item>, redis: map<Key, string>): nat {
    if items == [] then 0
    else Unmapped(Init(items), redis) + if Fleet(Last(items).ev.vin) in redis then 0 else 1
  }

  lemma {:induction false} UnmappedCounts(items: seq<Item>, redis: map<Key, string>)
    ensures Unmapped(items, redis) == |set i | 0 <= i < |items| && Fleet(items[i].ev.vin) !in redis|
  {
    if items != [] {
      var n := |items| - 1;
      UnmappedCounts(Init(items), redis);
      var before := set i | 0 <= i < n && Fleet(Init(items)[i].ev.vin) !in redis;
      assert (set i | 0 <= i < |items| && Fleet(items[i].ev.vin) !in redis) ==
        before + if Fleet(Last(items).ev.vin) !in redis then {n} else {};
    }
  }

  // ---------- stage 3: produce ----------

  function ToOutput(it: Item, processedAt: int, at: int): Output {
    Canonical(it.ev.(processedTimestamp := processedAt), it.src, at)
  }

  function Outputs(kept: seq<Item>, processedAt: int, at: int): (out: seq<Output>)
    ensures |out| == |kept|
    ensures forall i :: 0 <= i < |kept| ==> out[i] == ToOutput(kept[i], processedAt, at)
  {
    seq(|kept|, i requires 0 <= i < |kept| => ToOutput(kept[i], processedAt, at))
  }

  function Out(recs: seq<Record>, kept: seq<Item>, processedAt: int, now: int): seq<Output> {
    Dead(recs, now) + Outputs(kept, processedAt, now)
  }

  predicate AllMarshal(items: seq<Item>) {
    forall it :: it in items ==> Marshals(it.ev)
  }

  /** The part of `s` at the chosen positions, in order: what an errored call got through. */
  function Pick<T>(s: seq<T>, chosen: set<nat>): seq<T> {
    if s == [] then []
    else Pick(Init(s), chosen) + if |s| - 1 in chosen then [Last(s)] else []
  }

  // ---------- stages 4 and 5: mark, commit ----------

  function KeysOf(items: seq<Item>): set<Key> {
    set it | it in items :: it.dedupKey
  }

  function Marked(redis: map<Key, string>, keys: set<Key>): map<Key, string> {
    redis + map k | k in keys :: "1"
  }

  /** Keys expire and others write, but nobody else writes deduplication keys. */
  function Drifted(redis: map<Key, string>, expired: set<Key>, fleets: map<Key, string>): map<Key, string> {
    (redis - expired) + map k | k in fleets && !k.Dedup? :: fleets[k]
  }

  // ---------- one attempt, uninterrupted ----------

  datatype LookupFault = Healthy | ExecFails | ReplyFails(index: nat)

  /** How the infrastructure treats one attempt. `Some(s)` is a call that returned an error after
      taking effect on exactly the positions (or partitions) in `s`. */
  datatype Faults = Faults(
    lookup: LookupFault,
    produce: Option<set<nat>>,
    mark: Option<set<nat>>,
    commit: Option<set<nat>>)

  const NO_FAULTS := Faults(Healthy, None, None, None)

  datatype Stores = Stores(redis: map<Key, string>, history: seq<Output>, committed: seq<nat>)

  datatype Result = Result(st: Stores, ok: bool)

  predicate LookupBreaks(f: LookupFault, n: nat) {
    n > 0 && (f.ExecFails? || (f.ReplyFails? && f.index < n))
  }

  /** The keys a SET pipeline stored. */
  function MarkedKeys(kept: seq<Item>, mark: Option<set<nat>>): set<Key> {
    KeysOf(match mark case None => kept case Some(s) => Pick(kept, s))
  }

  /** Stages 3 to 5: produce, mark, commit. */
  function Deliver(st: Stores, recs: seq<Record>, kept: seq<Item>, out: seq<Output>, f: Faults): Result {
    if out != [] && f.produce.Some? then Result(st.(history := st.history + Pick(out, f.produce.value)), false)
    else
      var redis := Marked(st.redis, MarkedKeys(kept, f.mark));
      Result(Stores(redis, st.history + out, Commit(st.committed, recs, f.commit)), f.commit.None?)
  }

  /** `processBatch` from its first line to its last, for given clock readings and faults. */
  function Attempt(st: Stores, recs: seq<Record>, now: int, processedAt: int, f: Faults): Result {
    var items := Items(recs, now);
    var kept := Kept(items, st.redis);
    if LookupBreaks(f.lookup, |items|) || !AllMarshal(kept) then Result(st, false)
    else Deliver(st, recs, kept, Out(recs, kept, processedAt, now), f)
  }

  // ---------- what the two filters select ----------

  /** Record `i` is the first accepted record of the batch with its key. */
  ghost predicate First(recs: seq<Record>, now: int, i: nat)
    requires i < |recs|
  {
    Accepted(recs[i], now) && forall j :: 0 <= j < i && Accepted(recs[j], now) ==> KeyOf(recs[j]) != KeyOf(recs[i])
  }

  ghost function Firsts(recs: seq<Record>, now: int): iset<nat> {
    iset i: nat | i < |recs| && First(recs, now, i)
  }

  ghost function Refused(recs: seq<Record>, now: int): iset<nat> {
    iset i: nat | i < |recs| && !Accepted(recs[i], now)
  }

  ghost function Absent(items: seq<Item>, redis: map<Key, string>): iset<nat> {
    iset i: nat | i < |items| && items[i].dedupKey !in redis
  }

  ghost function FirstAndAbsent(recs: seq<Record>, now: int, redis: map<Key, string>): iset<nat> {
    iset i: nat | i < |recs| && First(recs, now, i) && KeyOf(recs[i]) !in redis
  }

  lemma FirstInPrefix(recs: seq<Record>, now: int)
    requires recs != []
    ensures forall i | 0 <= i < |recs| - 1 :: First(Init(recs), now, i) <==> First(recs, now, i)
    ensures First(recs, now, |recs| - 1) <==>
      Accepted(Last(recs), now) && KeyOf(Last(recs)) !in AcceptedKeys(Init(recs), now)
  {
    var n := |recs| - 1;
    if Accepted(Last(recs), now) {
      if KeyOf(Last(recs)) in AcceptedKeys(Init(recs), now) {
        var r :| r in Init(recs) && Accepted(r, now) && KeyOf(r) == KeyOf(Last(recs));
        var j :| 0 <= j < n && Init(recs)[j] == r;
        assert recs[j] == r;
      } else {
        forall j | 0 <= j < n && Accepted(recs[j], now) ensures KeyOf(recs[j]) != KeyOf(recs[n]) {
          assert Init(recs)[j] in Init(recs);
        }
      }
    }
  }

  lemma FirstsStep(recs: seq<Record>, now: int)
    requires recs != []
    ensures forall i: nat :: i < |recs| - 1 ==> (i in Firsts(Init(recs), now) <==> i in Firsts(recs, now))
    ensures |recs| - 1 in Firsts(recs, now) <==>
      Accepted(Last(recs), now) && KeyOf(Last(recs)) !in AcceptedKeys(Init(recs), now)
  {
    FirstInPrefix(recs, now);
  }

  ghost predicate ItemsAt(recs: seq<Record>, items: seq<Item>, idx: seq<nat>) {
    && |items| == |idx|
    && forall k :: 0 <= k < |idx| ==> idx[k] < |recs| && recs[idx[k]].value.Encoded? && items[k] == ToItem(recs[idx[k]])
  }

  lemma ItemsAtStep(recs: seq<Record>, now: int, idx: seq<nat>)
    requires recs != [] && ItemsAt(Init(recs), Items(Init(recs), now), idx)
    ensures var n := |recs| - 1;
      ItemsAt(
        recs, Items(recs, now),
        Extend(idx, n, Accepted(Last(recs), now) && KeyOf(Last(recs)) !in AcceptedKeys(Init(recs), now)))
  {
  }

  /** Stage 1 keeps, in order, exactly the first occurrence of each accepted key. */
  lemma {:induction false} ItemsAreFirstOccurrences(recs: seq<Record>, now: int) returns (idx: seq<nat>)
    ensures Selects(idx, |recs|, Firsts(recs, now)) && ItemsAt(recs, Items(recs, now), idx)
  {
    if recs == [] {
      idx := [];
    } else {
      var rest := ItemsAreFirstOccurrences(Init(recs), now);
      var n := |recs| - 1;
      FirstsStep(recs, now);
      SelectsExtend(rest, n, Firsts(Init(recs), now), Firsts(recs, now));
      ItemsAtStep(recs, now, rest);
      idx := Extend(rest, n, n in Firsts(recs, now));
    }
  }

  /** This output is the dead letter of a record refused at this time, with the reason. */
  predicate Buries(o: Output, rec: Record, now: int) {
    && o.DeadLetter? && o.src == rec && o.at == now
    && match rec.value
       case Garbage(_, why) => o.reason == Decode(why)
       case Encoded(m) => o.reason.Invalid? && Validate(m, now) == Some(o.reason.refusal)
  }

  ghost predicate DeadAt(recs: seq<Record>, now: int, dead: seq<Output>, idx: seq<nat>) {
    && |dead| == |idx|
    && forall k :: 0 <= k < |idx| ==>
         idx[k] < |recs| && Buries(dead[k], recs[idx[k]], now)
  }

  lemma DeadStep(recs: seq<Record>, now: int, idx: seq<nat>)
    requires recs != [] && DeadAt(Init(recs), now, Dead(Init(recs), now), idx)
    ensures DeadAt(recs, now, Dead(recs, now), Extend(idx, |recs| - 1, !Accepted(Last(recs), now)))
  {
  }

  lemma RefusedStep(recs: seq<Record>, now: int)
    requires recs != []
    ensures forall i: nat :: i < |recs| - 1 ==> (i in Refused(Init(recs), now) <==> i in Refused(recs, now))
    ensures |recs| - 1 in Refused(recs, now) <==> !Accepted(Last(recs), now)
  {
  }

  /** The dead letters are, in order, exactly the refused records, each with its reason. */
  lemma {:induction false} DeadAreTheRefused(recs: seq<Record>, now: int) returns (idx: seq<nat>)
    ensures Selects(idx, |recs|, Refused(recs, now))
    ensures DeadAt(recs, now, Dead(recs, now), idx)
  {
    if recs == [] {
      idx := [];
    } else {
      var rest := DeadAreTheRefused(Init(recs), now);
      var n := |recs| - 1;
      RefusedStep(recs, now);
      SelectsExtend(rest, n, Refused(Init(recs), now), Refused(recs, now));
      DeadStep(recs, now, rest);
      idx := Extend(rest, n, n in Refused(recs, now));
    }
  }

  /** What Redis says about a vehicle's fleet. */
  predicate ShowsFleet(redis: map<Key, string>, vin: string, fleet: string) {
    if Fleet(vin) in redis then fleet == redis[Fleet(vin)] else fleet == "UNASSIGNED"
  }

  /** `it'` is the item with the fleet of its own vehicle. */
  predicate Tags(it': Item, it: Item, redis: map<Key, string>) {
    it' == it.(ev := it.ev.(fleetId := it'.ev.fleetId)) && ShowsFleet(redis, it.ev.vin, it'.ev.fleetId)
  }

  /** The event says what the report says, and when the report was received. */
  predicate Reports(ev: Event, rec: Record) {
    && rec.value.Encoded?
    && var m := rec.value.msg;
       && ev.eventId == EventId(m.vin, m.deviceTimestamp) && ev.schemaVersion == 1
       && ev.vin == m.vin && ev.deviceTimestamp == m.deviceTimestamp
       && ev.lat == m.lat && ev.lng == m.lng && ev.batterySOC == m.soc && ev.status == m.status
       && ev.ingestTimestamp == IngestTimestamp(rec)
  }

  /** The item of a record, with the fleet of its vehicle. */
  predicate Stems(it: Item, rec: Record, redis: map<Key, string>) {
    && it.src == rec && Reports(it.ev, rec) && it.dedupKey == Dedup(it.ev.vin, it.ev.deviceTimestamp)
    && ShowsFleet(redis, it.ev.vin, it.ev.fleetId)
  }

  ghost predicate KeptAt(items: seq<Item>, redis: map<Key, string>, kept: seq<Item>, idx: seq<nat>) {
    && |kept| == |idx|
    && forall k :: 0 <= k < |idx| ==> idx[k] < |items| && Tags(kept[k], items[idx[k]], redis)
  }

  lemma KeptAtStep(items: seq<Item>, redis: map<Key, string>, idx: seq<nat>)
    requires items != [] && KeptAt(Init(items), redis, Kept(Init(items), redis), idx)
    ensures KeptAt(items, redis, Kept(items, redis), Extend(idx, |items| - 1, Last(items).dedupKey !in redis))
  {
  }

  lemma AbsentStep(items: seq<Item>, redis: map<Key, string>)
    requires items != []
    ensures forall i: nat :: i < |items| - 1 ==> (i in Absent(Init(items), redis) <==> i in Absent(items, redis))
    ensures |items| - 1 in Absent(items, redis) <==> Last(items).dedupKey !in redis
  {
  }

  lemma {:induction false} KeptAreTheAbsent(items: seq<Item>, redis: map<Key, string>) returns (idx: seq<nat>)
    ensures Selects(idx, |items|, Absent(items, redis))
    ensures KeptAt(items, redis, Kept(items, redis), idx)
  {
    if items == [] {
      idx := [];
    } else {
      var rest := KeptAreTheAbsent(Init(items), redis);
      var n := |items| - 1;
      AbsentStep(items, redis);
      SelectsExtend(rest, n, Absent(Init(items), redis), Absent(items, redis));
      KeptAtStep(items, redis, rest);
      idx := Extend(rest, n, n in Absent(items, redis));
    }
  }

  /** What a batch publishes: one event per first accepted occurrence of a key absent from Redis, in
      batch order, each with its own VIN's fleet or UNASSIGNED. */
  lemma PublishedAreFirstAndAbsent(recs: seq<Record>, now: int, redis: map<Key, string>) returns (idx: seq<nat>)
    ensures Selects(idx, |recs|, FirstAndAbsent(recs, now, redis)) && |idx| == |Kept(Items(recs, now), redis)|
    ensures forall k :: 0 <= k < |idx| ==> Stems(Kept(Items(recs, now), redis)[k], recs[idx[k]], redis)
  {
    var a := ItemsAreFirstOccurrences(recs, now);
    var b := KeptAreTheAbsent(Items(recs, now), redis);
    idx := seq(|b|, k requires 0 <= k < |b| => a[b[k]]);
    SelectsCompose(
      a, |recs|, Firsts(recs, now), b, Absent(Items(recs, now), redis), idx, FirstAndAbsent(recs, now, redis));
  }

  ghost function Repeats(recs: seq<Record>, now: int): set<nat> {
    set i: nat | i < |recs| && Accepted(recs[i], now) && !First(recs, now, i)
  }

  lemma RepeatsStep(recs: seq<Record>, now: int)
    requires recs != []
    ensures Repeats(recs, now) ==
      Repeats(Init(recs), now) +
      if Accepted(Last(recs), now) && KeyOf(Last(recs)) in AcceptedKeys(Init(recs), now) then {|recs| - 1} else {}
  {
    FirstInPrefix(recs, now);
    var n := |recs| - 1;
    forall i: nat | i < n ensures i in Repeats(recs, now) <==> i in Repeats(Init(recs), now) {
      assert Init(recs)[i] == recs[i];
      assert First(Init(recs), now, i) <==> First(recs, now, i);
    }
  }

  /** Every record of a batch is exactly one of: refused, first of its key, or a repeat. */
  lemma {:induction false} BatchIsPartitioned(recs: seq<Record>, now: int)
    ensures |Dead(recs, now)| + |Items(recs, now)| + |Repeats(recs, now)| == |recs|
  {
    if recs != [] {
      BatchIsPartitioned(Init(recs), now);
      RepeatsStep(recs, now);
      assert |recs| - 1 !in Repeats(Init(recs), now);
    }
  }

  // ---------- when an attempt gets through ----------

  /** Record `i` blocks the batch: it is accepted, would be published, and holds a NaN. */
  ghost predicate Poison(recs: seq<Record>, now: int, redis: map<Key, string>, i: nat)
    requires i < |recs|
  {
    First(recs, now, i) && KeyOf(recs[i]) !in redis && HasNaN(recs[i].value.msg)
  }

  ghost predicate PoisonFree(recs: seq<Record>, now: int, redis: map<Key, string>) {
    forall i | 0 <= i < |recs| :: !Poison(recs, now, redis, i)
  }

  lemma PublishedMarshals(recs: seq<Record>, now: int, redis: map<Key, string>, idx: seq<nat>, k: nat)
    requires Selects(idx, |recs|, FirstAndAbsent(recs, now, redis)) && |idx| == |Kept(Items(recs, now), redis)|
    requires k < |idx|
    requires Stems(Kept(Items(recs, now), redis)[k], recs[idx[k]], redis)
    ensures Marshals(Kept(Items(recs, now), redis)[k].ev) <==> !Poison(recs, now, redis, idx[k])
  {
    assert idx[k] in FirstAndAbsent(recs, now, redis);
    AcceptedMarshalsUnlessNaN(recs[idx[k]].value.msg, now, Kept(Items(recs, now), redis)[k].ev);
  }

  /** Everything a batch would publish can be marshalled if and only if no record is poison. */
  lemma MarshalUnlessPoison(recs: seq<Record>, now: int, redis: map<Key, string>)
    ensures AllMarshal(Kept(Items(recs, now), redis)) <==> PoisonFree(recs, now, redis)
  {
    var idx := PublishedAreFirstAndAbsent(recs, now, redis);
    if i :| 0 <= i < |recs| && Poison(recs, now, redis, i) {
      assert Listed(idx, i);
      var k :| 0 <= k < |idx| && idx[k] == i;
      PublishedMarshals(recs, now, redis, idx, k);
      assert !AllMarshal(Kept(Items(recs, now), redis));
    } else {
      forall k | 0 <= k < |idx| ensures Marshals(Kept(Items(recs, now), redis)[k].ev) {
        PublishedMarshals(recs, now, redis, idx, k);
      }
    }
  }

  /** Whatever fails: an attempt succeeds if and only if every lookup is answered, no record is poison, what
      there is to produce is acknowledged, and the commit is. A failed SET does not matter. */
  lemma AttemptCommitsIff(st: Stores, recs: seq<Record>, now: int, processedAt: int, f: Faults)
    ensures var items := Items(recs, now);
      Attempt(st, recs, now, processedAt, f).ok <==>
        && (items != [] ==> !f.lookup.ExecFails? && (f.lookup.ReplyFails? ==> |items| <= f.lookup.index))
        && PoisonFree(recs, now, st.redis)
        && (f.produce.None? || Out(recs, Kept(items, st.redis), processedAt, now) == [])
        && f.commit.None?
  {
    MarshalUnlessPoison(recs, now, st.redis);
  }

  /** With healthy infrastructure an attempt commits if and only if no record is poison. */
  lemma HealthyAttemptCommitsIff(st: Stores, recs: seq<Record>, now: int, processedAt: int)
    ensures Attempt(st, recs, now, processedAt, NO_FAULTS).ok <==> PoisonFree(recs, now, st.redis)
  {
    MarshalUnlessPoison(recs, now, st.redis);
  }

  // ---------- what an attempt leaves ----------

  lemma MarkedAt(redis: map<Key, string>, keys: set<Key>, k: Key)
    ensures k in Marked(redis, keys) <==> k in redis || k in keys
    ensures k in Marked(redis, keys) ==> Marked(redis, keys)[k] == if k in keys then "1" else redis[k]
  {
  }

  /** What an errored call got through is, in order, what it carried at the chosen positions. */
  lemma {:induction false} PickSelects<T>(s: seq<T>, chosen: set<nat>) returns (idx: seq<nat>)
    ensures Selects(idx, |s|, iset i | i in chosen)
    ensures |Pick(s, chosen)| == |idx| && forall k :: 0 <= k < |idx| ==> Pick(s, chosen)[k] == s[idx[k]]
  {
    if s == [] {
      idx := [];
    } else {
      var rest := PickSelects(Init(s), chosen);
      SelectsExtend(rest, |s| - 1, iset i | i in chosen, iset i | i in chosen);
      idx := Extend(rest, |s| - 1, |s| - 1 in chosen);
    }
  }

  /** The event of a record as it is produced. */
  predicate Publishes(o: Output, rec: Record, redis: map<Key, string>, processedAt: int, now: int) {
    && o.Canonical? && o.src == rec && o.at == now && Reports(o.ev, rec)
    && ShowsFleet(redis, o.ev.vin, o.ev.fleetId) && o.ev.processedTimestamp == processedAt
  }

  lemma StampedIsPublished(it: Item, rec: Record, redis: map<Key, string>, processedAt: int, now: int)
    requires Stems(it, rec, redis)
    ensures Publishes(ToOutput(it, processedAt, now), rec, redis, processedAt, now)
  {
  }

  /** What a batch produces, in order: the dead letter of every refused record, then the event of every
      first accepted record of a key that is not live, stamped and with the fleet Redis showed. */
  lemma OutIsRefusedThenPublished(recs: seq<Record>, now: int, redis: map<Key, string>, processedAt: int)
    returns (bad: seq<nat>, good: seq<nat>)
    ensures Selects(bad, |recs|, Refused(recs, now)) && Selects(good, |recs|, FirstAndAbsent(recs, now, redis))
    ensures var out := Out(recs, Kept(Items(recs, now), redis), processedAt, now);
      && |out| == |bad| + |good|
      && (forall k :: 0 <= k < |bad| ==> Buries(out[k], recs[bad[k]], now))
      && (forall k :: 0 <= k < |good| ==> Publishes(out[|bad| + k], recs[good[k]], redis, processedAt, now))
    ensures |good| == |Kept(Items(recs, now), redis)|
    ensures forall k :: 0 <= k < |good| ==> Stems(Kept(Items(recs, now), redis)[k], recs[good[k]], redis)
  {
    bad := DeadAreTheRefused(recs, now);
    good := PublishedAreFirstAndAbsent(recs, now, redis);
    var kept := Kept(Items(recs, now), redis);
    forall k | 0 <= k < |good|
      ensures Publishes(Out(recs, kept, processedAt, now)[|bad| + k], recs[good[k]], redis, processedAt, now)
    {
      StampedIsPublished(kept[k], recs[good[k]], redis, processedAt, now);
      assert Out(recs, kept, processedAt, now)[|bad| + k] == Outputs(kept, processedAt, now)[k];
    }
  }

  /** The keys of the records at these positions. */
  ghost function KeysAt(recs: seq<Record>, idx: seq<nat>): set<Key> {
    set k | 0 <= k < |idx| && idx[k] < |recs| && recs[idx[k]].value.Encoded? ::
      Dedup(recs[idx[k]].value.msg.vin, recs[idx[k]].value.msg.deviceTimestamp)
  }

  /** With healthy infrastructure and no poison an attempt produces all of this, marks exactly the keys of
      the events, and commits the batch. */
  lemma HealthyAttempt(st: Stores, recs: seq<Record>, now: int, processedAt: int)
    returns (bad: seq<nat>, good: seq<nat>)
    requires PoisonFree(recs, now, st.redis)
    ensures Selects(bad, |recs|, Refused(recs, now)) && Selects(good, |recs|, FirstAndAbsent(recs, now, st.redis))
    ensures var r := Attempt(st, recs, now, processedAt, NO_FAULTS);
      && r.ok && |r.st.history| == |st.history| + |bad| + |good| && st.history <= r.st.history
      && (forall k :: 0 <= k < |bad| ==> Buries(r.st.history[|st.history| + k], recs[bad[k]], now))
      && (forall k :: 0 <= k < |good| ==>
            Publishes(r.st.history[|st.history| + |bad| + k], recs[good[k]], st.redis, processedAt, now))
      && r.st.redis == st.redis + (map k | k in KeysAt(recs, good) :: "1")
      && r.st.committed == Commit(st.committed, recs, None)
  {
    bad, good := OutIsRefusedThenPublished(recs, now, st.redis, processedAt);
    MarshalUnlessPoison(recs, now, st.redis);
    KeptKeys(recs, Kept(Items(recs, now), st.redis), st.redis, good);
  }

  lemma KeptKeys(recs: seq<Record>, kept: seq<Item>, redis: map<Key, string>, good: seq<nat>)
    requires |kept| == |good|
    requires forall k :: 0 <= k < |good| ==> good[k] < |recs| && Stems(kept[k], recs[good[k]], redis)
    ensures KeysOf(kept) == KeysAt(recs, good)
  {
    forall k | 0 <= k < |good| ensures kept[k].dedupKey in KeysAt(recs, good) && kept[k].dedupKey in KeysOf(kept) {
      assert kept[k] in kept;
    }
  }

  /** One poison record stops the whole attempt, whatever the infrastructure does: nothing is
      produced (not even the batch's dead letters), marked or committed. */
  lemma PoisonStopsEverything(st: Stores, recs: seq<Record>, now: int, processedAt: int, f: Faults, i: nat)
    requires i < |recs| && Poison(recs, now, st.redis, i)
    ensures Attempt(st, recs, now, processedAt, f) == Result(st, false)
  {
    MarshalUnlessPoison(recs, now, st.redis);
  }

  /** No NaN in the decoded records: then nothing but the infrastructure can fail the batch. */
  ghost predicate NoNaN(recs: seq<Record>) {
    forall r :: r in recs && r.value.Encoded? ==> !HasNaN(r.value.msg)
  }

  lemma NoNaNNoPoison(recs: seq<Record>, now: int, redis: map<Key, string>)
    requires NoNaN(recs)
    ensures PoisonFree(recs, now, redis)
  {
    assert forall i :: 0 <= i < |recs| ==> recs[i] in recs;
  }
}
