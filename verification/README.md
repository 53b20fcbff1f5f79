# Fleet telemetry: a verified model

A Dafny model of the parts of the fleet-telemetry platform whose promises span several steps and
several processes, with proofs that the promises hold, or of exactly when they hold.
`dafny verify dfyconfig.toml` checks everything.

**Ingest.** `telemetry-processor` takes raw reports from Kafka in batches, dead-letters what it refuses,
drops duplicates inside the batch and against Redis, attaches the fleet, produces canonical events,
marks them in Redis and commits. `Batch` says what a batch decides, as values; `Processor` and `Retry`
are the imperative code, proved to do just that; `IngestMachine` is the transition system of any number
of pods, failures, key expiries, rebalances and crashes; `IngestRefinement` proves that every call of
`processBatch` is a run of it. Its invariants are in `IngestShape`, `IngestSafety` (nothing lost),
`IngestDuplicates` (how many copies), `IngestOrder` (stable acceptance), `IngestFleets` (whose fleet) and
`IngestPoison` (NaN).
`Keys` and `Telemetry` hold the decimal printer, the keys and the validation. `Log` is Kafka as both
consumers see it.

**Persistence.** The persister turns canonical records into documents. `Bulk` and `Persister` model
`buildBulk`, `bulk` and one turn of the consume loop; `PersistMachine` is the transition system with
partial bulks, refused requests, failed commits and crashes; `PersistReplay` compares the store with a
sequential fold of the log, and `PersistLosses` proves, document by document and in terms of the run
alone, exactly when a drained log leaves what the fold leaves. `EndToEnd` joins both consumers: a
committed raw report is a dead letter, or its event is acknowledged; then, once the canonical log is
drained, it is a document under its own VIN and timestamp, if the mapping takes the report's events and
its last record was not dropped for good by a refused request.

**Live push.** `Interest` holds scopes, interests, their sorted wire form and the version rule;
`Broker` (bus, broker, scope refresh), `RouterPool` (the sending side of a stream) and `Hub` (hub and
subscription handler) are the imperative code. `InterestMachine` lets registrations, scope changes,
overlapping recomputes, bus updates, wake-ups, sends, receives and disconnects interleave;
`InterestStreams` and `InterestAgreement` prove what survives. `Queues`, `Fanout` and `FanoutRuns` treat
both bounded, lossy fan-out stages as one machine and compose them; `LivePath` joins the hub's fan-out to
the interest it filters by. `HubRefinement`, `BrokerFanout` and `BrokerRefinement` prove that the
imperative dispatches, the handler's operations on the hub, and each section of the broker that holds a
lock, are runs of these machines.

**Projections.** `FleetSync` is the projection of vehicle assignments into Redis under concurrent syncs
and pushes, `Browser` the map of newest reports, `ScopeQuery` a scope as OpenSearch query and as access
check.

## What the proofs show beyond the documentation

- "Never lost" holds in every reachable state, but a NaN coordinate or charge passes `Validate` and
  cannot be marshalled: such a record is never committed, and its batch holds up everything behind it
  (`IngestPoison.NaNNeverCommits`). A healthy round commits if and only if no record that would be
  published holds a NaN (`Retry.HealthyRoundEndsTheChain`).
- A record can get both a dead letter and an event, in that order only, and only if it was refused for a
  timestamp in the future that the clock then passed (`IngestOrder.BothOutputs`).
- "A replay overwrites" holds of a document if and only if its last record was not dropped for good: some
  request that carried it was refused as a whole, and the store has not reflected it since
  (`PersistLosses.ReplayRefinesFold`). If no request of the run is refused, the drained store is the fold
  (`PersistLosses.WithoutRefusals`). A refused request drops its documents and the offsets are committed
  all the same (`PersistReplay.RefusalLosesDocument`). The comment on `Persister` promises commits only
  after a successful request; the code also commits after dropping a batch, and the model follows the code.
- `recompute` publishes after releasing its lock. Two overlapping calls can leave the older union on the
  bus with nothing pending, so that a settled router refuses a connected user's fleet
  (`InterestAgreement.OverlapBreaksAgreement`). A settled router is right if and only if the union behind
  the last `Set` represents what the present one does (`InterestAgreement.QuiescentAgreementIff`); any
  recompute that no change overlaps repairs it. While a settled router is right, an event some connected
  user may see is queued for that user's pod or counted as dropped (`LivePath.NothingAllowedIsFilteredOut`).
- A sync that overlaps an administrator's change can write the old fleet over the new one
  (`FleetSync.OverlapLeavesStaleFleet`). After a sync Redis is right about a VIN if and only if the row read
  is still the row of the table, or the key the sync overlooks is right
  (`FleetSync.SyncAgreesWithTableIff`).
- The browser's map depends only on the set of reports if and only if each vehicle has one newest report
  (`Browser.ConvergesIff`).
- `itoa` misprints the smallest int64 (`Keys.ItoaRoundTrip`); keys stay injective there too. Event ids
  would collide only across the signs of timestamps (`Keys.EventIDEqualIff`), which validation excludes.

## Model

| member | source | states |
|---|---|---|
| Keys.FillDigits | services/internal/platform/redis.go:39-46 | the backward digit loop stays inside the 20-byte buffer and leaves the decimal digits, most significant first, at its end |
| Keys.Itoa | services/internal/platform/redis.go:32-52 | the printer never overruns its buffer on any int64, sign and wrap-around included, and returns the specified text of at most 20 bytes |
| Keys.FitsNineteen | services/internal/platform/redis.go:33-46 | no int64 has more than 19 digits |
| Keys.ItoaIsDecimal | services/internal/platform/redis.go:32-52 | for every int64 but the minimum the hand-written printer agrees with the standard library's |
| Keys.ItoaRoundTrip | services/internal/platform/redis.go:32-52 | the printed text parses back to the number if and only if it is not the minimum, where it is no number at all |
| Keys.MisprintIsNoNumber | services/internal/platform/redis.go:35-42 | digits taken with Go's truncating remainder from a negative value are refused by the parser |
| Keys.ParseDecimal | services/internal/processor/processor.go:209-218 | `ParseInt` inverts `Itoa` and `FormatInt` on every int64 |
| Keys.DedupKeyInjective | services/internal/platform/redis.go:28 | deduplication keys are equal exactly for equal VIN and timestamp, whatever bytes the VIN holds |
| Keys.EventIDInjective | services/internal/model/canonical.go:54 | event ids are equal exactly for equal VIN and timestamp, for non-negative timestamps |
| Keys.EventIDEqualIff | services/internal/model/canonical.go:54 | for arbitrary timestamps, exactly which pairs share an event id: equal magnitudes, and VINs equal once a negative sign counts as a dash |
| Keys.EventIDCollision | services/internal/model/canonical.go:54 | without the positive-timestamp check two different reports share an event id |
| Keys.TextInjective | services/internal/platform/redis.go:26-30 | no deduplication key, fleet key or index key clashes with another |
| Keys.RenderedOperations | services/internal/platform/redis.go:26-30 | lookups, writes and expiry by key text are those by structured key |
| Keys.IdentitiesCoincide | services/internal/model/canonical.go:38-54 | for validated messages equal dedup keys, equal event ids and equal (VIN, timestamp) are the same thing |
| Telemetry.AcceptedIff | services/internal/model/canonical.go:38-52 | what acceptance means, independent of the order of the checks, NaN included |
| Telemetry.RefusedIff | services/internal/model/canonical.go:38-52 | which refusal a message gets: the first of VIN length, coordinates, charge, missing and future timestamp that applies, with every bound |
| Telemetry.AcceptedMarshalsUnlessNaN | services/internal/model/canonical.go:42-45 | an accepted message can be printed as JSON if and only if none of its three numbers is NaN |
| Telemetry.VerdictOverTime | services/internal/model/canonical.go:48-49 | with a later clock only a refusal for a future timestamp can change, and only to acceptance |
| Batch.BridgeStampRoundTrip | services/cmd/iot-kafka-bridge/bridge.go:74-81 | the processor reads back exactly the receive time the bridge stamped |
| Batch.FirstStampWins | services/internal/processor/processor.go:215-224 | the ingest time is that of the first `ingest_ts` header that parses, whatever other headers stand before or after it |
| Batch.NoStampMeansKafkaTime | services/internal/processor/processor.go:215-224 | without such a header it is the Kafka timestamp |
| Batch.AcceptedIsEver | services/internal/model/canonical.go:38-52 | a record is one that validation ever accepts if and only if it accepts it at some moment |
| Batch.DeadLetterNamesItsSource | services/internal/processor/processor.go:202-212 | a dead letter goes to the dead-letter topic with the reason, and identifies its raw record by partition and offset even among like-named headers, with key, bytes and headers unchanged |
| Batch.CanonicalOnWire | services/internal/processor/processor.go:173-178 | an event goes to the canonical topic under its VIN, with its fleet as the only header |
| Batch.ReasonTextsDiffer | services/internal/model/canonical.go:38-52 | the text in the `error` header tells any two reasons apart |
| Batch.ItemsAreFirstOccurrences | services/internal/processor/processor.go:99-128 | the items of a batch are, in order, exactly the first occurrence of each accepted key |
| Batch.DeadAreTheRefused | services/internal/processor/processor.go:99-110 | the dead letters of a batch are, in order, exactly its refused records, each with the decoding error or the refusal |
| Batch.KeptAreTheAbsent | services/internal/processor/processor.go:142-163 | the Redis filter keeps, in order, exactly the items whose key is absent, each changed only in its fleet: what Redis holds under its own VIN's fleet key, or UNASSIGNED if there is none |
| Batch.PublishedAreFirstAndAbsent | services/internal/processor/processor.go:99-179 | a batch publishes one event per first accepted occurrence of a key absent from Redis, in batch order, field by field that of its report, with the fleet Redis holds for its VIN or UNASSIGNED |
| Batch.BatchIsPartitioned | services/internal/processor/processor.go:99-128 | every record of a batch is exactly one of refused, first of its key, repeat |
| Batch.MarshalUnlessPoison | services/internal/processor/processor.go:166-172 | a batch can be marshalled if and only if no record that would be published holds a NaN |
| Batch.HealthyAttemptCommitsIff | services/internal/processor/processor.go:93-200 | with healthy infrastructure an attempt commits if and only if no record is poison |
| Batch.AttemptCommitsIff | services/internal/processor/processor.go:93-200 | whatever fails, an attempt succeeds if and only if every lookup is answered, no record is poison, the produce (if there is any) is acknowledged and the commit is; a failed SET does not matter |
| Batch.OutIsRefusedThenPublished | services/internal/processor/processor.go:99-179 | what a batch produces, in order: a dead letter for each refused record, then the stamped event of each first accepted record of an absent key |
| Batch.HealthyAttempt | services/internal/processor/processor.go:93-200 | an attempt without faults and poison appends exactly this to Kafka, sets exactly the keys of those events in Redis, and commits the batch |
| Batch.PickSelects | services/internal/processor/processor.go:182-195 | what an errored call got through is what it carried at some positions, in order |
| Batch.UnmappedCounts | services/internal/processor/processor.go:153-156 | the count of unassigned vehicles is the number of items whose VIN has no fleet key |
| Batch.PoisonStopsEverything | services/internal/processor/processor.go:169-172 | one poison record keeps the whole attempt, dead letters included, from having any effect |
| Batch.NoNaNNoPoison | services/internal/model/canonical.go:42-45 | a batch whose decoded records hold no NaN has no poison record, whatever Redis holds |
| Log.TargetTop | services/internal/processor/processor.go:199 | the offset a commit stores lies past every record of its batch |
| Log.PolledTarget | services/internal/processor/processor.go:67-74 | committing a polled batch never goes behind the fetch position or past the log |
| Processor.Processor.ReadIngestTimestamp | services/internal/processor/processor.go:215-224 | the first parsable `ingest_ts` header wins over the Kafka timestamp |
| Processor.Processor.Stage1 | services/internal/processor/processor.go:99-128 | the classification loop yields the specified items and dead letters and counts every record once |
| Processor.Processor.Query | services/internal/processor/processor.go:132-139 | each reply belongs to its own item's dedup key and VIN |
| Processor.Processor.Resolve | services/internal/processor/processor.go:152-159 | a vehicle without mapping gets UNASSIGNED and is counted, others are not |
| Processor.Processor.WriteBack | services/internal/processor/processor.go:160-161 | writing a survivor back sets the given fleet and nothing else, and changes only the slot read and the slot written |
| Processor.Processor.Filter | services/internal/processor/processor.go:142-163 | the filter that reuses its own array never overwrites an item it has yet to read, and keeps the specified survivors |
| Processor.Processor.Stage2 | services/internal/processor/processor.go:130-164 | lookup and filter together keep the absent items, or report the failed lookup |
| Processor.Processor.Marshal | services/internal/processor/processor.go:166-179 | appends one record per survivor after the dead letters, or fails exactly when one cannot be marshalled |
| Processor.Processor.Publish | services/internal/processor/processor.go:181-199 | produce, mark and commit have the specified effect under any partial failure |
| Processor.Processor.Prepare | services/internal/processor/processor.go:93-179 | everything before the first effect on Kafka: output, failure cases, counters |
| Processor.Processor.ProcessBatch | services/internal/processor/processor.go:93-200 | the whole method has the effect of the specified attempt; on success invalid + duplicate + published grows by the batch size, and unassigned by the published events without a fleet |
| Retry.Loop.Round | services/internal/platform/runtime.go:64-81 | one round of retrying, with what the world did to Redis meanwhile |
| Retry.Loop.RunBatch | services/internal/platform/runtime.go:64-81 | retrying yields a chain of attempts that all fail but the last, and stops only by success or cancellation |
| Retry.HealthyRoundEndsTheChain | services/internal/platform/runtime.go:64-81 | a round with healthy infrastructure commits the batch and ends the retrying if and only if no record is poison at that round |
| Retry.HealthyRoundWithoutNaN | services/internal/platform/runtime.go:64-81 | without NaN every healthy round commits the batch |
| Retry.BlockedForever | services/internal/platform/runtime.go:64-81 | a poison record whose key is not live, and that is the batch's first of its key that validation accepts at any later time, makes every round fail and leaves Kafka as it was |
| IngestShape.StepKeepsShape | services/internal/processor/processor.go:65-86 | every step keeps ownership exclusive, batches gap-free and committed offsets between position and batch end |
| IngestShape.StepNeverRewinds | services/internal/processor/processor.go:199 | committed offsets, logs and output only grow, whatever fails or crashes |
| IngestSafety.StepKeepsSafe | services/internal/processor/processor.go:93-200 | every step keeps: live dedup keys have their event, committed records are accounted for |
| IngestSafety.NothingLost | services/internal/processor/processor.go:65-200 | over every run, a record below its partition's committed offset has a canonical event with its VIN and timestamp, or a dead letter with its partition and offset |
| IngestSafety.LiveKeysAreEmitted | services/internal/processor/processor.go:187-197 | over every run, every live dedup key has its event in the canonical log |
| IngestDuplicates.StepKeepsTidy | services/internal/processor/processor.go:111-199 | every step keeps the copies of an event within its charged incidents plus one while its key is live |
| IngestDuplicates.BoundedDuplication | services/internal/processor/processor.go:111-199 | over every run an event has at most 1 + d copies, d the number of steps that are incidents of its key, and at most d while its key is neither live nor about to be marked; commits may fail as they like |
| IngestDuplicates.ChargesAreIncidents | services/internal/processor/processor.go:181-197 | over every run the budget of a key is the number of its incidents: failed produces that carried it, crashes between acknowledgement and SET, SETs that did not store it, expiries |
| IngestRefinement.AttemptIsARun | services/internal/processor/processor.go:93-200 | a call of `processBatch`, with any faults, is a run of the machine with the same effect, and on success the pod polls on from behind the batch |
| IngestRefinement.ProcessInWorld | services/internal/processor/processor.go:76-81 | calling the imperative method in a safe world leads to a safe world |
| IngestOrder.StepKeepsTimed | services/internal/processor/processor.go:94-109 | every step keeps decisions consistent with a clock that does not go back |
| IngestOrder.NeverDeadAfterCanonical | services/internal/processor/processor.go:94-109 | over every run, a record whose event was produced is never dead-lettered later |
| IngestOrder.BothOutputs | services/internal/model/canonical.go:48-49 | over every run, a record with both a dead letter and an event got the dead letter first, for a timestamp in the future, and the clock passed that timestamp in between |
| IngestOrder.OutputIsFaithful | services/internal/processor/processor.go:99-128 | nothing is invented: every event repeats an accepted raw record field by field, every dead letter is a refused one with its reason |
| IngestFleets.FleetIsLookedUp | services/internal/processor/processor.go:142-163 | over every run, every event carries the fleet Redis held under its own VIN at some lookup of the run for that vehicle, or UNASSIGNED only if there was no key then or it said so |
| IngestOrder.DeadThenCanonical | services/internal/model/canonical.go:48-49 | the opposite order occurs: a run that first dead-letters and then publishes one record |
| IngestPoison.NaNNeverCommits | services/internal/model/canonical.go:42-45 | over every continuation, an accepted record with a NaN, the first of its key that validation ever accepts, is never passed by the committed offset, published or dead-lettered |
| Bulk.BodyHas | services/internal/router/persist.go:115-133 | a bulk body holds exactly the documents of the readable records with an event id |
| Bulk.BodyIndexes | services/internal/router/persist.go:115-133 | a bulk body indexes, in order, exactly the readable records with an event id, each once: under its id and the day of its timestamp, with its event and its own latitude and longitude |
| Bulk.DayContains | services/internal/router/persist.go:124 | a document lies in the daily index whose UTC day contains its timestamp |
| Bulk.JudgeIff | services/internal/router/persist.go:139-177 | an answer drops the batch if and only if its code is 300 to 499 but not 429, and settles it if and only if it is 2xx, parses, and no item status is 429 or 5xx; everything else is retried |
| Bulk.BodyAscends | services/internal/router/persist.go:115-133 | a bulk body keeps the order of its batch |
| Bulk.AppliedAt | services/internal/router/persist.go:23-26 | after a request each document is its last applied action, or untouched |
| Bulk.DoneMeansApplied | services/internal/router/persist.go:158-177 | when `bulk` returns nil on a parsed answer, a document took effect if and only if the mapping takes it |
| Bulk.DoneCounts | services/internal/router/persist.go:161-176 | the two counters added are the documents the mapping takes and rejects |
| PersistMachine.StepKeepsShape | services/internal/router/persist.go:70-105 | every step keeps ownership exclusive, batches gap-free and committed offsets at or below the fetch positions |
| PersistReplay.SentKeepsAhead | services/internal/router/persist.go:94-98 | no partial, failed or repeated request takes a document back behind the positions its batch was polled from |
| PersistReplay.SentIsAhead | services/internal/router/persist.go:135-178 | a request that need not be retried leaves each of its documents stored, from that record or a later one |
| PersistReplay.SettledReflectsIff | services/internal/router/persist.go:146-177 | after a request that is not retried, a storable record of the batch is reflected in the store if and only if the request was answered or it was reflected before |
| PersistReplay.StepKeepsFresh | services/internal/router/persist.go:83-104 | every step keeps: a document's stored position is at least its last record below the consumer position that is not lost, and lost records are really missing |
| PersistReplay.FoldAt | services/internal/router/persist.go:23-26 | the sequential reference maps each document key to its last storable record |
| PersistLosses.ReplayRefinesFold | services/internal/router/persist.go:83-178 | over every run, once drained, a document is what indexing the log once in order gives if and only if its last record was not refused with a request and missing from the store ever since |
| PersistLosses.DrainedStoreIsFold | services/internal/router/persist.go:83-178 | once drained, the whole store is that fold if and only if no record was refused and missing ever since |
| PersistLosses.CommittedIsStored | services/internal/router/persist.go:94-101 | at any moment, a committed record that the mapping takes is stored, from itself or a later record of the same document, if and only if it was not refused with a request and missing ever since |
| PersistLosses.StoredFromOwnPartition | services/internal/router/persist.go:94-101 | over every run, the document of a logged record, if stored, was built from a record of the same partition |
| PersistLosses.LostIff | services/internal/router/persist.go:146-150 | over every run, the machine holds a record lost if and only if some request that carried it was refused and the store has reflected it at no later moment |
| PersistLosses.WithoutRefusals | services/internal/router/persist.go:83-178 | over every run whose unsuccessful requests were answered by nothing, 429 or 5xx, nothing is lost and a drained store is the fold |
| PersistLosses.RetriedKeepsBatch | services/internal/router/persist.go:139-145 | a request answered by nothing, 429 or 5xx leaves its batch held, commits nothing and gives nothing up |
| PersistReplay.RefusalLosesDocument | services/internal/router/persist.go:146-150 | a refused request loses its document although the log is drained and committed |
| Persister.Persister.BuildBulk | services/internal/router/persist.go:115-133 | the loop builds the specified body and counts every record as skipped or included |
| Persister.Persister.ScanOne | services/internal/router/persist.go:163-173 | the inner status loop stops at the first retryable status or counts all of them |
| Persister.Persister.Scan | services/internal/router/persist.go:161-174 | the status scan asks for a retry exactly if some status is retryable, else counts both outcomes |
| Persister.Persister.SendBulk | services/internal/router/persist.go:135-178 | nil if and only if the request was refused as a whole (3xx or 4xx but 429) or answered in full (2xx, parsed, no item 429 or 5xx); the counters say what became of the documents, and stay on failure |
| Persister.Persister.Round | services/internal/platform/runtime.go:64-81 | one retry of `bulk` is one step of the machine |
| Persister.Persister.IndexBatch | services/internal/router/persist.go:94-98 | retrying ends at the first settled round or by cancellation, and is a run of the machine |
| Persister.Persister.PersistBatch | services/internal/router/persist.go:92-102 | one turn of the loop is a run of the machine; positions advance even if the commit fails |
| EndToEnd.OneNamePerReport | services/internal/router/persist.go:124-125 | distinct validated reports have distinct documents, and one id never lands in two daily indices |
| EndToEnd.KeyedByVinIsApart | services/internal/processor/processor.go:173-175 | keying canonical records by VIN keeps all records of one document in one partition |
| EndToEnd.DocumentsAreTheReports | services/internal/router/persist.go:115-133 | for a drained canonical log, document by document: a stored document holds an acknowledged event with its VIN and timestamp and its own coordinates; unless its last record was refused with a request and missing ever since, it exists if and only if the mapping takes such an event |
| EndToEnd.CommittedReportIsSearchable | services/internal/router/persist.go:23-26 | for a drained canonical log, every raw report committed by the processor is a dead letter, or its document shows this very report or nothing, and exists if the mapping takes the report's own events and the document's last record was not dropped for good by a refused request |
| Interest.BelowIsTotal | services/internal/dashboard/broker.go:159-166 | the order of `sort.Strings` is total and strict |
| Interest.BelowIsByteOrder | services/internal/dashboard/broker.go:159-166 | it is the order of the first byte in which two strings differ, a prefix coming first |
| Interest.SortedIsUnique | services/internal/dashboard/broker.go:159-166 | two increasing lists over one set are the same list |
| Interest.SortedSorts | services/internal/dashboard/broker.go:164 | sorting distinct strings gives the increasing list of the same set |
| Interest.SortedKeys | services/internal/dashboard/broker.go:159-166 | the keys of a map, each once, in increasing order, whatever the iteration order |
| Interest.UnionOfIsExact | services/internal/dashboard/broker.go:137-151 | the union admits an event if and only if some scope does |
| Interest.ServesIff | services/internal/dashboard/broker.go:136-157 | an interest admits exactly what some scope admits if and only if it represents the union of the scopes |
| Interest.SetRepresents | services/internal/dashboard/broker.go:136-157 | the value on the bus represents the union of scopes, nothing enumerated when an admin is connected |
| Interest.VersionBumpIsExact | services/internal/dashboard/interest.go:22-28 | the version is raised by one if and only if the represented interest changed |
| Interest.VersionBumpIsObservable | services/internal/dashboard/interest.go:22-28 | the version is raised if and only if some (fleet, VIN) starts or stops being routed to this pod |
| Interest.ChangedMeansObservable | services/internal/dashboard/interest.go:25-27 | interests that differ as values are told apart by some event |
| InterestMachine.UnionIsExact | services/internal/dashboard/broker.go:136-151 | the union admits an event if and only if some connected user's scope allows it |
| InterestStreams.PublishKeepsBus | services/internal/dashboard/interest.go:22-28 | version i is the i-th value the bus held, and successive values represent different interests |
| InterestStreams.StepKeepsStreams | services/internal/dashboard/routerpool.go:120-162 | every step of any goroutine keeps the bus history, the order on each wire and the wake-up invariant |
| InterestStreams.NoLostWakeup | services/internal/dashboard/interest.go:22-53 | in every reachable state a watching stream has a signal pending, has yet to read the bus, or holds or has sent the current value |
| InterestStreams.RouterHoldsABusValue | services/internal/router/server.go:41-53 | a router's interest is empty or one the bus held, no newer than what the dashboard sent last, which is no newer than the bus |
| InterestStreams.RouterNeverGoesBack | services/internal/router/server.go:41-53 | along any stream and any run the applied versions never decrease, and equal versions are equal contents |
| InterestStreams.QuietRouterIsCurrent | services/internal/dashboard/routerpool.go:150-162 | a stream with nothing outstanding has its router filtering by the current bus value |
| InterestStreams.StreamCatchesUp | services/internal/dashboard/routerpool.go:120-162 | from every reachable state a live stream's own steps and its router's end with the router filtering by the current bus value |
| InterestAgreement.StepKeepsTable | services/internal/dashboard/broker.go:78-157 | every step keeps: a union collected without interference is the union of the present table |
| InterestAgreement.BusShowsLastSum | services/internal/dashboard/broker.go:152-156 | over every run the bus represents the union behind the last `Set` |
| InterestAgreement.QuiescentAgreementIff | services/internal/dashboard/broker.go:124-157 | over every run, a quiet stream's router admits exactly what some connected user may see if and only if the union behind the last `Set` represents the same interest as that of the present table |
| InterestAgreement.QuiescentAgreement | services/internal/dashboard/broker.go:124-157 | when the last `Set` came from the present table, a quiet stream's router admits an event if and only if some connected user may see it |
| InterestAgreement.UndisturbedRecompute | services/internal/dashboard/broker.go:136-157 | a recompute no table or scope change overlaps brings the bus up to date, whatever happened before and whoever publishes meanwhile |
| InterestAgreement.StaysUpToDate | services/internal/dashboard/broker.go:136-157 | being up to date lasts until the next change or `Set` |
| InterestAgreement.OverlapBreaksAgreement | services/internal/dashboard/broker.go:152-156 | two users connect, their recomputes publish in the opposite order, and a settled stream's router refuses the second user's fleet with nothing pending |
| Broker.InterestBus.Set | services/internal/dashboard/interest.go:22-35 | a new value replaces the old one and fills every watcher's slot; an equal one changes nothing |
| Broker.InterestBus.Watch | services/internal/dashboard/interest.go:43-53 | a new, empty channel joins the watchers |
| Broker.InterestBus.Unwatch | services/internal/dashboard/interest.go:48-52 | only the given channel leaves the watchers |
| Broker.Broker.Collect | services/internal/dashboard/broker.go:137-151 | the collecting loop returns the union of all connected scopes |
| Broker.Broker.Publish | services/internal/dashboard/broker.go:153-156 | the bus represents the given union, its version rises exactly on a change and the watchers are woken exactly then |
| Broker.Broker.Interfere | services/internal/dashboard/broker.go:152-156 | what other goroutines do between the two locks of a recompute |
| Broker.Broker.Recompute | services/internal/dashboard/broker.go:136-157 | whatever happens between its locks, the bus ends up with the union collected, and agrees with the connected users if and only if that union represents the present one |
| Broker.Broker.Enter | services/internal/dashboard/broker.go:79-81 | exactly the client joins the table |
| Broker.Broker.Leave | services/internal/dashboard/broker.go:87-89 | exactly the client leaves the table |
| Broker.Broker.StoreScope | services/internal/dashboard/broker.go:126-132 | exactly the user's connections get the scope |
| Broker.Broker.Register | services/internal/dashboard/broker.go:78-84 | the client is in the table; the bus agrees if and only if nothing that happened before its recompute published changed the represented union |
| Broker.Broker.Unregister | services/internal/dashboard/broker.go:86-92 | the client is out of the table; the bus agrees under the same condition |
| Broker.Broker.UpdateScope | services/internal/dashboard/broker.go:125-134 | all of one user's connections and no others get the scope; the bus agrees under the same condition, taken over the refreshed scopes |
| Broker.Broker.UserIds | services/internal/dashboard/broker.go:110-122 | exactly the users of the connected clients |
| Broker.Broker.Offer | services/internal/dashboard/broker.go:98-105 | an allowed event is queued or counted as dropped, others leave no trace |
| Broker.Broker.OfferAll | services/internal/dashboard/broker.go:97-106 | the loop offers the event to every connection independently of the order |
| Broker.Broker.Dispatch | services/internal/dashboard/broker.go:94-107 | each connection whose scope allows the event and whose queue holds fewer than 512 gets it at the end, all other queues stay, and the allowed connections with full queues are counted |
| Broker.Api.RefreshScopes | services/internal/dashboard/api.go:180-187 | every user whose scope could be read has it on all connections, others keep theirs; the bus agrees if any scope was applied, even if it was stale before, and is left alone otherwise |
| RouterPool.Stream.constructor | services/internal/dashboard/routerpool.go:116-121 | the channel is registered before anything is sent or read |
| RouterPool.Stream.SendHello | services/internal/dashboard/routerpool.go:123-126 | the machine's greeting step |
| RouterPool.Stream.SendInterest | services/internal/dashboard/routerpool.go:127-132 | the machine's read and send steps |
| RouterPool.Stream.OnChanged | services/internal/dashboard/routerpool.go:157-160 | consuming the signal and sending leaves the stream with the current value sent |
| RouterPool.Stream.PublishTo | services/internal/dashboard/interest.go:22-35 | whatever is published, a waiting stream has a signal or has sent the current value |
| Hub.InterestFromProto | services/internal/router/hub.go:35-44 | the loops build exactly the listed sets |
| Hub.Hub.Offer | services/internal/router/hub.go:102-111 | a matching event is queued and counted delivered, or counted dropped |
| Hub.Hub.OfferAll | services/internal/router/hub.go:101-112 | the loop offers the event to every subscriber independently of the order and tallies the outcomes |
| Hub.Hub.Dispatch | services/internal/router/hub.go:97-116 | each subscriber whose interest admits the event and whose queue is below its buffer gets it at the end, all other queues stay; delivered, dropped and unrouted count the admitted with room, the admitted without, and an event nobody wants |
| Hub.Server.Handshake | services/internal/router/server.go:23-34 | only a Hello with an id creates a subscriber, which is interested in nothing |
| Hub.Server.ReceiveAll | services/internal/router/server.go:40-53 | the interest in force is that of the last update received, or the one before if there was none |
| Hub.Server.Drain | services/internal/router/server.go:64-67 | events leave a queue oldest first |
| Hub.Server.Finish | services/internal/router/server.go:34 | exactly its subscriber leaves the hub |
| Hub.Server.Serve | services/internal/router/server.go:55-69 | queue, accepted events, sent events and outcome are those of handling the turns one by one, up to the first that ends the handler, a failed send included |
| Hub.Server.Subscribe | services/internal/router/server.go:23-69 | outcome and sent events are those of the turns one by one, and whichever way the handler returns, exactly the subscriber it added is removed |
| Hub.SentInOrder | services/internal/router/server.go:55-69 | what a handler has sent and still holds is, in order, what its queue accepted, and the queue stays within its buffer |
| Hub.LeavesAtTheFirst | services/internal/router/server.go:55-69 | a handler has returned if and only if some turn made it, and then with the outcome of the first such turn |
| Hub.LastUpdateInForce | services/internal/router/server.go:40-53 | the interest in force is that of the last update among the turns so far |
| Hub.NoUpdateKeepsInterest | services/internal/router/server.go:40-53 | without an update it is the one the handler began with |
| Hub.AcceptedExactly | services/internal/router/hub.go:97-112 | a handler's queue accepts, in order, exactly the published events that the interest in force admits while there is room |
| Hub.SentExactly | services/internal/router/server.go:64-67 | it sends one event at each turn that finds one queued and sends it |
| Queues.TallyCounts | services/internal/router/hub.go:101-112 | counting along the order of visits counts the set |
| Queues.OutcomeIff | services/internal/router/hub.go:102-111 | an event gets into a queue if and only if it is admitted and there is room, and is lost if and only if it is admitted and there is none |
| Fanout.StepKeepsFan | services/internal/router/hub.go:81-116 | every step keeps counters, queues and visited filters consistent while dispatches interleave |
| FanoutRuns.Conservation | services/internal/router/hub.go:97-116 | over every run delivered + dropped is the number of matching (event, subscriber) pairs, delivered the number ever queued, unrouted the completed dispatches nobody wanted, and no queue exceeds its buffer |
| FanoutRuns.RoomDecides | services/internal/router/hub.go:102-111 | over every run an event is delivered to an outlet if and only if some step offered it to an admitting filter while there was room, and dropped if and only if some step did while a whole buffer was waiting |
| FanoutRuns.FinishedVisitedAll | services/internal/router/hub.go:98-112 | a dispatch ends only after every connected subscriber was offered the event |
| FanoutRuns.AcceptedInOrder | services/internal/dashboard/broker.go:94-107 | what an outlet accepted from one source is in dispatch order, and each was admitted by the filter in force |
| FanoutRuns.TwoStagesCompose | services/internal/dashboard/routerpool.go:139-148 | every event one router stream puts in one browser's queue was matched by the stream's interest at the hub and allowed by the scope at the broker, and any two of them are in the hub's dispatch order |
| LivePath.DispatchDecides | services/internal/router/hub.go:97-116 | while a subscriber's interest stays, a dispatch that has ended has queued its event there or counted it as dropped if and only if the interest admits it, whatever else interleaves |
| LivePath.NothingAllowedIsFilteredOut | services/internal/dashboard/broker.go:124-157 | for a quiet stream, an event dispatched at the hub is queued for the pod or counted as dropped if and only if the union behind the last `Set` admits it; when that is the present union, if and only if some connected user may see it |
| HubRefinement.DispatchIsARun | services/internal/router/hub.go:97-116 | a dispatch nothing interrupts is a run of the machine with every connected outlet offered the event and every outcome counted |
| HubRefinement.DispatchInWorld | services/internal/router/hub.go:97-116 | calling the imperative dispatch on a hub that mirrors a world of the machine leaves it mirroring one that a run reaches |
| HubRefinement.HandshakeInWorld | services/internal/router/server.go:23-34 | a successful handshake connects one new outlet of the machine that is interested in nothing |
| HubRefinement.ReceiveInWorld | services/internal/router/server.go:40-53 | receiving an update is the machine's change of that outlet's filter; any other request changes nothing |
| HubRefinement.DrainInWorld | services/internal/router/server.go:64-67 | taking the next event to send is the machine's drain, and the event is the oldest one waiting |
| HubRefinement.FinishInWorld | services/internal/router/server.go:34 | the deferred removal disconnects exactly the subscriber's outlet |
| BrokerFanout.BrokerDispatchInWorld | services/internal/dashboard/broker.go:94-107 | calling the broker's dispatch for a router stream on a broker that mirrors a world of the fan-out machine leaves it mirroring one that a run reaches |
| BrokerRefinement.CollectionIsARun | services/internal/dashboard/broker.go:137-152 | an uninterrupted collection is a run of the interest machine ending with the union of the present table |
| BrokerRefinement.StoringIsARun | services/internal/dashboard/broker.go:126-132 | storing a user's scope is a run of the interest machine |
| BrokerRefinement.EnterInWorld | services/internal/dashboard/broker.go:79-81 | a registration's section under the lock is one step of the machine |
| BrokerRefinement.LeaveInWorld | services/internal/dashboard/broker.go:87-89 | so is a disconnection's |
| BrokerRefinement.StoreInWorld | services/internal/dashboard/broker.go:126-132 | and a scope refresh's is a run |
| BrokerRefinement.CollectInWorld | services/internal/dashboard/broker.go:137-152 | the imperative collection returns what the machine's task then holds |
| BrokerRefinement.PublishInWorld | services/internal/dashboard/broker.go:153-156 | the imperative publication is the machine's step, signals included, however much later it comes |
| FleetSync.Syncer.QueueAssignments | services/internal/authz/sync.go:30-34 | the queued commands set every assignment and index it |
| FleetSync.Syncer.QueueRemovals | services/internal/authz/sync.go:35-42 | the queued commands remove exactly the known VINs no longer assigned, and count them |
| FleetSync.Syncer.SyncOnce | services/internal/authz/sync.go:21-48 | the transaction leaves the specified cache whatever other clients executed since SMEMBERS, or nothing |
| FleetSync.Syncer.SetOne | services/internal/authz/sync.go:51-57 | the given fleet under the VIN and its index entry, together or not at all |
| FleetSync.SyncedAgreesIff | services/internal/authz/sync.go:30-45 | after a transaction Redis agrees with the assignments read on a VIN if and only if it is assigned, was known, or was not added since |
| FleetSync.KeysAreIndexed | services/internal/authz/sync.go:30-57 | at every step of every run a VIN has a fleet key if and only if it is in the index |
| FleetSync.SyncAgrees | services/internal/authz/sync.go:21-48 | after a sync Redis agrees with what it read on every VIN nobody else wrote in between |
| FleetSync.PushWritesItsFleet | services/internal/authz/sync.go:51-57 | over every run, right after a push Redis holds under the VIN the fleet the same call wrote to the table, and is right about it if and only if the table still says so |
| FleetSync.SyncAgreesWithTableIff | services/internal/authz/sync.go:21-48 | over every run, after a sync Redis agrees with the present table on a VIN if and only if the row read is still the row of the table, or the key the sync overlooks is right |
| FleetSync.SyncEqualsTableIff | services/internal/authz/sync.go:21-48 | Redis equals the whole table after a sync if and only if that holds of every VIN |
| FleetSync.UndisturbedSync | services/internal/authz/sync.go:21-48 | a sync nothing overlaps makes Redis equal to PostgreSQL, removals included |
| FleetSync.OverlapLeavesStaleFleet | services/internal/authz/service.go:120-126 | an overlapping sync can overwrite an administrator's change with the older fleet |
| Browser.Merge | web/src/useTelemetryStream.ts:56-63 | merging is the in-order fold of single reports |
| Browser.Hook.OnTelemetry | web/src/useTelemetryStream.ts:27-34 | an event is buffered |
| Browser.Hook.OnTimer | web/src/useTelemetryStream.ts:37-45 | the buffer is merged and emptied |
| Browser.Hook.OnInitial | web/src/useTelemetryStream.ts:19-22 | the snapshot is merged into what is already shown |
| Browser.MergedAndPending | web/src/useTelemetryStream.ts:16-45 | merged and buffered reports together are all that arrived |
| Browser.ShowsTheNewest | web/src/useTelemetryStream.ts:56-63 | for any batching, order, repetition and snapshot, the map shows each vehicle's maximum timestamp over all reports seen |
| Browser.Convergence | web/src/useTelemetryStream.ts:56-63 | if each vehicle has one newest report, the map depends only on the set of reports seen; older ones may conflict |
| Browser.ConvergesIff | web/src/useTelemetryStream.ts:56-63 | all flushed runs over a set of reports give the same map if and only if each vehicle has one newest report in it |
| Browser.TiesDependOnOrder | web/src/useTelemetryStream.ts:60 | of two conflicting newest reports the later one is shown |
| ScopeQuery.ScopeFromProto | services/internal/dashboard/broker.go:31-40 | the loops build exactly the granted sets |
| ScopeQuery.BuildQuery | services/internal/dashboard/api.go:124-138 | the query selects, among documents of the last 24 hours, exactly those the scope allows; the shortcut is taken exactly for a scope that allows nothing |
| ScopeQuery.ShouldMeansAny | services/internal/dashboard/api.go:137 | `minimum_should_match: 1` means some clause holds |
| ScopeQuery.CheckAccess | services/internal/authz/service.go:25-45 | the error cases and the decision of the access check |
| ScopeQuery.CheckAccessAgreesIff | services/internal/authz/service.go:41-43 | the access check and the live filters agree for every scope if and only if both ids are given |
| ScopeQuery.CheckAccessAgrees | services/internal/router/hub.go:46-55 | for one scope they agree if and only if an empty id that the scope lists makes no difference |

## Left out

Assumptions and simplifications of the model:

- Kafka, Redis, gRPC, OpenSearch and PostgreSQL are logs, maps, FIFO channels and tables with failures; their own protocols are not modelled.
- An errored produce, SET pipeline, commit or bulk request may take effect on any subset of what it carried, but not after the caller goes on; `IngestDuplicates.BoundedDuplication` would otherwise need more charges.
- Rebalances happen only between batches (`BlockRebalanceOnPoll`), so a partition has one owner; a consumer thrown out by a session timeout while it holds a batch is not modelled.
- Records of one VIN share a partition in both topics, because both are keyed by VIN; adding partitions later is not modelled.
- Pods share one clock that does not go back.
- OpenSearch decides on a document by its content alone (`fits`); the mapping itself is not modelled, and daily index names are day numbers.
- Message payloads: decoding protobuf and JSON is a partial function; `json.Marshal` fails exactly on non-finite numbers; `decodePayload` of the bridge is not modelled.
- A Go string is the sequence of its bytes; the quoted VIN in a refusal text and the trimming in `StatusString` are left out, so dead-letter reasons are compared up to that text.
- The interest version is an unbounded number; the source's uint64 would wrap.
- Counters on a failed attempt of `processBatch` are left open; the source has counted some records already.
- Persister.Persister.PersistBatch: takes the cluster's behaviour per round as a script, because the loop itself is endless; the same holds for Retry.Loop.RunBatch.
- Broker.Broker.Collect: scopes that others store during the loop itself are in InterestMachine only.
- Broker.Api.RefreshScopes: its contract is about a round without interference; Broker.Broker.UpdateScope has the interference.
- Each witness lemma shows one family of failing runs; it is the counterpart of the conditional theorem beside it.
- The hub and the broker are separate runs joined by `Feeds`; the gRPC stream between them delivers in order and without gaps.

Not modelled, because it would add only easy members or no algorithm:

- Deployment (Terraform, scripts, Dockerfiles, nginx), React components, map drawing and formatting.
- Login, tokens, cookies, HTTP handlers, health and metrics servers; of `upsertVehicle` only its order of writes.
- Backoff delays, heartbeats and tickers: they are steps that may happen at any moment.
- `RunPush`'s age cut-off, `reconcile` and `maintain`: easy set facts.
- The size limit, collapsing and sorting of the snapshot search, and the draining of up to 64 queued events per flush in `stream`.
- The vehicle simulator.
