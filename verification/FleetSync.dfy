/** The projection of PostgreSQL's vehicle assignments into Redis: concurrent `SyncOnce` calls and
    `upsertVehicle` pushes (services/internal/authz/sync.go, service.go). */
module FleetSync {
  import opened Wrappers

  /** PostgreSQL's assignments: VIN to fleet, for vehicles with a fleet. */
  type Mapping = map<string, string>

  /** Redis: the fleet keys by VIN, and the members of the index set. */
  datatype Cache = Cache(fleets: Mapping, index: set<string>)

  datatype Command =
    | SetFleet(vin: string, fleet: string)
    | AddMember(vin: string)
    | DelFleet(vin: string)
    | RemoveMember(vin: string)

  function Execute(c: Cache, cmd: Command): Cache {
    match cmd
    case SetFleet(vin, fleet) => c.(fleets := c.fleets[vin := fleet])
    case AddMember(vin) => c.(index := c.index + {vin})
    case DelFleet(vin) => c.(fleets := c.fleets - {vin})
    case RemoveMember(vin) => c.(index := c.index - {vin})
  }

  function ExecuteAll(c: Cache, cmds: seq<Command>): Cache {
    if cmds == [] then c else Execute(ExecuteAll(c, Init(cmds)), Last(cmds))
  }

  /** What a sync's transaction leaves: everything mapped is set, everything known but no longer mapped is gone. */
  function Synced(c: Cache, mapping: Mapping, known: set<string>): Cache {
    Cache((c.fleets + mapping) - (known - mapping.Keys), (c.index + mapping.Keys) - (known - mapping.Keys))
  }

  function Assigned(c: Cache, vin: string, fleet: string): Cache {
    Cache(c.fleets[vin := fleet], c.index + {vin})
  }

  /** The VINs with a fleet key are the members of the index set. */
  predicate Indexed(c: Cache) {
    c.fleets.Keys == c.index
  }

  // ---------- the code ----------

  class Redis {
    var data: Cache

    constructor ()
      ensures data == Cache(map[], {})
    {
      data := Cache(map[], {});
    }

    method Members() returns (known: set<string>)
      ensures known == data.index
    {
      known := data.index;
    }

    /** MULTI/EXEC: all commands or none. A failed call may still have been executed. */
    method Exec(cmds: seq<Command>, ok: bool, executed: bool)
      modifies this
      ensures data == if ok || executed then ExecuteAll(old(data), cmds) else old(data)
    {
      if ok || executed {
        data := ExecuteAll(data, cmds);
      }
    }
  }

  class Syncer {
    const redis: Redis

    constructor (redis: Redis)
      ensures this.redis == redis
    {
      this.redis := redis;
    }

    /** Queues SET and SADD for every assignment. */
    method QueueAssignments(mapping: Mapping, ghost c: Cache) returns (cmds: seq<Command>)
      ensures ExecuteAll(c, cmds) == Cache(c.fleets + mapping, c.index + mapping.Keys)
    {
      cmds := [];
      var vins := Order(mapping.Keys);
      assert Restrict(mapping, {}) == map[];
      for i := 0 to |vins|
        invariant ExecuteAll(c, cmds) ==
          Cache(c.fleets + Restrict(mapping, Members(vins[..i])), c.index + Members(vins[..i]))
      {
        var vin := vins[i];
        MembersStep(vins, i);
        AssignmentQueued(c, cmds, mapping, Members(vins[..i]), vin);
        cmds := cmds + [SetFleet(vin, mapping[vin])] + [AddMember(vin)];
      }
      assert vins[..|vins|] == vins;
      assert Members(vins) == mapping.Keys;
      assert Restrict(mapping, mapping.Keys) == mapping;
    }

    /** Queues DEL and SREM for every known VIN that is no longer mapped. */
    method QueueRemovals(mapping: Mapping, known: set<string>, queued: seq<Command>, ghost c: Cache)
      returns (cmds: seq<Command>, removed: nat)
      ensures ExecuteAll(c, cmds) ==
        Cache(
          ExecuteAll(c, queued).fleets - (known - mapping.Keys),
          ExecuteAll(c, queued).index - (known - mapping.Keys))
      ensures removed == |known - mapping.Keys|
    {
      cmds, removed := queued, 0;
      ghost var base := ExecuteAll(c, queued);
      var vins := Order(known);
      assert base.fleets - {} == base.fleets && base.index - {} == base.index;
      for i := 0 to |vins|
        invariant removed == |Unmapped(vins[..i], mapping)|
        invariant ExecuteAll(c, cmds) ==
          Cache(base.fleets - Unmapped(vins[..i], mapping), base.index - Unmapped(vins[..i], mapping))
      {
        var vin := vins[i];
        UnmappedStep(vins, i, mapping);
        if vin !in mapping {
          RemovalQueued(c, cmds, base, Unmapped(vins[..i], mapping), vin);
          cmds := cmds + [DelFleet(vin)] + [RemoveMember(vin)];
          removed := removed + 1;
        }
      }
      assert Unmapped(vins[..|vins|], mapping) == known - mapping.Keys;
    }

    /** `SyncOnce` for the assignments it read; `meanwhile` is what other clients execute between its
        SMEMBERS and its transaction. */
    method SyncOnce(mapping: Mapping, meanwhile: seq<Command>, ok: bool, executed: bool) returns (removed: nat)
      modifies redis
      ensures var before := ExecuteAll(old(redis.data), meanwhile);
        redis.data == if ok || executed then Synced(before, mapping, old(redis.data.index)) else before
      ensures removed == |old(redis.data.index) - mapping.Keys|
    {
      var known := redis.Members();
      redis.Exec(meanwhile, true, true);
      ghost var before := redis.data;
      var cmds := QueueAssignments(mapping, before);
      cmds, removed := QueueRemovals(mapping, known, cmds, before);
      redis.Exec(cmds, ok, executed);
    }

    /** `SetOne`. */
    method SetOne(vin: string, fleet: string, ok: bool, executed: bool)
      modifies redis
      ensures ok || executed ==>
        redis.data == Cache(old(redis.data.fleets)[vin := fleet], old(redis.data.index) + {vin})
      ensures !ok && !executed ==> redis.data == old(redis.data)
    {
      var cmds := [SetFleet(vin, fleet)] + [AddMember(vin)];
      QueuedTwo(redis.data, [], SetFleet(vin, fleet), AddMember(vin));
      assert [] + [SetFleet(vin, fleet)] == [SetFleet(vin, fleet)];
      redis.Exec(cmds, ok, executed);
    }
  }

  function Restrict(m: Mapping, keys: set<string>): Mapping {
    map k | k in m && k in keys :: m[k]
  }

  ghost function Members(vins: seq<string>): set<string> {
    set v | v in vins
  }

  lemma MembersStep(vins: seq<string>, i: nat)
    requires i < |vins|
    ensures Members(vins[..i + 1]) == Members(vins[..i]) + {vins[i]}
  {
    assert vins[..i + 1] == vins[..i] + [vins[i]];
  }

  ghost function Unmapped(vins: seq<string>, mapping: Mapping): set<string> {
    set v | v in vins && v !in mapping
  }

  lemma UnmappedStep(vins: seq<string>, i: nat, mapping: Mapping)
    requires i < |vins| && forall j, k :: 0 <= j < k < |vins| ==> vins[j] != vins[k]
    ensures Unmapped(vins[..i + 1], mapping) ==
      Unmapped(vins[..i], mapping) + if vins[i] in mapping then {} else {vins[i]}
    ensures |Unmapped(vins[..i + 1], mapping)| == |Unmapped(vins[..i], mapping)| + if vins[i] in mapping then 0 else 1
  {
    assert vins[..i + 1] == vins[..i] + [vins[i]];
    assert vins[i] !in vins[..i];
    assert Unmapped(vins[..i + 1], mapping) ==
      Unmapped(vins[..i], mapping) + if vins[i] in mapping then {} else {vins[i]};
  }

  lemma Queued(c: Cache, cmds: seq<Command>, cmd: Command)
    ensures ExecuteAll(c, cmds + [cmd]) == Execute(ExecuteAll(c, cmds), cmd)
  {
    assert Init(cmds + [cmd]) == cmds;
  }

  lemma QueuedTwo(c: Cache, cmds: seq<Command>, a: Command, b: Command)
    ensures ExecuteAll(c, cmds + [a] + [b]) == Execute(Execute(ExecuteAll(c, cmds), a), b)
  {
    Queued(c, cmds, a);
    Queued(c, cmds + [a], b);
  }

  lemma RestrictOne(a: Mapping, m: Mapping, done: set<string>, vin: string)
    requires vin in m
    ensures a + Restrict(m, done + {vin}) == (a + Restrict(m, done))[vin := m[vin]]
  {
  }

  lemma AssignmentQueued(c: Cache, cmds: seq<Command>, mapping: Mapping, done: set<string>, vin: string)
    requires vin in mapping && ExecuteAll(c, cmds) == Cache(c.fleets + Restrict(mapping, done), c.index + done)
    ensures ExecuteAll(c, cmds + [SetFleet(vin, mapping[vin])] + [AddMember(vin)]) ==
      Cache(c.fleets + Restrict(mapping, done + {vin}), c.index + (done + {vin}))
  {
    QueuedTwo(c, cmds, SetFleet(vin, mapping[vin]), AddMember(vin));
    RestrictOne(c.fleets, mapping, done, vin);
    assert c.index + done + {vin} == c.index + (done + {vin});
  }

  lemma RemovalQueued(c: Cache, cmds: seq<Command>, base: Cache, gone: set<string>, vin: string)
    requires ExecuteAll(c, cmds) == Cache(base.fleets - gone, base.index - gone)
    ensures ExecuteAll(c, cmds + [DelFleet(vin)] + [RemoveMember(vin)]) ==
      Cache(base.fleets - (gone + {vin}), base.index - (gone + {vin}))
  {
    QueuedTwo(c, cmds, DelFleet(vin), RemoveMember(vin));
    assert base.fleets - gone - {vin} == base.fleets - (gone + {vin});
    assert base.index - gone - {vin} == base.index - (gone + {vin});
  }

  // ---------- one transaction ----------

  /** After a sync's transaction Redis agrees with the assignments it read on a VIN if and only if the
      VIN is assigned, was known, or had not been added since SMEMBERS. */
  lemma SyncedAgreesIff(c: Cache, mapping: Mapping, known: set<string>, vin: string)
    requires Indexed(c)
    ensures AgreeOn(Synced(c, mapping, known).fleets, mapping, vin) <==>
      vin in mapping || vin in known || vin !in c.index
  {
  }

  lemma TransactionsKeepIndexed(c: Cache, mapping: Mapping, known: set<string>, vin: string, fleet: string)
    requires Indexed(c)
    ensures Indexed(Synced(c, mapping, known)) && Indexed(Assigned(c, vin, fleet))
  {
    assert Synced(c, mapping, known).fleets.Keys == Synced(c, mapping, known).index;
    assert Assigned(c, vin, fleet).fleets.Keys == Assigned(c, vin, fleet).index;
  }

  // ---------- any number of concurrent calls ----------

  datatype Task =
    | Read(mapping: Mapping)                         // SyncOnce after its query
    | Planned(mapping: Mapping, known: set<string>)  // and after SMEMBERS
    | Pushing(vin: string, fleet: string)            // upsertVehicle between its two writes

  /** `written` holds, per running sync, the VINs other calls wrote to Redis since its query. */
  datatype World = World(pg: Mapping, cache: Cache, tasks: map<nat, Task>, written: map<nat, set<string>>)

  datatype Label =
    | EditPg(vin: string, to: Option<string>)     // any other change of the vehicles table
    | Query(t: nat)
    | ListKnown(t: nat)
    | ExecSync(t: nat)
    | Upsert(t: nat, vin: string, fleet: string)     // upsertVehicle's database write
    | Push(t: nat)                                   // and its SetOne
    | GiveUp(t: nat)                                 // any error before or instead of execution

  predicate Enabled(w: World, l: Label) {
    match l
    case EditPg(_, _) => true
    case Query(t) => t !in w.tasks
    case ListKnown(t) => t in w.tasks && w.tasks[t].Read?
    case ExecSync(t) => t in w.tasks && w.tasks[t].Planned?
    case Upsert(t, vin, fleet) => t !in w.tasks && |vin| == 17 && fleet != []    // others are refused with 400
    case Push(t) => t in w.tasks && w.tasks[t].Pushing?
    case GiveUp(t) => t in w.tasks
  }

  function Writes(w: World, l: Label): set<string>
    requires Enabled(w, l)
  {
    match l
    case ExecSync(t) => w.tasks[t].mapping.Keys + w.tasks[t].known
    case Push(t) => {w.tasks[t].vin}
    case _ => {}
  }

  function Apply(w: World, l: Label): World
    requires Enabled(w, l)
  {
    var w' := w.(written := map t | t in w.written :: w.written[t] + Writes(w, l));
    match l
    case EditPg(vin, fleet) => w.(pg := if fleet.Some? then w.pg[vin := fleet.value] else w.pg - {vin})
    case Query(t) => w.(tasks := w.tasks[t := Read(w.pg)], written := w.written[t := {}])
    case ListKnown(t) => w.(tasks := w.tasks[t := Planned(w.tasks[t].mapping, w.cache.index)])
    case ExecSync(t) => w'.(cache := Synced(w.cache, w.tasks[t].mapping, w.tasks[t].known), tasks := w.tasks - {t})
    case Upsert(t, vin, fleet) => w.(pg := w.pg[vin := fleet], tasks := w.tasks[t := Pushing(vin, fleet)])
    case Push(t) => w'.(cache := Assigned(w.cache, w.tasks[t].vin, w.tasks[t].fleet), tasks := w.tasks - {t})
    case GiveUp(t) => w.(tasks := w.tasks - {t})
  }

  predicate CanRun(w: World, ls: seq<Label>)
    decreases |ls|, 0
  {
    ls == [] || (CanRun(w, Init(ls)) && Enabled(Run(w, Init(ls)), Last(ls)))
  }

  function Run(w: World, ls: seq<Label>): World
    requires CanRun(w, ls)
    decreases |ls|, 1
  {
    if ls == [] then w else Apply(Run(w, Init(ls)), Last(ls))
  }

  predicate Initial(w: World) {
    w.cache == Cache(map[], {}) && w.tasks == map[] && w.written == map[]
  }

  /** A VIN a sync would overlook was written by somebody else since its query. */
  predicate PlanOk(w: World, t: nat)
    requires t in w.tasks
  {
    w.tasks[t].Planned? ==> t in w.written && w.cache.index - w.tasks[t].known <= w.written[t]
  }

  predicate SyncOk(w: World) {
    && Indexed(w.cache)
    && forall t :: t in w.tasks ==> PlanOk(w, t) && (w.tasks[t].Read? ==> t in w.written)
  }

  lemma StepKeepsSync(w: World, l: Label)
    requires SyncOk(w) && Enabled(w, l)
    ensures SyncOk(Apply(w, l))
  {
    if l.ExecSync? {
      TransactionsKeepIndexed(w.cache, w.tasks[l.t].mapping, w.tasks[l.t].known, "", "");
    } else if l.Push? {
      TransactionsKeepIndexed(w.cache, map[], {}, w.tasks[l.t].vin, w.tasks[l.t].fleet);
    }
    forall t | t in Apply(w, l).tasks ensures PlanOk(Apply(w, l), t) {
      assert t in w.tasks ==> PlanOk(w, t);
    }
  }

  lemma {:induction false} RunsKeepSync(w: World, ls: seq<Label>)
    requires Initial(w) && CanRun(w, ls)
    ensures SyncOk(Run(w, ls))
    decreases |ls|
  {
    if ls != [] {
      RunsKeepSync(w, Init(ls));
      StepKeepsSync(Run(w, Init(ls)), Last(ls));
    }
  }

  /** At every step, whatever overlaps or fails: a VIN has a fleet key if and only if it is in the index. */
  lemma {:induction false} KeysAreIndexed(w: World, ls: seq<Label>, vin: string)
    requires Initial(w) && CanRun(w, ls)
    ensures vin in Run(w, ls).cache.fleets <==> vin in Run(w, ls).cache.index
  {
    RunsKeepSync(w, ls);
  }

  /** After a `SyncOnce` executes, Redis agrees with the assignments it read on every VIN no other call
      wrote between that read and the transaction, and on every VIN it assigns. */
  lemma {:induction false} SyncAgrees(w: World, ls: seq<Label>, t: nat, vin: string)
    requires Initial(w) && CanRun(w, ls) && Enabled(Run(w, ls), ExecSync(t))
    ensures var v := Run(w, ls);
      && t in v.written
      && (vin !in v.written[t] || vin in v.tasks[t].mapping ==>
            AgreeOn(Apply(v, ExecSync(t)).cache.fleets, v.tasks[t].mapping, vin))
  {
    RunsKeepSync(w, ls);
    var v := Run(w, ls);
    assert PlanOk(v, t);
    SyncedAgreesIff(v.cache, v.tasks[t].mapping, v.tasks[t].known, vin);
  }

  /** A key the sync neither sets nor deletes: added since SMEMBERS for a VIN it did not read. */
  predicate Overlooked(w: World, t: nat, vin: string)
    requires t in w.tasks && w.tasks[t].Planned?
  {
    vin in w.cache.index && vin !in w.tasks[t].known && vin !in w.tasks[t].mapping
  }

  /** What the sync is about to get right about a VIN: the row it read is still the row of the table, or
      the key it overlooks is right already. */
  predicate RightFor(w: World, t: nat, vin: string)
    requires t in w.tasks && w.tasks[t].Planned?
  {
    AgreeOn(if Overlooked(w, t, vin) then w.cache.fleets else w.tasks[t].mapping, w.pg, vin)
  }

  /** Over every run, after a `SyncOnce` executes Redis agrees with PostgreSQL's present table on a VIN if
      and only if the row read is still the row of the table, or the key the sync overlooks is right. */
  lemma {:induction false} SyncAgreesWithTableIff(w: World, ls: seq<Label>, t: nat, vin: string)
    requires Initial(w) && CanRun(w, ls) && Enabled(Run(w, ls), ExecSync(t))
    ensures var v := Run(w, ls);
      AgreeOn(Apply(v, ExecSync(t)).cache.fleets, v.pg, vin) <==> RightFor(v, t, vin)
  {
    RunsKeepSync(w, ls);
    var v := Run(w, ls);
    assert Indexed(v.cache);
    SyncedHolds(v.cache, v.tasks[t].mapping, v.tasks[t].known, vin);
  }

  /** What a transaction leaves for one VIN: the assignment read, or the overlooked key. */
  lemma SyncedHolds(c: Cache, mapping: Mapping, known: set<string>, vin: string)
    requires Indexed(c)
    ensures var source := if vin in c.index && vin !in known && vin !in mapping then c.fleets else mapping;
      AgreeOn(Synced(c, mapping, known).fleets, source, vin)
  {
  }

  /** So the whole of Redis equals the table if and only if that holds of every VIN. */
  lemma {:induction false} SyncEqualsTableIff(w: World, ls: seq<Label>, t: nat)
    requires Initial(w) && CanRun(w, ls) && Enabled(Run(w, ls), ExecSync(t))
    ensures var v := Run(w, ls);
      Apply(v, ExecSync(t)).cache == Cache(v.pg, v.pg.Keys) <==> forall vin :: RightFor(v, t, vin)
  {
    var v := Run(w, ls);
    var c := Apply(v, ExecSync(t)).cache;
    RunsKeepSync(w, ls);
    StepKeepsSync(v, ExecSync(t));
    forall vin ensures AgreeOn(c.fleets, v.pg, vin) <==> RightFor(v, t, vin) {
      SyncAgreesWithTableIff(w, ls, t, vin);
    }
    if forall vin :: RightFor(v, t, vin) {
      AgreeEverywhere(c.fleets, v.pg);
    }
  }

  // ---------- a push ----------

  /** The last label of the run that belongs to task `t` is the database write of this push. */
  predicate Upserted(ls: seq<Label>, t: nat, vin: string, fleet: string) {
    ls != [] && if OfTask(Last(ls), t) then Last(ls) == Upsert(t, vin, fleet) else Upserted(Init(ls), t, vin, fleet)
  }

  predicate OfTask(l: Label, t: nat) {
    !l.EditPg? && l.t == t
  }

  lemma {:induction false} PushingWasUpserted(w: World, ls: seq<Label>, t: nat)
    requires Initial(w) && CanRun(w, ls) && t in Run(w, ls).tasks && Run(w, ls).tasks[t].Pushing?
    ensures Upserted(ls, t, Run(w, ls).tasks[t].vin, Run(w, ls).tasks[t].fleet)
    decreases |ls|
  {
    if ls != [] && !OfTask(Last(ls), t) {
      PushingWasUpserted(w, Init(ls), t);
    }
  }

  /** Over every run, right after a push Redis holds the fleet its own call wrote to the table, under that
      VIN and nowhere else; and it is right about the VIN if and only if the table still says so. */
  lemma {:induction false} PushWritesItsFleet(w: World, ls: seq<Label>, t: nat) returns (vin: string, fleet: string)
    requires Initial(w) && CanRun(w, ls) && Enabled(Run(w, ls), Push(t))
    ensures Upserted(ls, t, vin, fleet)
    ensures var v := Run(w, ls);
      var c := Apply(v, Push(t)).cache;
      && c == Cache(v.cache.fleets[vin := fleet], v.cache.index + {vin})
      && (AgreeOn(c.fleets, v.pg, vin) <==> vin in v.pg && v.pg[vin] == fleet)
  {
    vin, fleet := Run(w, ls).tasks[t].vin, Run(w, ls).tasks[t].fleet;
    PushingWasUpserted(w, ls, t);
  }

  // ---------- an undisturbed sync ----------

  /** Nobody changed the table or wrote Redis since sync `t` read the table. */
  predicate Untouched(w: World, t: nat) {
    t in w.tasks ==>
      match w.tasks[t]
      case Read(mapping) => mapping == w.pg
      case Planned(mapping, known) => mapping == w.pg && known == w.cache.index
      case Pushing(_, _) => false
  }

  predicate Disturbs(l: Label) {
    l.EditPg? || l.Upsert? || l.ExecSync? || l.Push?
  }

  lemma {:induction false} UntouchedStretch(w: World, ls: seq<Label>, t: nat)
    requires CanRun(w, ls) && Untouched(w, t) && forall l :: l in ls ==> !Disturbs(l)
    ensures Untouched(Run(w, ls), t) && Run(w, ls).pg == w.pg
    decreases |ls|
  {
    if ls != [] {
      UntouchedStretch(w, Init(ls), t);
      assert Last(ls) in ls;
    }
  }

  /** A sync during which nothing else writes makes Redis equal to PostgreSQL, removals included,
      whatever earlier overlaps left behind. */
  lemma {:induction false} UndisturbedSync(w: World, before: seq<Label>, t: nat, during: seq<Label>)
    requires Initial(w) && CanRun(w, before) && Enabled(Run(w, before), Query(t))
    requires CanRun(Apply(Run(w, before), Query(t)), during) && forall l :: l in during ==> !Disturbs(l)
    requires Enabled(Run(Apply(Run(w, before), Query(t)), during), ExecSync(t))
    ensures var v := Run(Apply(Run(w, before), Query(t)), during);
      Apply(v, ExecSync(t)).cache.fleets == v.pg && Apply(v, ExecSync(t)).cache.index == v.pg.Keys
  {
    var u := Apply(Run(w, before), Query(t));
    RunsKeepSync(w, before);
    StepKeepsSync(Run(w, before), Query(t));
    UntouchedStretch(u, during, t);
    StretchKeepsSync(u, during);
    var v := Run(u, during);
    assert Indexed(v.cache);
    assert Apply(v, ExecSync(t)).cache.fleets == v.pg;
    assert Apply(v, ExecSync(t)).cache.index == v.pg.Keys;
  }

  lemma {:induction false} StretchKeepsSync(w: World, ls: seq<Label>)
    requires SyncOk(w) && CanRun(w, ls)
    ensures SyncOk(Run(w, ls))
    decreases |ls|
  {
    if ls != [] {
      StretchKeepsSync(w, Init(ls));
      StepKeepsSync(Run(w, Init(ls)), Last(ls));
    }
  }

  // ---------- an overlapping sync ----------

  lemma ThenStep(w: World, ls: seq<Label>, l: Label)
    requires CanRun(w, ls) && Enabled(Run(w, ls), l)
    ensures CanRun(w, ls + [l]) && Run(w, ls + [l]) == Apply(Run(w, ls), l)
  {
    assert Init(ls + [l]) == ls;
  }

  /** An administrator moves a vehicle while a sync is under way: the push is overwritten with the older
      fleet, all calls have ended, and Redis stays wrong until the next sync. */
  lemma OverlapLeavesStaleFleet(vin: string, f: string, g: string) returns (ls: seq<Label>)
    requires f != g && |vin| == 17 && g != []
    ensures var w := World(map[vin := f], Cache(map[], {}), map[], map[]);
      && Initial(w) && CanRun(w, ls)
      && Run(w, ls).tasks == map[] && vin in Run(w, ls).pg && Run(w, ls).pg[vin] == g
      && vin in Run(w, ls).cache.fleets && Run(w, ls).cache.fleets[vin] == f
  {
    var w := World(map[vin := f], Cache(map[], {}), map[], map[]);
    ls := [];
    ThenStep(w, ls, Query(0));
    ls := ls + [Query(0)];
    ThenStep(w, ls, ListKnown(0));
    ls := ls + [ListKnown(0)];
    ThenStep(w, ls, Upsert(1, vin, g));
    ls := ls + [Upsert(1, vin, g)];
    ThenStep(w, ls, Push(1));
    ls := ls + [Push(1)];
    ThenStep(w, ls, ExecSync(0));
    ls := ls + [ExecSync(0)];
  }
}
