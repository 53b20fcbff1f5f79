/** Agreement at quiescence: when the last `Set` came from the present client table and a stream is quiet,
    its router admits exactly what some connected user may see. Overlapping recomputes can break this;
    any later undisturbed one restores it. */
module InterestAgreement {
  import opened Wrappers
  import opened Interest
  import opened InterestMachine
  import opened InterestStreams

  // ---------- the table and the tasks ----------

  ghost predicate TaskOk(clients: map<nat, Client>, changes: nat, task: Task) {
    match task
    case Rescoping(_, _, todo) => todo <= clients.Keys
    case Starting => true
    case Collecting(todo, sum, since) =>
      && todo <= clients.Keys && since <= changes
      && (since == changes ==> sum == UnionOver(clients, clients.Keys - todo))
    case Collected(sum, epoch) =>
      epoch.Some? ==> epoch.value <= changes && (epoch.value == changes ==> sum == Union(clients))
  }

  /** An epoch is the present one exactly while the published union is that of the present table. */
  ghost predicate EpochOk(w: World) {
    w.epoch.Some? ==>
      w.epoch.value <= w.changes && (w.epoch.value == w.changes ==> FromProto(w.cur) == Collapse(Union(w.clients)))
  }

  ghost predicate TableOk(w: World) {
    && EpochOk(w) && Normal(w.cur)
    && forall t :: t in w.tasks ==> TaskOk(w.clients, w.changes, w.tasks[t])
  }

  /** A change of the table or of a scope. */
  predicate Changes(l: Label) {
    l.Register? || l.Unregister? || l.Visit?
  }

  lemma ChangeKeepsTask(clients: map<nat, Client>, changes: nat, clients': map<nat, Client>, task: Task)
    requires TaskOk(clients, changes, task)
    requires Reader(task) ==> clients.Keys <= clients'.Keys
    ensures TaskOk(clients', changes + 1, task)
  {
  }

  lemma ChangeKeepsTable(w: World, l: Label)
    requires TableOk(w) && Enabled(w, l) && Changes(l)
    ensures TableOk(Apply(w, l))
  {
    var w' := Apply(w, l);
    forall t | t in w'.tasks ensures TaskOk(w'.clients, w'.changes, w'.tasks[t]) {
      if t in w.tasks {
        assert TaskOk(w.clients, w.changes, w.tasks[t]);
        assert l.Visit? || !Reader(w.tasks[t]);
        if w'.changes == w.changes + 1 {
          ChangeKeepsTask(w.clients, w.changes, w'.clients, w.tasks[t]);
        }
      }
    }
  }

  lemma CollectKeepsTable(w: World, t: nat, c: nat)
    requires TableOk(w) && Enabled(w, Collect(t, c))
    ensures TableOk(Apply(w, Collect(t, c)))
  {
    var task := w.tasks[t];
    assert TaskOk(w.clients, w.changes, task);
    UnionAddsOne(w.clients, w.clients.Keys - task.todo, c);
    assert w.clients.Keys - (task.todo - {c}) == w.clients.Keys - task.todo + {c};
  }

  lemma CollectBounds(w: World, t: nat)
    requires TableOk(w) && t in w.tasks
    ensures Enabled(w, StartCollect(t)) ==> TableOk(Apply(w, StartCollect(t)))
    ensures Enabled(w, FinishCollect(t)) ==> TableOk(Apply(w, FinishCollect(t)))
  {
    assert TaskOk(w.clients, w.changes, w.tasks[t]);
    assert w.clients.Keys - w.clients.Keys == {};
    UnionOverNone(w.clients);
    assert w.clients.Keys - {} == w.clients.Keys;
  }

  lemma PublishKeepsTable(w: World, t: nat, fleets: seq<string>, vins: seq<string>)
    requires TableOk(w) && Enabled(w, Publish(t, fleets, vins))
    ensures TableOk(PublishedBy(w, t, fleets, vins))
  {
    assert TaskOk(w.clients, w.changes, w.tasks[t]);
    SetRepresents(w.cur, w.tasks[t].sum, w.tasks[t].sum.all, fleets, vins);
  }

  lemma StepKeepsTable(w: World, l: Label)
    requires TableOk(w) && Enabled(w, l)
    ensures TableOk(Apply(w, l))
  {
    if Changes(l) {
      ChangeKeepsTable(w, l);
    } else if l.Collect? {
      CollectKeepsTable(w, l.t, l.c);
    } else if l.StartCollect? || l.FinishCollect? {
      CollectBounds(w, l.t);
    } else if l.Publish? {
      PublishKeepsTable(w, l.t, l.fleets, l.vins);
    }
  }

  lemma {:induction false} TableStaysOk(ls: seq<Label>)
    requires CanRun(START, ls)
    ensures TableOk(Run(START, ls))
    decreases |ls|
  {
    if ls == [] {
      UnionOverNone(START.clients);
      assert FromProto(NO_INTEREST) == NOTHING;
    } else {
      TableStaysOk(Init(ls));
      StepKeepsTable(Run(START, Init(ls)), Last(ls));
    }
  }

  // ---------- agreement ----------

  /** The last `Set` came from a snapshot of the present table. */
  predicate UpToDate(w: World) {
    w.epoch == Some(w.changes)
  }

  /** The union behind the last `Set` of a run. */
  ghost function LastSum(ls: seq<Label>): Filter
    requires CanRun(START, ls)
  {
    if ls == [] then NOTHING
    else if Last(ls).Publish? then Run(START, Init(ls)).tasks[Last(ls).t].sum
    else LastSum(Init(ls))
  }

  lemma {:induction false} BusShowsLastSum(ls: seq<Label>)
    requires CanRun(START, ls)
    ensures FromProto(Run(START, ls).cur) == Collapse(LastSum(ls))
    decreases |ls|
  {
    if ls == [] {
      assert FromProto(NO_INTEREST) == NOTHING;
    } else {
      BusShowsLastSum(Init(ls));
      TableStaysOk(Init(ls));
      if Last(ls).Publish? {
        var sum := Run(START, Init(ls)).tasks[Last(ls).t].sum;
        SetRepresents(Run(START, Init(ls)).cur, sum, sum.all, Last(ls).fleets, Last(ls).vins);
      }
    }
  }

  /** The router admits exactly what some connected user may see. */
  ghost predicate Agrees(interest: Filter, clients: map<nat, Client>) {
    forall fleet, vin :: interest.Admits(fleet, vin) <==> Allowed(clients, fleet, vin)
  }

  lemma AgreesIff(interest: Filter, clients: map<nat, Client>)
    requires Collapse(interest) == interest
    ensures Agrees(interest, clients) <==> interest == Collapse(Union(clients))
  {
    forall fleet, vin ensures Allowed(clients, fleet, vin) <==> SomeAdmits(Scopes(clients, clients.Keys), fleet, vin) {
      AllowedIsSomeScope(clients, fleet, vin);
    }
    ServesIff(interest, Scopes(clients, clients.Keys));
  }

  /** A quiet stream's router admits exactly what some connected user may see if and only if the union
      behind the last `Set` represents the same interest as the union of the present client table. */
  lemma {:induction false} QuiescentAgreementIff(ls: seq<Label>, s: nat)
    requires CanRun(START, ls) && s in Run(START, ls).streams && Quiet(Run(START, ls).streams[s])
    ensures var w := Run(START, ls);
      && w.streams[s].router.Subscribed?
      && (Agrees(w.streams[s].router.interest, w.clients) <==> Collapse(LastSum(ls)) == Collapse(Union(w.clients)))
  {
    QuietRouterIsCurrent(ls, s);
    BusShowsLastSum(ls);
    AgreesIff(Collapse(LastSum(ls)), Run(START, ls).clients);
  }

  /** In particular, when the last `Set` came from a snapshot of the present client table, every quiet
      stream's router agrees. */
  lemma {:induction false} QuiescentAgreement(ls: seq<Label>, s: nat)
    requires CanRun(START, ls) && UpToDate(Run(START, ls))
    requires s in Run(START, ls).streams && Quiet(Run(START, ls).streams[s])
    ensures var w := Run(START, ls);
      w.streams[s].router.Subscribed? && Agrees(w.streams[s].router.interest, w.clients)
  {
    TableStaysOk(ls);
    BusShowsLastSum(ls);
    QuiescentAgreementIff(ls, s);
  }

  /** Task `t` has seen no change since it started collecting. */
  predicate Unchanged(w: World, t: nat, n: nat) {
    && w.changes == n
    && (t in w.tasks && w.tasks[t].Collecting? ==> w.tasks[t].since == n)
    && (t in w.tasks && w.tasks[t].Collected? ==> w.tasks[t].epoch == Some(n))
  }

  lemma QuietStep(w: World, l: Label, t: nat, n: nat)
    requires Enabled(w, l) && Unchanged(w, t, n) && !Changes(l)
    ensures Unchanged(Apply(w, l), t, n)
  {
  }

  lemma {:induction false} QuietStretch(w: World, ls: seq<Label>, t: nat, n: nat)
    requires CanRun(w, ls) && Unchanged(w, t, n)
    requires forall l :: l in ls ==> !Changes(l)
    ensures Unchanged(Run(w, ls), t, n)
    decreases |ls|
  {
    if ls != [] {
      QuietStretch(w, Init(ls), t, n);
      QuietStep(Run(w, Init(ls)), Last(ls), t, n);
    }
  }

  /** A recompute during which nobody connects, disconnects or changes scope leaves the bus up to date,
      whatever state earlier overlaps left behind and whatever other recomputes publish meanwhile. */
  lemma {:induction false} UndisturbedRecompute(
      before: seq<Label>, t: nat, during: seq<Label>, fleets: seq<string>, vins: seq<string>)
    requires CanRun(START, before) && Enabled(Run(START, before), StartCollect(t))
    requires CanRun(Apply(Run(START, before), StartCollect(t)), during)
    requires forall l :: l in during ==> !Changes(l)
    requires Enabled(Run(Apply(Run(START, before), StartCollect(t)), during), Publish(t, fleets, vins))
    ensures UpToDate(Apply(Run(Apply(Run(START, before), StartCollect(t)), during), Publish(t, fleets, vins)))
  {
    var w := Apply(Run(START, before), StartCollect(t));
    QuietStretch(w, during, t, w.changes);
  }

  /** Being up to date lasts until the next change or the next `Set`. */
  lemma StaysUpToDate(w: World, l: Label)
    requires UpToDate(w) && Enabled(w, l) && !Changes(l) && !l.Publish?
    ensures UpToDate(Apply(w, l))
  {
  }

  // ---------- overlapping recomputes ----------

  function Owner(user: string, fleet: string): Client {
    Client(user, Filter(false, {fleet}, {}))
  }

  function Sum1(f: string): Filter {
    Join(NOTHING, Filter(false, {f}, {}))
  }

  function Sum2(f: string, g: string): Filter {
    Join(Sum1(f), Filter(false, {g}, {}))
  }

  function First(u: string, f: string): World {
    START.(clients := map[0 := Owner(u, f)], tasks := map[0 := Collected(Sum1(f), Some(1))], changes := 1)
  }

  /** One user connects; the recompute has collected but not yet published. */
  lemma FirstConnects(u: string, f: string) returns (ls: seq<Label>)
    ensures CanRun(START, ls) && Run(START, ls) == First(u, f)
  {
    var c := Owner(u, f);
    var w1 := START.(clients := map[0 := c], tasks := map[0 := Starting], changes := 1);
    ThenStep(START, [], Register(0, 0, c));
    ls := [] + [Register(0, 0, c)];
    assert Run(START, ls) == w1;
    ls := Collects(START, ls, w1, 0);
    ThenStep(START, ls, Collect(0, 0));
    ls := ls + [Collect(0, 0)];
    assert {0} - {0} == {};
    ThenStep(START, ls, FinishCollect(0));
    ls := ls + [FinishCollect(0)];
    assert Run(START, ls) == First(u, f);
  }

  lemma Collects(w: World, ls: seq<Label>, v: World, t: nat) returns (ls': seq<Label>)
    requires CanRun(w, ls) && Run(w, ls) == v && t in v.tasks && v.tasks[t].Starting?
    ensures CanRun(w, ls') && Run(w, ls') == WithTask(v, t, Collecting(v.clients.Keys, NOTHING, v.changes))
  {
    ThenStep(w, ls, StartCollect(t));
    ls' := ls + [StartCollect(t)];
  }

  function Second(u: string, f: string, v: string, g: string): World {
    START.(clients := map[0 := Owner(u, f), 1 := Owner(v, g)],
           tasks := map[0 := Collected(Sum1(f), Some(1)), 1 := Collected(Sum2(f, g), Some(2))], changes := 2)
  }

  function SecondStarts(u: string, f: string, v: string, g: string, task: Task): World {
    Second(u, f, v, g).(tasks := map[0 := Collected(Sum1(f), Some(1)), 1 := task])
  }

  lemma SecondRegisters(u: string, f: string, v: string, g: string) returns (ls: seq<Label>)
    ensures CanRun(START, ls) && Run(START, ls) == SecondStarts(u, f, v, g, Starting)
  {
    ls := FirstConnects(u, f);
    ThenStep(START, ls, Register(1, 1, Owner(v, g)));
    ls := ls + [Register(1, 1, Owner(v, g))];
  }

  lemma SecondCollects(u: string, f: string, v: string, g: string, todo: set<nat>, sum: Filter, c: nat)
    requires c in todo && c < 2
    ensures var w := SecondStarts(u, f, v, g, Collecting(todo, sum, 2));
      && Enabled(w, Collect(1, c))
      && Apply(w, Collect(1, c)) == SecondStarts(u, f, v, g, Collecting(todo - {c}, Join(sum, w.clients[c].scope), 2))
  {
  }

  /** Another user connects; its recompute has collected both scopes. */
  lemma SecondConnects(u: string, f: string, v: string, g: string) returns (ls: seq<Label>)
    ensures CanRun(START, ls) && Run(START, ls) == Second(u, f, v, g)
  {
    ls := SecondRegisters(u, f, v, g);
    ls := Collects(START, ls, SecondStarts(u, f, v, g, Starting), 1);
    assert Second(u, f, v, g).clients.Keys == {0, 1};
    assert Run(START, ls) == SecondStarts(u, f, v, g, Collecting({0, 1}, NOTHING, 2));
    SecondCollects(u, f, v, g, {0, 1}, NOTHING, 0);
    ThenStep(START, ls, Collect(1, 0));
    ls := ls + [Collect(1, 0)];
    SecondCollects(u, f, v, g, {0, 1} - {0}, Sum1(f), 1);
    ThenStep(START, ls, Collect(1, 1));
    ls := ls + [Collect(1, 1)];
    SecondFinishes(u, f, v, g);
    ThenStep(START, ls, FinishCollect(1));
    ls := ls + [FinishCollect(1)];
  }

  lemma SecondFinishes(u: string, f: string, v: string, g: string)
    ensures var w := SecondStarts(u, f, v, g, Collecting({0, 1} - {0} - {1}, Sum2(f, g), 2));
      Enabled(w, FinishCollect(1)) && Apply(w, FinishCollect(1)) == Second(u, f, v, g)
  {
    assert {0, 1} - {0} - {1} == {};
  }

  lemma OneSorted(f: string)
    ensures ArgsOf(Sum1(f), false, [f], []) && Elements([f]) == {f}
  {
    assert Elements([f]) == {f} && Elements([]) == {};
  }

  lemma TwoSorted(f: string, g: string)
    requires f != g
    ensures ArgsOf(Sum2(f, g), false, Sorted([f, g]), [])
    ensures Sorted([f, g]) != [f] && Sorted([f, g]) != []
  {
    SortedSorts([f, g]);
    assert Elements([f, g]) == {f, g} && Elements([]) == {};
    assert g in Elements(Sorted([f, g]));
  }

  /** Stream steps leave the table and the tasks alone. */
  lemma {:induction false} StreamStepsKeepTable(w: World, ls: seq<Label>)
    requires CanRun(w, ls) && forall l :: l in ls ==> OfStream(l)
    ensures Run(w, ls).clients == w.clients && Run(w, ls).tasks == w.tasks
    decreases |ls|
  {
    if ls != [] {
      StreamStepsKeepTable(w, Init(ls));
      assert OfStream(Last(ls));
    }
  }

  /** The two recomputes publish in the opposite order: no call is pending, yet the bus holds the older union. */
  lemma OverlappingPublishes(u: string, f: string, v: string, g: string) returns (ls: seq<Label>)
    requires f != g
    ensures CanRun(START, ls)
    ensures var w := Run(START, ls);
      && w.tasks == map[] && w.streams == map[] && w.clients == map[0 := Owner(u, f), 1 := Owner(v, g)]
      && FromProto(w.cur) == Sum1(f)
  {
    ls := SecondConnects(u, f, v, g);
    TwoSorted(f, g);
    OneSorted(f);
    ThenStep(START, ls, Publish(1, Sorted([f, g]), []));
    ls := ls + [Publish(1, Sorted([f, g]), [])];
    ThenStep(START, ls, Publish(0, [f], []));
    ls := ls + [Publish(0, [f], [])];
  }

  /** Two users of different fleets connect, their recomputes publish in the opposite order, and a router
      stream opens and settles: no call is pending and the stream is quiet, yet its router refuses the
      second user's fleet for every vehicle. */
  lemma OverlapBreaksAgreement(u: string, f: string, v: string, g: string, vin: string) returns (ls: seq<Label>)
    requires u != v && f != g
    ensures CanRun(START, ls)
    ensures var w := Run(START, ls);
      && w.tasks == map[] && w.clients == map[0 := Owner(u, f), 1 := Owner(v, g)]
      && 0 in w.streams && Quiet(w.streams[0]) && w.streams[0].router.Subscribed?
      && Allowed(w.clients, g, vin) && !w.streams[0].router.interest.Admits(g, vin)
  {
    ls := OverlappingPublishes(u, f, v, g);
    ThenStep(START, ls, Open(0));
    ls := ls + [Open(0)];
    var w := Run(START, ls);
    StreamsStayOk(ls);
    var more := StreamCatchesUp(w, 0);
    StreamStepsKeepTable(w, more);
    RunConcat(START, ls, more);
    ls := ls + more;
    assert w.clients[1].scope.Admits(g, vin);
  }
}
