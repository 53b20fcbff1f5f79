/** Interest propagation as a transition system: browsers connect, disconnect and change scope; concurrent
    `recompute` calls publish unions to the bus; every router stream carries interests to its router.

    The broker's read lock lets scope stores and the collecting loops of several recomputes interleave;
    its write lock keeps registrations out meanwhile. Bus operations are atomic under the bus mutex. */
module InterestMachine {
  import opened Wrappers
  import opened Interest

  datatype Client = Client(user: string, scope: Filter)

  /** One call of Register, Unregister or UpdateScope on its way to `bus.Set`. */
  datatype Task =
    | Rescoping(user: string, scope: Filter, todo: set<nat>)    // UpdateScope's loop, under the read lock
    | Starting                                                  // recompute, before the read lock
    | Collecting(todo: set<nat>, sum: Filter, since: nat)       // recompute's loop, under the read lock
    | Collected(sum: Filter, epoch: Option<nat>)                // lock released, before `bus.Set`

  datatype Message = Hello | Carry(update: Update)

  datatype Phase =
    | Opened                    // Subscribe called
    | Watching                  // channel registered, Hello not yet sent
    | Reading                   // about to call Current
    | Sending(update: Update)   // Current returned, not yet sent
    | Waiting                   // in the select loop
    | Closed

  datatype RouterSide = Fresh | Subscribed(interest: Filter, from: Option<Update>) | Gone

  /** One Subscribe stream: the dashboard's goroutine and one-slot channel, the messages in flight, and
      the router's subscriber. `sent` is the last interest sent. */
  datatype Stream = Stream(phase: Phase, signal: bool, sent: Option<Update>, wire: seq<Message>, router: RouterSide)

  /** `changes` counts scope and table changes; `epoch` is the count at which the union behind the last
      `Set` was the union of the whole table, if there was such a moment. `history` are all bus values. */
  datatype World = World(
    clients: map<nat, Client>,
    tasks: map<nat, Task>,
    cur: Update,
    streams: map<nat, Stream>,
    history: seq<Update>,
    changes: nat,
    epoch: Option<nat>)

  datatype Label =
    | Register(t: nat, c: nat, client: Client)
    | Unregister(t: nat, c: nat)
    | Rescope(t: nat, user: string, scope: Filter)
    | Visit(t: nat, c: nat)
    | Rescoped(t: nat)
    | StartCollect(t: nat)
    | Collect(t: nat, c: nat)
    | FinishCollect(t: nat)
    | Publish(t: nat, fleets: seq<string>, vins: seq<string>)
    | Open(s: nat)
    | Watch(s: nat)
    | Greet(s: nat)
    | ReadCurrent(s: nat)
    | Send(s: nat)
    | Wake(s: nat)
    | Close(s: nat, kept: nat)      // any error or cancellation; what was in flight may be lost from some point on
    | Receive(s: nat)               // the router takes the next message
    | HangUp(s: nat)                // the router's handler returns

  predicate Reader(task: Task) {
    task.Rescoping? || task.Collecting?
  }

  /** No task holds the broker's read lock. */
  predicate Unlocked(w: World) {
    forall t :: t in w.tasks ==> !Reader(w.tasks[t])
  }

  ghost predicate Enabled(w: World, l: Label) {
    match l
    case Register(t, c, _) => t !in w.tasks && c !in w.clients && Unlocked(w)
    case Unregister(t, c) => t !in w.tasks && c in w.clients && Unlocked(w)
    case Rescope(t, _, _) => t !in w.tasks
    case Visit(t, c) => t in w.tasks && w.tasks[t].Rescoping? && c in w.tasks[t].todo && c in w.clients
    case Rescoped(t) => t in w.tasks && w.tasks[t].Rescoping? && w.tasks[t].todo == {}
    case StartCollect(t) => t in w.tasks && w.tasks[t].Starting?
    case Collect(t, c) => t in w.tasks && w.tasks[t].Collecting? && c in w.tasks[t].todo && c in w.clients
    case FinishCollect(t) => t in w.tasks && w.tasks[t].Collecting? && w.tasks[t].todo == {}
    case Publish(t, fleets, vins) =>
      t in w.tasks && w.tasks[t].Collected? && ArgsOf(w.tasks[t].sum, w.tasks[t].sum.all, fleets, vins)
    case Open(s) => s !in w.streams
    case Watch(s) => s in w.streams && w.streams[s].phase.Opened?
    case Greet(s) => s in w.streams && w.streams[s].phase.Watching?
    case ReadCurrent(s) => s in w.streams && w.streams[s].phase.Reading?
    case Send(s) => s in w.streams && w.streams[s].phase.Sending?
    case Wake(s) => s in w.streams && w.streams[s].phase.Waiting? && w.streams[s].signal
    case Close(s, kept) => s in w.streams && !w.streams[s].phase.Closed? && kept <= |w.streams[s].wire|
    case Receive(s) => s in w.streams && !w.streams[s].router.Gone? && w.streams[s].wire != []
    case HangUp(s) => s in w.streams && !w.streams[s].router.Gone?
  }

  function WithTask(w: World, t: nat, task: Task): World {
    w.(tasks := w.tasks[t := task])
  }

  function WithStream(w: World, s: nat, st: Stream): World {
    w.(streams := w.streams[s := st])
  }

  /** UpdateScope's loop body. */
  function Visited(w: World, t: nat, c: nat): World
    requires t in w.tasks && w.tasks[t].Rescoping? && c in w.clients
  {
    var task := w.tasks[t];
    var w' := WithTask(w, t, Rescoping(task.user, task.scope, task.todo - {c}));
    if w.clients[c].user != task.user then w'
    else w'.(clients := w.clients[c := w.clients[c].(scope := task.scope)], changes := w.changes + 1)
  }

  /** A stream whose channel is registered with the bus. */
  predicate Watches(st: Stream) {
    !st.phase.Opened? && !st.phase.Closed?
  }

  function Signalled(st: Stream): Stream {
    if Watches(st) then st.(signal := true) else st
  }

  function PublishedBy(w: World, t: nat, fleets: seq<string>, vins: seq<string>): World
    requires t in w.tasks && w.tasks[t].Collected?
  {
    var task := w.tasks[t];
    var u := SetTo(w.cur, task.sum.all, fleets, vins);
    var w' := w.(tasks := w.tasks - {t}, epoch := task.epoch);
    if u == w.cur then w'
    else w'.(cur := u, history := w.history + [u], streams := map s | s in w.streams :: Signalled(w.streams[s]))
  }

  /** The router's side: the first message must be Hello, later interests replace the one before. */
  function Received(st: Stream): Stream
    requires st.wire != []
  {
    match st.wire[0]
    case Hello => st.(wire := st.wire[1..], router := if st.router.Fresh? then Subscribed(NOTHING, None) else st.router)
    case Carry(u) =>
      if st.router.Subscribed? then st.(wire := st.wire[1..], router := Subscribed(FromProto(u), Some(u)))
      else st.(wire := st.wire[1..], router := Gone)
  }

  function StreamStep(st: Stream, l: Label, cur: Update): Stream
    requires l.Watch? || l.Greet? || l.ReadCurrent? || (l.Send? && st.phase.Sending?) || l.Wake?
      || (l.Close? && l.kept <= |st.wire|) || (l.Receive? && st.wire != []) || l.HangUp?
  {
    match l
    case Watch(_) => st.(phase := Watching, signal := false)
    case Greet(_) => st.(phase := Reading, wire := st.wire + [Hello])
    case ReadCurrent(_) => st.(phase := Sending(cur))
    case Send(_) => st.(phase := Waiting, sent := Some(st.phase.update), wire := st.wire + [Carry(st.phase.update)])
    case Wake(_) => st.(phase := Reading, signal := false)
    case Close(_, kept) => st.(phase := Closed, wire := st.wire[..kept])
    case Receive(_) => Received(st)
    case HangUp(_) => st.(router := Gone)
  }

  predicate OfStream(l: Label) {
    l.Watch? || l.Greet? || l.ReadCurrent? || l.Send? || l.Wake? || l.Close? || l.Receive? || l.HangUp?
  }

  ghost function Apply(w: World, l: Label): World
    requires Enabled(w, l)
  {
    match l
    case Register(t, c, client) =>
      WithTask(w, t, Starting).(clients := w.clients[c := client], changes := w.changes + 1)
    case Unregister(t, c) => WithTask(w, t, Starting).(clients := w.clients - {c}, changes := w.changes + 1)
    case Rescope(t, user, scope) => WithTask(w, t, Rescoping(user, scope, w.clients.Keys))
    case Visit(t, c) => Visited(w, t, c)
    case Rescoped(t) => WithTask(w, t, Starting)
    case StartCollect(t) => WithTask(w, t, Collecting(w.clients.Keys, NOTHING, w.changes))
    case Collect(t, c) =>
      var task := w.tasks[t];
      WithTask(w, t, task.(todo := task.todo - {c}, sum := Join(task.sum, w.clients[c].scope)))
    case FinishCollect(t) =>
      WithTask(w, t, Collected(w.tasks[t].sum, if w.tasks[t].since == w.changes then Some(w.changes) else None))
    case Publish(t, fleets, vins) => PublishedBy(w, t, fleets, vins)
    case Open(s) => WithStream(w, s, Stream(Opened, false, None, [], Fresh))
    case _ => WithStream(w, l.s, StreamStep(w.streams[l.s], l, w.cur))
  }

  // ---------- runs ----------

  ghost predicate CanRun(w: World, ls: seq<Label>)
    decreases |ls|, 0
  {
    ls == [] || (CanRun(w, Init(ls)) && Enabled(Run(w, Init(ls)), Last(ls)))
  }

  ghost function Run(w: World, ls: seq<Label>): World
    requires CanRun(w, ls)
    decreases |ls|, 1
  {
    if ls == [] then w else Apply(Run(w, Init(ls)), Last(ls))
  }

  /** One more step at the end of a run. */
  lemma ThenStep(w: World, ls: seq<Label>, l: Label)
    requires CanRun(w, ls) && Enabled(Run(w, ls), l)
    ensures CanRun(w, ls + [l]) && Run(w, ls + [l]) == Apply(Run(w, ls), l)
  {
    assert Init(ls + [l]) == ls;
  }

  lemma {:induction false} RunConcat(w: World, a: seq<Label>, b: seq<Label>)
    requires CanRun(w, a) && CanRun(Run(w, a), b)
    ensures CanRun(w, a + b) && Run(w, a + b) == Run(Run(w, a), b)
  {
    if b == [] {
      assert a + b == a;
    } else {
      RunConcat(w, a, Init(b));
      assert Init(a + b) == a + Init(b) && Last(a + b) == Last(b);
    }
  }

  /** One step before a run. */
  lemma StepThen(w: World, l: Label, ls: seq<Label>)
    requires Enabled(w, l) && CanRun(Apply(w, l), ls)
    ensures CanRun(w, [l] + ls) && Run(w, [l] + ls) == Run(Apply(w, l), ls)
  {
    ThenStep(w, [], l);
    assert [] + [l] == [l];
    RunConcat(w, [l], ls);
  }

  /** A dashboard pod that has just started. */
  const START := World(map[], map[], NO_INTEREST, map[], [NO_INTEREST], 0, Some(0))

  // ---------- the union of the connected users' scopes ----------

  ghost function UnionOver(clients: map<nat, Client>, cs: set<nat>): Filter {
    UnionOf(Scopes(clients, cs))
  }

  function Scopes(clients: map<nat, Client>, cs: set<nat>): set<Filter> {
    set c | c in cs && c in clients :: clients[c].scope
  }

  lemma UnionOverNone(clients: map<nat, Client>)
    ensures UnionOver(clients, {}) == NOTHING
  {
    assert Scopes(clients, {}) == {};
    UnionOfNone();
  }

  ghost function Union(clients: map<nat, Client>): Filter {
    UnionOver(clients, clients.Keys)
  }

  lemma UnionAddsOne(clients: map<nat, Client>, cs: set<nat>, c: nat)
    requires c in clients
    ensures UnionOver(clients, cs + {c}) == Join(UnionOver(clients, cs), clients[c].scope)
  {
    assert Scopes(clients, cs + {c}) == Scopes(clients, cs) + {clients[c].scope};
    UnionOfAdd(Scopes(clients, cs), clients[c].scope);
  }

  /** Some connected user's scope allows the event. */
  ghost predicate Allowed(clients: map<nat, Client>, fleet: string, vin: string) {
    exists c :: c in clients && clients[c].scope.Admits(fleet, vin)
  }

  lemma AllowedIsSomeScope(clients: map<nat, Client>, fleet: string, vin: string)
    ensures Allowed(clients, fleet, vin) <==> SomeAdmits(Scopes(clients, clients.Keys), fleet, vin)
  {
    if c :| c in clients && clients[c].scope.Admits(fleet, vin) {
      assert clients[c].scope in Scopes(clients, clients.Keys);
    }
  }

  /** The published union admits exactly what some connected user may see. */
  lemma UnionIsExact(clients: map<nat, Client>, fleet: string, vin: string)
    ensures Union(clients).Admits(fleet, vin) <==> Allowed(clients, fleet, vin)
  {
    AllowedIsSomeScope(clients, fleet, vin);
    UnionOfIsExact(Scopes(clients, clients.Keys), fleet, vin);
  }
}
