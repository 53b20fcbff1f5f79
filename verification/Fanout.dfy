/** Filtered fan-out into bounded lossy queues as a transition system. Both stages are instances: the hub
    has one source (the push consumer) and an outlet per dashboard stream; the broker has a source per
    router stream and an outlet per browser. Dispatches of different sources interleave visit by visit,
    and filters change and queues drain at any moment; connecting and disconnecting wait for the lock. */
module Fanout {
  import opened Wrappers
  import opened Interest
  import opened Queues

  /** `enqueued` are the dispatch numbers of all events ever accepted; the queue is what follows `drained`. */
  datatype Outlet = Outlet(filter: Filter, enqueued: seq<nat>, drained: nat, open: bool)

  datatype Sent = Sent(source: nat, ev: Event)

  /** A dispatch on its way through the outlets. */
  datatype Active = Active(index: nat, todo: set<nat>, routed: bool)

  /** Dispatch number and outlet. */
  datatype Pair = Pair(dispatch: nat, outlet: nat)

  /** `seen` holds, per dispatch and outlet, the filter in force at the visit; `accepted`, `refused` and
      `lonely` are the pairs and dispatches behind the three counters; `done` are the ended dispatches. */
  datatype World = World(
    cap: nat,
    outlets: map<nat, Outlet>,
    log: seq<Sent>,
    active: map<nat, Active>,
    delivered: nat,
    dropped: nat,
    unrouted: nat,
    seen: map<Pair, Filter>,
    accepted: set<Pair>,
    refused: set<Pair>,
    lonely: set<nat>,
    done: set<nat>)

  datatype Label =
    | Add(o: nat, filter: Filter)
    | Remove(o: nat)
    | SetFilter(o: nat, filter: Filter)
    | Begin(k: nat, ev: Event)
    | Visit(k: nat, o: nat)
    | Finish(k: nat)
    | Drain(o: nat)

  function Queued(x: Outlet): int {
    |x.enqueued| - x.drained
  }

  ghost predicate Enabled(w: World, l: Label) {
    match l
    case Add(o, _) => o !in w.outlets && w.active == map[]
    case Remove(o) => o in w.outlets && w.outlets[o].open && w.active == map[]
    case SetFilter(o, _) => o in w.outlets
    case Begin(k, _) => k !in w.active
    case Visit(k, o) =>
      && k in w.active && o in w.active[k].todo && o in w.outlets
      && w.outlets[o].drained <= |w.outlets[o].enqueued| && w.active[k].index < |w.log|
    case Finish(k) => k in w.active && w.active[k].todo == {}
    case Drain(o) => o in w.outlets && w.outlets[o].open && w.outlets[o].drained < |w.outlets[o].enqueued|
  }

  function OpenOutlets(w: World): set<nat> {
    set o | o in w.outlets && w.outlets[o].open
  }

  function FateAt(w: World, k: nat, o: nat): Fate
    requires k in w.active && o in w.outlets && w.active[k].index < |w.log|
    requires w.outlets[o].drained <= |w.outlets[o].enqueued|
  {
    Outcome(w.outlets[o].filter, Queued(w.outlets[o]), w.cap, w.log[w.active[k].index].ev)
  }

  function Visited(w: World, k: nat, o: nat): World
    requires k in w.active && o in w.outlets && w.active[k].index < |w.log|
    requires w.outlets[o].drained <= |w.outlets[o].enqueued|
  {
    var a, x := w.active[k], w.outlets[o];
    var p := Pair(a.index, o);
    var w' := w.(active := w.active[k := Active(a.index, a.todo - {o}, a.routed || FateAt(w, k, o) != Unmatched)],
                 seen := w.seen[p := x.filter]);
    match FateAt(w, k, o)
    case Unmatched => w'
    case Delivered =>
      w'.(outlets := w.outlets[o := x.(enqueued := x.enqueued + [a.index])],
          delivered := w.delivered + 1,
          accepted := w.accepted + {p})
    case Dropped => w'.(dropped := w.dropped + 1, refused := w.refused + {p})
  }

  function Finished(w: World, k: nat): World
    requires k in w.active
  {
    var w' := w.(active := w.active - {k}, done := w.done + {w.active[k].index});
    if w.active[k].routed then w' else w'.(unrouted := w.unrouted + 1, lonely := w.lonely + {w.active[k].index})
  }

  ghost function Apply(w: World, l: Label): World
    requires Enabled(w, l)
  {
    match l
    case Add(o, filter) => w.(outlets := w.outlets[o := Outlet(filter, [], 0, true)])
    case Remove(o) => w.(outlets := w.outlets[o := w.outlets[o].(open := false)])
    case SetFilter(o, filter) => w.(outlets := w.outlets[o := w.outlets[o].(filter := filter)])
    case Begin(k, ev) =>
      w.(log := w.log + [Sent(k, ev)], active := w.active[k := Active(|w.log|, OpenOutlets(w), false)])
    case Visit(k, o) => Visited(w, k, o)
    case Finish(k) => Finished(w, k)
    case Drain(o) => w.(outlets := w.outlets[o := w.outlets[o].(drained := w.outlets[o].drained + 1)])
  }

  ghost predicate CanRun(w: World, ls: seq<Label>)
    decreases |ls|, 0
  {
    ls == [] || (CanRun(w, Init(ls)) && Enabled(Run(w, Init(ls)), Last(ls)))
  }

  ghost function Run(w: World, ls: seq<Label>): World
    requires CanRun(w, ls)
    decreases |ls|, 1
  {
    if ls == [] then w else Apply(Run(w, Init(ls)), Last(ls))
  }

  function Start(cap: nat): World {
    World(cap, map[], [], map[], 0, 0, 0, map[], {}, {}, {}, {})
  }

  // ---------- the invariant ----------

  /** Dispatch `i` was offered to outlet `o` while the filter in force there admitted its event. */
  predicate Matched(w: World, i: nat, o: nat) {
    Pair(i, o) in w.seen && i < |w.log| && w.seen[Pair(i, o)].Admits(w.log[i].ev.fleet, w.log[i].ev.vin)
  }

  ghost predicate PairsOk(w: World) {
    && (forall p :: p in w.accepted || p in w.refused <==> Matched(w, p.dispatch, p.outlet))
    && w.accepted * w.refused == {}
    && w.delivered == |w.accepted| && w.dropped == |w.refused|
  }

  /** The source's latest dispatch: it has visited exactly the connected outlets it no longer has to do. */
  ghost predicate ActiveOk(w: World, k: nat)
    requires k in w.active
  {
    var a := w.active[k];
    && a.index < |w.log| && w.log[a.index].source == k && a.index !in w.done
    && (forall j :: a.index < j < |w.log| ==> w.log[j].source != k)
    && (forall o :: o in a.todo ==> Pair(a.index, o) !in w.seen && o in w.outlets && w.outlets[o].open)
    && (forall o :: o in w.outlets && w.outlets[o].open && o !in a.todo ==> Pair(a.index, o) in w.seen)
    && (a.routed <==> exists o :: Matched(w, a.index, o))
  }

  ghost predicate OutletOk(w: World, o: nat)
    requires o in w.outlets
  {
    var x := w.outlets[o];
    && x.drained <= |x.enqueued| <= x.drained + w.cap
    && (forall j :: 0 <= j < |x.enqueued| ==> Pair(x.enqueued[j], o) in w.accepted && x.enqueued[j] < |w.log|)
    && (forall i, j :: 0 <= i < j < |x.enqueued| && w.log[x.enqueued[i]].source == w.log[x.enqueued[j]].source ==>
          x.enqueued[i] < x.enqueued[j])
  }

  ghost predicate LonelyOk(w: World) {
    && w.unrouted == |w.lonely|
    && forall i: nat :: i in w.lonely <==> i in w.done && !Wanted(w, i)
  }

  ghost predicate Wanted(w: World, i: nat) {
    exists o :: Matched(w, i, o)
  }

  ghost predicate ActivesOk(w: World) {
    forall k :: k in w.active ==> ActiveOk(w, k)
  }

  ghost predicate OutletsOk(w: World) {
    forall o :: o in w.outlets ==> OutletOk(w, o)
  }

  ghost predicate DoneOk(w: World) {
    && (forall i :: i in w.done ==> i < |w.log|)
    && (forall p :: p in w.seen ==> p.dispatch < |w.log| && p.outlet in w.outlets)
  }

  ghost predicate FanOk(w: World) {
    PairsOk(w) && LonelyOk(w) && ActivesOk(w) && OutletsOk(w) && DoneOk(w)
  }

  // ---------- every step keeps it ----------

  /** The visit is new. */
  predicate Unseen(w: World, k: nat, o: nat) {
    Visitable(w, k, o) && Pair(w.active[k].index, o) !in w.seen
  }

  predicate Visitable(w: World, k: nat, o: nat) {
    k in w.active && o in w.outlets && w.active[k].index < |w.log| && w.outlets[o].drained <= |w.outlets[o].enqueued|
  }

  lemma MatchedAfterVisit(w: World, k: nat, o: nat, i: nat, q: nat)
    requires Unseen(w, k, o)
    ensures Matched(Visited(w, k, o), i, q) <==>
      Matched(w, i, q) || (i == w.active[k].index && q == o && FateAt(w, k, o) != Unmatched)
    ensures !Matched(w, w.active[k].index, o)
  {
  }

  lemma CountOne(s: set<Pair>, n: nat, p: Pair)
    requires n == |s| && p !in s
    ensures n + 1 == |s + {p}|
  {
  }

  lemma VisitCounts(w: World, k: nat, o: nat)
    requires Unseen(w, k, o) && w.delivered == |w.accepted| && w.dropped == |w.refused| && w.accepted * w.refused == {}
    requires Pair(w.active[k].index, o) !in w.accepted && Pair(w.active[k].index, o) !in w.refused
    ensures var w' := Visited(w, k, o);
      w'.delivered == |w'.accepted| && w'.dropped == |w'.refused| && w'.accepted * w'.refused == {}
  {
    var p := Pair(w.active[k].index, o);
    match FateAt(w, k, o)
    case Unmatched =>
    case Delivered => CountOne(w.accepted, w.delivered, p);
    case Dropped => CountOne(w.refused, w.dropped, p);
  }

  lemma VisitSets(w: World, k: nat, o: nat)
    requires Visitable(w, k, o)
    ensures var w', p := Visited(w, k, o), Pair(w.active[k].index, o);
      && w'.accepted == w.accepted + (if FateAt(w, k, o) == Delivered then {p} else {})
      && w'.refused == w.refused + (if FateAt(w, k, o) == Dropped then {p} else {})
  {
  }

  /** The visited pair is counted if and only if it matched. */
  lemma VisitCountsItsPair(w: World, k: nat, o: nat, q: Pair)
    requires PairsOk(w) && Unseen(w, k, o)
    ensures q in Visited(w, k, o).accepted || q in Visited(w, k, o).refused <==>
      Matched(Visited(w, k, o), q.dispatch, q.outlet)
  {
    VisitSets(w, k, o);
    MatchedAfterVisit(w, k, o, q.dispatch, q.outlet);
    assert q in w.accepted || q in w.refused <==> Matched(w, q.dispatch, q.outlet);
  }

  lemma VisitKeepsPairs(w: World, k: nat, o: nat)
    requires PairsOk(w) && Unseen(w, k, o)
    ensures PairsOk(Visited(w, k, o))
  {
    var p := Pair(w.active[k].index, o);
    assert !Matched(w, p.dispatch, p.outlet);
    VisitCounts(w, k, o);
    forall q: Pair
      ensures q in Visited(w, k, o).accepted || q in Visited(w, k, o).refused <==>
        Matched(Visited(w, k, o), q.dispatch, q.outlet)
    {
      VisitCountsItsPair(w, k, o, q);
    }
  }

  /** What a visit changes for a dispatch: its own list of outlets, and its own pair. */
  lemma VisitKeepsActive(w: World, k: nat, o: nat, j: nat)
    requires Unseen(w, k, o) && j in w.active && ActiveOk(w, j) && ActiveOk(w, k)
    ensures ActiveOk(Visited(w, k, o), j)
  {
    var w' := Visited(w, k, o);
    var n := w.active[j].index;
    assert n == w.active[k].index ==> j == k;
    assert w'.active[j].routed <==> exists q :: Matched(w', n, q) by {
      RoutedAfterVisit(w, k, o, j);
    }
  }

  lemma RoutedAfterVisit(w: World, k: nat, o: nat, j: nat)
    requires Unseen(w, k, o) && j in w.active && (w.active[j].index == w.active[k].index ==> j == k)
    requires w.active[j].routed <==> exists q :: Matched(w, w.active[j].index, q)
    ensures var w' := Visited(w, k, o);
      j in w'.active && (w'.active[j].routed <==> exists q :: Matched(w', w'.active[j].index, q))
  {
    var w' := Visited(w, k, o);
    var n := w.active[j].index;
    forall q ensures Matched(w', n, q) <==> Matched(w, n, q) || (j == k && q == o && FateAt(w, k, o) != Unmatched) {
      MatchedAfterVisit(w, k, o, n, q);
    }
    if j == k && FateAt(w, k, o) != Unmatched {
      assert Matched(w', n, o);
    }
  }

  ghost predicate Older(w: World, k: nat, o: nat)
    requires k in w.active && o in w.outlets
  {
    var x := w.outlets[o];
    forall j :: 0 <= j < |x.enqueued| && x.enqueued[j] < |w.log| && w.log[x.enqueued[j]].source == k ==>
      x.enqueued[j] < w.active[k].index
  }

  /** Whatever an outlet accepted from a source is older than that source's running dispatch, if this one
      has not visited the outlet yet. */
  lemma AcceptedIsOlder(w: World, k: nat, o: nat)
    requires PairsOk(w) && Unseen(w, k, o) && ActiveOk(w, k) && OutletOk(w, o)
    ensures Older(w, k, o)
  {
    var x := w.outlets[o];
    forall j | 0 <= j < |x.enqueued| && w.log[x.enqueued[j]].source == k ensures x.enqueued[j] < w.active[k].index {
      assert Pair(x.enqueued[j], o) in w.accepted;
      assert Matched(w, x.enqueued[j], o);
    }
  }

  lemma VisitKeepsOutlet(w: World, k: nat, o: nat, q: nat)
    requires Unseen(w, k, o) && q in w.outlets && OutletOk(w, q) && w.log[w.active[k].index].source == k
    requires Older(w, k, o)
    ensures OutletOk(Visited(w, k, o), q)
  {
  }

  lemma VisitKeepsLonely(w: World, k: nat, o: nat)
    requires LonelyOk(w) && Unseen(w, k, o) && w.active[k].index !in w.done
    ensures LonelyOk(Visited(w, k, o))
  {
    var w' := Visited(w, k, o);
    forall i: nat | i in w.done ensures Wanted(w', i) <==> Wanted(w, i) {
      forall q ensures Matched(w', i, q) <==> Matched(w, i, q) {
        MatchedAfterVisit(w, k, o, i, q);
      }
    }
  }

  lemma VisitKeepsActives(w: World, k: nat, o: nat)
    requires ActivesOk(w) && Unseen(w, k, o)
    ensures ActivesOk(Visited(w, k, o))
  {
    forall j | j in Visited(w, k, o).active ensures ActiveOk(Visited(w, k, o), j) {
      assert ActiveOk(w, j) && ActiveOk(w, k);
      VisitKeepsActive(w, k, o, j);
    }
  }

  lemma VisitKeepsOutlets(w: World, k: nat, o: nat)
    requires OutletsOk(w) && Unseen(w, k, o) && w.log[w.active[k].index].source == k && Older(w, k, o)
    ensures OutletsOk(Visited(w, k, o))
  {
    forall q | q in Visited(w, k, o).outlets ensures OutletOk(Visited(w, k, o), q) {
      assert OutletOk(w, q);
      VisitKeepsOutlet(w, k, o, q);
    }
  }

  lemma VisitIsNew(w: World, k: nat, o: nat)
    requires ActivesOk(w) && OutletsOk(w) && PairsOk(w) && Enabled(w, Visit(k, o))
    ensures Unseen(w, k, o) && Older(w, k, o) && w.log[w.active[k].index].source == k && w.active[k].index !in w.done
  {
    assert ActiveOk(w, k) && OutletOk(w, o);
    AcceptedIsOlder(w, k, o);
  }

  lemma VisitKeepsDone(w: World, k: nat, o: nat)
    requires DoneOk(w) && Unseen(w, k, o)
    ensures DoneOk(Visited(w, k, o))
  {
  }

  lemma VisitKeepsFan(w: World, k: nat, o: nat)
    requires FanOk(w) && Enabled(w, Visit(k, o))
    ensures FanOk(Visited(w, k, o))
  {
    VisitIsNew(w, k, o);
    VisitKeepsPairs(w, k, o);
    VisitKeepsLonely(w, k, o);
    VisitKeepsActives(w, k, o);
    VisitKeepsOutlets(w, k, o);
    VisitKeepsDone(w, k, o);
  }

  /** A step that leaves visits, log and counted pairs alone. */
  predicate SameVisits(w: World, w': World) {
    && w'.seen == w.seen && w'.log == w.log && w'.accepted == w.accepted && w'.refused == w.refused
    && w'.delivered == w.delivered && w'.dropped == w.dropped && w'.cap == w.cap
  }

  lemma SameVisitsKeepPairs(w: World, w': World)
    requires PairsOk(w) && SameVisits(w, w')
    ensures PairsOk(w')
    ensures forall i: nat, o: nat :: Matched(w', i, o) <==> Matched(w, i, o)
    ensures forall i: nat :: Wanted(w', i) <==> Wanted(w, i)
  {
  }

  lemma SameVisitsKeepOutlets(w: World, w': World)
    requires OutletsOk(w) && SameVisits(w, w') && w'.outlets == w.outlets
    ensures OutletsOk(w')
  {
    forall o | o in w'.outlets ensures OutletOk(w', o) {
      assert OutletOk(w, o);
    }
  }

  lemma FinishKeepsActives(w: World, k: nat)
    requires ActivesOk(w) && Enabled(w, Finish(k))
    ensures ActivesOk(Finished(w, k))
  {
    var w' := Finished(w, k);
    assert ActiveOk(w, k);
    forall j | j in w'.active ensures ActiveOk(w', j) {
      assert ActiveOk(w, j);
      assert forall o :: Matched(w', w.active[j].index, o) <==> Matched(w, w.active[j].index, o);
    }
  }

  lemma FinishKeepsLonely(w: World, k: nat)
    requires LonelyOk(w) && Enabled(w, Finish(k)) && ActiveOk(w, k)
    ensures LonelyOk(Finished(w, k))
  {
    var w' := Finished(w, k);
    assert forall i: nat, o: nat :: Matched(w', i, o) <==> Matched(w, i, o);
    assert forall i: nat :: Wanted(w', i) <==> Wanted(w, i);
    assert Wanted(w, w.active[k].index) <==> w.active[k].routed;
  }

  lemma FinishKeepsDone(w: World, k: nat)
    requires DoneOk(w) && Enabled(w, Finish(k)) && ActiveOk(w, k)
    ensures DoneOk(Finished(w, k))
  {
  }

  lemma FinishKeepsFan(w: World, k: nat)
    requires FanOk(w) && Enabled(w, Finish(k))
    ensures FanOk(Finished(w, k))
  {
    var w' := Finished(w, k);
    SameVisitsKeepPairs(w, w');
    SameVisitsKeepOutlets(w, w');
    FinishKeepsActives(w, k);
    assert ActiveOk(w, k);
    FinishKeepsLonely(w, k);
    FinishKeepsDone(w, k);
  }

  lemma BeginMatches(w: World, k: nat, ev: Event)
    requires DoneOk(w) && Enabled(w, Begin(k, ev))
    ensures forall i: nat, o: nat :: Matched(Apply(w, Begin(k, ev)), i, o) <==> Matched(w, i, o)
    ensures forall i: nat :: Wanted(Apply(w, Begin(k, ev)), i) <==> Wanted(w, i)
  {
  }

  lemma BeginKeepsActives(w: World, k: nat, ev: Event)
    requires ActivesOk(w) && DoneOk(w) && Enabled(w, Begin(k, ev))
    ensures ActivesOk(Apply(w, Begin(k, ev)))
  {
    var w' := Apply(w, Begin(k, ev));
    BeginMatches(w, k, ev);
    forall j | j in w'.active ensures ActiveOk(w', j) {
      assert j != k ==> ActiveOk(w, j);
    }
  }

  lemma BeginKeepsOutlets(w: World, k: nat, ev: Event)
    requires OutletsOk(w) && Enabled(w, Begin(k, ev))
    ensures OutletsOk(Apply(w, Begin(k, ev)))
  {
    var w' := Apply(w, Begin(k, ev));
    forall o | o in w'.outlets ensures OutletOk(w', o) {
      assert OutletOk(w, o);
    }
  }

  lemma BeginKeepsRest(w: World, k: nat, ev: Event)
    requires PairsOk(w) && LonelyOk(w) && DoneOk(w) && Enabled(w, Begin(k, ev))
    ensures PairsOk(Apply(w, Begin(k, ev))) && LonelyOk(Apply(w, Begin(k, ev))) && DoneOk(Apply(w, Begin(k, ev)))
  {
    BeginMatches(w, k, ev);
  }

  lemma BeginKeepsFan(w: World, k: nat, ev: Event)
    requires FanOk(w) && Enabled(w, Begin(k, ev))
    ensures FanOk(Apply(w, Begin(k, ev)))
  {
    BeginKeepsActives(w, k, ev);
    BeginKeepsOutlets(w, k, ev);
    BeginKeepsRest(w, k, ev);
  }

  lemma OutletStepKeepsActives(w: World, l: Label)
    requires ActivesOk(w) && Enabled(w, l) && (l.Add? || l.Remove? || l.SetFilter? || l.Drain?)
    ensures ActivesOk(Apply(w, l))
  {
    var w' := Apply(w, l);
    forall j | j in w'.active ensures ActiveOk(w', j) {
      assert ActiveOk(w, j);
      assert forall o :: Matched(w', w.active[j].index, o) <==> Matched(w, w.active[j].index, o);
    }
  }

  lemma OutletStepKeepsOutlets(w: World, l: Label)
    requires OutletsOk(w) && Enabled(w, l) && (l.Add? || l.Remove? || l.SetFilter? || l.Drain?)
    ensures OutletsOk(Apply(w, l))
  {
    var w' := Apply(w, l);
    forall o | o in w'.outlets ensures OutletOk(w', o) {
      assert o in w.outlets ==> OutletOk(w, o);
    }
  }

  lemma OutletStepKeepsRest(w: World, l: Label)
    requires LonelyOk(w) && DoneOk(w) && Enabled(w, l) && (l.Add? || l.Remove? || l.SetFilter? || l.Drain?)
    ensures LonelyOk(Apply(w, l)) && DoneOk(Apply(w, l))
  {
    assert forall i: nat, o: nat :: Matched(Apply(w, l), i, o) <==> Matched(w, i, o);
    assert forall i: nat :: Wanted(Apply(w, l), i) <==> Wanted(w, i);
  }

  lemma OutletStepKeepsFan(w: World, l: Label)
    requires FanOk(w) && Enabled(w, l) && (l.Add? || l.Remove? || l.SetFilter? || l.Drain?)
    ensures FanOk(Apply(w, l))
  {
    SameVisitsKeepPairs(w, Apply(w, l));
    OutletStepKeepsActives(w, l);
    OutletStepKeepsOutlets(w, l);
    OutletStepKeepsRest(w, l);
  }

  lemma StepKeepsFan(w: World, l: Label)
    requires FanOk(w) && Enabled(w, l)
    ensures FanOk(Apply(w, l))
  {
    match l
    case Begin(k, ev) => BeginKeepsFan(w, k, ev);
    case Visit(k, o) => VisitKeepsFan(w, k, o);
    case Finish(k) => FinishKeepsFan(w, k);
    case _ => OutletStepKeepsFan(w, l);
  }

  lemma StartIsFanOk(cap: nat)
    ensures FanOk(Start(cap))
  {
    assert forall i: nat, o: nat :: !Matched(Start(cap), i, o);
  }

  lemma {:induction false} RunsAreFanOk(cap: nat, ls: seq<Label>)
    requires CanRun(Start(cap), ls)
    ensures FanOk(Run(Start(cap), ls))
    decreases |ls|
  {
    if ls == [] {
      StartIsFanOk(cap);
    } else {
      RunsAreFanOk(cap, Init(ls));
      StepKeepsFan(Run(Start(cap), Init(ls)), Last(ls));
    }
  }

  lemma {:induction false} RunsKeepCap(cap: nat, ls: seq<Label>)
    requires CanRun(Start(cap), ls)
    ensures Run(Start(cap), ls).cap == cap
    decreases |ls|
  {
    if ls != [] {
      RunsKeepCap(cap, Init(ls));
    }
  }
}
