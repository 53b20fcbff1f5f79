/** What holds of every run of the fan-out machine: its counters balance, room alone decides what is dropped,
    each outlet keeps the order of its sources, and two stages compose. */
module FanoutRuns {
  import opened Wrappers
  import opened Interest
  import opened Queues
  import opened Fanout

  // ---------- conservation ----------

  ghost function MatchedPairs(w: World): set<Pair> {
    set p | p in w.seen && Matched(w, p.dispatch, p.outlet)
  }

  ghost function EnqueuedPairs(w: World): set<Pair> {
    set o, i | o in w.outlets && i in w.outlets[o].enqueued :: Pair(i, o)
  }

  ghost function Unwanted(w: World): set<nat> {
    set i: nat | i in w.done && !Wanted(w, i)
  }

  ghost predicate AcceptedAreQueued(w: World) {
    forall p :: p in w.accepted ==> p.outlet in w.outlets && p.dispatch in w.outlets[p.outlet].enqueued
  }

  lemma StepKeepsQueued(w: World, l: Label)
    requires AcceptedAreQueued(w) && Enabled(w, l)
    ensures AcceptedAreQueued(Apply(w, l))
  {
  }

  lemma {:induction false} RunsKeepQueued(cap: nat, ls: seq<Label>)
    requires CanRun(Start(cap), ls)
    ensures AcceptedAreQueued(Run(Start(cap), ls))
    decreases |ls|
  {
    if ls != [] {
      RunsKeepQueued(cap, Init(ls));
      StepKeepsQueued(Run(Start(cap), Init(ls)), Last(ls));
    }
  }

  /** Over any run: delivered plus dropped is the number of (event, subscriber) pairs that matched when
      the event came by, delivered alone the number of pairs ever put in a queue, unrouted the number of
      completed dispatches that matched nobody, and a queue never exceeds its buffer. */
  lemma {:induction false} Conservation(cap: nat, ls: seq<Label>)
    requires CanRun(Start(cap), ls)
    ensures var w := Run(Start(cap), ls);
      && w.delivered + w.dropped == |MatchedPairs(w)|
      && w.delivered == |EnqueuedPairs(w)|
      && w.unrouted == |Unwanted(w)|
      && forall o :: o in w.outlets ==> w.outlets[o].drained <= |w.outlets[o].enqueued| <= w.outlets[o].drained + cap
  {
    RunsAreFanOk(cap, ls);
    RunsKeepQueued(cap, ls);
    RunsKeepCap(cap, ls);
    var w := Run(Start(cap), ls);
    assert MatchedPairs(w) == w.accepted + w.refused;
    assert Unwanted(w) == w.lonely;
    EnqueuedAreAccepted(w);
    forall o | o in w.outlets ensures w.outlets[o].drained <= |w.outlets[o].enqueued| <= w.outlets[o].drained + cap {
      assert OutletOk(w, o);
    }
  }

  lemma EnqueuedAreAccepted(w: World)
    requires OutletsOk(w) && AcceptedAreQueued(w)
    ensures EnqueuedPairs(w) == w.accepted
  {
    forall o, i | o in w.outlets && i in w.outlets[o].enqueued ensures Pair(i, o) in w.accepted {
      assert OutletOk(w, o);
      var j :| 0 <= j < |w.outlets[o].enqueued| && w.outlets[o].enqueued[j] == i;
    }
    forall p | p in w.accepted ensures p in EnqueuedPairs(w) {
      assert p == Pair(p.dispatch, p.outlet);
    }
  }

  /** This step offers the event of `p` to its outlet, whose filter admits it. */
  ghost predicate AdmittingVisit(v: World, l: Label, p: Pair) {
    && l.Visit? && Enabled(v, l) && p == Pair(v.active[l.k].index, l.o)
    && v.outlets[l.o].filter.Admits(v.log[p.dispatch].ev.fleet, v.log[p.dispatch].ev.vin)
  }

  /** There is room for one more event at the outlet. */
  predicate Room(v: World, o: nat)
    requires o in v.outlets
  {
    |v.outlets[o].enqueued| - v.outlets[o].drained < v.cap
  }

  /** Some step of the run offered the event of `p` to a filter that admits it, with or without room. */
  ghost predicate OfferedIn(cap: nat, ls: seq<Label>, p: Pair, room: bool)
    requires CanRun(Start(cap), ls)
    decreases |ls|
  {
    && ls != []
    && var v := Run(Start(cap), Init(ls));
       OfferedIn(cap, Init(ls), p, room) || (AdmittingVisit(v, Last(ls), p) && (room <==> Room(v, p.outlet)))
  }

  lemma CountedStep(v: World, l: Label, p: Pair)
    requires Enabled(v, l)
    ensures p in Apply(v, l).accepted <==> p in v.accepted || (AdmittingVisit(v, l, p) && Room(v, p.outlet))
    ensures p in Apply(v, l).refused <==> p in v.refused || (AdmittingVisit(v, l, p) && !Room(v, p.outlet))
  {
  }

  /** Over every run: an event is delivered to an outlet if and only if it was offered while there was room,
      and dropped if and only if it was offered while a whole buffer of events was waiting. */
  lemma {:induction false} RoomDecides(cap: nat, ls: seq<Label>, p: Pair)
    requires CanRun(Start(cap), ls)
    ensures p in Run(Start(cap), ls).accepted <==> OfferedIn(cap, ls, p, true)
    ensures p in Run(Start(cap), ls).refused <==> OfferedIn(cap, ls, p, false)
    decreases |ls|
  {
    if ls != [] {
      RoomDecides(cap, Init(ls), p);
      CountedStep(Run(Start(cap), Init(ls)), Last(ls), p);
    }
  }

  /** A dispatch ends only after every connected outlet was offered the event. */
  lemma {:induction false} FinishedVisitedAll(cap: nat, ls: seq<Label>, k: nat, o: nat)
    requires CanRun(Start(cap), ls) && Enabled(Run(Start(cap), ls), Finish(k))
    requires o in Run(Start(cap), ls).outlets && Run(Start(cap), ls).outlets[o].open
    ensures Pair(Run(Start(cap), ls).active[k].index, o) in Run(Start(cap), ls).seen
  {
    RunsAreFanOk(cap, ls);
    assert ActiveOk(Run(Start(cap), ls), k);
  }

  /** What an outlet accepted from one source is in that source's dispatch order, each once, and each was
      admitted by the filter in force at its visit. */
  lemma {:induction false} AcceptedInOrder(cap: nat, ls: seq<Label>, o: nat, i: nat, j: nat)
    requires CanRun(Start(cap), ls) && o in Run(Start(cap), ls).outlets
    requires i <= j < |Run(Start(cap), ls).outlets[o].enqueued|
    ensures var w := Run(Start(cap), ls);
      var x := w.outlets[o];
      && x.enqueued[i] < |w.log| && x.enqueued[j] < |w.log|
      && Matched(w, x.enqueued[i], o)
      && (i < j && w.log[x.enqueued[i]].source == w.log[x.enqueued[j]].source ==> x.enqueued[i] < x.enqueued[j])
  {
    RunsAreFanOk(cap, ls);
    var w := Run(Start(cap), ls);
    assert OutletOk(w, o);
    assert Pair(w.outlets[o].enqueued[i], o) in w.accepted;
    assert Pair(w.outlets[o].enqueued[j], o) in w.accepted;
  }

  // ---------- two stages ----------

  /** How many dispatches of source `s` came before dispatch `n`. */
  function Rank(log: seq<Sent>, s: nat, n: nat): nat
    requires n <= |log|
  {
    if n == 0 then 0 else Rank(log, s, n - 1) + if log[n - 1].source == s then 1 else 0
  }

  lemma {:induction false} RankGrows(log: seq<Sent>, s: nat, m: nat, n: nat)
    requires m < n <= |log| && log[m].source == s
    ensures Rank(log, s, m) < Rank(log, s, n)
  {
    if m < n - 1 {
      RankGrows(log, s, m, n - 1);
    }
  }

  /** Stage two's source `s` is the stream of stage one's outlet `o`: its `r`-th dispatch is the `r`-th
      event drained from that outlet, in order and without gaps (gRPC delivers in order). */
  ghost predicate Feeds(hub: World, o: nat, broker: World, s: nat) {
    && o in hub.outlets
    && forall n :: 0 <= n < |broker.log| && broker.log[n].source == s ==> FedAt(hub, o, broker, s, n)
  }

  ghost predicate FedAt(hub: World, o: nat, broker: World, s: nat, n: nat)
    requires o in hub.outlets && n < |broker.log|
  {
    var r := Rank(broker.log, s, n);
    r < hub.outlets[o].drained && r < |hub.outlets[o].enqueued|
    && hub.outlets[o].enqueued[r] < |hub.log| && broker.log[n].ev == hub.log[hub.outlets[o].enqueued[r]].ev
  }

  /** The hub dispatch a browser's `i`-th accepted event came from. */
  function Origin(hub: World, o: nat, broker: World, s: nat, c: nat, i: nat): nat
    requires o in hub.outlets && c in broker.outlets && i < |broker.outlets[c].enqueued|
    requires broker.outlets[c].enqueued[i] < |broker.log|
    requires Rank(broker.log, s, broker.outlets[c].enqueued[i]) < |hub.outlets[o].enqueued|
  {
    hub.outlets[o].enqueued[Rank(broker.log, s, broker.outlets[c].enqueued[i])]
  }

  /** The `i`-th event in a browser's queue came through this stream: the hub matched it against the
      stream's interest, the broker allowed it by the browser's scope, and it is the same event. */
  ghost predicate CameThrough(hub: World, o: nat, broker: World, s: nat, c: nat, i: nat)
    requires o in hub.outlets && c in broker.outlets && i < |broker.outlets[c].enqueued|
  {
    var n := broker.outlets[c].enqueued[i];
    && n < |broker.log| && Rank(broker.log, s, n) < |hub.outlets[o].enqueued|
    && Origin(hub, o, broker, s, c, i) < |hub.log|
    && hub.log[Origin(hub, o, broker, s, c, i)].ev == broker.log[n].ev
    && Matched(hub, Origin(hub, o, broker, s, c, i), o) && Matched(broker, n, c)
  }

  /** Two lossy FIFO stages compose: every event one router stream puts in one browser's queue was matched
      by the stream's interest when the hub dispatched it and allowed by the browser's scope when the
      broker did, and any two of them are in the hub's dispatch order. */
  lemma {:induction false} TwoStagesCompose(
      cap1: nat, l1: seq<Label>, o: nat, cap2: nat, l2: seq<Label>, s: nat, c: nat, i: nat, j: nat)
    requires CanRun(Start(cap1), l1) && CanRun(Start(cap2), l2)
    requires forall l :: l in l1 && l.Begin? ==> l.k == 0
    requires Feeds(Run(Start(cap1), l1), o, Run(Start(cap2), l2), s)
    requires c in Run(Start(cap2), l2).outlets && i <= j < |Run(Start(cap2), l2).outlets[c].enqueued|
    requires FromSource(Run(Start(cap2), l2), c, i, s) && FromSource(Run(Start(cap2), l2), c, j, s)
    ensures var hub, broker := Run(Start(cap1), l1), Run(Start(cap2), l2);
      && CameThrough(hub, o, broker, s, c, i) && CameThrough(hub, o, broker, s, c, j)
      && (i < j ==> Origin(hub, o, broker, s, c, i) < Origin(hub, o, broker, s, c, j))
  {
    var hub, broker := Run(Start(cap1), l1), Run(Start(cap2), l2);
    var m, n := broker.outlets[c].enqueued[i], broker.outlets[c].enqueued[j];
    AcceptedInOrder(cap2, l2, c, i, j);
    AcceptedInOrder(cap2, l2, c, j, j);
    if i < j {
      RankGrows(broker.log, s, m, n);
    }
    assert FedAt(hub, o, broker, s, m) && FedAt(hub, o, broker, s, n);
    AcceptedInOrder(cap1, l1, o, Rank(broker.log, s, m), Rank(broker.log, s, n));
    AcceptedInOrder(cap1, l1, o, Rank(broker.log, s, n), Rank(broker.log, s, n));
    OneSource(cap1, l1);
  }

  ghost predicate FromSource(w: World, c: nat, i: nat, s: nat)
    requires c in w.outlets && i < |w.outlets[c].enqueued|
  {
    w.outlets[c].enqueued[i] < |w.log| && w.log[w.outlets[c].enqueued[i]].source == s
  }

  lemma {:induction false} OneSource(cap: nat, ls: seq<Label>)
    requires CanRun(Start(cap), ls) && forall l :: l in ls && l.Begin? ==> l.k == 0
    ensures forall i :: 0 <= i < |Run(Start(cap), ls).log| ==> Run(Start(cap), ls).log[i].source == 0
    decreases |ls|
  {
    if ls != [] {
      OneSource(cap, Init(ls));
      assert Last(ls) in ls;
    }
  }
}
