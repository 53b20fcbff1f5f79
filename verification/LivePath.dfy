/** Completeness of the live path: interest propagation and the hub's fan-out joined. What a connected user
    may see is not filtered out on the way to that user's dashboard pod. */
module LivePath {
  import opened Wrappers
  import opened Interest
  import IM = InterestMachine
  import InterestStreams
  import InterestAgreement
  import opened Queues
  import opened Fanout
  import opened FanoutRuns

  // ---------- one dispatch, from beginning to end ----------

  /** Dispatch `n` of source `k` while the filter at outlet `o` is `f`: once it has ended it has been there. */
  ghost predicate Underway(w: World, k: nat, ev: Event, n: nat, o: nat, f: Filter) {
    && n < |w.log| && w.log[n] == Sent(k, ev)
    && o in w.outlets && w.outlets[o].filter == f
    && (Pair(n, o) in w.seen ==> w.seen[Pair(n, o)] == f)
    && (n in w.done ==> Pair(n, o) in w.seen)
    && (n !in w.done ==> k in w.active && w.active[k].index == n && w.outlets[o].open)
  }

  /** The outlet's filter stays as it is. */
  predicate KeepsFilter(l: Label, o: nat) {
    l.SetFilter? ==> l.o != o
  }

  lemma StepKeepsUnderway(w: World, l: Label, k: nat, ev: Event, n: nat, o: nat, f: Filter)
    requires ActivesOk(w) && Underway(w, k, ev, n, o, f) && Enabled(w, l) && KeepsFilter(l, o)
    ensures Underway(Apply(w, l), k, ev, n, o, f)
  {
    if l.Finish? {
      assert ActiveOk(w, l.k);
    }
  }

  lemma {:induction false} StaysUnderway(w: World, ls: seq<Label>, k: nat, ev: Event, n: nat, o: nat, f: Filter)
    requires FanOk(w) && Underway(w, k, ev, n, o, f) && CanRun(w, ls)
    requires forall l :: l in ls ==> KeepsFilter(l, o)
    ensures FanOk(Run(w, ls)) && Underway(Run(w, ls), k, ev, n, o, f)
    decreases |ls|
  {
    if ls != [] {
      StaysUnderway(w, Init(ls), k, ev, n, o, f);
      assert Last(ls) in ls;
      StepKeepsFan(Run(w, Init(ls)), Last(ls));
      StepKeepsUnderway(Run(w, Init(ls)), Last(ls), k, ev, n, o, f);
    }
  }

  lemma {:induction false} StaysQueued(w: World, ls: seq<Label>)
    requires AcceptedAreQueued(w) && CanRun(w, ls)
    ensures AcceptedAreQueued(Run(w, ls))
    decreases |ls|
  {
    if ls != [] {
      StaysQueued(w, Init(ls));
      StepKeepsQueued(Run(w, Init(ls)), Last(ls));
    }
  }

  /** Dispatch `n` left its event in the outlet's queue, or is one of those behind the drop counter. */
  ghost predicate QueuedOrCounted(w: World, n: nat, o: nat) {
    || (o in w.outlets && n in w.outlets[o].enqueued)
    || (Pair(n, o) in w.refused && w.dropped == |w.refused|)
  }

  lemma CountedIfMatched(w: World, n: nat, o: nat)
    requires FanOk(w) && AcceptedAreQueued(w)
    ensures QueuedOrCounted(w, n, o) <==> Matched(w, n, o)
  {
    assert Pair(n, o) in w.accepted || Pair(n, o) in w.refused <==> Matched(w, n, o);
    if o in w.outlets && n in w.outlets[o].enqueued {
      assert OutletOk(w, o);
      var j :| 0 <= j < |w.outlets[o].enqueued| && w.outlets[o].enqueued[j] == n;
      assert Pair(w.outlets[o].enqueued[j], o) in w.accepted;
    }
  }

  /** A hub run in which the dispatch of `ev` begins after `before`, whatever else goes on in `during`. */
  ghost predicate Dispatching(cap: nat, before: seq<Label>, k: nat, ev: Event, during: seq<Label>) {
    && CanRun(Start(cap), before) && Enabled(Run(Start(cap), before), Begin(k, ev))
    && CanRun(Apply(Run(Start(cap), before), Begin(k, ev)), during)
  }

  /** While an outlet's filter stays, a dispatch that has ended has put its event in the outlet's queue or
      counted it as dropped if and only if that filter admits it. */
  lemma {:induction false} DispatchDecides(
      cap: nat, before: seq<Label>, k: nat, ev: Event, during: seq<Label>, o: nat)
    requires Dispatching(cap, before, k, ev, during)
    requires o in OpenOutlets(Run(Start(cap), before)) && forall l :: l in during ==> KeepsFilter(l, o)
    ensures var w := Run(Start(cap), before);
      var w', f := Run(Apply(w, Begin(k, ev)), during), w.outlets[o].filter;
      |w.log| in w'.done ==> (QueuedOrCounted(w', |w.log|, o) <==> f.Admits(ev.fleet, ev.vin))
  {
    var w := Run(Start(cap), before);
    var n, f := |w.log|, w.outlets[o].filter;
    RunsAreFanOk(cap, before);
    RunsKeepQueued(cap, before);
    var w0 := Apply(w, Begin(k, ev));
    StepKeepsFan(w, Begin(k, ev));
    StepKeepsQueued(w, Begin(k, ev));
    assert n !in w.done && Pair(n, o) !in w.seen;
    StaysUnderway(w0, during, k, ev, n, o, f);
    StaysQueued(w0, during);
    CountedIfMatched(Run(w0, during), n, o);
  }

  // ---------- both machines ----------

  /** Outlet `o` of the hub is the subscriber behind stream `s`: it filters by the interest applied last. */
  ghost predicate ServesStream(hub: World, o: nat, w: IM.World, s: nat) {
    && s in w.streams && w.streams[s].router.Subscribed?
    && o in OpenOutlets(hub) && hub.outlets[o].filter == w.streams[s].router.interest
  }

  lemma CollapseAdmits(f: Filter, fleet: string, vin: string)
    ensures Collapse(f).Admits(fleet, vin) <==> f.Admits(fleet, vin)
  {
  }

  /** When a pod's stream is quiet, an event whose dispatch begins and ends at the hub meanwhile is in the
      pod's queue or counted as dropped if and only if the union behind the last `Set` admits it; and when
      that `Set` came from the present client table, if and only if some connected user may see it. */
  lemma {:induction false} NothingAllowedIsFilteredOut(
      li: seq<IM.Label>, s: nat, cap: nat, before: seq<Label>, k: nat, ev: Event, during: seq<Label>, o: nat)
    requires IM.CanRun(IM.START, li) && s in IM.Run(IM.START, li).streams
    requires InterestStreams.Quiet(IM.Run(IM.START, li).streams[s])
    requires Dispatching(cap, before, k, ev, during)
    requires ServesStream(Run(Start(cap), before), o, IM.Run(IM.START, li), s)
    requires forall l :: l in during ==> KeepsFilter(l, o)
    requires |Run(Start(cap), before).log| in Run(Apply(Run(Start(cap), before), Begin(k, ev)), during).done
    ensures var w, hub := IM.Run(IM.START, li), Run(Start(cap), before);
      var hub', n := Run(Apply(hub, Begin(k, ev)), during), |hub.log|;
      && (QueuedOrCounted(hub', n, o) <==> InterestAgreement.LastSum(li).Admits(ev.fleet, ev.vin))
      && (InterestAgreement.UpToDate(w) ==>
            (QueuedOrCounted(hub', n, o) <==> IM.Allowed(w.clients, ev.fleet, ev.vin)))
  {
    var w := IM.Run(IM.START, li);
    DispatchDecides(cap, before, k, ev, during, o);
    InterestStreams.QuietRouterIsCurrent(li, s);
    InterestAgreement.BusShowsLastSum(li);
    CollapseAdmits(InterestAgreement.LastSum(li), ev.fleet, ev.vin);
    if InterestAgreement.UpToDate(w) {
      InterestAgreement.QuiescentAgreement(li, s);
    }
  }
}
