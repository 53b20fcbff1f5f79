/** An uninterrupted `Hub.Dispatch` is a run of the fan-out machine, so what holds of every run holds
    across the calls the push consumer makes. */
module HubRefinement {
  import opened Wrappers
  import opened Interest
  import opened Queues
  import opened Fanout
  import H = Hub

  // ---------- a dispatch without interruption ----------

  predicate Orderly(w: World) {
    forall o :: o in w.outlets ==> w.outlets[o].drained <= |w.outlets[o].enqueued|
  }

  function FateOf(w: World, o: nat, ev: Event): Fate
    requires Orderly(w) && o in w.outlets
  {
    Outcome(w.outlets[o].filter, Queued(w.outlets[o]), w.cap, ev)
  }

  /** The connected outlets at which an event would have this fate. */
  ghost function FatedOutlets(w: World, ev: Event, fate: Fate): set<nat>
    requires Orderly(w)
  {
    set o | o in w.outlets && w.outlets[o].open && FateOf(w, o, ev) == fate
  }

  /** The outlet after a dispatch numbered `n` offered it the event. */
  function Offer(x: Outlet, fate: Fate, n: nat): Outlet {
    if fate == Delivered then x.(enqueued := x.enqueued + [n]) else x
  }

  ghost predicate Offered(w: World, v: World, ev: Event, done: set<nat>)
    requires Orderly(w)
  {
    && v.outlets.Keys == w.outlets.Keys
    && forall o :: o in w.outlets ==>
         v.outlets[o] == if o in done then Offer(w.outlets[o], FateOf(w, o, ev), |w.log|) else w.outlets[o]
  }

  ghost predicate Counted(w: World, v: World, ev: Event, done: set<nat>)
    requires Orderly(w)
  {
    && v.delivered == w.delivered + |FatedOutlets(w, ev, Delivered) * done|
    && v.dropped == w.dropped + |FatedOutlets(w, ev, Dropped) * done|
    && v.unrouted == w.unrouted
  }

  /** World `v` is `w` in the middle of dispatching `ev`, after the outlets in `done`. */
  ghost predicate Midway(w: World, v: World, k: nat, ev: Event, done: set<nat>)
    requires Orderly(w)
  {
    && v.cap == w.cap && v.log == w.log + [Sent(k, ev)] && Offered(w, v, ev, done) && Counted(w, v, ev, done)
    && v.active.Keys == {k} && v.active[k].index == |w.log| && v.active[k].todo == OpenOutlets(w) - done
    && (v.active[k].routed <==> !(done <= FatedOutlets(w, ev, Unmatched)))
  }

  lemma BeginIsMidway(w: World, k: nat, ev: Event)
    requires Orderly(w) && w.active == map[]
    ensures Enabled(w, Begin(k, ev)) && Midway(w, Apply(w, Begin(k, ev)), k, ev, {})
  {
    assert OpenOutlets(w) - {} == OpenOutlets(w);
    assert FatedOutlets(w, ev, Delivered) * {} == {} && FatedOutlets(w, ev, Dropped) * {} == {};
  }

  lemma VisitIsNext(w: World, v: World, k: nat, ev: Event, done: set<nat>, o: nat)
    requires Orderly(w) && Midway(w, v, k, ev, done) && o in OpenOutlets(w) - done
    ensures Enabled(v, Visit(k, o)) && FateAt(v, k, o) == FateOf(w, o, ev)
  {
    assert v.log[|w.log|] == Sent(k, ev);
    assert v.outlets[o] == w.outlets[o];
  }

  lemma CountStep(f: set<nat>, done: set<nat>, o: nat)
    requires o !in done
    ensures |f * (done + {o})| == |f * done| + if o in f then 1 else 0
  {
    assert f * (done + {o}) == f * done + if o in f then {o} else {};
  }

  lemma VisitOffers(w: World, v: World, k: nat, ev: Event, done: set<nat>, o: nat)
    requires Orderly(w) && Offered(w, v, ev, done) && o in w.outlets && o !in done
    requires Visitable(v, k, o) && v.active[k].index == |w.log| && FateAt(v, k, o) == FateOf(w, o, ev)
    ensures Offered(w, Visited(v, k, o), ev, done + {o})
  {
  }

  lemma VisitCounted(w: World, v: World, k: nat, ev: Event, done: set<nat>, o: nat)
    requires Orderly(w) && Counted(w, v, ev, done) && o in OpenOutlets(w) && o !in done
    requires Visitable(v, k, o) && FateAt(v, k, o) == FateOf(w, o, ev)
    ensures Counted(w, Visited(v, k, o), ev, done + {o})
  {
    CountStep(FatedOutlets(w, ev, Delivered), done, o);
    CountStep(FatedOutlets(w, ev, Dropped), done, o);
  }

  lemma VisitTurns(w: World, v: World, k: nat, ev: Event, done: set<nat>, o: nat)
    requires Orderly(w) && o in OpenOutlets(w) - done && Visitable(v, k, o) && FateAt(v, k, o) == FateOf(w, o, ev)
    requires v.active.Keys == {k} && v.active[k].todo == OpenOutlets(w) - done
    requires v.active[k].routed <==> !(done <= FatedOutlets(w, ev, Unmatched))
    ensures var v' := Visited(v, k, o);
      && v'.active.Keys == {k} && v'.active[k].index == v.active[k].index
      && v'.active[k].todo == OpenOutlets(w) - (done + {o})
      && (v'.active[k].routed <==> !(done + {o} <= FatedOutlets(w, ev, Unmatched)))
  {
    assert OpenOutlets(w) - done - {o} == OpenOutlets(w) - (done + {o});
    assert o in FatedOutlets(w, ev, Unmatched) <==> FateOf(w, o, ev) == Unmatched;
  }

  lemma VisitKeepsMidway(w: World, v: World, k: nat, ev: Event, done: set<nat>, o: nat)
    requires Orderly(w) && Midway(w, v, k, ev, done) && o in OpenOutlets(w) - done
    ensures Enabled(v, Visit(k, o)) && Midway(w, Visited(v, k, o), k, ev, done + {o})
  {
    VisitIsNext(w, v, k, ev, done, o);
    VisitOffers(w, v, k, ev, done, o);
    VisitCounted(w, v, k, ev, done, o);
    VisitTurns(w, v, k, ev, done, o);
  }

  lemma ThenStep(w: World, ls: seq<Label>, l: Label)
    requires CanRun(w, ls) && Enabled(Run(w, ls), l)
    ensures CanRun(w, ls + [l]) && Run(w, ls + [l]) == Apply(Run(w, ls), l)
  {
    assert Init(ls + [l]) == ls;
  }

  lemma {:induction false} VisitsRun(w: World, k: nat, ev: Event, done: set<nat>) returns (ls: seq<Label>)
    requires Orderly(w) && w.active == map[] && done <= OpenOutlets(w)
    ensures CanRun(w, ls) && Midway(w, Run(w, ls), k, ev, done)
    decreases |done|
  {
    if o :| o in done {
      ls := VisitsRun(w, k, ev, done - {o});
      assert done - {o} + {o} == done;
      VisitKeepsMidway(w, Run(w, ls), k, ev, done - {o}, o);
      ThenStep(w, ls, Visit(k, o));
      ls := ls + [Visit(k, o)];
    } else {
      assert done == {};
      BeginIsMidway(w, k, ev);
      ThenStep(w, [], Begin(k, ev));
      ls := [] + [Begin(k, ev)];
    }
  }

  /** What an uninterrupted dispatch leaves behind. */
  ghost predicate Dispatched(w: World, v: World, k: nat, ev: Event) {
    && Orderly(w) && v.cap == w.cap && v.log == w.log + [Sent(k, ev)] && v.active == map[]
    && Offered(w, v, ev, OpenOutlets(w))
    && v.delivered == w.delivered + |FatedOutlets(w, ev, Delivered)|
    && v.dropped == w.dropped + |FatedOutlets(w, ev, Dropped)|
    && v.unrouted == w.unrouted + if FatedOutlets(w, ev, Unmatched) == OpenOutlets(w) then 1 else 0
  }

  lemma FinishIsDispatched(w: World, v: World, k: nat, ev: Event)
    requires Orderly(w) && w.active == map[] && Midway(w, v, k, ev, OpenOutlets(w))
    ensures Enabled(v, Finish(k)) && Dispatched(w, Finished(v, k), k, ev)
  {
    assert FatedOutlets(w, ev, Delivered) * OpenOutlets(w) == FatedOutlets(w, ev, Delivered);
    assert FatedOutlets(w, ev, Dropped) * OpenOutlets(w) == FatedOutlets(w, ev, Dropped);
    assert FatedOutlets(w, ev, Unmatched) <= OpenOutlets(w);
    assert (v.active - {k}).Keys == {};
  }

  /** Every dispatch without interruption is a run of the machine with this outcome. */
  lemma DispatchIsARun(w: World, k: nat, ev: Event) returns (ls: seq<Label>)
    requires Orderly(w) && w.active == map[]
    ensures CanRun(w, ls) && Dispatched(w, Run(w, ls), k, ev)
  {
    ls := VisitsRun(w, k, ev, OpenOutlets(w));
    FinishIsDispatched(w, Run(w, ls), k, ev);
    ThenStep(w, ls, Finish(k));
    ls := ls + [Finish(k)];
  }

  // ---------- the hub object ----------

  /** The events waiting in an outlet, oldest first. */
  ghost predicate Holds(x: Outlet, log: seq<Sent>, out: seq<Event>) {
    && x.drained <= |x.enqueued| && |out| == Queued(x)
    && forall j :: 0 <= j < |out| ==> Waits(x, log, j, out[j])
  }

  /** The `j`-th event waiting. */
  predicate Waits(x: Outlet, log: seq<Sent>, j: nat, ev: Event) {
    x.drained + j < |x.enqueued| && x.enqueued[x.drained + j] < |log| && log[x.enqueued[x.drained + j]].ev == ev
  }

  ghost predicate Mirrors(hub: H.Hub, ids: map<H.Subscriber, nat>, w: World)
    reads hub, hub.subs
  {
    && w.active == map[] && Orderly(w) && ids.Keys == hub.subs
    && Injective(ids)
    && ids.Values == OpenOutlets(w)
    && (forall s :: s in ids ==> SubMirrors(s, ids[s], w))
    && hub.delivered == w.delivered && hub.dropped == w.dropped && hub.unrouted == w.unrouted
  }

  ghost predicate SubMirrors(s: H.Subscriber, o: nat, w: World)
    reads s
  {
    && o in w.outlets && w.outlets[o].open && w.outlets[o].filter == s.interest && s.buffer == w.cap
    && Holds(w.outlets[o], w.log, s.out)
  }

  lemma {:induction false} ImageSize<T>(ids: map<T, nat>, ts: set<T>, os: set<nat>)
    requires ts <= ids.Keys && Injective(ids)
    requires forall o :: o in os <==> exists t :: t in ts && ids[t] == o
    ensures |ts| == |os|
    decreases |ts|
  {
    if t :| t in ts {
      ImageSize(ids, ts - {t}, os - {ids[t]});
    } else {
      assert forall o :: o !in os;
    }
  }

  lemma OfferHolds(x: Outlet, log: seq<Sent>, out: seq<Event>, k: nat, ev: Event, fate: Fate)
    requires Holds(x, log, out)
    ensures Holds(Offer(x, fate, |log|), log + [Sent(k, ev)], if fate == Delivered then out + [ev] else out)
  {
    forall j | 0 <= j < |out| ensures Waits(Offer(x, fate, |log|), log + [Sent(k, ev)], j, out[j]) {
      assert Waits(x, log, j, out[j]);
    }
  }

  /** The subscribers for which an event would have this fate. */
  ghost function Fated(hub: H.Hub, ev: Event, fate: Fate): set<H.Subscriber>
    reads hub, hub.subs
  {
    set s | s in hub.subs && Outcome(s.interest, |s.out|, s.buffer, ev) == fate
  }

  lemma FatedAreWanting(hub: H.Hub, ev: Event)
    ensures Fated(hub, ev, Delivered) == hub.Wanting(ev, true) && Fated(hub, ev, Dropped) == hub.Wanting(ev, false)
    ensures Fated(hub, ev, Unmatched) == hub.subs <==> hub.Wanting(ev, true) == {} == hub.Wanting(ev, false)
  {
    forall s | s in hub.subs
      ensures s !in Fated(hub, ev, Unmatched) <==> s in hub.Wanting(ev, true) + hub.Wanting(ev, false)
    {
    }
  }

  lemma FatedSize(hub: H.Hub, ids: map<H.Subscriber, nat>, w: World, ev: Event, fate: Fate)
    requires Mirrors(hub, ids, w)
    ensures |Fated(hub, ev, fate)| == |FatedOutlets(w, ev, fate)|
    ensures Fated(hub, ev, fate) == hub.subs <==> FatedOutlets(w, ev, fate) == OpenOutlets(w)
  {
    var ts, os := Fated(hub, ev, fate), FatedOutlets(w, ev, fate);
    forall s | s in ids ensures s in ts <==> ids[s] in os {
      assert SubMirrors(s, ids[s], w);
    }
    forall o ensures o in os <==> exists t :: t in ts && ids[t] == o {
      if o in os {
        assert o in ids.Values;
        var t :| t in ids && ids[t] == o;
      }
    }
    ImageSize(ids, ts, os);
    if ts == hub.subs {
      forall o | o in OpenOutlets(w) ensures o in os {
        assert o in ids.Values;
      }
    }
    if os == OpenOutlets(w) {
      forall s | s in hub.subs ensures s in ts {
        assert SubMirrors(s, ids[s], w);
      }
    }
  }

  lemma WantingSize(hub: H.Hub, ids: map<H.Subscriber, nat>, w: World, ev: Event)
    requires Mirrors(hub, ids, w)
    ensures |hub.Wanting(ev, true)| == |FatedOutlets(w, ev, Delivered)|
    ensures |hub.Wanting(ev, false)| == |FatedOutlets(w, ev, Dropped)|
    ensures FatedOutlets(w, ev, Unmatched) == OpenOutlets(w) <==> hub.Wanting(ev, true) == {} == hub.Wanting(ev, false)
  {
    FatedAreWanting(hub, ev);
    FatedSize(hub, ids, w, ev, Delivered);
    FatedSize(hub, ids, w, ev, Dropped);
    FatedSize(hub, ids, w, ev, Unmatched);
  }

  /** The subscriber of outlet `o`, which held `before`, has just been offered the event. */
  ghost predicate Fed(s: H.Subscriber, o: nat, w: World, ev: Event, before: seq<Event>)
    reads s
  {
    && o in w.outlets && w.outlets[o].open && w.outlets[o].filter == s.interest && s.buffer == w.cap
    && Holds(w.outlets[o], w.log, before)
    && s.out == if s.interest.Admits(ev.fleet, ev.vin) && |before| < s.buffer then before + [ev] else before
  }

  /** It mirrors its outlet again. */
  lemma SubMirrorsAfter(s: H.Subscriber, o: nat, w: World, w': World, ev: Event, before: seq<Event>)
    requires Dispatched(w, w', 0, ev) && Fed(s, o, w, ev, before)
    ensures SubMirrors(s, o, w')
  {
    OfferHolds(w.outlets[o], w.log, before, 0, ev, FateOf(w, o, ev));
    assert o in OpenOutlets(w);
  }

  lemma OpenAfter(w: World, w': World, k: nat, ev: Event)
    requires Dispatched(w, w', k, ev)
    ensures OpenOutlets(w') == OpenOutlets(w) && Orderly(w')
  {
  }

  /** The run of the dispatch that a mirroring hub is about to make, and what it will count. */
  lemma DispatchAhead(hub: H.Hub, ids: map<H.Subscriber, nat>, w: World, ev: Event) returns (w': World, ls: seq<Label>)
    requires Mirrors(hub, ids, w)
    ensures CanRun(w, ls) && w' == Run(w, ls) && Dispatched(w, w', 0, ev)
    ensures w'.active == map[] && Orderly(w') && OpenOutlets(w') == OpenOutlets(w)
    ensures w'.delivered == w.delivered + |hub.Wanting(ev, true)|
    ensures w'.dropped == w.dropped + |hub.Wanting(ev, false)|
    ensures w'.unrouted == w.unrouted + if hub.Wanting(ev, true) == {} == hub.Wanting(ev, false) then 1 else 0
  {
    ls := DispatchIsARun(w, 0, ev);
    w' := Run(w, ls);
    OpenAfter(w, w', 0, ev);
    WantingSize(hub, ids, w, ev);
  }

  /** The call for which `w'` is ahead. */
  method DispatchTo(hub: H.Hub, ev: Event, ghost w: World, ghost w': World, ghost ids: map<H.Subscriber, nat>)
    requires Mirrors(hub, ids, w) && Dispatched(w, w', 0, ev)
    requires w'.active == map[] && Orderly(w') && OpenOutlets(w') == OpenOutlets(w)
    requires w'.delivered == w.delivered + |hub.Wanting(ev, true)|
    requires w'.dropped == w.dropped + |hub.Wanting(ev, false)|
    requires w'.unrouted == w.unrouted + if hub.Wanting(ev, true) == {} == hub.Wanting(ev, false) then 1 else 0
    modifies hub.subs`out, hub`delivered, hub`dropped, hub`unrouted
    ensures Mirrors(hub, ids, w')
  {
    label Before:
    hub.Dispatch(ev);
    forall s | s in ids ensures SubMirrors(s, ids[s], w') {
      assert old@Before(SubMirrors(s, ids[s], w));
      SubMirrorsAfter(s, ids[s], w, w', ev, old@Before(s.out));
    }
  }

  /** The imperative dispatch inside the machine: a hub that mirrors a world still mirrors one, reached by
      a run of the machine. */
  method DispatchInWorld(hub: H.Hub, ev: Event, ghost w: World, ghost ids: map<H.Subscriber, nat>)
    returns (ghost w': World, ghost ls: seq<Label>)
    requires Mirrors(hub, ids, w)
    modifies hub.subs`out, hub`delivered, hub`dropped, hub`unrouted
    ensures CanRun(w, ls) && w' == Run(w, ls) && Dispatched(w, w', 0, ev)
    ensures Mirrors(hub, ids, w')
  {
    w', ls := DispatchAhead(hub, ids, w, ev);
    DispatchTo(hub, ev, w, w', ids);
  }

  // ---------- the handler's operations ----------

  lemma OthersMirror(s: H.Subscriber, o: nat, w: World, w': World)
    requires SubMirrors(s, o, w) && o in w'.outlets && w'.outlets[o] == w.outlets[o]
    requires w'.log == w.log && w'.cap == w.cap
    ensures SubMirrors(s, o, w')
  {
    forall j | 0 <= j < |s.out| ensures Waits(w'.outlets[o], w'.log, j, s.out[j]) {
      assert Waits(w.outlets[o], w.log, j, s.out[j]);
    }
  }

  lemma DrainedHolds(x: Outlet, log: seq<Sent>, ev: Event, rest: seq<Event>)
    requires Holds(x, log, [ev] + rest)
    ensures Holds(x.(drained := x.drained + 1), log, rest) && Waits(x, log, 0, ev)
  {
    assert ([ev] + rest)[0] == ev;
    forall j | 0 <= j < |rest| ensures Waits(x.(drained := x.drained + 1), log, j, rest[j]) {
      assert ([ev] + rest)[j + 1] == rest[j];
      assert Waits(x, log, j + 1, ([ev] + rest)[j + 1]);
    }
  }

  /** Taking the next event to send is the machine's drain, and the event is the oldest one waiting. */
  method DrainInWorld(
      srv: H.Server, sub: H.Subscriber, ghost w: World, ghost ids: map<H.Subscriber, nat>)
    returns (ev: Event, ghost w': World)
    requires Mirrors(srv.hub, ids, w) && sub in ids && sub.out != []
    modifies sub`out
    ensures Enabled(w, Drain(ids[sub])) && w' == Apply(w, Drain(ids[sub])) && Waits(w.outlets[ids[sub]], w.log, 0, ev)
    ensures Mirrors(srv.hub, ids, w')
  {
    ghost var o := ids[sub];
    assert SubMirrors(sub, o, w);
    label Before:
    ev := srv.Drain(sub);
    DrainedHolds(w.outlets[o], w.log, ev, sub.out);
    w' := Apply(w, Drain(o));
    forall s | s in ids ensures SubMirrors(s, ids[s], w') {
      if s != sub {
        assert old@Before(SubMirrors(s, ids[s], w));
        OthersMirror(s, ids[s], w, w');
      }
    }
  }

  /** Receiving one request is the machine's change of filter if it is an update, and nothing otherwise. */
  method ReceiveInWorld(
      srv: H.Server, sub: H.Subscriber, req: H.Request, ghost w: World, ghost ids: map<H.Subscriber, nat>)
    returns (ghost w': World)
    requires Mirrors(srv.hub, ids, w) && sub in ids
    modifies sub`interest
    ensures w' == if req.InterestUpdate? then Apply(w, SetFilter(ids[sub], FromProto(req.update))) else w
    ensures Mirrors(srv.hub, ids, w')
  {
    ghost var o := ids[sub];
    assert SubMirrors(sub, o, w);
    label Before:
    srv.ReceiveAll(sub, [req]);
    assert req.InterestUpdate? ==> H.LastUpdate([req], 0);
    w' := if req.InterestUpdate? then Apply(w, SetFilter(o, FromProto(req.update))) else w;
    forall s | s in ids ensures SubMirrors(s, ids[s], w') {
      assert old@Before(SubMirrors(s, ids[s], w));
      if s != sub {
        OthersMirror(s, ids[s], w, w');
      } else {
        assert Holds(w'.outlets[o], w'.log, sub.out) by {
          forall j | 0 <= j < |sub.out| ensures Waits(w'.outlets[o], w'.log, j, sub.out[j]) {
            assert old@Before(Waits(w.outlets[o], w.log, j, sub.out[j]));
          }
        }
      }
    }
  }

  /** A successful handshake connects a new outlet that is interested in nothing. */
  method HandshakeInWorld(
      srv: H.Server, first: Option<H.Request>, ghost w: World, ghost ids: map<H.Subscriber, nat>, ghost o: nat)
    returns (sub: Option<H.Subscriber>, ghost w': World, ghost ids': map<H.Subscriber, nat>)
    requires Mirrors(srv.hub, ids, w) && o !in w.outlets && srv.buffer == w.cap
    modifies srv.hub`subs
    ensures w' == if sub.Some? then Apply(w, Add(o, NOTHING)) else w
    ensures ids' == if sub.Some? then ids[sub.value := o] else ids
    ensures Mirrors(srv.hub, ids', w')
  {
    var status;
    label Before:
    status, sub := srv.Handshake(first);
    w', ids' := w, ids;
    if sub.Some? {
      w' := Apply(w, Add(o, NOTHING));
      ids' := ids[sub.value := o];
      assert OpenOutlets(w') == OpenOutlets(w) + {o};
      assert sub.value !in ids;
      forall p ensures p in ids'.Values <==> p in ids.Values + {o} {
        if p in ids.Values {
          var s :| s in ids && ids[s] == p;
          assert ids'[s] == p;
        }
        assert ids'[sub.value] == o;
      }
      forall s | s in ids ensures SubMirrors(s, ids[s], w') {
        assert old@Before(SubMirrors(s, ids[s], w));
        OthersMirror(s, ids[s], w, w');
      }
    }
  }

  /** The deferred removal disconnects exactly the subscriber's outlet. */
  method FinishInWorld(
      srv: H.Server, sub: H.Subscriber, ghost w: World, ghost ids: map<H.Subscriber, nat>)
    returns (ghost w': World)
    requires Mirrors(srv.hub, ids, w) && sub in ids
    modifies srv.hub`subs
    ensures Enabled(w, Remove(ids[sub])) && w' == Apply(w, Remove(ids[sub]))
    ensures Mirrors(srv.hub, ids - {sub}, w')
  {
    ghost var o := ids[sub];
    assert SubMirrors(sub, o, w);
    label Before:
    srv.Finish(sub);
    w' := Apply(w, Remove(o));
    assert OpenOutlets(w') == OpenOutlets(w) - {o};
    forall s | s in ids && s != sub ensures SubMirrors(s, ids[s], w') {
      assert old@Before(SubMirrors(s, ids[s], w));
      OthersMirror(s, ids[s], w, w');
    }
    forall p ensures p in (ids - {sub}).Values <==> p in OpenOutlets(w) - {o} {
      if p in OpenOutlets(w) - {o} {
        assert p in ids.Values;
        var s :| s in ids && ids[s] == p;
        assert s in ids - {sub};
      }
    }
  }
}
