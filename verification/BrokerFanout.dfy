/** An uninterrupted `Broker.Dispatch` is a run of the fan-out machine, like the hub's: the source is the
    router stream whose receive loop calls it, the outlets are the browsers. */
module BrokerFanout {
  import opened Wrappers
  import opened Queues
  import opened Fanout
  import opened HubRefinement
  import B = Broker

  ghost predicate ClientMirrors(c: B.Client, o: nat, w: World)
    reads c
  {
    o in w.outlets && w.outlets[o].open && w.outlets[o].filter == c.scope && Holds(w.outlets[o], w.log, c.out)
  }

  /** Every connected browser is an outlet with the same scope and queue. */
  ghost predicate BrokerMirrors(b: B.Broker, ids: map<B.Client, nat>, w: World)
    reads b, b.clients
  {
    && w.active == map[] && Orderly(w) && w.cap == CLIENT_BUFFER && ids.Keys == b.clients
    && Injective(ids)
    && ids.Values == OpenOutlets(w)
    && (forall c :: c in ids ==> ClientMirrors(c, ids[c], w))
    && b.dropped == w.dropped
  }

  lemma LostSize(b: B.Broker, ids: map<B.Client, nat>, w: World, ev: Event)
    requires BrokerMirrors(b, ids, w)
    ensures |b.Wanting(ev, false)| == |FatedOutlets(w, ev, Dropped)|
  {
    var cs, os := b.Wanting(ev, false), FatedOutlets(w, ev, Dropped);
    forall c | c in ids ensures c in cs <==> ids[c] in os {
      assert ClientMirrors(c, ids[c], w);
    }
    forall o ensures o in os <==> exists c :: c in cs && ids[c] == o {
      if o in os {
        assert o in ids.Values;
        var c :| c in ids && ids[c] == o;
      }
    }
    ImageSize(ids, cs, os);
  }

  lemma ClientMirrorsAfter(c: B.Client, o: nat, w: World, w': World, k: nat, ev: Event, before: seq<Event>)
    requires Dispatched(w, w', k, ev) && w.cap == CLIENT_BUFFER
    requires o in w.outlets && w.outlets[o].open && w.outlets[o].filter == c.scope
    requires Holds(w.outlets[o], w.log, before) && c.out == Queues.Offered(c.scope, before, CLIENT_BUFFER, ev)
    ensures ClientMirrors(c, o, w')
  {
    OfferHolds(w.outlets[o], w.log, before, k, ev, FateOf(w, o, ev));
    assert o in OpenOutlets(w);
  }

  /** The imperative dispatch for router stream `k`: a broker that mirrors a world still mirrors one, reached
      by a run of the machine. */
  method BrokerDispatchInWorld(b: B.Broker, ev: Event, ghost w: World, ghost ids: map<B.Client, nat>, ghost k: nat)
    returns (ghost w': World, ghost ls: seq<Label>)
    requires BrokerMirrors(b, ids, w)
    modifies b.clients`out, b`dropped
    ensures CanRun(w, ls) && w' == Run(w, ls) && Dispatched(w, w', k, ev)
    ensures BrokerMirrors(b, ids, w')
  {
    ls := DispatchIsARun(w, k, ev);
    w' := Run(w, ls);
    OpenAfter(w, w', k, ev);
    LostSize(b, ids, w, ev);
    label Before:
    b.Dispatch(ev);
    forall c | c in ids ensures ClientMirrors(c, ids[c], w') {
      assert old@Before(ClientMirrors(c, ids[c], w));
      ClientMirrorsAfter(c, ids[c], w, w', k, ev, old@Before(c.out));
    }
  }
}
