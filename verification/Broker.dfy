/** The dashboard's interest bus and broker as imperative code
    (services/internal/dashboard/interest.go, broker.go). */
module Broker {
  import opened Wrappers
  import opened Interest
  import opened Queues

  /** A channel with one slot and no content. */
  class Signal {
    var full: bool

    constructor ()
      ensures !full
    {
      full := false;
    }
  }

  class InterestBus {
    var cur: Update
    var watchers: set<Signal>

    constructor ()
      ensures cur == NO_INTEREST && watchers == {}
    {
      cur := NO_INTEREST;
      watchers := {};
    }

    /** A new value wakes every watcher, once; the same value wakes nobody. */
    method Set(all: bool, fleets: seq<string>, vins: seq<string>)
      modifies this`cur, watchers
      ensures cur == SetTo(old(cur), all, fleets, vins)
      ensures forall ch :: ch in watchers ==> (ch.full <==> old(ch.full) || cur != old(cur))
    {
      if cur.all == all && cur.fleets == fleets && cur.vins == vins {
        return;
      }
      cur := Update(all, fleets, vins, cur.version + 1);
      var rest := watchers;
      while rest != {}
        invariant cur == SetTo(old(cur), all, fleets, vins) && rest <= watchers
        invariant forall ch :: ch in watchers ==> if ch in rest then ch.full == old(ch.full) else ch.full
        decreases |rest|
      {
        var ch :| ch in rest;
        ch.full := true;
        rest := rest - {ch};
      }
    }

    method Watch() returns (ch: Signal)
      modifies this`watchers
      ensures fresh(ch) && !ch.full && watchers == old(watchers) + {ch}
    {
      ch := new Signal();
      watchers := watchers + {ch};
    }

    method Unwatch(ch: Signal)
      modifies this`watchers
      ensures watchers == old(watchers) - {ch}
    {
      watchers := watchers - {ch};
    }
  }

  /** One browser connection. */
  class Client {
    const user: string
    var scope: Filter
    var out: seq<Event>

    constructor (user: string, scope: Filter)
      ensures this.user == user && this.scope == scope && out == []
    {
      this.user := user;
      this.scope := scope;
      out := [];
    }
  }

  /** What other goroutines do between the two locks of a `recompute`: connections come and go, scopes are
      stored, other recomputes publish. */
  datatype Change =
    | Connect(c: Client)
    | Disconnect(c: Client)
    | Rescope(c: Client, scope: Filter)
    | Overtake(sum: Filter)

  function ClientsAfter(clients: set<Client>, changes: seq<Change>): set<Client> {
    if changes == [] then clients
    else
      var before := ClientsAfter(clients, Init(changes));
      match Last(changes)
      case Connect(c) => before + {c}
      case Disconnect(c) => before - {c}
      case _ => before
  }

  function ScopeAfter(c: Client, scope: Filter, changes: seq<Change>): Filter {
    if changes == [] then scope
    else if Last(changes).Rescope? && Last(changes).c == c then Last(changes).scope
    else ScopeAfter(c, scope, Init(changes))
  }

  function Rescoped(changes: seq<Change>): set<Client> {
    set x | x in changes && x.Rescope? :: x.c
  }

  class Broker {
    const bus: InterestBus
    var clients: set<Client>
    var dropped: nat    // dashboard_sse_dropped_total

    constructor (bus: InterestBus)
      ensures this.bus == bus && clients == {} && dropped == 0
    {
      this.bus := bus;
      clients := {};
      dropped := 0;
    }

    ghost function UnionOver(cs: set<Client>): Filter
      reads cs
    {
      UnionOf(set c | c in cs :: c.scope)
    }

    ghost predicate Allowed(fleet: string, vin: string)
      reads this, clients
    {
      exists c :: c in clients && c.scope.Admits(fleet, vin)
    }

    /** The published interest admits exactly what some connected user's scope allows. */
    ghost predicate Agrees()
      reads this, clients, bus
    {
      forall fleet, vin :: FromProto(bus.cur).Admits(fleet, vin) <==> Allowed(fleet, vin)
    }

    lemma AgreesIff()
      requires Collapse(FromProto(bus.cur)) == FromProto(bus.cur)
      ensures Agrees() <==> FromProto(bus.cur) == Collapse(UnionOver(clients))
    {
      var scopes := set c | c in clients :: c.scope;
      forall fleet, vin ensures Allowed(fleet, vin) <==> SomeAdmits(scopes, fleet, vin) {
        if c :| c in clients && c.scope.Admits(fleet, vin) {
          assert c.scope in scopes;
        }
      }
      ServesIff(FromProto(bus.cur), scopes);
    }

    /** The loop of `recompute` under the read lock. */
    method Collect() returns (sum: Filter)
      ensures sum == UnionOver(clients)
    {
      var all, fleets, vins := false, {}, {};
      var order := Order(clients);
      UnionOfNone();
      for i := 0 to |order|
        invariant Filter(all, fleets, vins) == UnionOf(set j | 0 <= j < i :: order[j].scope)
      {
        var s := order[i].scope;
        UnionOfAdd(set j | 0 <= j < i :: order[j].scope, s);
        assert (set j | 0 <= j < i + 1 :: order[j].scope) == (set j | 0 <= j < i :: order[j].scope) + {s};
        all := all || s.all;
        fleets := fleets + s.fleets;
        vins := vins + s.vins;
      }
      assert (set j | 0 <= j < |order| :: order[j].scope) == set c | c in clients :: c.scope;
      return Filter(all, fleets, vins);
    }

    /** `recompute` after its lock is released: the bus represents the union that was collected, the version
        rises exactly on a change, and the watchers are woken exactly then. */
    method Publish(sum: Filter) returns (ghost fleets: seq<string>, ghost vins: seq<string>)
      requires Normal(bus.cur)
      modifies bus`cur, bus.watchers
      ensures ArgsOf(sum, sum.all, fleets, vins) && bus.cur == SetTo(old(bus.cur), sum.all, fleets, vins)
      ensures Normal(bus.cur) && FromProto(bus.cur) == Collapse(sum)
      ensures bus.cur.version == old(bus.cur.version) + (if FromProto(old(bus.cur)) == FromProto(bus.cur) then 0 else 1)
      ensures forall ch :: ch in bus.watchers ==> (ch.full <==> old(ch.full) || bus.cur != old(bus.cur))
    {
      var fleetSet, vinSet := sum.fleets, sum.vins;
      if sum.all {
        fleetSet, vinSet := {}, {};
      }
      var fleetIds := SortedKeys(fleetSet);
      var vinIds := SortedKeys(vinSet);
      SetRepresents(bus.cur, sum, sum.all, fleetIds, vinIds);
      VersionBumpIsExact(bus.cur, sum, sum.all, fleetIds, vinIds);
      bus.Set(sum.all, fleetIds, vinIds);
      fleets, vins := fleetIds, vinIds;
    }

    method Interfere(changes: seq<Change>)
      requires Normal(bus.cur)
      modifies this`clients, bus`cur, bus.watchers, Rescoped(changes)`scope
      ensures clients == ClientsAfter(old(clients), changes) && Normal(bus.cur)
      ensures forall c :: c in old(clients) ==> c.scope == ScopeAfter(c, old(c.scope), changes)
      ensures changes == [] ==> bus.cur == old(bus.cur) && forall ch :: ch in bus.watchers ==> ch.full == old(ch.full)
    {
      for i := 0 to |changes|
        invariant clients == ClientsAfter(old(clients), changes[..i]) && Normal(bus.cur)
        invariant forall c :: c in old(clients) ==> c.scope == ScopeAfter(c, old(c.scope), changes[..i])
        invariant i == 0 ==> bus.cur == old(bus.cur) && forall ch :: ch in bus.watchers ==> ch.full == old(ch.full)
      {
        assert Init(changes[..i + 1]) == changes[..i];
        match changes[i] {
          case Connect(c) => clients := clients + {c};
          case Disconnect(c) => clients := clients - {c};
          case Rescope(c, scope) =>
            assert changes[i] in changes;
            c.scope := scope;
          case Overtake(sum) =>
            var _, _ := Publish(sum);
        }
      }
      assert changes[..|changes|] == changes;
    }

    /** `recompute`, for what happens between the collection and the `Set`. The bus ends up with the union
        collected, whatever was published meanwhile; it agrees with the connected users if and only if that
        union represents what the present one does. */
    method Recompute(meanwhile: seq<Change>)
      requires Normal(bus.cur)
      modifies this`clients, bus`cur, bus.watchers, Rescoped(meanwhile)`scope
      ensures clients == ClientsAfter(old(clients), meanwhile)
      ensures forall c :: c in old(clients) ==> c.scope == ScopeAfter(c, old(c.scope), meanwhile)
      ensures Normal(bus.cur) && FromProto(bus.cur) == Collapse(old(UnionOver(clients)))
      ensures Agrees() <==> Collapse(old(UnionOver(clients))) == Collapse(UnionOver(clients))
      ensures meanwhile == [] ==> Agrees()
      ensures meanwhile == [] ==>
        bus.cur.version == old(bus.cur.version) + (if FromProto(old(bus.cur)) == FromProto(bus.cur) then 0 else 1)
      ensures meanwhile == [] ==>
        forall ch :: ch in bus.watchers ==> (ch.full <==> old(ch.full) || bus.cur != old(bus.cur))
    {
      var sum := Collect();
      Interfere(meanwhile);
      var _, _ := Publish(sum);
      AgreesIff();
    }

    /** Register's section under the write lock. */
    method Enter(c: Client)
      modifies this`clients
      ensures clients == old(clients) + {c}
    {
      clients := clients + {c};
    }

    /** Unregister's section under the write lock. */
    method Leave(c: Client)
      modifies this`clients
      ensures clients == old(clients) - {c}
    {
      clients := clients - {c};
    }

    /** A client connects; `meanwhile` happens before its recompute publishes. */
    method Register(c: Client, meanwhile: seq<Change>)
      requires Normal(bus.cur)
      modifies this`clients, bus`cur, bus.watchers, Rescoped(meanwhile)`scope
      ensures clients == ClientsAfter(old(clients) + {c}, meanwhile)
      ensures forall d :: d in old(clients) + {c} ==> d.scope == ScopeAfter(d, old(d.scope), meanwhile)
      ensures Normal(bus.cur) && FromProto(bus.cur) == Collapse(old(UnionOver(clients + {c})))
      ensures Agrees() <==> Collapse(old(UnionOver(clients + {c}))) == Collapse(UnionOver(clients))
      ensures meanwhile == [] ==> Agrees()
    {
      Enter(c);
      Recompute(meanwhile);
    }

    /** A client disconnects; `meanwhile` happens before its recompute publishes. */
    method Unregister(c: Client, meanwhile: seq<Change>)
      requires Normal(bus.cur)
      modifies this`clients, bus`cur, bus.watchers, Rescoped(meanwhile)`scope
      ensures clients == ClientsAfter(old(clients) - {c}, meanwhile)
      ensures forall d :: d in old(clients) - {c} ==> d.scope == ScopeAfter(d, old(d.scope), meanwhile)
      ensures Normal(bus.cur) && FromProto(bus.cur) == Collapse(old(UnionOver(clients - {c})))
      ensures Agrees() <==> Collapse(old(UnionOver(clients - {c}))) == Collapse(UnionOver(clients))
      ensures meanwhile == [] ==> Agrees()
    {
      Leave(c);
      Recompute(meanwhile);
    }

    /** UpdateScope's loop under the read lock: all of the user's connections and nobody else's. */
    method StoreScope(user: string, s: Filter)
      modifies clients`scope
      ensures forall c :: c in clients ==> c.scope == if c.user == user then s else old(c.scope)
    {
      var order := Order(clients);
      for i := 0 to |order|
        invariant forall j :: 0 <= j < i ==> order[j].scope == if order[j].user == user then s else old(order[j].scope)
        invariant forall j :: i <= j < |order| ==> order[j].scope == old(order[j].scope)
      {
        if order[i].user == user {
          order[i].scope := s;
        }
      }
    }

    /** The union once the user's scope is refreshed. */
    ghost function UnionWith(user: string, s: Filter): Filter
      reads this, clients
    {
      UnionOf(set c | c in clients :: if c.user == user then s else c.scope)
    }

    /** A refreshed scope reaches all of a user's connections and nobody else's; `meanwhile` happens before
        the recompute publishes. */
    method UpdateScope(user: string, s: Filter, meanwhile: seq<Change>)
      requires Normal(bus.cur)
      modifies this`clients, clients`scope, bus`cur, bus.watchers, Rescoped(meanwhile)`scope
      ensures clients == ClientsAfter(old(clients), meanwhile)
      ensures forall c :: c in old(clients) ==>
        c.scope == ScopeAfter(c, if c.user == user then s else old(c.scope), meanwhile)
      ensures Normal(bus.cur) && FromProto(bus.cur) == Collapse(old(UnionWith(user, s)))
      ensures Agrees() <==> Collapse(old(UnionWith(user, s))) == Collapse(UnionOver(clients))
      ensures meanwhile == [] ==> Agrees()
    {
      StoreScope(user, s);
      assert (set c | c in clients :: c.scope) == old(set c | c in clients :: if c.user == user then s else c.scope);
      Recompute(meanwhile);
    }

    /** The distinct users connected to this pod. */
    method UserIds() returns (users: set<string>)
      ensures users == set c | c in clients :: c.user
    {
      users := {};
      var rest := clients;
      while rest != {}
        invariant rest <= clients
        invariant users == set c | c in clients - rest :: c.user
        decreases |rest|
      {
        var c :| c in rest;
        users := users + {c.user};
        rest := rest - {c};
        assert clients - rest == (clients - rest - {c}) + {c};
      }
      assert clients - rest == clients;
    }

    /** The non-blocking send to one connection. */
    method Offer(c: Client, ev: Event)
      modifies c`out, this`dropped
      ensures c.out ==
        if c.scope.Admits(ev.fleet, ev.vin) && |old(c.out)| < 512 then old(c.out) + [ev] else old(c.out)
      ensures dropped == old(dropped) + if c.scope.Admits(ev.fleet, ev.vin) && |old(c.out)| >= 512 then 1 else 0
    {
      if !c.scope.Admits(ev.fleet, ev.vin) {
        return;
      }
      if |c.out| < CLIENT_BUFFER {
        c.out := c.out + [ev];
      } else {
        dropped := dropped + 1;
      }
    }

    /** The connections whose scope allows an event and whose queue has room for it, or has none. */
    ghost function Wanting(ev: Event, room: bool): set<Client>
      reads this, clients
    {
      set c | c in clients && c.scope.Admits(ev.fleet, ev.vin) && (room <==> |c.out| < 512)
    }

    /** The range loop of `Dispatch`, for the order in which it happens to visit the connections. */
    method OfferAll(order: seq<Client>, ev: Event) returns (ghost fates: seq<Fate>)
      requires forall i, j :: 0 <= i < j < |order| ==> order[i] != order[j]
      modifies (set c | c in order)`out, this`dropped
      ensures |fates| == |order|
      ensures forall j :: 0 <= j < |order| ==>
        order[j].out == Offered(order[j].scope, old(order[j].out), CLIENT_BUFFER, ev)
      ensures forall j :: 0 <= j < |order| ==>
        fates[j] == Outcome(order[j].scope, |old(order[j].out)|, CLIENT_BUFFER, ev)
      ensures dropped == old(dropped) + Tally(fates, Dropped)
    {
      fates := [];
      for i := 0 to |order|
        invariant |fates| == i
        invariant forall j :: 0 <= j < i ==>
          order[j].out == Offered(order[j].scope, old(order[j].out), CLIENT_BUFFER, ev)
        invariant forall j :: i <= j < |order| ==> order[j].out == old(order[j].out)
        invariant forall j :: 0 <= j < i ==> fates[j] == Outcome(order[j].scope, |old(order[j].out)|, CLIENT_BUFFER, ev)
        invariant dropped == old(dropped) + Tally(fates, Dropped)
      {
        ghost var fate := Outcome(order[i].scope, |order[i].out|, CLIENT_BUFFER, ev);
        Offer(order[i], ev);
        assert Init(fates + [fate]) == fates;
        fates := fates + [fate];
      }
    }

    /** The second filter: each connection whose scope allows the event gets it, unless its queue is full. */
    method Dispatch(ev: Event)
      modifies clients`out, this`dropped
      ensures forall c :: c in old(Wanting(ev, true)) ==> c.out == old(c.out) + [ev]
      ensures forall c :: c in clients - old(Wanting(ev, true)) ==> c.out == old(c.out)
      ensures dropped == old(dropped) + |old(Wanting(ev, false))|
    {
      var order := Order(clients);
      ghost var lost := Wanting(ev, false);
      ghost var fates := OfferAll(order, ev);
      TallyCounts(order, fates, Dropped, lost);
    }
  }

  class Api {
    const broker: Broker

    constructor (broker: Broker)
      ensures this.broker == broker
    {
      this.broker := broker;
    }

    /** One round of `RefreshScopes`, without interference: every connected user's scope is read again and
        applied; a user whose scope cannot be read keeps the one in force. If any scope was applied, a bus
        that earlier overlaps left stale is repaired. */
    method RefreshScopes(answers: map<string, Filter>)
      requires Normal(broker.bus.cur)
      modifies broker`clients, broker.clients`scope, broker.bus`cur, broker.bus.watchers
      ensures broker.clients == old(broker.clients)
      ensures forall c :: c in broker.clients ==> c.scope == if c.user in answers then answers[c.user] else old(c.scope)
      ensures Normal(broker.bus.cur)
      ensures (exists c :: c in broker.clients && c.user in answers) ==> broker.Agrees()
      ensures !(exists c :: c in broker.clients && c.user in answers) ==> broker.bus.cur == old(broker.bus.cur)
    {
      var users := broker.UserIds();
      var order := Order(users);
      ghost var applied := false;
      for i := 0 to |order|
        invariant broker.clients == old(broker.clients) && Normal(broker.bus.cur)
        invariant applied <==> exists j :: 0 <= j < i && order[j] in answers
        invariant if applied then broker.Agrees() else broker.bus.cur == old(broker.bus.cur)
        invariant forall c :: c in broker.clients ==>
          c.scope == if c.user in order[..i] && c.user in answers then answers[c.user] else old(c.scope)
      {
        var uid := order[i];
        assert order[..i + 1] == order[..i] + [uid];
        if uid in answers {
          broker.UpdateScope(uid, answers[uid], []);
          applied := true;
        }
      }
      assert order[..|order|] == order;
    }
  }
}
