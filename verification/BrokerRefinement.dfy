/** Each section of the broker's code that holds a lock is a run of the interest machine. The machine
    interleaves these sections, so what holds of every run holds across overlapping calls. */
module BrokerRefinement {
  import opened Wrappers
  import opened Interest
  import opened InterestMachine
  import B = Broker

  // ---------- loops as runs ----------

  lemma JoinStep(sum: Filter, clients: map<nat, Client>, todo: set<nat>, c: nat)
    requires c in todo && c in clients
    ensures Join(Join(sum, clients[c].scope), UnionOver(clients, todo - {c})) == Join(sum, UnionOver(clients, todo))
  {
    UnionAddsOne(clients, todo - {c}, c);
    assert todo - {c} + {c} == todo;
    var s, u := clients[c].scope, UnionOver(clients, todo - {c});
    assert sum.fleets + s.fleets + u.fleets == sum.fleets + (u.fleets + s.fleets);
    assert sum.vins + s.vins + u.vins == sum.vins + (u.vins + s.vins);
  }

  /** Collecting the clients in `todo`, in any order, adds their union. */
  lemma {:induction false} CollectsRun(w: World, t: nat, todo: set<nat>, sum: Filter, since: nat)
    returns (ls: seq<Label>)
    requires t in w.tasks && w.tasks[t] == Collecting(todo, sum, since) && todo <= w.clients.Keys
    ensures CanRun(w, ls)
    ensures Run(w, ls) == WithTask(w, t, Collecting({}, Join(sum, UnionOver(w.clients, todo)), since))
    decreases |todo|
  {
    if c :| c in todo {
      var w1 := WithTask(w, t, Collecting(todo - {c}, Join(sum, w.clients[c].scope), since));
      JoinStep(sum, w.clients, todo, c);
      var rest := CollectsRun(w1, t, todo - {c}, Join(sum, w.clients[c].scope), since);
      StepThen(w, Collect(t, c), rest);
      ls := [Collect(t, c)] + rest;
    } else {
      assert todo == {};
      UnionOverNone(w.clients);
      assert Join(sum, NOTHING) == sum;
      assert w.tasks[t := w.tasks[t]] == w.tasks;
      ls := [];
    }
  }

  /** The whole loop of a recompute: the union of the table, known to be that of the present one. */
  lemma CollectionIsARun(w: World, t: nat) returns (ls: seq<Label>)
    requires t in w.tasks && w.tasks[t].Starting?
    ensures CanRun(w, ls) && Run(w, ls) == WithTask(w, t, Collected(Union(w.clients), Some(w.changes)))
  {
    var w1 := WithTask(w, t, Collecting(w.clients.Keys, NOTHING, w.changes));
    var collects := CollectsRun(w1, t, w.clients.Keys, NOTHING, w.changes);
    assert Join(NOTHING, Union(w.clients)) == Union(w.clients) by {
      assert {} + Union(w.clients).fleets == Union(w.clients).fleets;
      assert {} + Union(w.clients).vins == Union(w.clients).vins;
    }
    StepThen(w, StartCollect(t), collects);
    ThenStep(w, [StartCollect(t)] + collects, FinishCollect(t));
    ls := [StartCollect(t)] + collects + [FinishCollect(t)];
  }

  function Refreshed(c: Client, user: string, scope: Filter): Client {
    if c.user == user then c.(scope := scope) else c
  }

  /** A world in which the user's scope is refreshed at the clients in `done`. */
  ghost predicate Stored(w: World, v: World, t: nat, user: string, scope: Filter, done: set<nat>, task: Task) {
    && v.clients == (map c | c in w.clients :: if c in done then Refreshed(w.clients[c], user, scope) else w.clients[c])
    && v.tasks == w.tasks[t := task] && v.cur == w.cur && v.streams == w.streams
    && v.history == w.history && v.epoch == w.epoch
  }

  lemma VisitStores(w: World, v: World, t: nat, user: string, scope: Filter, done: set<nat>, todo: set<nat>, c: nat)
    requires Stored(w, v, t, user, scope, done, Rescoping(user, scope, todo)) && c in todo && c in w.clients
    requires c !in done
    ensures Enabled(v, Visit(t, c))
    ensures Stored(w, Visited(v, t, c), t, user, scope, done + {c}, Rescoping(user, scope, todo - {c}))
  {
    assert v.clients[c] == w.clients[c];
    var v' := Visited(v, t, c);
    forall d | d in w.clients
      ensures v'.clients[d] == if d in done + {c} then Refreshed(w.clients[d], user, scope) else w.clients[d]
    {
    }
    assert v'.tasks == w.tasks[t := Rescoping(user, scope, todo - {c})];
  }

  lemma {:induction false} VisitsRun(
      w: World, v: World, t: nat, user: string, scope: Filter, done: set<nat>, todo: set<nat>)
    returns (ls: seq<Label>)
    requires Stored(w, v, t, user, scope, done, Rescoping(user, scope, todo)) && done + todo == w.clients.Keys
    requires done !! todo
    ensures CanRun(v, ls) && Stored(w, Run(v, ls), t, user, scope, w.clients.Keys, Rescoping(user, scope, {}))
    decreases |todo|
  {
    if c :| c in todo {
      VisitStores(w, v, t, user, scope, done, todo, c);
      assert done + {c} + (todo - {c}) == w.clients.Keys;
      var rest := VisitsRun(w, Visited(v, t, c), t, user, scope, done + {c}, todo - {c});
      StepThen(v, Visit(t, c), rest);
      ls := [Visit(t, c)] + rest;
    } else {
      assert todo == {} && done == w.clients.Keys;
      ls := [];
    }
  }

  /** UpdateScope's section under the read lock. */
  lemma StoringIsARun(w: World, t: nat, user: string, scope: Filter) returns (ls: seq<Label>)
    requires t !in w.tasks
    ensures CanRun(w, ls) && Stored(w, Run(w, ls), t, user, scope, w.clients.Keys, Starting)
  {
    var w1 := WithTask(w, t, Rescoping(user, scope, w.clients.Keys));
    assert (map c | c in w.clients :: w.clients[c]) == w.clients;
    var visits := VisitsRun(w, w1, t, user, scope, {}, w.clients.Keys);
    StepThen(w, Rescope(t, user, scope), visits);
    var v := Run(w1, visits);
    ThenStep(w, [Rescope(t, user, scope)] + visits, Label.Rescoped(t));
    ls := [Rescope(t, user, scope)] + visits + [Label.Rescoped(t)];
    assert v.tasks[t := Starting] == w.tasks[t := Starting];
  }

  // ---------- the broker object ----------

  function Value(c: B.Client): Client
    reads c
  {
    Client(c.user, c.scope)
  }

  /** The table: the connected clients under their numbers. */
  ghost predicate TableMirrors(b: B.Broker, ids: map<B.Client, nat>, w: World)
    reads b, b.clients
  {
    && ids.Keys == b.clients && Injective(ids) && ids.Values == w.clients.Keys
    && forall c :: c in ids ==> w.clients[ids[c]] == Value(c)
  }

  /** The streams whose channel is registered. */
  function WatchingStreams(w: World): set<nat> {
    set s | s in w.streams && Watches(w.streams[s])
  }

  /** The bus: its value, and one channel per watching stream. */
  ghost predicate BusMirrors(bus: B.InterestBus, sigs: map<B.Signal, nat>, w: World)
    reads bus, bus.watchers
  {
    && bus.cur == w.cur && sigs.Keys == bus.watchers && Injective(sigs) && sigs.Values == WatchingStreams(w)
    && forall ch :: ch in sigs ==> sigs[ch] in w.streams && ch.full == w.streams[sigs[ch]].signal
  }

  ghost predicate Mirrors(b: B.Broker, ids: map<B.Client, nat>, sigs: map<B.Signal, nat>, w: World)
    reads b, b.clients, b.bus, b.bus.watchers
  {
    TableMirrors(b, ids, w) && BusMirrors(b.bus, sigs, w)
  }

  lemma SameUnion(b: B.Broker, ids: map<B.Client, nat>, w: World)
    requires TableMirrors(b, ids, w)
    ensures b.UnionOver(b.clients) == Union(w.clients)
  {
    var scopes := set c | c in b.clients :: c.scope;
    forall s ensures s in scopes <==> s in Scopes(w.clients, w.clients.Keys) {
      if s in scopes {
        var c :| c in b.clients && c.scope == s;
        assert ids[c] in ids.Values && w.clients[ids[c]] == Value(c);
      }
      if s in Scopes(w.clients, w.clients.Keys) {
        var k :| k in w.clients && w.clients[k].scope == s;
        assert k in ids.Values;
        var c :| c in ids && ids[c] == k;
        assert w.clients[ids[c]] == Value(c);
      }
    }
    assert scopes == Scopes(w.clients, w.clients.Keys);
  }

  /** Register's section under the write lock: the client joins the table. */
  method EnterInWorld(
      b: B.Broker, c: B.Client, ghost w: World, ghost ids: map<B.Client, nat>, ghost sigs: map<B.Signal, nat>,
      ghost t: nat, ghost id: nat)
    returns (ghost ids': map<B.Client, nat>)
    requires Mirrors(b, ids, sigs, w) && c !in b.clients && Enabled(w, Register(t, id, Value(c)))
    modifies b`clients
    ensures ids' == ids[c := id] && Mirrors(b, ids', sigs, Apply(w, Register(t, id, Value(c))))
    ensures b.clients == old(b.clients) + {c}
  {
    b.Enter(c);
    ids' := ids[c := id];
    assert ids'.Values == ids.Values + {id} by {
      assert c in ids' && ids'[c] == id;
      forall k | k in ids.Values ensures k in ids'.Values {
        var d :| d in ids && ids[d] == k;
        assert d in ids' && ids'[d] == k;
      }
    }
  }

  /** Unregister's section under the write lock: the client leaves the table. */
  method LeaveInWorld(
      b: B.Broker, c: B.Client, ghost w: World, ghost ids: map<B.Client, nat>, ghost sigs: map<B.Signal, nat>,
      ghost t: nat)
    returns (ghost ids': map<B.Client, nat>)
    requires Mirrors(b, ids, sigs, w) && c in b.clients && Enabled(w, Unregister(t, ids[c]))
    modifies b`clients
    ensures ids' == ids - {c} && Mirrors(b, ids', sigs, Apply(w, Unregister(t, ids[c])))
    ensures b.clients == old(b.clients) - {c}
  {
    b.Leave(c);
    ids' := ids - {c};
    assert ids'.Values == ids.Values - {ids[c]} by {
      forall k | k in ids.Values - {ids[c]} ensures k in ids'.Values {
        var d :| d in ids && ids[d] == k;
        assert d in ids' && ids'[d] == k;
      }
    }
  }

  /** UpdateScope's section under the read lock. */
  method StoreInWorld(
      b: B.Broker, user: string, scope: Filter, ghost w: World, ghost ids: map<B.Client, nat>,
      ghost sigs: map<B.Signal, nat>, ghost t: nat)
    returns (ghost ls: seq<Label>)
    requires Mirrors(b, ids, sigs, w) && t !in w.tasks
    modifies b.clients`scope
    ensures CanRun(w, ls) && Mirrors(b, ids, sigs, Run(w, ls))
    ensures t in Run(w, ls).tasks && Run(w, ls).tasks[t].Starting?
  {
    ls := StoringIsARun(w, t, user, scope);
    ghost var v := Run(w, ls);
    b.StoreScope(user, scope);
    forall c | c in ids ensures v.clients[ids[c]] == Value(c) {
      assert ids[c] in ids.Values;
    }
  }

  /** The collecting section of a recompute, uninterrupted. */
  method CollectInWorld(
      b: B.Broker, ghost w: World, ghost ids: map<B.Client, nat>, ghost sigs: map<B.Signal, nat>, ghost t: nat)
    returns (sum: Filter, ghost ls: seq<Label>)
    requires Mirrors(b, ids, sigs, w) && t in w.tasks && w.tasks[t].Starting?
    ensures CanRun(w, ls) && Run(w, ls) == WithTask(w, t, Collected(sum, Some(w.changes)))
    ensures Mirrors(b, ids, sigs, Run(w, ls))
  {
    sum := b.Collect();
    SameUnion(b, ids, w);
    ls := CollectionIsARun(w, t);
  }

  lemma PublishedSignals(w: World, t: nat, fleets: seq<string>, vins: seq<string>, s: nat)
    requires t in w.tasks && w.tasks[t].Collected? && s in WatchingStreams(w)
    ensures var w' := PublishedBy(w, t, fleets, vins);
      && w'.cur == SetTo(w.cur, w.tasks[t].sum.all, fleets, vins) && WatchingStreams(w') == WatchingStreams(w)
      && w'.streams[s].signal == (w.streams[s].signal || w'.cur != w.cur)
  {
  }

  /** The publishing section of a recompute, which may come any number of steps later. */
  method PublishInWorld(
      b: B.Broker, sum: Filter, ghost w: World, ghost ids: map<B.Client, nat>, ghost sigs: map<B.Signal, nat>,
      ghost t: nat)
    returns (ghost fleets: seq<string>, ghost vins: seq<string>)
    requires Mirrors(b, ids, sigs, w) && Normal(b.bus.cur) && t in w.tasks && w.tasks[t].Collected?
    requires w.tasks[t].sum == sum
    modifies b.bus`cur, b.bus.watchers
    ensures Enabled(w, Publish(t, fleets, vins)) && Mirrors(b, ids, sigs, PublishedBy(w, t, fleets, vins))
  {
    fleets, vins := b.Publish(sum);
    ghost var w' := PublishedBy(w, t, fleets, vins);
    forall ch | ch in sigs ensures sigs[ch] in w'.streams && ch.full == w'.streams[sigs[ch]].signal {
      assert sigs[ch] in sigs.Values;
      PublishedSignals(w, t, fleets, vins, sigs[ch]);
    }
    assert WatchingStreams(w') == WatchingStreams(w);
  }
}
