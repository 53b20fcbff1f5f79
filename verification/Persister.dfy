/** The persister's methods as imperative code (services/internal/router/persist.go), and one turn of its
    consume loop as a run of the persister machine. */
module Persister {
  import opened Wrappers
  import opened Log
  import opened Bulk
  import opened PersistMachine

  class OpenSearch {
    var store: Store

    constructor ()
      ensures store == map[]
    {
      store := map[];
    }

    /** `POST /_bulk`; `x` is how the cluster treats this request. */
    method Do(body: seq<Action>, x: Exchange) returns (reply: Reply)
      modifies this
      ensures reply == x.reply
      ensures store == Applied(old(store), body, x.applied)
    {
      store := Applied(store, body, x.applied);
      reply := x.reply;
    }
  }

  class Consumer {
    var committed: seq<nat>

    constructor (partitions: nat)
      ensures committed == seq(partitions, _ => 0)
    {
      committed := seq(partitions, _ => 0);
    }

    method CommitRecords(recs: seq<Rec>, fault: Option<set<nat>>) returns (ok: bool)
      modifies this
      ensures ok <==> fault.None?
      ensures committed == Commit(old(committed), recs, fault)
    {
      committed := Commit(committed, recs, fault);
      ok := fault.None?;
    }
  }

  class Persister {
    const os: OpenSearch
    const cl: Consumer
    // realtime_router_indexed_total by outcome
    var skipped: nat
    var indexed: nat
    var rejected: nat

    constructor (os: OpenSearch, cl: Consumer)
      ensures this.os == os && this.cl == cl && skipped == indexed == rejected == 0
    {
      this.os := os;
      this.cl := cl;
      skipped, indexed, rejected := 0, 0, 0;
    }

    method BuildBulk(recs: seq<Rec>) returns (body: seq<Action>)
      modifies this`skipped
      ensures body == Body(recs)
      ensures skipped + |body| == old(skipped) + |recs|
    {
      body := [];
      var i := 0;
      while i < |recs|
        invariant i <= |recs|
        invariant body == Body(recs[..i])
        invariant skipped + |body| == old(skipped) + i
      {
        var r := recs[i];
        assert Init(recs[..i + 1]) == recs[..i];
        if r.value.Unreadable? || r.value.id == "" {
          skipped := skipped + 1;
        } else {
          var ev := r.value.ev;
          var doc := Doc(ev, ev.lat, ev.lng);
          body := body + [Index(DocKey(Day(ev.deviceTimestamp), r.value.id), doc, r)];
        }
        i := i + 1;
      }
      assert recs[..i] == recs;
    }

    /** The inner loop of the status scan, over the results of one action. */
    static method ScanOne(result: seq<nat>, before: seq<nat>, ok0: nat, failed0: nat)
      returns (retry: bool, ok: nat, failed: nat)
      requires ok0 == Count(before, true) && failed0 == Count(before, false)
      ensures retry <==> exists s :: s in result && Retryable(s)
      ensures !retry ==> ok == Count(before + result, true) && failed == Count(before + result, false)
    {
      ok, failed := ok0, failed0;
      assert before + result[..0] == before;
      for j := 0 to |result|
        invariant forall s :: s in result[..j] ==> !Retryable(s)
        invariant ok == Count(before + result[..j], true) && failed == Count(before + result[..j], false)
      {
        var status := result[j];
        if Retryable(status) {
          return true, 0, 0;
        }
        assert before + result[..j + 1] == (before + result[..j]) + [status];
        CountAppend(before + result[..j], status, true);
        CountAppend(before + result[..j], status, false);
        if status >= 300 {
          failed := failed + 1;
        } else {
          ok := ok + 1;
        }
      }
      assert result[..|result|] == result;
      retry := false;
    }

    /** The status scan: the first retryable result ends it, otherwise it counts. */
    static method Scan(items: seq<seq<nat>>) returns (retry: bool, ok: nat, failed: nat)
      ensures retry <==> exists s :: s in Flat(items) && Retryable(s)
      ensures !retry ==> ok == Count(Flat(items), true) && failed == Count(Flat(items), false)
    {
      ok, failed := 0, 0;
      for i := 0 to |items|
        invariant forall s :: s in Flat(items[..i]) ==> !Retryable(s)
        invariant ok == Count(Flat(items[..i]), true) && failed == Count(Flat(items[..i]), false)
      {
        assert Init(items[..i + 1]) == items[..i];
        retry, ok, failed := ScanOne(items[i], Flat(items[..i]), ok, failed);
        if retry {
          FlatOf(items);
          return;
        }
      }
      assert items[..|items|] == items;
      retry := false;
    }

    /** `bulk`: nil if and only if the request was refused as a whole or answered in full; anything else has
        to be retried. The counters say what became of the documents. */
    method SendBulk(body: seq<Action>, x: Exchange) returns (nil: bool)
      modifies this`indexed, this`rejected, os
      ensures body == [] ==> nil && os.store == old(os.store) && indexed == old(indexed) && rejected == old(rejected)
      ensures body != [] ==> (nil <==> RefusedWhole(x.reply) || AnsweredInFull(x.reply))
      ensures body != [] ==> os.store == Applied(old(os.store), body, x.applied)
      ensures body != [] && AnsweredInFull(x.reply) && Honest(body, x) ==>
        && indexed == old(indexed) + |FittingAt(body, true)|
        && rejected == old(rejected) + |FittingAt(body, false)|
      ensures body != [] && RefusedWhole(x.reply) ==> indexed == old(indexed) && rejected == old(rejected) + 1
      ensures !nil ==> indexed == old(indexed) && rejected == old(rejected)
    {
      if |body| == 0 {
        return true;
      }
      JudgeIff(x.reply);
      var reply := os.Do(body, x);
      if reply.NoReply? {
        return false;
      }
      if reply.code == 429 || reply.code >= 500 {
        return false;
      }
      if reply.code >= 300 {
        rejected := rejected + 1;
        return true;
      }
      if reply.items.None? {
        return false;
      }
      var retry, ok, failed := Scan(reply.items.value);
      if retry {
        return false;
      }
      if Honest(body, x) {
        DoneCounts(body, x);
      }
      indexed := indexed + ok;
      rejected := rejected + failed;
      return true;
    }

    /** One round of `Retry`, as one more step of the machine. */
    method Round(body: seq<Action>, x: Exchange, ghost w: World, ghost id: nat, ghost ls: seq<Label>)
      returns (done: bool, ghost ls': seq<Label>)
      requires id in w.pods && w.pods[id].phase.Holding? && body == Body(w.pods[id].phase.recs) && Honest(body, x)
      requires CanRun(w, ls) && Turned(w, Run(w, ls), id, w.pods[id].phase) && Run(w, ls).store == os.store
      modifies this`indexed, this`rejected, os
      ensures done <==> Settles(body, x)
      ensures CanRun(w, ls')
      ensures Turned(w, Run(w, ls'), id, if done then Indexed(w.pods[id].phase.recs) else w.pods[id].phase)
      ensures Run(w, ls').store == os.store
    {
      ghost var l := RoundLabel(body, id, x);
      RoundStep(w, Run(w, ls), id, body, x);
      ThenStep(w, ls, l);
      done := SendBulk(body, x);
      ls' := ls + [l];
    }

    /** `Retry` around `bulk`: rounds until one settles the batch or the context is cancelled, which
        happens before round `cancelled`. The rounds are a run of the machine. */
    method IndexBatch(body: seq<Action>, script: nat -> Exchange, cancelled: nat, ghost w: World, ghost id: nat)
      returns (done: bool, ghost ls: seq<Label>)
      requires id in w.pods && w.pods[id].phase.Holding? && body == Body(w.pods[id].phase.recs) && w.store == os.store
      requires forall k: nat :: Honest(body, script(k))
      modifies this`indexed, this`rejected, os
      ensures CanRun(w, ls)
      ensures Turned(w, Run(w, ls), id, if done then Indexed(w.pods[id].phase.recs) else w.pods[id].phase)
      ensures Run(w, ls).store == os.store
      ensures done <==> exists k: nat :: k < cancelled && Settles(body, script(k))
    {
      ls, done := [], false;
      var rounds: nat := 0;
      while rounds < cancelled
        invariant rounds <= cancelled
        invariant CanRun(w, ls) && Turned(w, Run(w, ls), id, w.pods[id].phase) && Run(w, ls).store == os.store
        invariant forall k: nat :: k < rounds ==> !Settles(body, script(k))
      {
        done, ls := Round(body, script(rounds), w, id, ls);
        if done {
          return;
        }
        rounds := rounds + 1;
      }
      done := false;
    }

    /** One turn of the consume loop for a polled batch: index it, then commit and go on whatever the
        commit says. It is a run of the machine from a pod that holds the batch. */
    method PersistBatch(
        recs: seq<Rec>, script: nat -> Exchange, cancelled: nat, fault: Option<set<nat>>, ghost w: World,
        ghost id: nat)
      returns (done: bool, ghost ls: seq<Label>)
      requires id in w.pods && w.pods[id].phase == Holding(recs) && w.store == os.store && w.committed == cl.committed
      requires forall k: nat :: Honest(Body(recs), script(k))
      modifies this, os, cl
      ensures CanRun(w, ls) && Run(w, ls).store == os.store && Run(w, ls).committed == cl.committed
      ensures id in Run(w, ls).pods && Run(w, ls).log == w.log
      ensures Run(w, ls).pods[id] == if done then Past(w.pods[id], recs) else w.pods[id]
      ensures cl.committed == if done then Commit(old(cl.committed), recs, fault) else old(cl.committed)
      ensures done <==> exists k: nat :: k < cancelled && Settles(Body(recs), script(k))
    {
      var body := BuildBulk(recs);
      done, ls := IndexBatch(body, script, cancelled, w, id);
      if done {
        ThenStep(w, ls, Label.CommitOffsets(id, fault));
        // A failed commit is only logged: the batch may be indexed again.
        var _ := cl.CommitRecords(recs, fault);
        ls := ls + [Label.CommitOffsets(id, fault)];
      }
    }
  }

  /** The pod polls again, from behind the batch. */
  function Past(pod: Pod, recs: seq<Rec>): Pod {
    Pod(map p | p in pod.pos :: Target(recs, p, pod.pos[p]), Polling)
  }

  /** The batch needs no further round. */
  predicate Settles(body: seq<Action>, x: Exchange) {
    body == [] || RefusedWhole(x.reply) || AnsweredInFull(x.reply)
  }

  function RoundLabel(body: seq<Action>, id: nat, x: Exchange): Label {
    if body == [] then NothingToSend(id) else SendBulk(id, x)
  }

  /** Only the store, the losses and the phase of `id` may have changed. */
  ghost predicate Turned(w: World, w': World, id: nat, ph: Phase)
    requires id in w.pods
  {
    w'.log == w.log && w'.committed == w.committed && id in w'.pods && w'.pods[id] == w.pods[id].(phase := ph)
  }

  lemma RoundStep(w: World, v: World, id: nat, body: seq<Action>, x: Exchange)
    requires id in w.pods && w.pods[id].phase.Holding? && body == Body(w.pods[id].phase.recs)
    requires Turned(w, v, id, w.pods[id].phase) && Honest(body, x)
    ensures var l := RoundLabel(body, id, x);
      && Enabled(v, l)
      && Turned(w, Apply(v, l), id, if Settles(body, x) then Indexed(w.pods[id].phase.recs) else w.pods[id].phase)
      && Apply(v, l).store == if body == [] then v.store else Applied(v.store, body, x.applied)
  {
    JudgeIff(x.reply);
  }
}
