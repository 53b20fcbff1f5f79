/** `platform.Retry` around one batch (services/internal/platform/runtime.go), for a whole script of
    what the rest of the world does between and during the attempts. */
module Retry {
  import opened Wrappers
  import opened Keys
  import opened Telemetry
  import opened Log
  import opened Batch
  import opened P = Processor

  /** One round of the loop: what happened to Redis since the last one, and how the attempt fares. */
  datatype Round = Round(expired: set<Key>, fleets: map<Key, string>, now: int, processedAt: int, faults: Faults)

  /** Keys expire and rbac-authz rewrites fleet keys; nobody else writes deduplication keys. */
  function Meanwhile(st: Stores, r: Round): Stores {
    st.(redis := Drifted(st.redis, r.expired, r.fleets))
  }

  function AttemptIn(st: Stores, recs: seq<Record>, r: Round): Result {
    Attempt(Meanwhile(st, r), recs, r.now, r.processedAt, r.faults)
  }

  /** `trail` are the stores before and after each round; every round failed, except the last if `done`. */
  ghost predicate Chain(trail: seq<Stores>, recs: seq<Record>, script: nat -> Round, done: bool) {
    && |trail| >= 1 && (done ==> |trail| >= 2)
    && forall k: nat :: k + 1 < |trail| ==>
         AttemptIn(trail[k], recs, script(k)) == Result(trail[k + 1], done && k + 2 == |trail|)
  }

  lemma ChainExtend(trail: seq<Stores>, recs: seq<Record>, script: nat -> Round, next: Result)
    requires Chain(trail, recs, script, false)
    requires AttemptIn(Last(trail), recs, script(|trail| - 1)) == next
    ensures Chain(trail + [next.st], recs, script, next.ok)
  {
    var trail' := trail + [next.st];
    forall k: nat | k + 1 < |trail'|
      ensures AttemptIn(trail'[k], recs, script(k)) == Result(trail'[k + 1], next.ok && k + 2 == |trail'|)
    {
      if k + 1 < |trail| {
        assert AttemptIn(trail[k], recs, script(k)) == Result(trail[k + 1], false);
      }
    }
  }

  class Loop {
    const p: P.Processor

    constructor (p: P.Processor)
      ensures this.p == p
    {
      this.p := p;
    }

    /** One round: the world moves on, then the batch is attempted. */
    method Round(recs: seq<Record>, r: Round) returns (ok: bool)
      modifies p, p.cl, p.rdb
      ensures Result(p.View(), ok) == AttemptIn(old(p.View()), recs, r)
    {
      p.rdb.Drift(r.expired, r.fleets);
      assert p.View() == Meanwhile(old(p.View()), r);
      var err := p.ProcessBatch(recs, r.now, r.processedAt, r.faults);
      ok := err == None;
    }

    /** `Retry`: attempts until one succeeds or the context is cancelled, which happens before round
        `cancelled`. It leaves the stores of a chain of attempts that ends with its first success. */
    method RunBatch(recs: seq<Record>, script: nat -> Round, cancelled: nat)
      returns (done: bool, ghost trail: seq<Stores>)
      modifies p, p.cl, p.rdb
      ensures Chain(trail, recs, script, done)
      ensures trail[0] == old(p.View()) && Last(trail) == p.View()
      ensures |trail| <= cancelled + 1
      ensures !done ==> |trail| == cancelled + 1
    {
      trail := [p.View()];
      var rounds := 0;
      while rounds < cancelled
        invariant rounds <= cancelled && |trail| == rounds + 1
        invariant trail[0] == old(p.View()) && Last(trail) == p.View()
        invariant Chain(trail, recs, script, false)
      {
        var ok := Round(recs, script(rounds));
        ChainExtend(trail, recs, script, Result(p.View(), ok));
        trail := trail + [p.View()];
        rounds := rounds + 1;
        if ok {
          return true, trail;
        }
      }
      done := false;
    }
  }

  ghost predicate PoisonFreeIn(st: Stores, recs: seq<Record>, r: Round) {
    PoisonFree(recs, r.now, Meanwhile(st, r).redis)
  }

  lemma HealthyRoundCommitsIff(st: Stores, recs: seq<Record>, r: Round)
    requires r.faults == NO_FAULTS
    ensures AttemptIn(st, recs, r).ok <==> PoisonFreeIn(st, recs, r)
    ensures AttemptIn(st, recs, r).ok ==> AttemptIn(st, recs, r).st.committed == Commit(st.committed, recs, None)
  {
    HealthyAttemptCommitsIff(Meanwhile(st, r), recs, r.now, r.processedAt);
  }

  /** A round with healthy infrastructure commits the batch, and so ends the chain, if and only if no
      record of the batch is poison at that round. */
  lemma HealthyRoundEndsTheChain(trail: seq<Stores>, recs: seq<Record>, script: nat -> Round, done: bool, k: nat)
    requires Chain(trail, recs, script, done) && k + 1 < |trail| && script(k).faults == NO_FAULTS
    ensures (done && k + 2 == |trail|) <==> PoisonFreeIn(trail[k], recs, script(k))
    ensures done && k + 2 == |trail| ==> Last(trail).committed == Commit(trail[k].committed, recs, None)
  {
    HealthyRoundCommitsIff(trail[k], recs, script(k));
    assert AttemptIn(trail[k], recs, script(k)) == Result(trail[k + 1], done && k + 2 == |trail|);
  }

  /** Without NaN in the batch every healthy round commits it. */
  lemma HealthyRoundWithoutNaN(trail: seq<Stores>, recs: seq<Record>, script: nat -> Round, done: bool, k: nat)
    requires Chain(trail, recs, script, done) && k + 1 < |trail| && script(k).faults == NO_FAULTS && NoNaN(recs)
    ensures done && k + 2 == |trail|
  {
    NoNaNNoPoison(recs, script(k).now, Meanwhile(trail[k], script(k)).redis);
    HealthyRoundEndsTheChain(trail, recs, script, done, k);
  }

  /** Record `i` holds a NaN, passes validation from time `t` on, and is the first record of the batch
      with its key that validation ever accepts. */
  ghost predicate Blocks(recs: seq<Record>, i: nat, t: int) {
    && i < |recs| && recs[i].value.Encoded? && HasNaN(recs[i].value.msg) && Accepted(recs[i], t)
    && forall j :: 0 <= j < i && EverAccepted(recs[j]) ==> KeyOf(recs[j]) != KeyOf(recs[i])
  }

  /** A blocking record whose key is not live makes every round fail, whatever the infrastructure
      does, and keeps Kafka as it was: the loop ends only by cancellation. */
  lemma {:induction false} BlockedForever(
      trail: seq<Stores>, recs: seq<Record>, script: nat -> Round, done: bool, i: nat, t: int)
    requires Chain(trail, recs, script, done)
    requires Blocks(recs, i, t) && KeyOf(recs[i]) !in trail[0].redis
    requires forall r: nat :: t <= script(r).now
    ensures !done
    ensures Last(trail).history == trail[0].history && Last(trail).committed == trail[0].committed
    ensures KeyOf(recs[i]) !in Last(trail).redis
  {
    if |trail| > 1 {
      var k := |trail| - 2;
      BlockedForever(Init(trail), recs, script, false, i, t);
      BlockedOnce(trail[k], recs, script(k), i, t);
      assert AttemptIn(trail[k], recs, script(k)) == Result(trail[k + 1], done && k + 2 == |trail|);
    }
  }

  lemma BlockedOnce(st: Stores, recs: seq<Record>, r: Round, i: nat, t: int)
    requires Blocks(recs, i, t) && KeyOf(recs[i]) !in st.redis && t <= r.now
    ensures AttemptIn(st, recs, r) == Result(Meanwhile(st, r), false)
    ensures KeyOf(recs[i]) !in Meanwhile(st, r).redis
  {
    var m := recs[i].value.msg;
    VerdictOverTime(m, t, r.now);
    forall j | 0 <= j < i && Accepted(recs[j], r.now) ensures KeyOf(recs[j]) != KeyOf(recs[i]) {
      AcceptedIsEver(recs[j]);
    }
    PoisonStopsEverything(Meanwhile(st, r), recs, r.now, r.processedAt, r.faults, i);
  }
}
