/** What the persister does to OpenSearch as values: which documents a batch indexes, what one bulk
    request leaves behind and what its reply means (services/internal/router/persist.go). */
module Bulk {
  import opened Wrappers
  import opened Telemetry
  import opened Log

  // ---------- documents ----------

  /** What `json.Unmarshal` makes of a canonical record's value. `fits` says whether the strict index
      mapping takes the document; OpenSearch decides that on the document alone. */
  datatype Value = Unreadable | Readable(id: string, ev: Event, fits: bool)

  type Rec = KafkaRecord<Value>

  const DAY_MILLIS := 86_400_000

  /** The daily index, as days since 1970-01-01 UTC. */
  function Day(ts: int): int {
    ts / DAY_MILLIS
  }

  /** A timestamp falls in the day that has begun and not yet ended at it, also before 1970. */
  lemma DayContains(ts: int, day: int)
    ensures Day(ts) == day <==> day * 86_400_000 <= ts < (day + 1) * 86_400_000
  {
  }

  /** Index and `_id` together name one document. */
  datatype DocKey = DocKey(day: int, id: string)

  datatype Doc = Doc(ev: Event, lat: Float, lon: Float)

  /** One action of a bulk body. `src` is bookkeeping: the record the document was built from. */
  datatype Action = Index(key: DocKey, doc: Doc, src: Rec)

  /** Records that cannot be read, or carry no event id, are skipped. */
  predicate Indexable(r: Rec) {
    r.value.Readable? && r.value.id != ""
  }

  function ActionOf(r: Rec): Action
    requires Indexable(r)
  {
    Index(DocKey(Day(r.value.ev.deviceTimestamp), r.value.id), Doc(r.value.ev, r.value.ev.lat, r.value.ev.lng), r)
  }

  function Body(recs: seq<Rec>): seq<Action> {
    if recs == [] then []
    else Body(Init(recs)) + if Indexable(Last(recs)) then [ActionOf(Last(recs))] else []
  }

  /** The record has a document and the mapping takes it. */
  predicate Storable(r: Rec) {
    Indexable(r) && r.value.fits
  }

  function KeyOf(r: Rec): DocKey
    requires Indexable(r)
  {
    ActionOf(r).key
  }

  type Store = map<DocKey, Action>

  /** The actions at the chosen positions take effect in order; each overwrites its document. */
  function Applied(store: Store, body: seq<Action>, chosen: set<nat>): Store {
    if body == [] then store
    else
      var before := Applied(store, Init(body), chosen);
      if |body| - 1 in chosen then before[Last(body).key := Last(body)] else before
  }

  /** The record's document is stored, from this record or a later one. */
  predicate Ahead(store: Store, r: Rec)
    requires Indexable(r)
  {
    KeyOf(r) in store && store[KeyOf(r)].src.off >= r.off
  }

  // ---------- the reply ----------

  /** The answer to a bulk request; `items` holds one map of results per action, or nothing if the
      answer does not parse. */
  datatype Reply = NoReply | Http(code: nat, items: Option<seq<seq<nat>>>)

  /** One exchange with OpenSearch: the actions that took effect, and the answer. */
  datatype Exchange = Exchange(applied: set<nat>, reply: Reply)

  datatype Verdict = Failed | Dropped | Done(ok: nat, failed: nat)

  predicate Retryable(code: nat) {
    code == 429 || code >= 500
  }

  function Flat(items: seq<seq<nat>>): seq<nat> {
    if items == [] then [] else Flat(Init(items)) + Last(items)
  }

  function Count(statuses: seq<nat>, good: bool): nat {
    if statuses == [] then 0
    else Count(Init(statuses), good) + if (Last(statuses) < 300) == good then 1 else 0
  }

  /** What `bulk` concludes: an error makes the whole batch retry, a refused request is dropped. */
  function Judge(reply: Reply): Verdict {
    match reply
    case NoReply => Failed
    case Http(code, items) =>
      if Retryable(code) then Failed
      else if code >= 300 then Dropped
      else if items.None? || exists s :: s in Flat(items.value) && Retryable(s) then Failed
      else Done(Count(Flat(items.value), true), Count(Flat(items.value), false))
  }

  /** The whole request was refused, and not because the cluster is busy or broken. */
  predicate RefusedWhole(reply: Reply) {
    reply.Http? && 300 <= reply.code < 500 && reply.code != 429
  }

  /** A 2xx answer that parses and asks for no retry of any item. */
  predicate AnsweredInFull(reply: Reply) {
    && reply.Http? && reply.code < 300 && reply.items.Some?
    && forall i, j :: 0 <= i < |reply.items.value| && 0 <= j < |reply.items.value[i]| ==>
         reply.items.value[i][j] < 500 && reply.items.value[i][j] != 429
  }

  /** Which answers make the batch retry, and which do not. */
  lemma JudgeIff(reply: Reply)
    ensures Judge(reply).Dropped? <==> RefusedWhole(reply)
    ensures Judge(reply).Done? <==> AnsweredInFull(reply)
  {
    if reply.Http? && reply.items.Some? {
      var items := reply.items.value;
      FlatOf(items);
      if AnsweredInFull(reply) {
        forall s | s in Flat(items) ensures !Retryable(s) {
          var i :| 0 <= i < |items| && s in items[i];
          var j :| 0 <= j < |items[i]| && items[i][j] == s;
        }
      } else if Judge(reply).Done? {
        forall i, j | 0 <= i < |items| && 0 <= j < |items[i]| ensures items[i][j] < 500 && items[i][j] != 429 {
          assert items[i][j] in items[i];
          assert items[i][j] in Flat(items);
        }
      }
    }
  }

  lemma {:induction false} FlatOf(items: seq<seq<nat>>)
    ensures forall s :: s in Flat(items) <==> exists i :: 0 <= i < |items| && s in items[i]
  {
    if items != [] {
      var n := |items| - 1;
      FlatOf(Init(items));
      forall s ensures s in Flat(items) <==> exists i :: 0 <= i < |items| && s in items[i] {
        if i :| 0 <= i < |items| && s in items[i] {
          assert i < n ==> s in Init(items)[i];
        }
        if s in Flat(Init(items)) {
          var i :| 0 <= i < n && s in Init(items)[i];
          assert s in items[i];
        } else if s in Last(items) {
          assert s in items[n];
        }
      }
    }
  }

  // ---------- what an answer of OpenSearch may be relied on for ----------

  ghost predicate ItemHonest(a: Action, applied: bool, result: seq<nat>)
    requires a.src.value.Readable?
  {
    |result| == 1 && (result[0] < 300 ==> applied) && (300 <= result[0] < 500 && result[0] != 429 ==> !a.src.value.fits)
  }

  /** Only storable documents are ever applied; a request refused as a whole applied nothing; a parsed
      answer has one result per action, 2xx for an applied one, 4xx for one the mapping rejects. */
  ghost predicate Honest(body: seq<Action>, x: Exchange) {
    && (forall a :: a in body ==> a.src.value.Readable?)
    && (forall i :: i in x.applied && i < |body| ==> body[i].src.value.fits)
    && (RefusedWhole(x.reply) ==> x.applied == {})
    && (x.reply.Http? && x.reply.code < 300 && x.reply.items.Some? ==>
          && |x.reply.items.value| == |body|
          && forall i :: 0 <= i < |body| ==> ItemHonest(body[i], i in x.applied, x.reply.items.value[i]))
  }

  /** Why committing after `bulk` returned nil is safe: unless the whole request was refused, every
      storable document of the batch took effect. */
  lemma DoneMeansApplied(body: seq<Action>, x: Exchange, i: nat)
    requires Honest(body, x) && AnsweredInFull(x.reply) && i < |body|
    ensures i in x.applied <==> body[i].src.value.fits
  {
    assert ItemHonest(body[i], i in x.applied, x.reply.items.value[i]);
  }

  /** How many documents of a body the mapping takes, or rejects. */
  function Fitting(body: seq<Action>, fits: bool): nat
    requires forall a :: a in body ==> a.src.value.Readable?
  {
    if body == [] then 0 else Fitting(Init(body), fits) + if Last(body).src.value.fits == fits then 1 else 0
  }

  lemma {:induction false} CountAppend(a: seq<nat>, s: nat, good: bool)
    ensures Count(a + [s], good) == Count(a, good) + if (s < 300) == good then 1 else 0
  {
    assert Init(a + [s]) == a;
  }

  ghost predicate Matching(body: seq<Action>, items: seq<seq<nat>>) {
    && |items| == |body|
    && forall i :: 0 <= i < |body| ==>
         body[i].src.value.Readable? && |items[i]| == 1 && (items[i][0] < 300 <==> body[i].src.value.fits)
  }

  lemma {:induction false} CountsFitting(body: seq<Action>, items: seq<seq<nat>>, good: bool)
    requires forall a :: a in body ==> a.src.value.Readable?
    requires Matching(body, items)
    ensures Count(Flat(items), good) == Fitting(body, good)
  {
    if body != [] {
      CountsFitting(Init(body), Init(items), good);
      var n := |items| - 1;
      assert Last(items) == [items[n][0]];
      CountAppend(Flat(Init(items)), items[n][0], good);
    }
  }

  /** The actions of a body whose documents the mapping takes, or rejects. */
  function FittingAt(body: seq<Action>, fits: bool): set<nat> {
    set i | 0 <= i < |body| && body[i].src.value.Readable? && body[i].src.value.fits == fits
  }

  lemma {:induction false} FittingCounts(body: seq<Action>, fits: bool)
    requires forall a :: a in body ==> a.src.value.Readable?
    ensures Fitting(body, fits) == |FittingAt(body, fits)|
  {
    if body != [] {
      FittingCounts(Init(body), fits);
      assert Last(body) in body;
      FittingStep(body, fits);
    }
  }

  lemma FittingStep(body: seq<Action>, fits: bool)
    requires body != [] && Last(body).src.value.Readable?
    ensures |FittingAt(body, fits)| ==
      |FittingAt(Init(body), fits)| + if Last(body).src.value.fits == fits then 1 else 0
  {
    var n := |body| - 1;
    var before := FittingAt(Init(body), fits);
    forall i ensures i in FittingAt(body, fits) <==> i in before || (i == n && Last(body).src.value.fits == fits) {
      assert 0 <= i < n ==> Init(body)[i] == body[i];
    }
    assert FittingAt(body, fits) == before + if Last(body).src.value.fits == fits then {n} else {};
  }

  /** The two counters a successful request adds are the documents the mapping takes and rejects. */
  lemma DoneCounts(body: seq<Action>, x: Exchange)
    requires Honest(body, x) && AnsweredInFull(x.reply)
    ensures Judge(x.reply) == Done(|FittingAt(body, true)|, |FittingAt(body, false)|)
  {
    JudgeIff(x.reply);
    FittingCounts(body, true);
    FittingCounts(body, false);
    var items := x.reply.items.value;
    forall i | 0 <= i < |body|
      ensures body[i].src.value.Readable? && |items[i]| == 1 && (items[i][0] < 300 <==> body[i].src.value.fits)
    {
      assert body[i] in body;
      DoneMeansApplied(body, x, i);
      assert ItemHonest(body[i], i in x.applied, items[i]);
    }
    CountsFitting(body, items, true);
    CountsFitting(body, items, false);
  }

  // ---------- what a request leaves in the store ----------

  ghost predicate LastOf(body: seq<Action>, chosen: set<nat>, k: DocKey, i: nat) {
    && i < |body| && i in chosen && body[i].key == k
    && forall j :: i < j < |body| && j in chosen ==> body[j].key != k
  }

  /** After a request each document is the last applied action with its key, or what it was before. */
  lemma {:induction false} AppliedAt(store: Store, body: seq<Action>, chosen: set<nat>, k: DocKey)
    returns (i: Option<nat>)
    ensures i.None? ==> (k in Applied(store, body, chosen) <==> k in store)
    ensures i.None? && k in store ==> Applied(store, body, chosen)[k] == store[k]
    ensures i.None? ==> forall j :: 0 <= j < |body| && j in chosen ==> body[j].key != k
    ensures i.Some? ==>
      && LastOf(body, chosen, k, i.value)
      && k in Applied(store, body, chosen) && Applied(store, body, chosen)[k] == body[i.value]
  {
    if body == [] {
      i := None;
    } else {
      var n := |body| - 1;
      i := AppliedAt(store, Init(body), chosen, k);
      if n in chosen && body[n].key == k {
        i := Some(n);
      }
    }
  }

  /** The action that indexes a record: its event under its day and id, with its own coordinates. */
  predicate Indexes(a: Action, r: Rec) {
    && r.value.Readable? && r.value.id != "" && a.src == r && a.key.id == r.value.id
    && a.key.day * 86_400_000 <= r.value.ev.deviceTimestamp < (a.key.day + 1) * 86_400_000
    && a.doc.ev == r.value.ev && a.doc.lat == r.value.ev.lat && a.doc.lon == r.value.ev.lng
  }

  ghost function Named(recs: seq<Rec>): iset<nat> {
    iset i: nat | i < |recs| && recs[i].value.Readable? && recs[i].value.id != ""
  }

  ghost predicate IndexesAt(recs: seq<Rec>, body: seq<Action>, idx: seq<nat>) {
    |body| == |idx| && forall k :: 0 <= k < |idx| ==> idx[k] < |recs| && Indexes(body[k], recs[idx[k]])
  }

  lemma IndexesStep(recs: seq<Rec>, idx: seq<nat>)
    requires recs != [] && IndexesAt(Init(recs), Body(Init(recs)), idx)
    ensures var named := Last(recs).value.Readable? && Last(recs).value.id != "";
      IndexesAt(recs, Body(recs), Extend(idx, |recs| - 1, named))
  {
    if Indexable(Last(recs)) {
      assert Indexes(ActionOf(Last(recs)), Last(recs));
    }
  }

  /** A body indexes, in order, exactly the records that can be read and carry an event id. */
  lemma {:induction false} BodyIndexes(recs: seq<Rec>) returns (idx: seq<nat>)
    ensures Selects(idx, |recs|, Named(recs)) && IndexesAt(recs, Body(recs), idx)
  {
    if recs == [] {
      idx := [];
    } else {
      var n := |recs| - 1;
      var rest := BodyIndexes(Init(recs));
      SelectsExtend(rest, n, Named(Init(recs)), Named(recs));
      IndexesStep(recs, rest);
      idx := Extend(rest, n, n in Named(recs));
    }
  }

  lemma {:induction false} BodyHas(recs: seq<Rec>)
    ensures forall a :: a in Body(recs) <==> exists r :: r in recs && Indexable(r) && ActionOf(r) == a
  {
    if recs != [] {
      BodyHas(Init(recs));
      assert forall r :: r in recs <==> r in Init(recs) || r == Last(recs);
    }
  }

  ghost predicate Ascending(recs: seq<Rec>) {
    forall i, j :: 0 <= i < j < |recs| && recs[i].part == recs[j].part ==> recs[i].off < recs[j].off
  }

  /** A body keeps the order of its batch. */
  lemma {:induction false} BodyAscends(recs: seq<Rec>)
    requires Ascending(recs)
    ensures forall i, j :: 0 <= i < j < |Body(recs)| && Body(recs)[i].src.part == Body(recs)[j].src.part ==>
      Body(recs)[i].src.off < Body(recs)[j].src.off
  {
    if recs != [] {
      BodyAscends(Init(recs));
      BodyHas(Init(recs));
      var body := Body(Init(recs));
      forall i | 0 <= i < |body| && body[i].src.part == Last(recs).part ensures body[i].src.off < Last(recs).off {
        assert body[i] in body;
        var r :| r in Init(recs) && Indexable(r) && ActionOf(r) == body[i];
      }
    }
  }
}
