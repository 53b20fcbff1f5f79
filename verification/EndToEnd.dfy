/** From the raw topic to the document store: the processor's acknowledged events are the persister's log. */
module EndToEnd {
  import opened Keys
  import opened Telemetry
  import Batch
  import Bulk
  import IM = IngestMachine
  import IngestSafety
  import IngestOrder
  import PM = PersistMachine
  import PersistReplay
  import PersistLosses

  /** A canonical event as the persister reads it back; `fits` is the index mapping's verdict. */
  function ValueOf(ev: Event, fits: Event -> bool): Bulk.Value {
    Bulk.Readable(IdText(ev.eventId), ev, fits(ev))
  }

  ghost predicate Produced(h: seq<Batch.Output>, v: Bulk.Value, fits: Event -> bool) {
    exists i :: 0 <= i < |h| && h[i].Canonical? && ValueOf(h[i].ev, fits) == v
  }

  ghost predicate OnLog(log: seq<seq<Bulk.Rec>>, v: Bulk.Value) {
    exists p, o :: 0 <= p < |log| && 0 <= o < |log[p]| && log[p][o].value == v
  }

  /** The log holds exactly the acknowledged canonical events, in any partitioning. */
  ghost predicate Carries(log: seq<seq<Bulk.Rec>>, h: seq<Batch.Output>, fits: Event -> bool) {
    && (forall i :: 0 <= i < |h| && h[i].Canonical? ==> OnLog(log, ValueOf(h[i].ev, fits)))
    && (forall p, o :: 0 <= p < |log| && 0 <= o < |log[p]| ==> Produced(h, log[p][o].value, fits))
  }

  /** The name of the document that holds the report of `vin` at `ts`. */
  function DocName(vin: string, ts: int64): Bulk.DocKey {
    Bulk.DocKey(Bulk.Day(ts), EventID(vin, ts))
  }

  /** Distinct validated reports have distinct documents, and `_id` alone tells them apart: the same
      report never lands in two daily indices. */
  lemma OneNamePerReport(vin: string, ts: int64, vin': string, ts': int64)
    requires ts > 0 && ts' > 0
    ensures DocName(vin, ts) == DocName(vin', ts') <==> vin == vin' && ts == ts'
    ensures DocName(vin, ts).id == DocName(vin', ts').id <==> DocName(vin, ts) == DocName(vin', ts')
  {
    IdentitiesCoincide(vin, ts, vin', ts');
  }

  lemma IdIsNeverEmpty(vin: string, ts: int64)
    ensures EventID(vin, ts) != ""
  {
    assert |EventID(vin, ts)| >= |vin| + 1;
  }

  /** A pair of runs: the processor's, and a persister run that has drained the log the processor filled. */
  ghost predicate Joined(wi: IM.World, li: seq<IM.Label>, wp: PM.World, lp: seq<PM.Label>, fits: Event -> bool) {
    && IM.Initial(wi) && IM.CanRun(wi, li) && PM.Initial(wp) && PM.CanRun(wp, lp)
    && Carries(PM.Run(wp, lp).log, IM.Run(wi, li).st.history, fits)
    && PersistReplay.Drained(PM.Run(wp, lp))
  }

  lemma EventIdentity(wi: IM.World, li: seq<IM.Label>, i: nat)
    requires IM.Initial(wi) && IM.CanRun(wi, li)
    requires i < |IM.Run(wi, li).st.history| && IM.Run(wi, li).st.history[i].Canonical?
    ensures Identified(IM.Run(wi, li).st.history[i])
  {
    IngestOrder.OutputIsFaithful(wi, li, i);
  }

  predicate Identified(o: Batch.Output) {
    o.Canonical? && o.ev.eventId == EventId(o.ev.vin, o.ev.deviceTimestamp) && o.ev.deviceTimestamp > 0
  }

  /** An acknowledged event that belongs under `k` and that the mapping takes. */
  ghost predicate Fits(o: Batch.Output, k: Bulk.DocKey, fits: Event -> bool) {
    o.Canonical? && fits(o.ev) && k == DocName(o.ev.vin, o.ev.deviceTimestamp)
  }

  ghost predicate Holds(h: seq<Batch.Output>, k: Bulk.DocKey, fits: Event -> bool, doc: Bulk.Doc) {
    exists i :: 0 <= i < |h| && Fits(h[i], k, fits) && doc == Bulk.Doc(h[i].ev, h[i].ev.lat, h[i].ev.lng)
  }

  lemma StoredIsReport(
      h: seq<Batch.Output>, log: seq<seq<Bulk.Rec>>, store: Bulk.Store, fits: Event -> bool, k: Bulk.DocKey)
    requires Carries(log, h, fits) && PersistReplay.Truthful(log, store)
    requires forall i :: 0 <= i < |h| && h[i].Canonical? ==> Identified(h[i])
    requires k in store
    ensures Holds(h, k, fits, store[k].doc)
  {
    var r := store[k].src;
    assert log[r.part][r.off].value == r.value;
    assert Produced(h, r.value, fits);
    var i :| 0 <= i < |h| && h[i].Canonical? && ValueOf(h[i].ev, fits) == r.value;
    assert Identified(h[i]);
    assert Fits(h[i], k, fits);
  }

  lemma ReportIsStored(h: seq<Batch.Output>, log: seq<seq<Bulk.Rec>>, fits: Event -> bool, k: Bulk.DocKey, i: nat)
    requires Carries(log, h, fits) && PM.LogOk(log) && PM.KeysApart(log)
    requires i < |h| && Fits(h[i], k, fits) && Identified(h[i])
    ensures k in PersistReplay.Fold(log)
  {
    assert OnLog(log, ValueOf(h[i].ev, fits));
    var p, o :| 0 <= p < |log| && 0 <= o < |log[p]| && log[p][o].value == ValueOf(h[i].ev, fits);
    IdIsNeverEmpty(h[i].ev.vin, h[i].ev.deviceTimestamp);
    assert PersistReplay.Mentions(log[p], k);
    PersistReplay.FoldAt(log, k);
  }

  ghost predicate KeyedAt(h: seq<Batch.Output>, v: Bulk.Value, p: nat, fits: Event -> bool, partition: string -> nat) {
    exists i :: 0 <= i < |h| && h[i].Canonical? && ValueOf(h[i].ev, fits) == v && p == partition(h[i].ev.vin)
  }

  /** Why documents never straddle partitions: the processor keys canonical records by VIN, and the
      document id determines the VIN. */
  lemma KeyedByVinIsApart(h: seq<Batch.Output>, log: seq<seq<Bulk.Rec>>, fits: Event -> bool, partition: string -> nat)
    requires forall i :: 0 <= i < |h| && h[i].Canonical? ==> Identified(h[i])
    requires forall p, o :: 0 <= p < |log| && 0 <= o < |log[p]| ==> KeyedAt(h, log[p][o].value, p, fits, partition)
    ensures PM.KeysApart(log)
  {
    forall p, o, q, u |
      && 0 <= p < |log| && 0 <= o < |log[p]| && 0 <= q < |log| && 0 <= u < |log[q]|
      && PM.SameDocument(log[p][o], log[q][u])
      ensures p == q
    {
      assert KeyedAt(h, log[p][o].value, p, fits, partition) && KeyedAt(h, log[q][u].value, q, fits, partition);
      var i :|
        && 0 <= i < |h| && h[i].Canonical? && ValueOf(h[i].ev, fits) == log[p][o].value
        && p == partition(h[i].ev.vin);
      var j :|
        && 0 <= j < |h| && h[j].Canonical? && ValueOf(h[j].ev, fits) == log[q][u].value
        && q == partition(h[j].ev.vin);
      assert Identified(h[i]) && Identified(h[j]);
      IdentitiesCoincide(h[i].ev.vin, h[i].ev.deviceTimestamp, h[j].ev.vin, h[j].ev.deviceTimestamp);
    }
  }

  ghost predicate AnyFits(h: seq<Batch.Output>, k: Bulk.DocKey, fits: Event -> bool) {
    exists i :: 0 <= i < |h| && Fits(h[i], k, fits)
  }

  /** The two halves for one document: what is stored is a report, and if its last record is `kept`, the
      document is there exactly when something fits. */
  ghost predicate ReportsUnder(
      h: seq<Batch.Output>, store: Bulk.Store, fits: Event -> bool, k: Bulk.DocKey, kept: bool) {
    && (k in store ==> Holds(h, k, fits, store[k].doc))
    && (kept ==> (k in store <==> AnyFits(h, k, fits)))
  }

  lemma OneDocument(h: seq<Batch.Output>, w: PM.World, fits: Event -> bool, k: Bulk.DocKey)
    requires Carries(w.log, h, fits) && PersistReplay.Fresh(w) && PersistReplay.Drained(w)
    requires forall i :: 0 <= i < |h| && h[i].Canonical? ==> Identified(h[i])
    ensures ReportsUnder(h, w.store, fits, k, PersistReplay.Unlost(w, k))
  {
    if k in w.store {
      StoredIsReport(h, w.log, w.store, fits, k);
      var i :| 0 <= i < |h| && Fits(h[i], k, fits) && w.store[k].doc == Bulk.Doc(h[i].ev, h[i].ev.lat, h[i].ev.lng);
    } else if i :| 0 <= i < |h| && Fits(h[i], k, fits) {
      assert Identified(h[i]);
      ReportIsStored(h, w.log, fits, k, i);
      PersistReplay.DrainedAgreesIff(w, k);
    }
  }

  /** For every document name, whatever happened to other documents: a stored document holds an
      acknowledged event with that VIN and timestamp; and unless the document's last record was refused
      and has been missing ever since, there is one if and only if the mapping takes such an event. */
  lemma {:induction false} DocumentsAreTheReports(
      wi: IM.World, li: seq<IM.Label>, wp: PM.World, lp: seq<PM.Label>, fits: Event -> bool, k: Bulk.DocKey)
    requires Joined(wi, li, wp, lp, fits)
    ensures ReportsUnder(
      IM.Run(wi, li).st.history, PM.Run(wp, lp).store, fits, k, PersistLosses.LastKept(wp, lp, k))
  {
    var h := IM.Run(wi, li).st.history;
    PersistLosses.LastKeptIsUnlost(wp, lp, k);
    PersistReplay.RunsAreFresh(wp, lp);
    forall i | 0 <= i < |h| && h[i].Canonical? ensures Identified(h[i]) {
      EventIdentity(wi, li, i);
    }
    OneDocument(h, PM.Run(wp, lp), fits, k);
  }

  /** The mapping takes every acknowledged event of this report. */
  ghost predicate TakesReport(h: seq<Batch.Output>, vin: string, ts: int64, fits: Event -> bool) {
    forall i :: 0 <= i < |h| && h[i].Canonical? && h[i].ev.vin == vin && h[i].ev.deviceTimestamp == ts ==> fits(h[i].ev)
  }

  predicate ShowsReport(doc: Bulk.Doc, vin: string, ts: int64) {
    doc.ev.vin == vin && doc.ev.deviceTimestamp == ts && doc.lat == doc.ev.lat && doc.lon == doc.ev.lng
  }

  lemma HeldIsTheReport(h: seq<Batch.Output>, vin: string, ts: int64, fits: Event -> bool, doc: Bulk.Doc)
    requires forall i :: 0 <= i < |h| && h[i].Canonical? ==> Identified(h[i])
    requires ts > 0 && Holds(h, DocName(vin, ts), fits, doc)
    ensures ShowsReport(doc, vin, ts)
  {
    var j :| 0 <= j < |h| && Fits(h[j], DocName(vin, ts), fits) && doc == Bulk.Doc(h[j].ev, h[j].ev.lat, h[j].ev.lng);
    assert Identified(h[j]);
    OneNamePerReport(vin, ts, h[j].ev.vin, h[j].ev.deviceTimestamp);
  }

  /** Every raw record the processor has committed is a dead letter, or its event is acknowledged; then
      its document shows this report or nothing, and it is there if the mapping takes the report's own
      events and the document's last record was not dropped for good. No other document matters. */
  lemma {:induction false} CommittedReportIsSearchable(
      wi: IM.World, li: seq<IM.Label>, wp: PM.World, lp: seq<PM.Label>, fits: Event -> bool, p: nat, o: nat)
    requires Joined(wi, li, wp, lp, fits)
    requires p < |IM.Run(wi, li).raw| && p < |IM.Run(wi, li).st.committed| && o < IM.Run(wi, li).st.committed[p]
    ensures o < |IM.Run(wi, li).raw[p]|
    ensures var rec, h, v := IM.Run(wi, li).raw[p][o], IM.Run(wi, li).st.history, PM.Run(wp, lp);
      IngestSafety.HasDeadLetter(h, p, o) ||
      (rec.value.Encoded? &&
        var vin, ts := rec.value.msg.vin, rec.value.msg.deviceTimestamp;
        var k := DocName(vin, ts);
        && (k in v.store ==> ShowsReport(v.store[k].doc, vin, ts))
        && (TakesReport(h, vin, ts, fits) && PersistLosses.LastKept(wp, lp, k) ==> k in v.store))
  {
    IngestSafety.NothingLost(wi, li, p, o);
    var rec, h, v := IM.Run(wi, li).raw[p][o], IM.Run(wi, li).st.history, PM.Run(wp, lp);
    if !IngestSafety.HasDeadLetter(h, p, o) {
      var m := rec.value.msg;
      var i :| 0 <= i < |h| && h[i].Canonical? && h[i].ev.vin == m.vin && h[i].ev.deviceTimestamp == m.deviceTimestamp;
      var k := DocName(m.vin, m.deviceTimestamp);
      forall j | 0 <= j < |h| && h[j].Canonical? ensures Identified(h[j]) {
        EventIdentity(wi, li, j);
      }
      DocumentsAreTheReports(wi, li, wp, lp, fits, k);
      assert fits(h[i].ev) ==> Fits(h[i], k, fits);
      if k in v.store {
        HeldIsTheReport(h, m.vin, m.deviceTimestamp, fits, v.store[k].doc);
      }
    }
  }
}
