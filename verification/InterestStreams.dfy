/** Streams never miss a wake-up and routers never go back: what every step keeps about the bus and the
    streams, whatever the rest of the pod does. */
module InterestStreams {
  import opened Wrappers
  import opened Interest
  import opened InterestMachine

  // ---------- the bus ----------

  /** Version `i` is the `i`-th value the bus ever held, and every new value represents something new. */
  ghost predicate BusOk(history: seq<Update>, cur: Update) {
    && |history| > 0 && history[|history| - 1] == cur
    && (forall i :: 0 <= i < |history| ==> history[i].version == i && Normal(history[i]))
    && (forall i, j :: 0 <= i && j == i + 1 && j < |history| ==> FromProto(history[i]) != FromProto(history[j]))
  }

  predicate Held(history: seq<Update>, u: Update) {
    u.version < |history| && history[u.version] == u
  }

  // ---------- one stream ----------

  /** Hello comes first, and only once. */
  ghost predicate WireOk(st: Stream) {
    forall i :: 0 <= i < |st.wire| ==> (st.wire[i].Hello? <==> i == 0 && (st.router.Fresh? || HelloAhead(st)))
  }

  /** A router that hung up before Hello arrived. */
  predicate HelloAhead(st: Stream) {
    st.router.Gone? && st.wire != [] && st.wire[0].Hello?
  }

  /** Interests in flight and applied are bus values in the order the bus held them. */
  ghost predicate Ordered(history: seq<Update>, st: Stream) {
    && (forall i :: 0 <= i < |st.wire| && st.wire[i].Carry? ==> Held(history, st.wire[i].update))
    && (forall i, j :: 0 <= i < j < |st.wire| && st.wire[i].Carry? && st.wire[j].Carry? ==>
          st.wire[i].update.version <= st.wire[j].update.version)
    && (st.sent.Some? ==> Held(history, st.sent.value))
    && (forall i :: 0 <= i < |st.wire| && st.wire[i].Carry? ==>
          st.sent.Some? && st.wire[i].update.version <= st.sent.value.version)
    && (st.phase.Sending? ==> Held(history, st.phase.update))
    && (st.phase.Sending? && st.sent.Some? ==> st.sent.value.version <= st.phase.update.version)
    && (st.router.Subscribed? ==> Applied(history, st))
  }

  /** The router's interest is nothing, or a value the bus held; everything in flight is as new or newer. */
  ghost predicate Applied(history: seq<Update>, st: Stream)
    requires st.router.Subscribed?
  {
    match st.router.from
    case None => st.router.interest == NOTHING
    case Some(u) =>
      && Held(history, u) && st.router.interest == FromProto(u)
      && st.sent.Some? && u.version <= st.sent.value.version
      && forall i :: 0 <= i < |st.wire| && st.wire[i].Carry? ==> u.version <= st.wire[i].update.version
  }

  predicate Early(st: Stream) {
    st.phase.Opened? || st.phase.Watching?
  }

  /** Until the stream closes nothing is lost: the last interest sent is the last in flight, or applied. */
  predicate Lossless(st: Stream) {
    && (Early(st) ==> st.wire == [] && !st.router.Subscribed?)
    && (st.sent.None? ==> st.router.Subscribed? ==> st.router.from == None)
    && (st.sent.Some? && st.wire != [] ==> st.wire[|st.wire| - 1] == Carry(st.sent.value))
    && (st.sent.Some? && st.wire == [] && !st.router.Gone? ==> st.router.Subscribed? && st.router.from == st.sent)
    && (st.sent.None? && !Early(st) && !st.router.Gone? ==>
          if st.router.Fresh? then st.wire == [Hello] else st.wire == [])
    && (Early(st) ==> st.sent.None?)
  }

  /** A watching stream has a signal pending, has yet to read the bus before its next send, or holds or has
      sent the current value. */
  predicate Awake(st: Stream, cur: Update) {
    match st.phase
    case Opened => true
    case Watching => true
    case Reading => true
    case Sending(u) => st.signal || u == cur
    case Waiting => st.signal || st.sent == Some(cur)
    case Closed => true
  }

  ghost predicate StreamOk(history: seq<Update>, cur: Update, st: Stream) {
    && WireOk(st) && Ordered(history, st)
    && (st.phase.Closed? || (Lossless(st) && Awake(st, cur)))
  }

  ghost predicate StreamsOk(w: World) {
    && BusOk(w.history, w.cur)
    && forall s :: s in w.streams ==> StreamOk(w.history, w.cur, w.streams[s])
  }

  // ---------- every step keeps it ----------

  lemma OrderedGrows(history: seq<Update>, u: Update, st: Stream)
    requires Ordered(history, st)
    ensures Ordered(history + [u], Signalled(st))
  {
    assert forall v :: Held(history, v) ==> Held(history + [u], v);
  }

  lemma PublishKeepsBus(history: seq<Update>, cur: Update, sum: Filter, fleets: seq<string>, vins: seq<string>)
    requires BusOk(history, cur) && ArgsOf(sum, sum.all, fleets, vins)
    ensures var u := SetTo(cur, sum.all, fleets, vins);
      u != cur ==> BusOk(history + [u], u) && u.version == cur.version + 1
  {
    assert Normal(cur);
    SetRepresents(cur, sum, sum.all, fleets, vins);
    VersionBumpIsExact(cur, sum, sum.all, fleets, vins);
  }

  lemma SignalKeepsStream(history: seq<Update>, cur: Update, u: Update, st: Stream)
    requires StreamOk(history, cur, st)
    ensures StreamOk(history + [u], u, Signalled(st))
  {
    OrderedGrows(history, u, st);
  }

  lemma PublishKeepsStreams(w: World, t: nat, fleets: seq<string>, vins: seq<string>)
    requires StreamsOk(w) && Enabled(w, Publish(t, fleets, vins))
    ensures StreamsOk(PublishedBy(w, t, fleets, vins))
  {
    var sum := w.tasks[t].sum;
    var u := SetTo(w.cur, sum.all, fleets, vins);
    if u != w.cur {
      PublishKeepsBus(w.history, w.cur, sum, fleets, vins);
      forall s | s in w.streams ensures StreamOk(w.history + [u], u, Signalled(w.streams[s])) {
        SignalKeepsStream(w.history, w.cur, u, w.streams[s]);
      }
    }
  }

  lemma HeldIsOld(history: seq<Update>, cur: Update, u: Update)
    requires BusOk(history, cur) && Held(history, u)
    ensures u.version <= cur.version && (u.version == cur.version ==> u == cur)
  {
  }

  lemma ReadKeepsStream(history: seq<Update>, cur: Update, st: Stream)
    requires BusOk(history, cur) && StreamOk(history, cur, st) && st.phase.Reading?
    ensures StreamOk(history, cur, st.(phase := Sending(cur)))
  {
    if st.sent.Some? {
      HeldIsOld(history, cur, st.sent.value);
    }
  }

  lemma SendKeepsOrdered(history: seq<Update>, st: Stream)
    requires Ordered(history, st) && st.phase.Sending?
    ensures Ordered(
      history,
      st.(phase := Waiting, sent := Some(st.phase.update), wire := st.wire + [Carry(st.phase.update)]))
  {
  }

  lemma SendKeepsStream(history: seq<Update>, cur: Update, st: Stream)
    requires StreamOk(history, cur, st) && st.phase.Sending?
    ensures StreamOk(
      history, cur,
      st.(phase := Waiting, sent := Some(st.phase.update), wire := st.wire + [Carry(st.phase.update)]))
  {
    SendKeepsOrdered(history, st);
  }

  lemma ReceiveKeepsOrdered(history: seq<Update>, st: Stream)
    requires Ordered(history, st) && WireOk(st) && !st.router.Gone? && st.wire != []
    ensures Ordered(history, Received(st))
  {
    var st' := Received(st);
    assert forall i :: 0 <= i < |st'.wire| ==> st'.wire[i] == st.wire[i + 1];
  }

  lemma ReceiveKeepsStream(history: seq<Update>, cur: Update, st: Stream)
    requires StreamOk(history, cur, st) && !st.router.Gone? && st.wire != []
    ensures StreamOk(history, cur, Received(st))
  {
    ReceiveKeepsOrdered(history, st);
    var st' := Received(st);
    assert forall i :: 0 <= i < |st'.wire| ==> st'.wire[i] == st.wire[i + 1];
  }

  lemma CloseKeepsStream(history: seq<Update>, cur: Update, st: Stream, kept: nat)
    requires StreamOk(history, cur, st) && kept <= |st.wire|
    ensures StreamOk(history, cur, st.(phase := Closed, wire := st.wire[..kept]))
  {
  }

  lemma GreetKeepsStream(history: seq<Update>, cur: Update, st: Stream)
    requires StreamOk(history, cur, st) && st.phase.Watching?
    ensures StreamOk(history, cur, st.(phase := Reading, wire := st.wire + [Hello]))
  {
  }

  lemma OtherStreamSteps(history: seq<Update>, cur: Update, st: Stream, l: Label)
    requires StreamOk(history, cur, st)
    requires (l.Watch? && st.phase.Opened?) || (l.Wake? && st.phase.Waiting?) || (l.HangUp? && !st.router.Gone?)
    ensures StreamOk(history, cur, StreamStep(st, l, cur))
  {
  }

  lemma StreamStepKeepsOk(w: World, l: Label)
    requires StreamsOk(w) && Enabled(w, l) && OfStream(l)
    ensures StreamOk(w.history, w.cur, StreamStep(w.streams[l.s], l, w.cur))
  {
    var st := w.streams[l.s];
    match l
    case ReadCurrent(_) => ReadKeepsStream(w.history, w.cur, st);
    case Send(_) => SendKeepsStream(w.history, w.cur, st);
    case Receive(_) => ReceiveKeepsStream(w.history, w.cur, st);
    case Close(_, kept) => CloseKeepsStream(w.history, w.cur, st, kept);
    case Greet(_) => GreetKeepsStream(w.history, w.cur, st);
    case _ => OtherStreamSteps(w.history, w.cur, st, l);
  }

  lemma StepKeepsStreams(w: World, l: Label)
    requires StreamsOk(w) && Enabled(w, l)
    ensures StreamsOk(Apply(w, l))
  {
    if l.Publish? {
      PublishKeepsStreams(w, l.t, l.fleets, l.vins);
    } else if OfStream(l) {
      StreamStepKeepsOk(w, l);
    }
  }

  lemma {:induction false} StreamsStayOk(ls: seq<Label>)
    requires CanRun(START, ls)
    ensures StreamsOk(Run(START, ls))
    decreases |ls|
  {
    if ls != [] {
      StreamsStayOk(Init(ls));
      StepKeepsStreams(Run(START, Init(ls)), Last(ls));
    }
  }

  // ---------- what follows ----------

  /** No lost wake-up: in every reachable state each watching stream has a signal pending in its one-slot
      channel, has yet to read the bus before its next send, is about to send the current value, or has
      sent it already. */
  lemma {:induction false} NoLostWakeup(ls: seq<Label>, s: nat)
    requires CanRun(START, ls) && s in Run(START, ls).streams && Watches(Run(START, ls).streams[s])
    ensures var w := Run(START, ls);
      var st := w.streams[s];
      || st.signal || st.phase.Watching? || st.phase.Reading? || st.phase == Sending(w.cur)
      || (st.phase.Waiting? && st.sent == Some(w.cur))
  {
    StreamsStayOk(ls);
  }

  /** The interest a router holds is empty or one the bus held at the time of some version, and no newer
      than what the dashboard sent last. */
  lemma {:induction false} RouterHoldsABusValue(ls: seq<Label>, s: nat)
    requires CanRun(START, ls) && s in Run(START, ls).streams && Run(START, ls).streams[s].router.Subscribed?
    ensures var w := Run(START, ls);
      match w.streams[s].router.from
      case None => w.streams[s].router.interest == NOTHING
      case Some(u) =>
        && Held(w.history, u) && w.streams[s].router.interest == FromProto(u) && w.streams[s].sent.Some?
        && u.version <= w.streams[s].sent.value.version <= w.cur.version
  {
    StreamsStayOk(ls);
    var w := Run(START, ls);
    if w.streams[s].router.from.Some? {
      HeldIsOld(w.history, w.cur, w.streams[s].sent.value);
    }
  }

  /** From the applied value `u` on: the router holds a value as new or newer, or has hung up. */
  predicate NoOlder(u: Update, router: RouterSide) {
    router.Gone? ||
    (router.Subscribed? && router.from.Some? && u.version <= router.from.value.version
      && (u.version == router.from.value.version ==> u == router.from.value))
  }

  lemma StepNeverGoesBack(history: seq<Update>, cur: Update, st: Stream, u: Update)
    requires BusOk(history, cur) && StreamOk(history, cur, st) && NoOlder(u, st.router) && Held(history, u)
    requires st.wire != [] && !st.router.Gone?
    ensures NoOlder(u, Received(st).router)
  {
    assert WireOk(st) && !st.wire[0].Hello?;
  }

  lemma NoOlderSurvives(w: World, l: Label, s: nat, u: Update)
    requires StreamsOk(w) && Enabled(w, l) && s in w.streams && Held(w.history, u) && NoOlder(u, w.streams[s].router)
    ensures s in Apply(w, l).streams && Held(Apply(w, l).history, u) && NoOlder(u, Apply(w, l).streams[s].router)
  {
    if l == Receive(s) {
      StepNeverGoesBack(w.history, w.cur, w.streams[s], u);
    }
  }

  /** Along any one stream the applied versions never decrease, and equal versions are equal contents:
      if a router held `u` and the run goes on, it holds `u` or a newer value, or has hung up for good. */
  lemma {:induction false} RouterNeverGoesBack(before: seq<Label>, after: seq<Label>, s: nat, u: Update)
    requires CanRun(START, before) && CanRun(Run(START, before), after)
    requires s in Run(START, before).streams
    requires Run(START, before).streams[s].router.Subscribed? && Run(START, before).streams[s].router.from == Some(u)
    ensures var w := Run(Run(START, before), after);
      StreamsOk(w) && s in w.streams && Held(w.history, u) && NoOlder(u, w.streams[s].router)
    decreases |after|
  {
    if after == [] {
      StreamsStayOk(before);
    } else {
      RouterNeverGoesBack(before, Init(after), s, u);
      var w := Run(Run(START, before), Init(after));
      NoOlderSurvives(w, Last(after), s, u);
      StepKeepsStreams(w, Last(after));
    }
  }

  /** A stream with nothing outstanding: it waits, no signal is pending and no message is in flight. */
  predicate Quiet(st: Stream) {
    st.phase.Waiting? && !st.signal && st.wire == [] && !st.router.Gone?
  }

  /** Every quiet stream's router filters by the current bus value. */
  lemma {:induction false} QuietRouterIsCurrent(ls: seq<Label>, s: nat)
    requires CanRun(START, ls) && s in Run(START, ls).streams && Quiet(Run(START, ls).streams[s])
    ensures Run(START, ls).streams[s].router == Subscribed(FromProto(Run(START, ls).cur), Some(Run(START, ls).cur))
  {
    StreamsStayOk(ls);
  }

  // ---------- and nothing gets stuck ----------

  predicate Alive(w: World, s: nat) {
    s in w.streams && !w.streams[s].phase.Closed? && !w.streams[s].router.Gone?
  }

  /** What the stream's own goroutine does next; once it waits, what the router does next. */
  function NextStep(st: Stream, s: nat): Label {
    match st.phase
    case Opened => Watch(s)
    case Watching => Greet(s)
    case Reading => ReadCurrent(s)
    case Sending(_) => Send(s)
    case _ => if st.signal then Wake(s) else Receive(s)
  }

  function Distance(st: Stream): nat {
    match st.phase
    case Opened => 9
    case Watching => if st.signal then 8 else 4
    case Reading => if st.signal then 7 else 3
    case Sending(_) => if st.signal then 6 else 2
    case _ => if st.signal then 5 else 1
  }

  predicate Closer(st': Stream, st: Stream) {
    Distance(st') < Distance(st) || (Distance(st') == Distance(st) && |st'.wire| < |st.wire|)
  }

  lemma ReceiveGetsCloser(st: Stream)
    requires WireOk(st) && st.phase.Waiting? && !st.signal && st.wire != [] && !st.router.Gone?
    ensures Closer(Received(st), st) && !Received(st).router.Gone? && Received(st).phase == Waiting
  {
    assert st.wire[0].Hello? <==> st.router.Fresh?;
  }

  lemma OwnStepGetsCloser(st: Stream, s: nat, cur: Update)
    requires !st.phase.Closed? && (st.phase.Waiting? ==> st.signal)
    ensures var l := NextStep(st, s);
      && (l.Watch? || l.Greet? || l.ReadCurrent? || (l.Send? && st.phase.Sending?) || l.Wake?) && l.s == s
      && Closer(StreamStep(st, l, cur), st) && !StreamStep(st, l, cur).phase.Closed?
      && StreamStep(st, l, cur).router == st.router
  {
  }

  lemma StepGetsCloser(w: World, s: nat)
    requires StreamsOk(w) && Alive(w, s) && !Quiet(w.streams[s])
    ensures var l := NextStep(w.streams[s], s);
      && Enabled(w, l) && Alive(Apply(w, l), s) && Apply(w, l).cur == w.cur && OfStream(l) && l.s == s
      && Closer(Apply(w, l).streams[s], w.streams[s])
  {
    var st := w.streams[s];
    if st.phase.Waiting? && !st.signal {
      assert StreamOk(w.history, w.cur, st);
      ReceiveGetsCloser(st);
    } else {
      OwnStepGetsCloser(st, s, w.cur);
    }
  }

  /** From every reachable state a live stream's own steps and its router's lead to a quiet stream whose
      router filters by the current value, however many signals and messages are outstanding. */
  lemma {:induction false} StreamCatchesUp(w: World, s: nat) returns (ls: seq<Label>)
    requires StreamsOk(w) && Alive(w, s)
    ensures CanRun(w, ls) && forall l :: l in ls ==> OfStream(l) && l.s == s
    ensures Run(w, ls).cur == w.cur && s in Run(w, ls).streams && Quiet(Run(w, ls).streams[s])
    ensures Run(w, ls).streams[s].router == Subscribed(FromProto(w.cur), Some(w.cur))
    decreases Distance(w.streams[s]), |w.streams[s].wire|
  {
    if Quiet(w.streams[s]) {
      ls := [];
      assert StreamOk(w.history, w.cur, w.streams[s]);
    } else {
      var l := NextStep(w.streams[s], s);
      StepGetsCloser(w, s);
      StepKeepsStreams(w, l);
      var rest := StreamCatchesUp(Apply(w, l), s);
      StepThen(w, l, rest);
      ls := [l] + rest;
    }
  }
}
