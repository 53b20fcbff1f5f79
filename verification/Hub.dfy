/** The realtime-router's hub and subscription handler as imperative code
    (services/internal/router/hub.go, server.go). */
module Hub {
  import opened Wrappers
  import opened Interest
  import opened Queues

  /** One dashboard pod's stream, with its bounded queue. */
  class Subscriber {
    const id: string
    const buffer: nat
    var out: seq<Event>
    var interest: Filter

    constructor (id: string, buffer: nat)
      ensures this.id == id && this.buffer == buffer && out == [] && interest == NOTHING
    {
      this.id := id;
      this.buffer := buffer;
      out := [];
      interest := NOTHING;
    }

    predicate Bounded()
      reads this
    {
      |out| <= buffer
    }
  }

  /** `InterestFromProto`. */
  method InterestFromProto(u: Update) returns (interest: Filter)
    ensures interest == FromProto(u)
  {
    var fleets, vins := {}, {};
    for i := 0 to |u.fleets|
      invariant fleets == set f | f in u.fleets[..i]
    {
      fleets := fleets + {u.fleets[i]};
    }
    for i := 0 to |u.vins|
      invariant vins == set v | v in u.vins[..i]
    {
      vins := vins + {u.vins[i]};
    }
    assert u.fleets[..|u.fleets|] == u.fleets && u.vins[..|u.vins|] == u.vins;
    interest := Filter(u.all, fleets, vins);
  }

  class Hub {
    var subs: set<Subscriber>
    // realtime_router_events_*_total
    var delivered: nat
    var dropped: nat
    var unrouted: nat

    constructor ()
      ensures subs == {} && delivered == dropped == unrouted == 0
    {
      subs, delivered, dropped, unrouted := {}, 0, 0, 0;
    }

    method Add(s: Subscriber)
      modifies this`subs
      ensures subs == old(subs) + {s}
    {
      subs := subs + {s};
    }

    method Remove(s: Subscriber)
      modifies this`subs
      ensures subs == old(subs) - {s}
    {
      subs := subs - {s};
    }

    /** The non-blocking send to one subscriber. */
    method Offer(s: Subscriber, ev: Event) returns (fate: Fate)
      modifies s`out, this`delivered, this`dropped
      ensures fate == Outcome(s.interest, |old(s.out)|, s.buffer, ev)
      ensures s.out == Offered(s.interest, old(s.out), s.buffer, ev)
      ensures delivered == old(delivered) + if fate == Delivered then 1 else 0
      ensures dropped == old(dropped) + if fate == Dropped then 1 else 0
    {
      if !s.interest.Admits(ev.fleet, ev.vin) {
        return Unmatched;
      }
      if |s.out| < s.buffer {
        s.out := s.out + [ev];
        delivered := delivered + 1;
        return Delivered;
      }
      dropped := dropped + 1;
      return Dropped;
    }

    /** The subscribers interested in an event whose queue has room for it, or has none. */
    ghost function Wanting(ev: Event, room: bool): set<Subscriber>
      reads this, subs
    {
      set s | s in subs && s.interest.Admits(ev.fleet, ev.vin) && (room <==> |s.out| < s.buffer)
    }

    /** The range loop of `Dispatch`, for the order in which it happens to visit the subscribers. */
    method OfferAll(order: seq<Subscriber>, ev: Event) returns (routed: bool, ghost fates: seq<Fate>)
      requires forall i, j :: 0 <= i < j < |order| ==> order[i] != order[j]
      modifies (set s | s in order)`out, this`delivered, this`dropped
      ensures |fates| == |order|
      ensures forall j :: 0 <= j < |order| ==>
        order[j].out == Offered(order[j].interest, old(order[j].out), order[j].buffer, ev)
      ensures forall j :: 0 <= j < |order| ==>
        fates[j] == Outcome(order[j].interest, |old(order[j].out)|, order[j].buffer, ev)
      ensures routed <==> Tally(fates, Delivered) + Tally(fates, Dropped) > 0
      ensures delivered == old(delivered) + Tally(fates, Delivered)
      ensures dropped == old(dropped) + Tally(fates, Dropped)
    {
      fates := [];
      routed := false;
      for i := 0 to |order|
        invariant |fates| == i
        invariant forall j :: 0 <= j < i ==>
          order[j].out == Offered(order[j].interest, old(order[j].out), order[j].buffer, ev)
        invariant forall j :: i <= j < |order| ==> order[j].out == old(order[j].out)
        invariant forall j :: 0 <= j < i ==>
          fates[j] == Outcome(order[j].interest, |old(order[j].out)|, order[j].buffer, ev)
        invariant routed <==> Tally(fates, Delivered) + Tally(fates, Dropped) > 0
        invariant delivered == old(delivered) + Tally(fates, Delivered)
        invariant dropped == old(dropped) + Tally(fates, Dropped)
      {
        var fate := Offer(order[i], ev);
        if fate != Unmatched {
          routed := true;
        }
        assert Init(fates + [fate]) == fates;
        fates := fates + [fate];
      }
    }

    /** `Dispatch`: every matching subscriber is counted once, as delivered or dropped; an event nobody
        wants is counted as unrouted; queues stay within their buffers. */
    method Dispatch(ev: Event)
      modifies subs`out, this`delivered, this`dropped, this`unrouted
      ensures forall s :: s in subs ==>
        s.out == old(if s.interest.Admits(ev.fleet, ev.vin) && |s.out| < s.buffer then s.out + [ev] else s.out)
      ensures forall s :: s in subs && old(s.Bounded()) ==> s.Bounded()
      ensures delivered == old(delivered) + |old(Wanting(ev, true))|
      ensures dropped == old(dropped) + |old(Wanting(ev, false))|
      ensures unrouted == old(unrouted) + if old(Wanting(ev, true)) == {} == old(Wanting(ev, false)) then 1 else 0
    {
      var order := Order(subs);
      ghost var served, lost := Wanting(ev, true), Wanting(ev, false);
      var routed;
      ghost var fates;
      routed, fates := OfferAll(order, ev);
      TallyCounts(order, fates, Delivered, served);
      TallyCounts(order, fates, Dropped, lost);
      assert !routed <==> served == {} == lost;
      if !routed {
        unrouted := unrouted + 1;
      }
    }
  }

  // ---------- Subscribe ----------

  datatype Request = Hello(subscriberId: string) | InterestUpdate(update: Update) | Empty

  datatype Status = Ok | RecvFailed | InvalidArgument

  /** Request `i` is the last of these that updates the interest. */
  predicate LastUpdate(reqs: seq<Request>, i: nat) {
    i < |reqs| && reqs[i].InterestUpdate? && forall j :: i < j < |reqs| ==> !reqs[j].InterestUpdate?
  }

  class Server {
    const hub: Hub
    const buffer: nat

    constructor (hub: Hub, buffer: nat)
      ensures this.hub == hub && this.buffer == buffer
    {
      this.hub := hub;
      this.buffer := buffer;
    }

    /** The first message must be a Hello with a subscriber id; only then a subscriber exists, and it is
        interested in nothing. */
    method Handshake(first: Option<Request>) returns (status: Status, sub: Option<Subscriber>)
      modifies hub`subs
      ensures status == Ok <==> first.Some? && first.value.Hello? && first.value.subscriberId != ""
      ensures status == RecvFailed <==> first.None?
      ensures status == Ok <==> sub.Some?
      ensures sub.Some? ==> fresh(sub.value) && hub.subs == old(hub.subs) + {sub.value}
      ensures sub.Some? ==> sub.value.id == first.value.subscriberId && sub.value.buffer == buffer
      ensures sub.Some? ==> sub.value.interest == NOTHING && sub.value.out == []
      ensures sub.None? ==> hub.subs == old(hub.subs)
    {
      match first
      case Some(Hello(id)) =>
        if id == "" {
          return InvalidArgument, None;
        }
        var s := new Subscriber(id, buffer);
        hub.Add(s);
        return Ok, Some(s);
      case Some(_) => return InvalidArgument, None;
      case None => return RecvFailed, None;
    }

    /** The receive goroutine, for the requests that arrive before the stream fails. */
    method ReceiveAll(sub: Subscriber, reqs: seq<Request>)
      modifies sub`interest
      ensures forall i: nat :: LastUpdate(reqs, i) ==> sub.interest == FromProto(reqs[i].update)
      ensures (forall i :: 0 <= i < |reqs| ==> !reqs[i].InterestUpdate?) ==> sub.interest == old(sub.interest)
    {
      for i := 0 to |reqs|
        invariant forall k: nat :: LastUpdate(reqs[..i], k) ==> sub.interest == FromProto(reqs[k].update)
        invariant (forall k :: 0 <= k < i ==> !reqs[k].InterestUpdate?) ==> sub.interest == old(sub.interest)
      {
        forall k: nat | LastUpdate(reqs[..i + 1], k) && k != i ensures LastUpdate(reqs[..i], k) {
          assert reqs[..i + 1][k] == reqs[k];
        }
        match reqs[i] {
          case InterestUpdate(u) => sub.interest := InterestFromProto(u);
          case _ =>
        }
      }
      assert reqs[..|reqs|] == reqs;
    }

    /** One turn of the select loop that finds a queued event: it is sent next, oldest first. */
    method Drain(sub: Subscriber) returns (ev: Event)
      requires sub.out != []
      modifies sub`out
      ensures [ev] + sub.out == old(sub.out)
    {
      ev := sub.out[0];
      sub.out := sub.out[1..];
    }

    /** The deferred removal; what the subscriber still queued is discarded. */
    method Finish(sub: Subscriber)
      modifies hub`subs
      ensures hub.subs == old(hub.subs) - {sub}
    {
      hub.Remove(sub);
    }

    /** The handler after the handshake, for what happens to it in turn, until the first turn that makes it
        return. */
    method Serve(sub: Subscriber, turns: seq<Turn>)
      returns (exit: Option<Exit>, sent: seq<Event>, ghost accepted: seq<Event>)
      requires sub in hub.subs && sub.out == []
      modifies hub.subs`out, sub`interest, hub`delivered, hub`dropped, hub`unrouted
      ensures Handler(sub.interest, sub.out, accepted, sent, exit) == After(Begun(old(sub.interest)), turns, sub.buffer)
    {
      ghost var start := Begun(sub.interest);
      exit, sent, accepted := None, [], [];
      for i := 0 to |turns|
        invariant exit.None?
        invariant Handler(sub.interest, sub.out, accepted, sent, exit) == After(start, turns[..i], sub.buffer)
      {
        AfterNext(start, turns, i, sub.buffer);
        match turns[i] {
          case Cancelled =>
            exit := Some(ContextDone);
          case ReceiveFails(eof) =>
            exit := Some(if eof then Eof else ReceiveFailed);
          case Receives(req) =>
            ReceiveAll(sub, [req]);
            assert req.InterestUpdate? ==> LastUpdate([req], 0);
          case Published(ev) =>
            accepted := accepted + if Outcome(sub.interest, |sub.out|, sub.buffer, ev) == Delivered then [ev] else [];
            hub.Dispatch(ev);
          case SendsNext(ok) =>
            if sub.out != [] {
              var ev := Drain(sub);
              if ok {
                sent := sent + [ev];
              } else {
                exit := Some(SendFailed);
              }
            }
        }
        if exit.Some? {
          AfterExit(start, turns, i + 1, sub.buffer);
          return;
        }
      }
      assert turns[..|turns|] == turns;
    }

    /** `Subscribe`: every way the handler returns removes exactly the subscriber it added. */
    method Subscribe(first: Option<Request>, turns: seq<Turn>)
      returns (status: Status, exit: Option<Exit>, sub: Option<Subscriber>, sent: seq<Event>)
      modifies hub, hub.subs`out
      ensures status == Ok <==> first.Some? && first.value.Hello? && first.value.subscriberId != ""
      ensures status != Ok ==> exit.None? && sub.None? && sent == [] && hub.subs == old(hub.subs)
      ensures status == Ok ==> sub.Some? && fresh(sub.value)
      ensures status == Ok ==>
        exit == After(Begun(NOTHING), turns, buffer).exit && sent == After(Begun(NOTHING), turns, buffer).sent
      ensures status == Ok ==> hub.subs == if exit.Some? then old(hub.subs) else old(hub.subs) + {sub.value}
    {
      status, sub := Handshake(first);
      exit, sent := None, [];
      if status != Ok {
        return;
      }
      ghost var accepted;
      exit, sent, accepted := Serve(sub.value, turns);
      if exit.Some? {
        Finish(sub.value);
      }
    }
  }

  // ---------- what a handler does, turn by turn ----------

  /** What can happen to a handler: its stream is cancelled, its receive loop fails or takes a request, the
      hub dispatches an event, or the select loop sends the oldest queued one. */
  datatype Turn =
    | Cancelled
    | ReceiveFails(eof: bool)
    | Receives(req: Request)
    | Published(ev: Event)
    | SendsNext(ok: bool)

  datatype Exit = ContextDone | Eof | ReceiveFailed | SendFailed

  /** A handler: the interest in force, its queue, everything the queue ever accepted, everything sent, and
      how it returned, if it did. */
  datatype Handler = Handler(
    interest: Filter, queue: seq<Event>, accepted: seq<Event>, sent: seq<Event>, exit: Option<Exit>)

  function Begun(interest: Filter): Handler {
    Handler(interest, [], [], [], None)
  }

  function Turned(h: Handler, t: Turn, buffer: nat): Handler {
    if h.exit.Some? then h
    else match t
      case Cancelled => h.(exit := Some(ContextDone))
      case ReceiveFails(eof) => h.(exit := Some(if eof then Eof else ReceiveFailed))
      case Receives(req) => if req.InterestUpdate? then h.(interest := FromProto(req.update)) else h
      case Published(ev) =>
        if Outcome(h.interest, |h.queue|, buffer, ev) == Delivered
        then h.(queue := h.queue + [ev], accepted := h.accepted + [ev])
        else h
      case SendsNext(ok) =>
        if h.queue == [] then h
        else if ok then h.(queue := h.queue[1..], sent := h.sent + [h.queue[0]])
        else h.(queue := h.queue[1..], exit := Some(SendFailed))
  }

  function After(h: Handler, turns: seq<Turn>, buffer: nat): Handler {
    if turns == [] then h else Turned(After(h, Init(turns), buffer), Last(turns), buffer)
  }

  lemma AfterNext(h: Handler, turns: seq<Turn>, i: nat, buffer: nat)
    requires i < |turns|
    ensures After(h, turns[..i + 1], buffer) == Turned(After(h, turns[..i], buffer), turns[i], buffer)
  {
    assert Init(turns[..i + 1]) == turns[..i];
  }

  /** A handler that has returned does nothing more. */
  lemma {:induction false} AfterExit(h: Handler, turns: seq<Turn>, i: nat, buffer: nat)
    requires i <= |turns| && After(h, turns[..i], buffer).exit.Some?
    ensures After(h, turns, buffer) == After(h, turns[..i], buffer)
  {
    if i < |turns| {
      assert Init(turns)[..i] == turns[..i];
      AfterExit(h, Init(turns), i, buffer);
    } else {
      assert turns[..i] == turns;
    }
  }

  /** What a handler has sent is, in order and from the first on, what its queue accepted; what is missing is
      still queued, except the one event whose failed send made it return. The queue keeps its bound. */
  lemma {:induction false} SentInOrder(interest: Filter, turns: seq<Turn>, buffer: nat)
    ensures var h := After(Begun(interest), turns, buffer);
      && |h.queue| <= buffer
      && (h.exit != Some(SendFailed) ==> h.accepted == h.sent + h.queue)
      && (h.exit == Some(SendFailed) ==> exists ev :: h.accepted == h.sent + [ev] + h.queue)
  {
    if turns != [] {
      SentInOrder(interest, Init(turns), buffer);
      var before := After(Begun(interest), Init(turns), buffer);
      if before.exit.None? && before.queue != [] && Last(turns).SendsNext? {
        assert before.queue == [before.queue[0]] + before.queue[1..];
        assert before.accepted == before.sent + [before.queue[0]] + before.queue[1..];
      } else if before.exit.Some? {
        assert After(Begun(interest), turns, buffer) == before;
      }
    }
  }

  /** Turn `i` takes an interest update. */
  predicate Updates(turns: seq<Turn>, i: nat) {
    i < |turns| && turns[i].Receives? && turns[i].req.InterestUpdate?
  }

  /** As long as the handler has not returned, the interest in force is that of the last update it took. */
  lemma {:induction false} LastUpdateInForce(interest: Filter, turns: seq<Turn>, buffer: nat, i: nat)
    requires After(Begun(interest), turns, buffer).exit.None?
    requires Updates(turns, i) && forall j :: i < j < |turns| ==> !Updates(turns, j)
    ensures After(Begun(interest), turns, buffer).interest == FromProto(turns[i].req.update)
  {
    if i < |turns| - 1 {
      assert !Updates(turns, |turns| - 1);
      assert forall j :: i < j < |turns| - 1 ==> Updates(Init(turns), j) ==> Updates(turns, j);
      LastUpdateInForce(interest, Init(turns), buffer, i);
    }
  }

  /** Without an update it is the one the handler began with. */
  lemma {:induction false} NoUpdateKeepsInterest(interest: Filter, turns: seq<Turn>, buffer: nat)
    requires forall j :: 0 <= j < |turns| ==> !Updates(turns, j)
    ensures After(Begun(interest), turns, buffer).interest == interest
  {
    if turns != [] {
      assert !Updates(turns, |turns| - 1);
      assert forall j :: 0 <= j < |turns| - 1 ==> Updates(Init(turns), j) ==> Updates(turns, j);
      NoUpdateKeepsInterest(interest, Init(turns), buffer);
    }
  }

  /** At turn `i` the handler has not returned, and an event is published that the interest in force admits
      while the queue has room. */
  ghost predicate Takes(interest: Filter, turns: seq<Turn>, buffer: nat, i: nat) {
    && i < |turns| && turns[i].Published?
    && var h := After(Begun(interest), turns[..i], buffer);
       h.exit.None? && |h.queue| < buffer && h.interest.Admits(turns[i].ev.fleet, turns[i].ev.vin)
  }

  /** At turn `i` the handler has not returned, and sends a queued event. */
  ghost predicate Sends(interest: Filter, turns: seq<Turn>, buffer: nat, i: nat) {
    && i < |turns| && turns[i] == SendsNext(true)
    && var h := After(Begun(interest), turns[..i], buffer);
       h.exit.None? && h.queue != []
  }

  ghost function Taken(interest: Filter, turns: seq<Turn>, buffer: nat): iset<nat> {
    iset i: nat | Takes(interest, turns, buffer, i)
  }

  ghost function SendsOf(interest: Filter, turns: seq<Turn>, buffer: nat): set<nat> {
    set i: nat | i < |turns| && Sends(interest, turns, buffer, i)
  }

  lemma SameBefore(interest: Filter, turns: seq<Turn>, buffer: nat, i: nat)
    requires i < |turns| - 1
    ensures Takes(interest, Init(turns), buffer, i) <==> Takes(interest, turns, buffer, i)
    ensures Sends(interest, Init(turns), buffer, i) <==> Sends(interest, turns, buffer, i)
  {
    assert Init(turns)[..i] == turns[..i];
  }

  lemma HandledStep(interest: Filter, turns: seq<Turn>, buffer: nat)
    requires turns != []
    ensures var h, h' := After(Begun(interest), Init(turns), buffer), After(Begun(interest), turns, buffer);
      var n := |turns| - 1;
      && h'.accepted == (if n in Taken(interest, turns, buffer) then h.accepted + [Last(turns).ev] else h.accepted)
      && |h'.sent| == |h.sent| + if n in SendsOf(interest, turns, buffer) then 1 else 0
  {
    assert turns[..|turns| - 1] == Init(turns);
  }

  ghost predicate AcceptedAt(turns: seq<Turn>, accepted: seq<Event>, idx: seq<nat>) {
    && |accepted| == |idx|
    && forall k :: 0 <= k < |idx| ==>
         idx[k] < |turns| && turns[idx[k]].Published? && accepted[k] == turns[idx[k]].ev
  }

  lemma AcceptedStep(turns: seq<Turn>, before: seq<Event>, idx: seq<nat>, take: bool)
    requires turns != [] && AcceptedAt(Init(turns), before, idx) && (take ==> Last(turns).Published?)
    ensures AcceptedAt(turns, if take then before + [Last(turns).ev] else before, Extend(idx, |turns| - 1, take))
  {
  }

  /** A handler's queue accepts, in order, exactly the published events that the interest in force admits
      while there is room. */
  lemma {:induction false} AcceptedExactly(interest: Filter, turns: seq<Turn>, buffer: nat) returns (idx: seq<nat>)
    ensures Selects(idx, |turns|, Taken(interest, turns, buffer))
    ensures AcceptedAt(turns, After(Begun(interest), turns, buffer).accepted, idx)
  {
    if turns == [] {
      idx := [];
    } else {
      var n := |turns| - 1;
      var rest := AcceptedExactly(interest, Init(turns), buffer);
      HandledStep(interest, turns, buffer);
      forall i: nat | i < n
        ensures i in Taken(interest, Init(turns), buffer) <==> i in Taken(interest, turns, buffer)
      {
        SameBefore(interest, turns, buffer, i);
      }
      SelectsExtend(rest, n, Taken(interest, Init(turns), buffer), Taken(interest, turns, buffer));
      var take := n in Taken(interest, turns, buffer);
      AcceptedStep(turns, After(Begun(interest), Init(turns), buffer).accepted, rest, take);
      idx := Extend(rest, n, take);
    }
  }

  /** It sends one event at each turn that finds one queued and sends it; with `SentInOrder`, the oldest. */
  lemma {:induction false} SentExactly(interest: Filter, turns: seq<Turn>, buffer: nat)
    ensures |After(Begun(interest), turns, buffer).sent| == |SendsOf(interest, turns, buffer)|
  {
    if turns != [] {
      var n := |turns| - 1;
      SentExactly(interest, Init(turns), buffer);
      HandledStep(interest, turns, buffer);
      SendsStep(interest, turns, buffer);
    }
  }

  lemma SendsStep(interest: Filter, turns: seq<Turn>, buffer: nat)
    requires turns != []
    ensures |SendsOf(interest, turns, buffer)| ==
      |SendsOf(interest, Init(turns), buffer)| + if |turns| - 1 in SendsOf(interest, turns, buffer) then 1 else 0
  {
    var n := |turns| - 1;
    var before, all := SendsOf(interest, Init(turns), buffer), SendsOf(interest, turns, buffer);
    forall i: nat | i < n ensures i in before <==> i in all {
      SameBefore(interest, turns, buffer, i);
    }
    OneMorePosition(before, all, n);
  }

  /** The turn by which a handler in this state returns, and how. */
  predicate Leaves(h: Handler, t: Turn, e: Exit) {
    match t
    case Cancelled => e == ContextDone
    case ReceiveFails(eof) => e == if eof then Eof else ReceiveFailed
    case SendsNext(ok) => h.queue != [] && !ok && e == SendFailed
    case _ => false
  }

  /** The handler returns at the first turn that cancels it, fails its receive loop, or fails to send a
      queued event, and goes on if there is none. */
  lemma {:induction false} LeavesAtTheFirst(interest: Filter, turns: seq<Turn>, buffer: nat, e: Exit)
    ensures After(Begun(interest), turns, buffer).exit == Some(e) <==>
      exists i :: 0 <= i < |turns| && LeavesAt(interest, turns, buffer, i, e)
  {
    if turns != [] {
      var n := |turns| - 1;
      LeavesAtTheFirst(interest, Init(turns), buffer, e);
      assert turns[..n] == Init(turns);
      forall i | 0 <= i < n
        ensures LeavesAt(interest, turns, buffer, i, e) <==> LeavesAt(interest, Init(turns), buffer, i, e)
      {
        assert turns[..i] == Init(turns)[..i];
      }
      assert LeavesAt(interest, turns, buffer, n, e) <==>
        After(Begun(interest), Init(turns), buffer).exit.None? && After(Begun(interest), turns, buffer).exit == Some(e);
    }
  }

  ghost predicate LeavesAt(interest: Filter, turns: seq<Turn>, buffer: nat, i: nat, e: Exit)
    requires i < |turns|
  {
    var h := After(Begun(interest), turns[..i], buffer);
    h.exit.None? && Leaves(h, turns[i], e)
  }
}
