/** One router stream's sending side as imperative code (services/internal/dashboard/routerpool.go). */
module RouterPool {
  import opened Wrappers
  import opened Interest
  import opened Broker
  import M = InterestMachine

  class Stream {
    const bus: InterestBus
    var changed: Signal
    var phase: M.Phase
    var sent: Option<Update>
    var wire: seq<M.Message>    // everything sent on this stream that the router has not yet taken

    /** Subscribe succeeded: the channel is registered before anything is sent or read. */
    constructor (bus: InterestBus)
      modifies bus`watchers
      ensures this.bus == bus && fresh(changed) && bus.watchers == old(bus.watchers) + {changed}
      ensures View() == M.Stream(M.Watching, false, None, [], M.Fresh)
    {
      this.bus := bus;
      var ch := bus.Watch();
      changed := ch;
      phase := M.Watching;
      sent := None;
      wire := [];
    }

    /** The dashboard's half of the machine's stream, next to the router half. */
    function View(): M.Stream
      reads this, changed
    {
      M.Stream(phase, changed.full, sent, wire, M.Fresh)
    }

    method SendHello()
      requires phase == M.Watching
      modifies this`phase, this`wire
      ensures View() == M.StreamStep(old(View()), M.Greet(0), bus.cur)
    {
      wire := wire + [M.Hello];
      phase := M.Reading;
    }

    /** `sendInterest`: read the bus, then send what was read. */
    method SendInterest()
      requires phase == M.Reading
      modifies this`phase, this`wire, this`sent
      ensures View() == M.StreamStep(M.StreamStep(old(View()), M.ReadCurrent(0), bus.cur), M.Send(0), bus.cur)
    {
      var u := bus.cur;
      wire := wire + [M.Carry(u)];
      sent := Some(u);
      phase := M.Waiting;
    }

    /** The select loop's `<-changed` case. */
    method OnChanged()
      requires phase == M.Waiting && changed.full
      modifies this`phase, this`wire, this`sent, changed
      ensures var woken := M.StreamStep(old(View()), M.Wake(0), bus.cur);
        View() == M.StreamStep(M.StreamStep(woken, M.ReadCurrent(0), bus.cur), M.Send(0), bus.cur)
      ensures Awake()
    {
      changed.full := false;
      phase := M.Reading;
      SendInterest();
    }

    method Close()
      modifies this`phase, bus`watchers
      ensures phase == M.Closed && bus.watchers == old(bus.watchers) - {changed}
    {
      bus.Unwatch(changed);
      phase := M.Closed;
    }

    /** While it waits, a signal is pending or the last interest sent is the current one. */
    predicate Awake()
      reads this, changed, bus
    {
      phase == M.Waiting && (changed.full || sent == Some(bus.cur))
    }

    /** Whatever is published, a waiting stream stays awake: a new value always reaches its channel. */
    method PublishTo(all: bool, fleets: seq<string>, vins: seq<string>)
      requires Awake() && changed in bus.watchers
      modifies bus`cur, bus.watchers
      ensures bus.cur == SetTo(old(bus.cur), all, fleets, vins) && Awake()
    {
      bus.Set(all, fleets, vins);
    }
  }
}
