/** Vehicle reports, their validation and the canonical event (services/internal/model/canonical.go). */
module Telemetry {
  import opened Wrappers
  import opened Keys

  const SCHEMA_VERSION := 1
  const UNASSIGNED_FLEET := "UNASSIGNED"

  /** Milliseconds a device clock may run ahead of the processor's. */
  const FUTURE_SLACK := 300_000

  /** A Go float: every comparison with NaN is false. Finite values are exact reals. */
  datatype Float = NaN | NegInf | Finite(r: real) | PosInf {
    predicate Below(bound: real) {
      NegInf? || (Finite? && r < bound)
    }

    predicate Above(bound: real) {
      PosInf? || (Finite? && r > bound)
    }
  }

  datatype Status = Unspecified | Parked | Driving | Charging | Idle | Fault | Unknown(number: int)

  /** A decoded `VehicleTelemetry` message. */
  datatype Message = Message(vin: string, lng: Float, lat: Float, status: Status, soc: Float, deviceTimestamp: int64)

  datatype Refusal = BadVin | BadCoordinates | BadCharge | MissingTimestamp | FutureTimestamp

  /** `Validate`, with the clock in Unix milliseconds. */
  function Validate(m: Message, now: int): Option<Refusal> {
    if |m.vin| != 17 then Some(BadVin)
    else if m.lat.Below(-90.0) || m.lat.Above(90.0) || m.lng.Below(-180.0) || m.lng.Above(180.0) then
      Some(BadCoordinates)
    else if m.soc.Below(0.0) || m.soc.Above(100.0) then Some(BadCharge)
    else if m.deviceTimestamp <= 0 then Some(MissingTimestamp)
    else if m.deviceTimestamp > now + FUTURE_SLACK then Some(FutureTimestamp)
    else None
  }

  /** The canonical event; its status is printed without the enum prefix, which this model leaves out. */
  datatype Event = Event(
    eventId: EventId,
    schemaVersion: int,
    vin: string,
    fleetId: string,
    lng: Float,
    lat: Float,
    status: Status,
    batterySOC: Float,
    deviceTimestamp: int64,
    ingestTimestamp: int64,
    processedTimestamp: int)

  /** `json.Marshal` of an event fails exactly when one of its numbers is not finite. */
  predicate Marshals(ev: Event) {
    ev.lng.Finite? && ev.lat.Finite? && ev.batterySOC.Finite?
  }

  predicate HasNaN(m: Message) {
    m.lng.NaN? || m.lat.NaN? || m.soc.NaN?
  }

  /** The range checks let exactly the NaNs through: an accepted message is printable as JSON
      if and only if none of its three numbers is NaN. */
  lemma AcceptedMarshalsUnlessNaN(m: Message, now: int, ev: Event)
    requires Validate(m, now) == None
    requires ev.lng == m.lng && ev.lat == m.lat && ev.batterySOC == m.soc
    ensures Marshals(ev) <==> !HasNaN(m)
  {
  }

  /** What acceptance means, apart from the order in which the reasons are tried. */
  lemma AcceptedIff(m: Message, now: int)
    ensures Validate(m, now) == None <==>
      && |m.vin| == 17
      && (m.lat.NaN? || (m.lat.Finite? && -90.0 <= m.lat.r <= 90.0))
      && (m.lng.NaN? || (m.lng.Finite? && -180.0 <= m.lng.r <= 180.0))
      && (m.soc.NaN? || (m.soc.Finite? && 0.0 <= m.soc.r <= 100.0))
      && 0 < m.deviceTimestamp <= now + 300_000
  {
  }

  /** Neither NaN nor within the bounds. */
  predicate Outside(f: Float, lo: real, hi: real) {
    f.NegInf? || f.PosInf? || (f.Finite? && !(lo <= f.r <= hi))
  }

  /** The reason given is the first, in this order, that applies. */
  lemma RefusedIff(m: Message, now: int)
    ensures Validate(m, now) == Some(BadVin) <==> |m.vin| != 17
    ensures Validate(m, now) == Some(BadCoordinates) <==>
      |m.vin| == 17 && (Outside(m.lat, -90.0, 90.0) || Outside(m.lng, -180.0, 180.0))
    ensures Validate(m, now) == Some(BadCharge) <==>
      && |m.vin| == 17 && !Outside(m.lat, -90.0, 90.0) && !Outside(m.lng, -180.0, 180.0)
      && Outside(m.soc, 0.0, 100.0)
    ensures Validate(m, now) == Some(MissingTimestamp) <==>
      && |m.vin| == 17 && !Outside(m.lat, -90.0, 90.0) && !Outside(m.lng, -180.0, 180.0)
      && !Outside(m.soc, 0.0, 100.0) && m.deviceTimestamp <= 0
    ensures Validate(m, now) == Some(FutureTimestamp) <==>
      && |m.vin| == 17 && !Outside(m.lat, -90.0, 90.0) && !Outside(m.lng, -180.0, 180.0)
      && !Outside(m.soc, 0.0, 100.0) && 0 < m.deviceTimestamp && now + 300_000 < m.deviceTimestamp
  {
  }

  /** The clock can only turn a refusal for a future timestamp into acceptance; no other verdict changes. */
  lemma VerdictOverTime(m: Message, now: int, later: int)
    requires now <= later
    ensures Validate(m, now) == None ==> Validate(m, later) == None
    ensures Validate(m, now) != Some(FutureTimestamp) ==> Validate(m, later) == Validate(m, now)
  {
  }
}
