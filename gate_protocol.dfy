/**
 * Both ends of the `gate-update` channel together: the payloads controller2.js publishes, read by the
 * dashboard's handler.
 */
module GateProtocol {
  import opened Wrappers
  import Gate
  import Dashboard

  /** A published `gateState` as the dashboard reads it; the record has no top-level `type`. */
  function ToPayload(s: Gate.GateState): (p: Dashboard.GatePayload)
    ensures p.vehicleFound == s.vehicleFound && p.plate == s.plate && p.kind.None?
    ensures p.driver.Some? <==> s.driver.Some?
    ensures p.vehicle.Some? <==> s.vehicle.Some?
  {
    Dashboard.GatePayload(
      s.vehicleFound,
      s.plate,
      if s.driver.Some? then Some(Dashboard.DriverPayload(Some(s.driver.value.fullName))) else None,
      if s.vehicle.Some? then
        Some(Dashboard.VehiclePayload(None, Some(s.vehicle.value.kind), Some(s.vehicle.value.brand), Some(s.vehicle.value.model)))
      else None,
      None)
  }

  /**
   * Whatever sequence of calls the server has seen, the next payload it publishes shows NOT REGISTERED
   * when a vehicle is found and NO VEHICLE otherwise: the dashboard never shows REGISTERED.
   */
  lemma PublishedNeverRegistered(calls: seq<Gate.Call>, req: Gate.GateRequest, now: int, d: Dashboard.Display)
    ensures var o := Gate.Transition(Gate.Run(Gate.INITIAL, calls), req, now);
      o.published.Some? ==>
        Dashboard.Shown(d, ToPayload(o.published.value)).status ==
          if o.published.value.vehicleFound then Dashboard.NOT_REGISTERED else Dashboard.NO_VEHICLE
  {
    Gate.RunStaysUnidentified(Gate.INITIAL, calls);
  }

  /** Each such payload either cancels the dashboard's reset timer or re-arms it, never leaves it pending. */
  lemma PublishedTimerEffect(calls: seq<Gate.Call>, req: Gate.GateRequest, now: int)
    ensures var o := Gate.Transition(Gate.Run(Gate.INITIAL, calls), req, now);
      o.published.Some? ==>
        Dashboard.TimerEffectOf(ToPayload(o.published.value)) ==
          if o.published.value.vehicleFound then Dashboard.Rearm else Dashboard.Cancel
  {
    Gate.RunStaysUnidentified(Gate.INITIAL, calls);
  }
}
