/**
  The part of the Raritan PDU object model (`pdumodel.Pdu` at "/model/pdu/0")
  that the collector reads. Every remote call is a `Read`: what the device
  answered, or the error the RPC client raised. Readings are of an opaque
  type `R`: the collector never computes with them, it only copies them.
 */
module PduModel {
  import opened Wrappers

  /** An exception raised by the RPC client (connection, authentication, JSON-RPC, a missing sensor). */
  datatype Error = Error(description: string)

  /** The outcome of one remote call. */
  type Read<T> = Result<T, Error>

  /** `getMetaData()` of an outlet or inlet; only the label (`componentLabel`) is used. */
  datatype MetaData = MetaData(componentLabel: string)

  /** `getSensors()` of an outlet: each field stands for `sensor.getReading().value`. */
  datatype OutletSensors<R> = OutletSensors(activePower: Read<R>, activeEnergy: Read<R>)

  datatype Outlet<R> = Outlet(sensors: Read<OutletSensors<R>>, metaData: Read<MetaData>)

  /** `getSensors()` of an inlet: the field stands for `activePower.getReading().value`. */
  datatype InletSensors<R> = InletSensors(activePower: Read<R>)

  datatype Inlet<R> = Inlet(sensors: Read<InletSensors<R>>, metaData: Read<MetaData>)

  /** The device: `getOutlets()` and `getInlets()`. */
  datatype Pdu<R> = Pdu(outlets: Read<seq<Outlet<R>>>, inlets: Read<seq<Inlet<R>>>)

  /**
    What `get_agent(ip, user, pw)` followed by `pdumodel.Pdu("/model/pdu/0", agent)`
    reaches: the device as seen with that address and those credentials.
   */
  type Agent<R> = (string, string, string) -> Pdu<R>

  /** Every call the collector makes for this outlet succeeds. */
  predicate OutletReadable<R>(o: Outlet<R>) {
    && o.sensors.Success?
    && o.metaData.Success?
    && o.sensors.value.activePower.Success?
    && o.sensors.value.activeEnergy.Success?
  }

  function OutletLabel<R>(o: Outlet<R>): string requires OutletReadable(o) { o.metaData.value.componentLabel }
  function OutletPower<R>(o: Outlet<R>): R requires OutletReadable(o) { o.sensors.value.activePower.value }
  function OutletEnergy<R>(o: Outlet<R>): R requires OutletReadable(o) { o.sensors.value.activeEnergy.value }

  /** Every call the collector makes for this inlet succeeds. */
  predicate InletReadable<R>(i: Inlet<R>) {
    && i.sensors.Success?
    && i.metaData.Success?
    && i.sensors.value.activePower.Success?
  }

  function InletLabel<R>(i: Inlet<R>): string requires InletReadable(i) { i.metaData.value.componentLabel }
  function InletPower<R>(i: Inlet<R>): R requires InletReadable(i) { i.sensors.value.activePower.value }

  /** Every call the collector makes on this device succeeds. */
  predicate Healthy<R>(pdu: Pdu<R>) {
    && pdu.outlets.Success?
    && (forall k :: 0 <= k < |pdu.outlets.value| ==> OutletReadable(pdu.outlets.value[k]))
    && pdu.inlets.Success?
    && (forall k :: 0 <= k < |pdu.inlets.value| ==> InletReadable(pdu.inlets.value[k]))
  }
}
