/**
  `RaritanPDUCollector`: walks the outlets and then the inlets of one PDU and
  turns the readings into three gauge families. `Collection` is the
  specification of one run of the `collect` generator; the class method
  `Collect` is the step-by-step traversal, proved equal to it.
 */
module Collector {
  import opened Wrappers
  import opened PduModel
  import opened Gauges

  /** The three families, with their fixed names, help texts and label names. */
  function OutletPowerFamily<R>(samples: seq<Sample<R>>): Family<R> {
    Family("OutletActivePower", "Outlet power in W", ["pdu", "outlet"], samples)
  }

  function OutletEnergyFamily<R>(samples: seq<Sample<R>>): Family<R> {
    Family("OutletActiveEnergy", "Outlet energy in J", ["pdu", "outlet"], samples)
  }

  function InletPowerFamily<R>(samples: seq<Sample<R>>): Family<R> {
    Family("InletActivePower", "Inlet power in W", ["pdu", "inlet"], samples)
  }

  /**
    The power and energy samples of one outlet, or the error of the first
    call that fails, in the order the collector makes them: sensors,
    metadata, active power, active energy.
   */
  function ReadOutlet<R>(target: string, o: Outlet<R>): Read<(Sample<R>, Sample<R>)> {
    var sensors :- o.sensors;
    var metaData :- o.metaData;
    var power :- sensors.activePower;
    var energy :- sensors.activeEnergy;
    Success((Sample([target, metaData.componentLabel], power), Sample([target, metaData.componentLabel], energy)))
  }

  /** The power sample of one inlet: sensors, metadata, active power. */
  function ReadInlet<R>(target: string, i: Inlet<R>): Read<Sample<R>> {
    var sensors :- i.sensors;
    var metaData :- i.metaData;
    var power :- sensors.activePower;
    Success(Sample([target, metaData.componentLabel], power))
  }

  /** The loop over the outlets: the power and energy samples so far, or the first error. */
  function OutletPass<R>(target: string, outlets: seq<Outlet<R>>): Read<(seq<Sample<R>>, seq<Sample<R>>)>
    decreases |outlets|
  {
    if outlets == [] then Success(([], []))
    else
      var done :- OutletPass(target, outlets[..|outlets| - 1]);
      var row :- ReadOutlet(target, outlets[|outlets| - 1]);
      Success((done.0 + [row.0], done.1 + [row.1]))
  }

  /** The loop over the inlets: the power samples so far, or the first error. */
  function InletPass<R>(target: string, inlets: seq<Inlet<R>>): Read<seq<Sample<R>>>
    decreases |inlets|
  {
    if inlets == [] then Success([])
    else
      var done :- InletPass(target, inlets[..|inlets| - 1]);
      var sample :- ReadInlet(target, inlets[|inlets| - 1]);
      Success(done + [sample])
  }

  /** What the `collect` generator yields before it stops, and the error it raises, if any. */
  datatype Yield<R> = Yield(families: seq<Family<R>>, raised: Option<Error>)

  /** One run of `collect` against a device. */
  function Collection<R>(target: string, pdu: Pdu<R>): Yield<R> {
    match pdu.outlets
    case Failure(e) => Yield([], Some(e))
    case Success(outlets) =>
      match OutletPass(target, outlets)
      case Failure(e) => Yield([], Some(e))
      case Success(rows) =>
        var outletFamilies := [OutletPowerFamily(rows.0), OutletEnergyFamily(rows.1)];
        match pdu.inlets
        case Failure(e) => Yield(outletFamilies, Some(e))
        case Success(inlets) =>
          match InletPass(target, inlets)
          case Failure(e) => Yield(outletFamilies, Some(e))
          case Success(samples) => Yield(outletFamilies + [InletPowerFamily(samples)], None)
  }

  /** Once a prefix of the outlets fails, the whole pass fails with the same error. */
  lemma {:induction false} OutletPassFaultPersists<R>(target: string, outlets: seq<Outlet<R>>, i: nat)
    requires i <= |outlets|
    requires OutletPass(target, outlets[..i]).Failure?
    ensures OutletPass(target, outlets) == OutletPass(target, outlets[..i])
    decreases |outlets| - i
  {
    if i == |outlets| {
      assert outlets[..i] == outlets;
    } else {
      assert outlets[..i + 1][..i] == outlets[..i];
      OutletPassFaultPersists(target, outlets, i + 1);
    }
  }

  /** Once a prefix of the inlets fails, the whole pass fails with the same error. */
  lemma {:induction false} InletPassFaultPersists<R>(target: string, inlets: seq<Inlet<R>>, i: nat)
    requires i <= |inlets|
    requires InletPass(target, inlets[..i]).Failure?
    ensures InletPass(target, inlets) == InletPass(target, inlets[..i])
    decreases |inlets| - i
  {
    if i == |inlets| {
      assert inlets[..i] == inlets;
    } else {
      assert inlets[..i + 1][..i] == inlets[..i];
      InletPassFaultPersists(target, inlets, i + 1);
    }
  }

  /** A failing outlet after a successful prefix is the error of the whole pass. */
  lemma OutletFaultAt<R>(target: string, outlets: seq<Outlet<R>>, i: nat)
    requires i < |outlets|
    requires OutletPass(target, outlets[..i]).Success?
    requires ReadOutlet(target, outlets[i]).Failure?
    ensures OutletPass(target, outlets) == Failure(ReadOutlet(target, outlets[i]).error)
  {
    assert outlets[..i + 1][..i] == outlets[..i];
    OutletPassFaultPersists(target, outlets, i + 1);
  }

  /** A failing inlet after a successful prefix is the error of the whole pass. */
  lemma InletFaultAt<R>(target: string, inlets: seq<Inlet<R>>, i: nat)
    requires i < |inlets|
    requires InletPass(target, inlets[..i]).Success?
    requires ReadInlet(target, inlets[i]).Failure?
    ensures InletPass(target, inlets) == Failure(ReadInlet(target, inlets[i]).error)
  {
    assert inlets[..i + 1][..i] == inlets[..i];
    InletPassFaultPersists(target, inlets, i + 1);
  }

  /**
    A request-scoped collector: built from the probe's target and
    credentials, which it never changes, and collected once.
   */
  class RaritanPduCollector {
    const target: string
    const user: string
    const password: string

    constructor (target: string, user: string, password: string)
      ensures this.target == target && this.user == user && this.password == password
    {
      this.target := target;
      this.user := user;
      this.password := password;
    }

    /**
      `collect`: opens the device with the collector's address and
      credentials, then fills the outlet families and the inlet family
      sample by sample; an error raised by any call ends the run.
     */
    method Collect<R>(agent: Agent<R>) returns (out: Yield<R>)
      ensures out == Collection(target, agent(target, user, password))
    {
      var pdu := agent(target, user, password);
      var outletPower := OutletPowerFamily<R>([]);
      var outletEnergy := OutletEnergyFamily<R>([]);

      if pdu.outlets.Failure? {
        return Yield([], Some(pdu.outlets.error));
      }
      var outlets := pdu.outlets.value;
      for i := 0 to |outlets|
        invariant outletPower == OutletPowerFamily(outletPower.samples)
        invariant outletEnergy == OutletEnergyFamily(outletEnergy.samples)
        invariant OutletPass(target, outlets[..i]) == Success((outletPower.samples, outletEnergy.samples))
      {
        var outlet := outlets[i];
        if outlet.sensors.Failure? {
          OutletFaultAt(target, outlets, i);
          return Yield([], Some(outlet.sensors.error));
        }
        var sensors := outlet.sensors.value;
        if outlet.metaData.Failure? {
          OutletFaultAt(target, outlets, i);
          return Yield([], Some(outlet.metaData.error));
        }
        var componentLabel := outlet.metaData.value.componentLabel;
        if sensors.activePower.Failure? {
          OutletFaultAt(target, outlets, i);
          return Yield([], Some(sensors.activePower.error));
        }
        outletPower := outletPower.AddMetric([target, componentLabel], sensors.activePower.value);
        if sensors.activeEnergy.Failure? {
          OutletFaultAt(target, outlets, i);
          return Yield([], Some(sensors.activeEnergy.error));
        }
        outletEnergy := outletEnergy.AddMetric([target, componentLabel], sensors.activeEnergy.value);
        assert outlets[..i + 1][..i] == outlets[..i];
      }
      assert outlets[..|outlets|] == outlets;
      var yielded := [outletPower, outletEnergy];

      var inletPower := InletPowerFamily<R>([]);
      if pdu.inlets.Failure? {
        return Yield(yielded, Some(pdu.inlets.error));
      }
      var inlets := pdu.inlets.value;
      for i := 0 to |inlets|
        invariant inletPower == InletPowerFamily(inletPower.samples)
        invariant InletPass(target, inlets[..i]) == Success(inletPower.samples)
      {
        var inlet := inlets[i];
        if inlet.sensors.Failure? {
          InletFaultAt(target, inlets, i);
          return Yield(yielded, Some(inlet.sensors.error));
        }
        var sensors := inlet.sensors.value;
        if inlet.metaData.Failure? {
          InletFaultAt(target, inlets, i);
          return Yield(yielded, Some(inlet.metaData.error));
        }
        var componentLabel := inlet.metaData.value.componentLabel;
        if sensors.activePower.Failure? {
          InletFaultAt(target, inlets, i);
          return Yield(yielded, Some(sensors.activePower.error));
        }
        inletPower := inletPower.AddMetric([target, componentLabel], sensors.activePower.value);
        assert inlets[..i + 1][..i] == inlets[..i];
      }
      assert inlets[..|inlets|] == inlets;
      yielded := yielded + [inletPower];
      out := Yield(yielded, None);
    }
  }
}
