/**
  What one run of `collect` produces, stated against the device alone:
  which runs succeed, what the three families hold, that every sample is
  labelled by the target and its component, and which error is raised.
 */
module CollectorProperties {
  import opened Wrappers
  import opened PduModel
  import opened Gauges
  import opened Collector

  /** The power samples expected from readable outlets, one per outlet, in outlet order. */
  function OutletPowerSamples<R>(target: string, outlets: seq<Outlet<R>>): seq<Sample<R>>
    requires forall k :: 0 <= k < |outlets| ==> OutletReadable(outlets[k])
  {
    seq(|outlets|, k requires 0 <= k < |outlets| =>
      Sample([target, OutletLabel(outlets[k])], OutletPower(outlets[k])))
  }

  /** The energy samples expected from readable outlets. */
  function OutletEnergySamples<R>(target: string, outlets: seq<Outlet<R>>): seq<Sample<R>>
    requires forall k :: 0 <= k < |outlets| ==> OutletReadable(outlets[k])
  {
    seq(|outlets|, k requires 0 <= k < |outlets| =>
      Sample([target, OutletLabel(outlets[k])], OutletEnergy(outlets[k])))
  }

  /** The power samples expected from readable inlets. */
  function InletPowerSamples<R>(target: string, inlets: seq<Inlet<R>>): seq<Sample<R>>
    requires forall k :: 0 <= k < |inlets| ==> InletReadable(inlets[k])
  {
    seq(|inlets|, k requires 0 <= k < |inlets| =>
      Sample([target, InletLabel(inlets[k])], InletPower(inlets[k])))
  }

  /** The outlet loop succeeds exactly when every outlet is readable, and then yields one sample of each kind per outlet. */
  lemma {:induction false} OutletPassSpec<R>(target: string, outlets: seq<Outlet<R>>)
    ensures OutletPass(target, outlets).Success? <==> forall k :: 0 <= k < |outlets| ==> OutletReadable(outlets[k])
    ensures OutletPass(target, outlets).Success? ==>
              OutletPass(target, outlets).value == (OutletPowerSamples(target, outlets), OutletEnergySamples(target, outlets))
    decreases |outlets|
  {
    if outlets != [] {
      var n := |outlets|;
      var init := outlets[..n - 1];
      OutletPassSpec(target, init);
      assert forall k :: 0 <= k < n - 1 ==> init[k] == outlets[k];
      if OutletPass(target, outlets).Success? {
        var last := outlets[n - 1];
        var done := OutletPass(target, init).value;
        assert ReadOutlet(target, last).value ==
          (Sample([target, OutletLabel(last)], OutletPower(last)), Sample([target, OutletLabel(last)], OutletEnergy(last)));
        assert OutletPass(target, outlets).value == (done.0 + [ReadOutlet(target, last).value.0], done.1 + [ReadOutlet(target, last).value.1]);
        assert OutletPowerSamples(target, outlets) ==
          OutletPowerSamples(target, init) + [Sample([target, OutletLabel(last)], OutletPower(last))];
        assert OutletEnergySamples(target, outlets) ==
          OutletEnergySamples(target, init) + [Sample([target, OutletLabel(last)], OutletEnergy(last))];
      }
    } else {
      assert OutletPowerSamples(target, outlets) == [];
      assert OutletEnergySamples(target, outlets) == [];
    }
  }

  /** The inlet loop succeeds exactly when every inlet is readable, and then yields one sample per inlet. */
  lemma {:induction false} InletPassSpec<R>(target: string, inlets: seq<Inlet<R>>)
    ensures InletPass(target, inlets).Success? <==> forall k :: 0 <= k < |inlets| ==> InletReadable(inlets[k])
    ensures InletPass(target, inlets).Success? ==> InletPass(target, inlets).value == InletPowerSamples(target, inlets)
    decreases |inlets|
  {
    if inlets != [] {
      var n := |inlets|;
      var init := inlets[..n - 1];
      InletPassSpec(target, init);
      assert forall k :: 0 <= k < n - 1 ==> init[k] == inlets[k];
    }
  }

  /** A run raises nothing exactly when every call it makes succeeds. */
  lemma CollectionSucceedsIffHealthy<R>(target: string, pdu: Pdu<R>)
    ensures Collection(target, pdu).raised == None <==> Healthy(pdu)
  {
    if pdu.outlets.Success? {
      OutletPassSpec(target, pdu.outlets.value);
    }
    if pdu.inlets.Success? {
      InletPassSpec(target, pdu.inlets.value);
    }
  }

  /**
    The snapshot of a healthy device: exactly three families in the fixed
    order with the fixed names, help texts and label names; one outlet
    power and one outlet energy sample per outlet and one inlet power
    sample per inlet, in component order, each labelled by the target and
    the component's label and carrying its reading unchanged.
   */
  lemma HealthySnapshot<R>(target: string, pdu: Pdu<R>)
    requires Healthy(pdu)
    ensures
      var y := Collection(target, pdu);
      var outlets := pdu.outlets.value;
      var inlets := pdu.inlets.value;
      && y.raised == None
      && |y.families| == 3
      && y.families[0].name == "OutletActivePower" && y.families[0].help == "Outlet power in W"
      && y.families[0].labelNames == ["pdu", "outlet"]
      && y.families[1].name == "OutletActiveEnergy" && y.families[1].help == "Outlet energy in J"
      && y.families[1].labelNames == ["pdu", "outlet"]
      && y.families[2].name == "InletActivePower" && y.families[2].help == "Inlet power in W"
      && y.families[2].labelNames == ["pdu", "inlet"]
      && |y.families[0].samples| == |outlets|
      && |y.families[1].samples| == |outlets|
      && |y.families[2].samples| == |inlets|
      && (forall k :: 0 <= k < |outlets| ==>
            && y.families[0].samples[k] ==
                 Sample([target, OutletLabel(outlets[k])], OutletPower(outlets[k]))
            && y.families[1].samples[k] ==
                 Sample([target, OutletLabel(outlets[k])], OutletEnergy(outlets[k])))
      && (forall k :: 0 <= k < |inlets| ==>
            y.families[2].samples[k] ==
              Sample([target, InletLabel(inlets[k])], InletPower(inlets[k])))
  {
    OutletPassSpec(target, pdu.outlets.value);
    InletPassSpec(target, pdu.inlets.value);
  }

  /** The families a run may yield, in order; any run yields a prefix of them. */
  predicate FixedHeader<R>(f: Family<R>, k: nat) {
    match k
    case 0 => f.name == "OutletActivePower" && f.help == "Outlet power in W" && f.labelNames == ["pdu", "outlet"]
    case 1 => f.name == "OutletActiveEnergy" && f.help == "Outlet energy in J" && f.labelNames == ["pdu", "outlet"]
    case _ => k == 2 && f.name == "InletActivePower" && f.help == "Inlet power in W" && f.labelNames == ["pdu", "inlet"]
  }

  /** Every sample of the family has two label values, the first being the target. */
  predicate LabelledByTarget<R>(f: Family<R>, target: string) {
    forall k :: 0 <= k < |f.samples| ==> |f.samples[k].labelValues| == 2 && f.samples[k].labelValues[0] == target
  }

  lemma {:induction false} OutletPassLabelled<R>(target: string, outlets: seq<Outlet<R>>)
    requires OutletPass(target, outlets).Success?
    ensures LabelledByTarget(OutletPowerFamily(OutletPass(target, outlets).value.0), target)
    ensures LabelledByTarget(OutletEnergyFamily(OutletPass(target, outlets).value.1), target)
    decreases |outlets|
  {
    if outlets != [] {
      OutletPassLabelled(target, outlets[..|outlets| - 1]);
    }
  }

  lemma {:induction false} InletPassLabelled<R>(target: string, inlets: seq<Inlet<R>>)
    requires InletPass(target, inlets).Success?
    ensures LabelledByTarget(InletPowerFamily(InletPass(target, inlets).value), target)
    decreases |inlets|
  {
    if inlets != [] {
      InletPassLabelled(target, inlets[..|inlets| - 1]);
    }
  }

  /**
    Whatever the device answers, a run yields the outlet families together
    or not at all and the inlet family only after them; it yields all three
    exactly when it raises nothing; and in every yielded family each sample
    has as many label values as the family has label names, the first one
    being the target.
   */
  lemma YieldedFamiliesWellFormed<R>(target: string, pdu: Pdu<R>)
    ensures var y := Collection(target, pdu);
      && |y.families| in {0, 2, 3}
      && (|y.families| == 3 <==> y.raised == None)
      && forall k :: 0 <= k < |y.families| ==>
           && FixedHeader(y.families[k], k)
           && y.families[k].WellLabelled()
           && LabelledByTarget(y.families[k], target)
  {
    if pdu.outlets.Success? && OutletPass(target, pdu.outlets.value).Success? {
      OutletPassLabelled(target, pdu.outlets.value);
      if pdu.inlets.Success? && InletPass(target, pdu.inlets.value).Success? {
        InletPassLabelled(target, pdu.inlets.value);
      }
    }
  }

  // The error a run raises, against a flat record of the calls it makes.

  /** The outcome of one call: the error it raised, if any. */
  function Status<T>(r: Read<T>): Option<Error> {
    if r.Failure? then Some(r.error) else None
  }

  /** The calls made for one outlet, in order; nothing is asked of a sensor set that failed to arrive. */
  function OutletCalls<R>(o: Outlet<R>): seq<Option<Error>> {
    match o.sensors
    case Failure(e) => [Some(e)]
    case Success(s) => [None, Status(o.metaData), Status(s.activePower), Status(s.activeEnergy)]
  }

  function InletCalls<R>(i: Inlet<R>): seq<Option<Error>> {
    match i.sensors
    case Failure(e) => [Some(e)]
    case Success(s) => [None, Status(i.metaData), Status(s.activePower)]
  }

  function OutletsCalls<R>(outlets: seq<Outlet<R>>): seq<Option<Error>>
    decreases |outlets|
  {
    if outlets == [] then [] else OutletsCalls(outlets[..|outlets| - 1]) + OutletCalls(outlets[|outlets| - 1])
  }

  function InletsCalls<R>(inlets: seq<Inlet<R>>): seq<Option<Error>>
    decreases |inlets|
  {
    if inlets == [] then [] else InletsCalls(inlets[..|inlets| - 1]) + InletCalls(inlets[|inlets| - 1])
  }

  /** Every call of a run, in the order the traversal makes them. */
  function Calls<R>(pdu: Pdu<R>): seq<Option<Error>> {
    match pdu.outlets
    case Failure(e) => [Some(e)]
    case Success(outlets) =>
      [None] + OutletsCalls(outlets) +
      match pdu.inlets
      case Failure(e) => [Some(e)]
      case Success(inlets) => [None] + InletsCalls(inlets)
  }

  /** The error of the earliest failing call. */
  function FirstFault(calls: seq<Option<Error>>): Option<Error> {
    if calls == [] then None
    else if calls[0].Some? then calls[0]
    else FirstFault(calls[1..])
  }

  lemma {:induction false} FirstFaultAppend(a: seq<Option<Error>>, b: seq<Option<Error>>)
    ensures FirstFault(a + b) == if FirstFault(a).Some? then FirstFault(a) else FirstFault(b)
  {
    if a != [] {
      assert (a + b)[1..] == a[1..] + b;
      FirstFaultAppend(a[1..], b);
    } else {
      assert a + b == b;
    }
  }

  lemma OutletCallsAgree<R>(target: string, o: Outlet<R>)
    ensures Status(ReadOutlet(target, o)) == FirstFault(OutletCalls(o))
  {
    if o.sensors.Success? {
      var s := o.sensors.value;
      var calls := OutletCalls(o);
      assert FirstFault(calls) == FirstFault(calls[1..]);
      assert calls[1..] == [Status(o.metaData), Status(s.activePower), Status(s.activeEnergy)];
      if o.metaData.Success? {
        assert calls[1..][1..] == [Status(s.activePower), Status(s.activeEnergy)];
        assert FirstFault(calls[1..]) == FirstFault(calls[1..][1..]);
        if s.activePower.Success? {
          assert calls[1..][1..][1..] == [Status(s.activeEnergy)];
          assert FirstFault(calls[1..][1..]) == FirstFault(calls[1..][1..][1..]);
          assert calls[1..][1..][1..][1..] == [];
        }
      }
    }
  }

  lemma InletCallsAgree<R>(target: string, i: Inlet<R>)
    ensures Status(ReadInlet(target, i)) == FirstFault(InletCalls(i))
  {
    if i.sensors.Success? {
      var s := i.sensors.value;
      var calls := InletCalls(i);
      assert FirstFault(calls) == FirstFault(calls[1..]);
      assert calls[1..] == [Status(i.metaData), Status(s.activePower)];
      if i.metaData.Success? {
        assert calls[1..][1..] == [Status(s.activePower)];
        assert FirstFault(calls[1..]) == FirstFault(calls[1..][1..]);
        assert calls[1..][1..][1..] == [];
      }
    }
  }

  lemma {:induction false} OutletsCallsAgree<R>(target: string, outlets: seq<Outlet<R>>)
    ensures Status(OutletPass(target, outlets)) == FirstFault(OutletsCalls(outlets))
    decreases |outlets|
  {
    if outlets != [] {
      var n := |outlets|;
      OutletsCallsAgree(target, outlets[..n - 1]);
      OutletCallsAgree(target, outlets[n - 1]);
      FirstFaultAppend(OutletsCalls(outlets[..n - 1]), OutletCalls(outlets[n - 1]));
    }
  }

  lemma {:induction false} InletsCallsAgree<R>(target: string, inlets: seq<Inlet<R>>)
    ensures Status(InletPass(target, inlets)) == FirstFault(InletsCalls(inlets))
    decreases |inlets|
  {
    if inlets != [] {
      var n := |inlets|;
      InletsCallsAgree(target, inlets[..n - 1]);
      InletCallsAgree(target, inlets[n - 1]);
      FirstFaultAppend(InletsCalls(inlets[..n - 1]), InletCalls(inlets[n - 1]));
    }
  }

  /** The error a run raises is that of the first call, in traversal order, that fails. */
  lemma RaisedIsFirstFault<R>(target: string, pdu: Pdu<R>)
    ensures Collection(target, pdu).raised == FirstFault(Calls(pdu))
  {
    if pdu.outlets.Success? {
      var outlets := pdu.outlets.value;
      var rest := match pdu.inlets
        case Failure(e) => [Some(e)]
        case Success(inlets) => [None] + InletsCalls(inlets);
      assert Calls(pdu) == [None] + (OutletsCalls(outlets) + rest);
      assert FirstFault(Calls(pdu)) == FirstFault(OutletsCalls(outlets) + rest);
      OutletsCallsAgree(target, outlets);
      FirstFaultAppend(OutletsCalls(outlets), rest);
      if pdu.inlets.Success? {
        var inlets := pdu.inlets.value;
        assert FirstFault(rest) == FirstFault(InletsCalls(inlets));
        InletsCallsAgree(target, inlets);
      }
    }
  }

  /** One outlet and one inlet probed at 10.45.1.1: three families with one sample each. */
  lemma OneOutletOneInlet()
    ensures
      var pdu := Pdu(
        Success([Outlet(Success(OutletSensors(Success(120.5), Success(3600.0))), Success(MetaData("Outlet 1")))]),
        Success([Inlet(Success(InletSensors(Success(121.0))), Success(MetaData("Inlet 1")))]));
      Collection("10.45.1.1", pdu) == Yield([
        Family("OutletActivePower", "Outlet power in W", ["pdu", "outlet"], [Sample(["10.45.1.1", "Outlet 1"], 120.5)]),
        Family("OutletActiveEnergy", "Outlet energy in J", ["pdu", "outlet"], [Sample(["10.45.1.1", "Outlet 1"], 3600.0)]),
        Family("InletActivePower", "Inlet power in W", ["pdu", "inlet"], [Sample(["10.45.1.1", "Inlet 1"], 121.0)])
      ], None)
  {
    var outlets := [Outlet(Success(OutletSensors(Success(120.5), Success(3600.0))), Success(MetaData("Outlet 1")))];
    var inlets := [Inlet(Success(InletSensors(Success(121.0))), Success(MetaData("Inlet 1")))];
    assert outlets[..0] == [] && inlets[..0] == [];
    assert OutletPass("10.45.1.1", outlets[..0]) == Success(([], []));
    assert ReadOutlet("10.45.1.1", outlets[0]) ==
      Success((Sample(["10.45.1.1", "Outlet 1"], 120.5), Sample(["10.45.1.1", "Outlet 1"], 3600.0)));
    assert InletPass("10.45.1.1", inlets[..0]) == Success([]);
    var none: seq<Sample<real>> := [];
    assert none + [Sample(["10.45.1.1", "Outlet 1"], 120.5)] == [Sample(["10.45.1.1", "Outlet 1"], 120.5)];
    assert none + [Sample(["10.45.1.1", "Outlet 1"], 3600.0)] == [Sample(["10.45.1.1", "Outlet 1"], 3600.0)];
    assert none + [Sample(["10.45.1.1", "Inlet 1"], 121.0)] == [Sample(["10.45.1.1", "Inlet 1"], 121.0)];
    assert ReadInlet("10.45.1.1", inlets[0]) == Success(Sample(["10.45.1.1", "Inlet 1"], 121.0));
    assert OutletPass("10.45.1.1", outlets) ==
      Success(([Sample(["10.45.1.1", "Outlet 1"], 120.5)], [Sample(["10.45.1.1", "Outlet 1"], 3600.0)]));
    assert InletPass("10.45.1.1", inlets) == Success([Sample(["10.45.1.1", "Inlet 1"], 121.0)]);
  }
}
