/** Gateway reconciliation of devices.go: for each source gateway, unbind whatever the
    destination has bound to it, then walk the devices the source binds to it, creating any the
    destination lacks, and bind each one. The source's listing of bound devices is an input (the
    devices the iterator yields, and the error it stops with, if any). */
module Gateways {
  import opened Wrappers
  import opened Iot
  import opened Registry
  import opened Types
  import opened Strings
  import Seqs
  import Utils
  import Devices

  // ---------------------------------------------------------------- the gateway partition

  method CollectGateways(devices: seq<Device>) returns (gateways: seq<Device>)
    ensures gateways == GatewaysIn(devices)
  {
    gateways := [];
    var i := 0;
    while i < |devices|
      invariant 0 <= i <= |devices|
      invariant gateways == GatewaysIn(devices[..i])
    {
      Seqs.FilterSnoc(devices[..i], devices[i], IsGateway);
      assert devices[..i + 1] == devices[..i] + [devices[i]];
      if devices[i].gatewayConfig.Some? && devices[i].gatewayConfig.value.gatewayType == Gateway {
        gateways := gateways + [devices[i]];
      }
      i := i + 1;
    }
    assert devices[..i] == devices;
  }

  /** The gateways are exactly the devices with a gateway config of type GATEWAY, in order. */
  lemma GatewaysExact(devices: seq<Device>, d: Device)
    ensures d in GatewaysIn(devices) <==> d in devices && d.gatewayConfig.Some? && d.gatewayConfig.value.gatewayType == Gateway
    ensures Seqs.IsSubsequence(GatewaysIn(devices), devices)
  {
    Seqs.FilterMembership(devices, IsGateway, d);
    Seqs.FilterIsSubsequence(devices, IsGateway);
  }

  // ---------------------------------------------------------------- unbindFromGatewayIfAlreadyExistsInCBRegistry

  /** The registry after one unbind attempt per listed device, in order. */
  function UnbindAll(reg: Registry, gatewayId: string, ids: seq<string>, f: Faults): Registry
  {
    if |ids| == 0 then reg
    else Unbind(UnbindAll(reg, gatewayId, ids[..|ids| - 1], f), Binding(gatewayId, ids[|ids| - 1]), f).0
  }

  function UnbindCalls(gatewayId: string, ids: seq<string>): seq<Call>
  {
    seq(|ids|, k requires 0 <= k < |ids| => UnbindCall(Binding(gatewayId, ids[k])))
  }

  /** List what the destination binds to the gateway (a failure is fatal to the process), then try
      to unbind every listed device; a failed unbind is only reported and the loop goes on. This
      is the corrected form, which reads every page of the listing; the source reads only the
      first page (`ListBoundFirstPage`, `ReconcileAsWritten`). */
  method UnbindFromGatewayIfAlreadyExists(reg: Registry, gatewayId: string, f: Faults)
    returns (reg': Registry, fatal: Option<string>, calls: seq<Call>)
    ensures ListBound(reg, gatewayId, f).Failure? ==>
      reg' == reg && fatal == Some(ListBound(reg, gatewayId, f).error) && calls == [ListBoundCall(gatewayId)]
    ensures ListBound(reg, gatewayId, f).Success? ==>
      var listed := ListBound(reg, gatewayId, f).value;
      && fatal.None? && reg' == UnbindAll(reg, gatewayId, listed, f)
      && calls == [ListBoundCall(gatewayId)] + UnbindCalls(gatewayId, listed)
  {
    var listing := ListBound(reg, gatewayId, f);
    calls := [ListBoundCall(gatewayId)];
    if listing.Failure? {
      return reg, Some(listing.error), calls;
    }
    var listed := listing.value;
    reg' := reg;
    var unbinds: seq<Call> := [];
    var i := 0;
    while i < |listed|
      invariant 0 <= i <= |listed|
      invariant reg' == UnbindAll(reg, gatewayId, listed[..i], f)
      invariant unbinds == UnbindCalls(gatewayId, listed[..i])
    {
      var b := Binding(gatewayId, listed[i]);
      UnbindSnoc(reg, gatewayId, listed, f, i);
      var unbound := Unbind(reg', b, f);
      reg' := unbound.0;
      unbinds := unbinds + [UnbindCall(b)];
      i := i + 1;
    }
    assert listed[..i] == listed;
    return reg', None, calls + unbinds;
  }

  /** One more listed device: one more unbind attempt, and one more call. */
  lemma UnbindSnoc(reg: Registry, gatewayId: string, ids: seq<string>, f: Faults, i: nat)
    requires i < |ids|
    ensures UnbindAll(reg, gatewayId, ids[..i + 1], f) ==
      Unbind(UnbindAll(reg, gatewayId, ids[..i], f), Binding(gatewayId, ids[i]), f).0
    ensures UnbindCalls(gatewayId, ids[..i + 1]) == UnbindCalls(gatewayId, ids[..i]) + [UnbindCall(Binding(gatewayId, ids[i]))]
  {
    assert ids[..i + 1][..i] == ids[..i];
    var next := UnbindCalls(gatewayId, ids[..i + 1]);
    var prev := UnbindCalls(gatewayId, ids[..i]);
    forall k | 0 <= k < i
      ensures next[k] == prev[k]
    {
      assert ids[..i + 1][k] == ids[..i][k];
    }
    assert next == prev + [next[i]];
  }

  lemma {:induction false} RemoveAfterWithout(l: seq<string>, done: set<string>, id: string)
    ensures Remove(Seqs.Without(l, done), id) == Seqs.Without(l, done + {id})
  {
    if |l| > 0 {
      var p := l[..|l| - 1];
      var x := l[|l| - 1];
      RemoveAfterWithout(p, done, id);
      var w := Seqs.Without(p, done);
      assert Seqs.Without(l, done) == w + (if x !in done then [x] else []);
      assert Seqs.Without(l, done + {id}) == Seqs.Without(p, done + {id}) + (if x !in done + {id} then [x] else []);
      if x !in done {
        assert (w + [x])[..|w + [x]| - 1] == w;
        assert Remove(w + [x], id) == Remove(w, id) + (if x != id then [x] else []);
      } else {
        assert Seqs.Without(l, done) == w;
        assert Seqs.Without(l, done + {id}) == Seqs.Without(p, done + {id});
      }
    }
  }

  lemma NothingLeft(l: seq<string>, excluded: set<string>)
    requires forall x :: x in l ==> x in excluded
    ensures Seqs.Without(l, excluded) == []
  {
    var w := Seqs.Without(l, excluded);
    if |w| > 0 {
      Seqs.FilterMembership(l, (x: string) => x !in excluded, w[0]);
    }
  }

  /** Unbinding a list of devices leaves the devices, and every other gateway's bindings, alone. */
  lemma {:induction false} UnbindAllKeepsOthers(reg: Registry, gatewayId: string, ids: seq<string>, f: Faults)
    ensures UnbindAll(reg, gatewayId, ids, f).devices == reg.devices
    ensures forall h :: h != gatewayId ==> BoundList(UnbindAll(reg, gatewayId, ids, f), h) == BoundList(reg, h)
  {
    if |ids| > 0 {
      UnbindAllKeepsOthers(reg, gatewayId, ids[..|ids| - 1], f);
    }
  }

  /** When no unbind for this gateway fails, exactly the listed devices lose their binding to it. */
  lemma {:induction false} UnbindAllEffect(reg: Registry, gatewayId: string, ids: seq<string>, f: Faults)
    requires forall id :: Binding(gatewayId, id) !in f.unbind
    ensures BoundList(UnbindAll(reg, gatewayId, ids, f), gatewayId) == Seqs.Without(BoundList(reg, gatewayId), set x | x in ids)
  {
    if |ids| == 0 {
      assert (set x | x in ids) == {};
      Seqs.WithoutNothing(BoundList(reg, gatewayId));
    } else {
      var p := ids[..|ids| - 1];
      var y := ids[|ids| - 1];
      UnbindAllEffect(reg, gatewayId, p, f);
      RemoveAfterWithout(BoundList(reg, gatewayId), (set x | x in p), y);
      assert ids == p + [y];
      assert (set x | x in ids) == (set x | x in p) + {y};
    }
  }

  /** Without unbind faults for the gateway, unbinding everything the destination lists for it,
      over every page, leaves it with no bound device; unbinding only the first page leaves
      exactly the bound devices that page does not name, which is nothing only when the first
      page holds every binding. */
  lemma UnbindListedClears(reg: Registry, gatewayId: string, f: Faults)
    requires forall id :: Binding(gatewayId, id) !in f.unbind
    ensures BoundList(UnbindAll(reg, gatewayId, BoundList(reg, gatewayId), f), gatewayId) == []
    ensures var page := FirstPage(BoundList(reg, gatewayId), reg.pageSize);
      BoundList(UnbindAll(reg, gatewayId, page, f), gatewayId) == Seqs.Without(BoundList(reg, gatewayId), set x | x in page)
    ensures |BoundList(reg, gatewayId)| <= reg.pageSize ==>
      BoundList(UnbindAll(reg, gatewayId, FirstPage(BoundList(reg, gatewayId), reg.pageSize), f), gatewayId) == []
  {
    var l := BoundList(reg, gatewayId);
    UnbindAllEffect(reg, gatewayId, l, f);
    NothingLeft(l, set x | x in l);
    UnbindAllEffect(reg, gatewayId, FirstPage(l, reg.pageSize), f);
  }

  // ---------------------------------------------------------------- one source-bound device

  /** The registry after, the error log entries appended by, and the calls made by a step. */
  datatype BoundStep = BoundStep(reg: Registry, logs: seq<ErrorLog>, calls: seq<Call>)

  const GetContext := "Create Bound Device"
  const CreateBoundContext := "Create bound device"
  const BindContext := "Bind device to gateway"
  const Non200Context := "Bind device to gateway non-200 status"

  /** The panic a nil pointer dereference raises; it ends the process. */
  const NilDereference := "runtime error: invalid memory address or nil pointer dereference"

  /** Get failed with a 404 error: the step creates the device. */
  predicate NotFound(reg: Registry, id: string, f: Faults)
  {
    Get(reg, id, f).Some? && Contains(Get(reg, id, f).value, "Error 404")
  }

  /** The step for one device `d` the source binds to the gateway: Get it from the destination;
      an error other than 404 is logged and the device skipped; on 404 transform it and create it
      (a failure is logged), and bind it regardless; bind errors and non-200 statuses are logged,
      the latter with a nil error. The non-200 entry names the device by the id the source listed.
      Only the 404 branch transforms, so only there does a nil config or gateway config panic (Failure). */
  function MigrateBoundDevice(reg: Registry, gatewayId: string, d: Device, updatePublicKeys: bool, f: Faults)
    : (r: Result<BoundStep, string>)
    ensures r.Failure? <==> NotFound(reg, d.id, f) && !Transformable(d)
    ensures r.Failure? ==> r.error == NilDereference
    ensures Get(reg, d.id, f).Some? && !NotFound(reg, d.id, f) ==>
      r == Success(BoundStep(reg, [ErrorLog(GetContext, Get(reg, d.id, f), d.id)], [GetCall(d.id)]))
    ensures NotFound(reg, d.id, f) && Transformable(d) ==>
      r.Success? && r.value.calls == [GetCall(d.id), CreateCall(d.id), BindCall(Binding(gatewayId, d.id))]
    ensures Get(reg, d.id, f).None? ==>
      r.Success? && r.value.calls == [GetCall(d.id), BindCall(Binding(gatewayId, d.id))]
    ensures r.Success? ==> reg.devices.Keys <= r.value.reg.devices.Keys
  {
    var got := Get(reg, d.id, f);
    if got.Some? && !Contains(got.value, "Error 404") then
      Success(BoundStep(reg, [ErrorLog(GetContext, got, d.id)], [GetCall(d.id)]))
    else if got.Some? && !Transformable(d) then
      Failure(NilDereference)
    else
      var created := if got.Some? then Create(reg, Utils.CbDeviceOf(d, updatePublicKeys), f) else (reg, None);
      var createLogs := if created.1.Some? then [ErrorLog(CreateBoundContext, Some(created.1.value.message), d.id)] else [];
      var createCalls := if got.Some? then [CreateCall(d.id)] else [];
      var b := Binding(gatewayId, d.id);
      var bound := Bind(created.0, b, f);
      var bindLogs :=
        match bound.1
        case Failure(e) => [ErrorLog(BindContext, Some(e), d.id)]
        case Success(code) => if code != 200 then [ErrorLog(Non200Context, None, d.id)] else [];
      Success(BoundStep(bound.0, createLogs + bindLogs, [GetCall(d.id)] + createCalls + [BindCall(b)]))
  }

  /** The step as written: the non-200 entry takes its device id from the Get response, which is
      nil when Get failed with 404; that nil dereference panics as well. */
  function MigrateBoundDeviceAsWritten(reg: Registry, gatewayId: string, d: Device, updatePublicKeys: bool, f: Faults)
    : Result<BoundStep, string>
  {
    var got := Get(reg, d.id, f);
    if got.Some? && !Contains(got.value, "Error 404") then
      Success(BoundStep(reg, [ErrorLog(GetContext, got, d.id)], [GetCall(d.id)]))
    else if got.Some? && !Transformable(d) then
      Failure(NilDereference)
    else
      var created := if got.Some? then Create(reg, Utils.CbDeviceOf(d, updatePublicKeys), f) else (reg, None);
      var createLogs := if created.1.Some? then [ErrorLog(CreateBoundContext, Some(created.1.value.message), d.id)] else [];
      var createCalls := if got.Some? then [CreateCall(d.id)] else [];
      var b := Binding(gatewayId, d.id);
      var bound := Bind(created.0, b, f);
      var calls := [GetCall(d.id)] + createCalls + [BindCall(b)];
      match bound.1
      case Failure(e) => Success(BoundStep(bound.0, createLogs + [ErrorLog(BindContext, Some(e), d.id)], calls))
      case Success(code) =>
        if code == 200 then Success(BoundStep(bound.0, createLogs, calls))
        else if got.Some? then Failure(NilDereference)
        else Success(BoundStep(bound.0, createLogs + [ErrorLog(Non200Context, None, reg.devices[d.id].id)], calls))
  }

  /** A device the destination lacks, created and then bound with a 2xx status other than 200,
      makes the step as written dereference the nil Get response, where the corrected step logs
      the non-200 entry. */
  lemma AsWrittenNilDereference(reg: Registry, gatewayId: string, d: Device, updatePublicKeys: bool, code: int)
    requires d.id !in reg.devices && gatewayId in reg.devices && code != 200 && Transformable(d)
    ensures var f := NoFaults.(bindStatus := map[Binding(gatewayId, d.id) := code]);
      MigrateBoundDeviceAsWritten(reg, gatewayId, d, updatePublicKeys, f) == Failure(NilDereference)
    ensures var f := NoFaults.(bindStatus := map[Binding(gatewayId, d.id) := code]);
      && MigrateBoundDevice(reg, gatewayId, d, updatePublicKeys, f).Success?
      && MigrateBoundDevice(reg, gatewayId, d, updatePublicKeys, f).value.logs == [ErrorLog(Non200Context, None, d.id)]
  {
    Devices.NotFoundRecognised();
  }

  /** The corrected step agrees with the one as written wherever the latter does not panic, given
      that the destination stores every device under its own id; and it panics only where the
      one as written does. */
  lemma AsWrittenAgrees(reg: Registry, gatewayId: string, d: Device, updatePublicKeys: bool, f: Faults)
    requires forall id :: id in reg.devices ==> reg.devices[id].id == id
    ensures MigrateBoundDeviceAsWritten(reg, gatewayId, d, updatePublicKeys, f).Success? ==>
      MigrateBoundDeviceAsWritten(reg, gatewayId, d, updatePublicKeys, f) == MigrateBoundDevice(reg, gatewayId, d, updatePublicKeys, f)
    ensures MigrateBoundDevice(reg, gatewayId, d, updatePublicKeys, f).Failure? ==>
      MigrateBoundDeviceAsWritten(reg, gatewayId, d, updatePublicKeys, f) == MigrateBoundDevice(reg, gatewayId, d, updatePublicKeys, f)
  {
    var got := Get(reg, d.id, f);
    if !(got.Some? && !Contains(got.value, "Error 404")) && !(got.Some? && !Transformable(d)) {
      var created := if got.Some? then Create(reg, Utils.CbDeviceOf(d, updatePublicKeys), f) else (reg, None);
      var createLogs := if created.1.Some? then [ErrorLog(CreateBoundContext, Some(created.1.value.message), d.id)] else [];
      assert createLogs + [] == createLogs;
      if got.None? {
        assert reg.devices[d.id].id == d.id;
      }
    }
  }

  /** Without faults, a device already in the destination, or one that can be transformed, ends
      up in the destination and bound to the gateway; nothing is logged and no other gateway's
      bindings change. */
  lemma MigrateBoundDeviceNoFaults(reg: Registry, gatewayId: string, d: Device, updatePublicKeys: bool)
    requires gatewayId in reg.devices
    requires d.id !in reg.devices ==> Transformable(d)
    ensures var r := MigrateBoundDevice(reg, gatewayId, d, updatePublicKeys, NoFaults);
      && r.Success?
      && r.value.logs == []
      && d.id in r.value.reg.devices
      && BoundSet(r.value.reg, gatewayId) == BoundSet(reg, gatewayId) + {d.id}
      && (forall h :: h != gatewayId ==> BoundList(r.value.reg, h) == BoundList(reg, h))
  {
    Devices.NotFoundRecognised();
    var r := MigrateBoundDevice(reg, gatewayId, d, updatePublicKeys, NoFaults).value;
    var before := if d.id in reg.devices then reg else reg.(devices := reg.devices[d.id := Utils.CbDeviceOf(d, updatePublicKeys)]);
    assert BoundList(before, gatewayId) == BoundList(reg, gatewayId);
    var l := BoundList(before, gatewayId);
    var l' := if d.id in l then l else l + [d.id];
    assert r.reg == before.(bound := before.bound[gatewayId := l']);
    assert BoundList(r.reg, gatewayId) == l';
  }

  // ---------------------------------------------------------------- one gateway

  /** The steps for the listed devices, in listing order; a panic ends them. */
  function MigrateListed(reg: Registry, gatewayId: string, devs: seq<Device>, updatePublicKeys: bool, f: Faults)
    : Result<BoundStep, string>
  {
    if |devs| == 0 then Success(BoundStep(reg, [], []))
    else
      match MigrateListed(reg, gatewayId, devs[..|devs| - 1], updatePublicKeys, f)
      case Failure(e) => Failure(e)
      case Success(before) =>
        match MigrateBoundDevice(before.reg, gatewayId, devs[|devs| - 1], updatePublicKeys, f)
        case Failure(e) => Failure(e)
        case Success(step) => Success(BoundStep(step.reg, before.logs + step.logs, before.calls + step.calls))
  }

  const IteratorContext := "Bound Devices Iterator"

  /** One gateway's reconciliation once the destination's listing `listed` is in hand: unbind the
      listed devices, then the source-listed devices' steps (or their panic), then the iterator's
      error, if any, logged without a device id. */
  function ReconcileListed(reg: Registry, gatewayId: string, listed: seq<string>, listing: SourceListing,
                           updatePublicKeys: bool, f: Faults): Result<BoundStep, string>
  {
    var cleared := UnbindAll(reg, gatewayId, listed, f);
    match MigrateListed(cleared, gatewayId, listing.devices, updatePublicKeys, f)
    case Failure(e) => Failure(e)
    case Success(steps) =>
      var iteratorLogs := if listing.error.Some? then [ErrorLog(IteratorContext, listing.error, "")] else [];
      Success(BoundStep(steps.reg, steps.logs + iteratorLogs,
                        [ListBoundCall(gatewayId)] + UnbindCalls(gatewayId, listed) + steps.calls))
  }

  /** One gateway's reconciliation, with the destination's bound devices read over every page
      of the listing; a listing failure is fatal. */
  function Reconcile(reg: Registry, gatewayId: string, listing: SourceListing, updatePublicKeys: bool, f: Faults)
    : Result<BoundStep, string>
  {
    match ListBound(reg, gatewayId, f)
    case Failure(e) => Failure(e)
    case Success(listed) => ReconcileListed(reg, gatewayId, listed, listing, updatePublicKeys, f)
  }

  /** The reconciliation as written: the destination's bound devices come from one List call
      that reads only the first page, so only those are unbound. */
  function ReconcileAsWritten(reg: Registry, gatewayId: string, listing: SourceListing, updatePublicKeys: bool, f: Faults)
    : Result<BoundStep, string>
  {
    match ListBoundFirstPage(reg, gatewayId, f)
    case Failure(e) => Failure(e)
    case Success(listed) => ReconcileListed(reg, gatewayId, listed, listing, updatePublicKeys, f)
  }

  /** The loop over the devices the source's iterator yields for one gateway: each device's step,
      in order, until one panics. */
  method MigrateListedDevices(reg: Registry, gatewayId: string, devs: seq<Device>, updatePublicKeys: bool, f: Faults)
    returns (r: Result<BoundStep, string>)
    ensures r == MigrateListed(reg, gatewayId, devs, updatePublicKeys, f)
  {
    var logs: seq<ErrorLog> := [];
    var current := reg;
    var calls: seq<Call> := [];
    var i := 0;
    while i < |devs|
      invariant 0 <= i <= |devs|
      invariant MigrateListed(reg, gatewayId, devs[..i], updatePublicKeys, f) == Success(BoundStep(current, logs, calls))
    {
      var step := MigrateBoundDevice(current, gatewayId, devs[i], updatePublicKeys, f);
      MigrateListedSnoc(reg, gatewayId, devs, updatePublicKeys, f, i, BoundStep(current, logs, calls));
      if step.Failure? {
        MigrateListedFailurePersists(reg, gatewayId, devs, updatePublicKeys, f, i + 1);
        return Failure(step.error);
      }
      current := step.value.reg;
      logs := logs + step.value.logs;
      calls := calls + step.value.calls;
      i := i + 1;
    }
    assert devs[..i] == devs;
    return Success(BoundStep(current, logs, calls));
  }

  /** One more listed device: its step runs on the registry the steps before it left, and a panic
      in it ends the steps. */
  lemma MigrateListedSnoc(reg: Registry, gatewayId: string, devs: seq<Device>, updatePublicKeys: bool, f: Faults,
                          i: nat, before: BoundStep)
    requires i < |devs| && MigrateListed(reg, gatewayId, devs[..i], updatePublicKeys, f) == Success(before)
    ensures var step := MigrateBoundDevice(before.reg, gatewayId, devs[i], updatePublicKeys, f);
      step.Failure? ==> MigrateListed(reg, gatewayId, devs[..i + 1], updatePublicKeys, f) == Failure(step.error)
    ensures var step := MigrateBoundDevice(before.reg, gatewayId, devs[i], updatePublicKeys, f);
      step.Success? ==>
        MigrateListed(reg, gatewayId, devs[..i + 1], updatePublicKeys, f) ==
        Success(BoundStep(step.value.reg, before.logs + step.value.logs, before.calls + step.value.calls))
  {
    assert devs[..i + 1][..i] == devs[..i];
    assert devs[..i + 1][i] == devs[i];
  }

  /** A panic ends the loop: the later devices are never reached. */
  lemma {:induction false} MigrateListedFailurePersists(reg: Registry, gatewayId: string, devs: seq<Device>,
                                                        updatePublicKeys: bool, f: Faults, n: nat)
    requires n <= |devs| && MigrateListed(reg, gatewayId, devs[..n], updatePublicKeys, f).Failure?
    ensures MigrateListed(reg, gatewayId, devs, updatePublicKeys, f) == MigrateListed(reg, gatewayId, devs[..n], updatePublicKeys, f)
    decreases |devs| - n
  {
    if n < |devs| {
      var init := devs[..|devs| - 1];
      assert init[..n] == devs[..n];
      MigrateListedFailurePersists(reg, gatewayId, init, updatePublicKeys, f, n);
    } else {
      assert devs[..n] == devs;
    }
  }

  /** The loop body of migrateBoundDevicesToClearBlade for one gateway. */
  method ReconcileGateway(reg: Registry, gatewayId: string, listing: SourceListing, updatePublicKeys: bool, f: Faults)
    returns (r: Result<BoundStep, string>)
    ensures r == Reconcile(reg, gatewayId, listing, updatePublicKeys, f)
  {
    var cleared, fatal, calls := UnbindFromGatewayIfAlreadyExists(reg, gatewayId, f);
    if fatal.Some? {
      return Failure(fatal.value);
    }
    var listed := ListBound(reg, gatewayId, f).value;
    assert ListBound(reg, gatewayId, f) == Success(listed);
    var steps := MigrateListedDevices(cleared, gatewayId, listing.devices, updatePublicKeys, f);
    if steps.Failure? {
      return Failure(steps.error);
    }
    var iteratorLogs := if listing.error.Some? then [ErrorLog(IteratorContext, listing.error, "")] else [];
    assert Reconcile(reg, gatewayId, listing, updatePublicKeys, f) == Success(BoundStep(steps.value.reg, steps.value.logs + iteratorLogs,
      [ListBoundCall(gatewayId)] + UnbindCalls(gatewayId, listed) + steps.value.calls));
    return Success(BoundStep(steps.value.reg, steps.value.logs + iteratorLogs, calls + steps.value.calls));
  }

  /** Every listed device that the destination lacks can be transformed, so no step panics. */
  ghost predicate MissingTransformable(reg: Registry, devs: seq<Device>)
  {
    forall d :: d in devs && d.id !in reg.devices ==> Transformable(d)
  }

  /** Without faults, and with every device the destination lacks transformable, the listed
      devices' steps do not panic, log nothing and lose no device. */
  lemma {:induction false} MigrateListedNoFaults(reg: Registry, gatewayId: string, devs: seq<Device>, updatePublicKeys: bool)
    requires gatewayId in reg.devices && MissingTransformable(reg, devs)
    ensures var r := MigrateListed(reg, gatewayId, devs, updatePublicKeys, NoFaults);
      r.Success? && r.value.logs == [] && reg.devices.Keys <= r.value.reg.devices.Keys
  {
    if |devs| > 0 {
      var p := devs[..|devs| - 1];
      var d := devs[|devs| - 1];
      assert devs == p + [d];
      assert MissingTransformable(reg, p);
      MigrateListedNoFaults(reg, gatewayId, p, updatePublicKeys);
      var before := MigrateListed(reg, gatewayId, p, updatePublicKeys, NoFaults).value;
      MigrateBoundDeviceNoFaults(before.reg, gatewayId, d, updatePublicKeys);
    }
  }

  /** Without faults, the listed devices' steps bind each listed device to the gateway, in
      addition to what it already had. */
  lemma {:induction false} MigrateListedBinds(reg: Registry, gatewayId: string, devs: seq<Device>, updatePublicKeys: bool)
    requires gatewayId in reg.devices && MissingTransformable(reg, devs)
    ensures MigrateListed(reg, gatewayId, devs, updatePublicKeys, NoFaults).Success?
    ensures BoundSet(MigrateListed(reg, gatewayId, devs, updatePublicKeys, NoFaults).value.reg, gatewayId) ==
      BoundSet(reg, gatewayId) + IdsOf(devs)
  {
    MigrateListedNoFaults(reg, gatewayId, devs, updatePublicKeys);
    if |devs| > 0 {
      var p := devs[..|devs| - 1];
      var d := devs[|devs| - 1];
      assert devs == p + [d];
      assert MissingTransformable(reg, p);
      MigrateListedBinds(reg, gatewayId, p, updatePublicKeys);
      MigrateListedBindsStep(reg, gatewayId, p, d, updatePublicKeys);
    }
  }

  lemma MigrateListedBindsStep(reg: Registry, gatewayId: string, p: seq<Device>, d: Device, updatePublicKeys: bool)
    requires gatewayId in reg.devices && MissingTransformable(reg, p + [d])
    requires MigrateListed(reg, gatewayId, p, updatePublicKeys, NoFaults).Success?
    requires BoundSet(MigrateListed(reg, gatewayId, p, updatePublicKeys, NoFaults).value.reg, gatewayId) ==
      BoundSet(reg, gatewayId) + IdsOf(p)
    ensures MigrateListed(reg, gatewayId, p + [d], updatePublicKeys, NoFaults).Success?
    ensures BoundSet(MigrateListed(reg, gatewayId, p + [d], updatePublicKeys, NoFaults).value.reg, gatewayId) ==
      BoundSet(reg, gatewayId) + IdsOf(p + [d])
  {
    assert MissingTransformable(reg, p);
    MigrateListedNoFaults(reg, gatewayId, p, updatePublicKeys);
    var before := MigrateListed(reg, gatewayId, p, updatePublicKeys, NoFaults).value;
    MigrateBoundDeviceNoFaults(before.reg, gatewayId, d, updatePublicKeys);
    var q := p + [d];
    assert q[..|p|] == p && q[|p|] == d;
    MigrateListedSnoc(reg, gatewayId, q, updatePublicKeys, NoFaults, |p|, before);
    assert q[..|p| + 1] == q;
    IdsOfAppend(p, d);
  }

  /** Without faults, the listed devices' steps leave every other gateway's bindings alone. */
  lemma {:induction false} MigrateListedKeepsOthers(reg: Registry, gatewayId: string, devs: seq<Device>, updatePublicKeys: bool)
    requires gatewayId in reg.devices && MissingTransformable(reg, devs)
    ensures MigrateListed(reg, gatewayId, devs, updatePublicKeys, NoFaults).Success?
    ensures var r := MigrateListed(reg, gatewayId, devs, updatePublicKeys, NoFaults).value;
      forall h :: h != gatewayId ==> BoundList(r.reg, h) == BoundList(reg, h)
  {
    MigrateListedNoFaults(reg, gatewayId, devs, updatePublicKeys);
    if |devs| > 0 {
      var p := devs[..|devs| - 1];
      var d := devs[|devs| - 1];
      assert devs == p + [d];
      assert MissingTransformable(reg, p);
      MigrateListedKeepsOthers(reg, gatewayId, p, updatePublicKeys);
      MigrateListedNoFaults(reg, gatewayId, p, updatePublicKeys);
      var before := MigrateListed(reg, gatewayId, p, updatePublicKeys, NoFaults).value;
      MigrateBoundDeviceNoFaults(before.reg, gatewayId, d, updatePublicKeys);
    }
  }

  /** Without faults, a gateway present in the destination, a source listing that ends without
      error and every listed device the destination lacks transformable, reconciling from the
      destination listing `listed` logs nothing and leaves the gateway bound to the devices the
      source binds to it plus the bound devices `listed` did not name; other gateways' bindings
      are untouched. */
  lemma ReconcileListedEffect(reg: Registry, gatewayId: string, listed: seq<string>, listing: SourceListing,
                              updatePublicKeys: bool)
    requires gatewayId in reg.devices && listing.error.None? && MissingTransformable(reg, listing.devices)
    ensures ReconcileListed(reg, gatewayId, listed, listing, updatePublicKeys, NoFaults).Success?
    ensures var r := ReconcileListed(reg, gatewayId, listed, listing, updatePublicKeys, NoFaults).value;
      && r.logs == []
      && reg.devices.Keys <= r.reg.devices.Keys
      && BoundSet(r.reg, gatewayId) == IdsOf(listing.devices) + (BoundSet(reg, gatewayId) - set x | x in listed)
      && (forall h :: h != gatewayId ==> BoundList(r.reg, h) == BoundList(reg, h))
  {
    var cleared := UnbindAll(reg, gatewayId, listed, NoFaults);
    UnbindAllKeepsOthers(reg, gatewayId, listed, NoFaults);
    UnbindAllEffect(reg, gatewayId, listed, NoFaults);
    var l := BoundList(reg, gatewayId);
    forall x
      ensures x in BoundSet(cleared, gatewayId) <==> x in BoundSet(reg, gatewayId) - set y | y in listed
    {
      Seqs.WithoutMembership(l, (set z | z in listed), x);
    }
    assert MissingTransformable(cleared, listing.devices);
    MigrateListedNoFaults(cleared, gatewayId, listing.devices, updatePublicKeys);
    MigrateListedBinds(cleared, gatewayId, listing.devices, updatePublicKeys);
    MigrateListedKeepsOthers(cleared, gatewayId, listing.devices, updatePublicKeys);
  }

  /** Convergence: with no faults, a gateway present in the destination, a listing that ends
      without error and every listed device the destination lacks transformable, reconciliation
      logs nothing and leaves the gateway bound to exactly the devices the source binds to it;
      other gateways' bindings are untouched. */
  lemma ReconcileConverges(reg: Registry, gatewayId: string, listing: SourceListing, updatePublicKeys: bool)
    requires gatewayId in reg.devices && listing.error.None? && MissingTransformable(reg, listing.devices)
    ensures Reconcile(reg, gatewayId, listing, updatePublicKeys, NoFaults).Success?
    ensures var r := Reconcile(reg, gatewayId, listing, updatePublicKeys, NoFaults).value;
      && r.logs == []
      && reg.devices.Keys <= r.reg.devices.Keys
      && BoundSet(r.reg, gatewayId) == IdsOf(listing.devices)
      && (forall h :: h != gatewayId ==> BoundList(r.reg, h) == BoundList(reg, h))
  {
    var listed := BoundList(reg, gatewayId);
    ReconcileListedEffect(reg, gatewayId, listed, listing, updatePublicKeys);
    assert BoundSet(reg, gatewayId) - (set x | x in listed) == {};
  }

  /** As written, reconciliation leaves the gateway bound to the devices the source binds to it
      plus every device the destination bound to it beyond the first page of the listing; it
      converges when the first page holds every binding. */
  lemma AsWrittenLeavesLaterPages(reg: Registry, gatewayId: string, listing: SourceListing, updatePublicKeys: bool)
    requires gatewayId in reg.devices && listing.error.None? && MissingTransformable(reg, listing.devices)
    ensures ReconcileAsWritten(reg, gatewayId, listing, updatePublicKeys, NoFaults).Success?
    ensures var r := ReconcileAsWritten(reg, gatewayId, listing, updatePublicKeys, NoFaults).value;
      var page := FirstPage(BoundList(reg, gatewayId), reg.pageSize);
      BoundSet(r.reg, gatewayId) == IdsOf(listing.devices) + (BoundSet(reg, gatewayId) - set x | x in page)
    ensures |BoundList(reg, gatewayId)| <= reg.pageSize ==>
      BoundSet(ReconcileAsWritten(reg, gatewayId, listing, updatePublicKeys, NoFaults).value.reg, gatewayId) == IdsOf(listing.devices)
  {
    var page := FirstPage(BoundList(reg, gatewayId), reg.pageSize);
    ReconcileListedEffect(reg, gatewayId, page, listing, updatePublicKeys);
    if |BoundList(reg, gatewayId)| <= reg.pageSize {
      assert BoundSet(reg, gatewayId) - (set x | x in page) == {};
    }
  }

  /** A gateway with one binding more than a page in the destination, whose last binding the
      source does not have: as written it stays bound, while reading every page unbinds it. */
  lemma AsWrittenKeepsExtraBinding(reg: Registry, gatewayId: string, listing: SourceListing, updatePublicKeys: bool)
    requires gatewayId in reg.devices && listing.error.None? && MissingTransformable(reg, listing.devices)
    requires |BoundList(reg, gatewayId)| == reg.pageSize + 1
    requires BoundList(reg, gatewayId)[reg.pageSize] !in BoundList(reg, gatewayId)[..reg.pageSize]
    requires BoundList(reg, gatewayId)[reg.pageSize] !in IdsOf(listing.devices)
    ensures ReconcileAsWritten(reg, gatewayId, listing, updatePublicKeys, NoFaults).Success?
    ensures BoundList(reg, gatewayId)[reg.pageSize] in
      BoundSet(ReconcileAsWritten(reg, gatewayId, listing, updatePublicKeys, NoFaults).value.reg, gatewayId)
    ensures Reconcile(reg, gatewayId, listing, updatePublicKeys, NoFaults).Success?
    ensures BoundList(reg, gatewayId)[reg.pageSize] !in
      BoundSet(Reconcile(reg, gatewayId, listing, updatePublicKeys, NoFaults).value.reg, gatewayId)
  {
    AsWrittenLeavesLaterPages(reg, gatewayId, listing, updatePublicKeys);
    ReconcileConverges(reg, gatewayId, listing, updatePublicKeys);
  }

  // ---------------------------------------------------------------- migrateBoundDevicesToClearBlade

  /** The source's listing for a gateway; a gateway with no entry lists nothing. */
  function ListingOf(listings: map<string, SourceListing>, gatewayId: string): SourceListing
  {
    if gatewayId in listings then listings[gatewayId] else SourceListing([], None)
  }

  /** The gateways' reconciliations in order; a fatal listing failure or a panic ends the run. */
  function ReconcileAll(reg: Registry, gateways: seq<Device>, listings: map<string, SourceListing>,
                        updatePublicKeys: bool, f: Faults): Result<BoundStep, string>
  {
    if |gateways| == 0 then Success(BoundStep(reg, [], []))
    else
      match ReconcileAll(reg, gateways[..|gateways| - 1], listings, updatePublicKeys, f)
      case Failure(e) => Failure(e)
      case Success(before) =>
        var g := gateways[|gateways| - 1].id;
        match Reconcile(before.reg, g, ListingOf(listings, g), updatePublicKeys, f)
        case Failure(e) => Failure(e)
        case Success(step) => Success(BoundStep(step.reg, before.logs + step.logs, before.calls + step.calls))
  }

  /** migrateBoundDevicesToClearBlade. The entries it logs go to its own copy of the caller's log
      (`localLogs`); the caller's list does not receive them. `fatal` is the listing failure or
      panic that ends the process. */
  method MigrateBoundDevicesToClearBlade(reg: Registry, devices: seq<Device>, listings: map<string, SourceListing>,
                                         updatePublicKeys: bool, f: Faults, errorLogs: seq<ErrorLog>)
    returns (reg': Registry, fatal: Option<string>, localLogs: seq<ErrorLog>, calls: seq<Call>)
    ensures GatewaysIn(devices) == [] ==> reg' == reg && fatal.None? && localLogs == errorLogs && calls == []
    ensures ReconcileAll(reg, GatewaysIn(devices), listings, updatePublicKeys, f).Failure? <==> fatal.Some?
    ensures ReconcileAll(reg, GatewaysIn(devices), listings, updatePublicKeys, f).Success? ==>
      var r := ReconcileAll(reg, GatewaysIn(devices), listings, updatePublicKeys, f).value;
      reg' == r.reg && localLogs == errorLogs + r.logs && calls == r.calls
  {
    var gateways := CollectGateways(devices);
    localLogs := errorLogs;
    reg', fatal, calls := reg, None, [];
    if |gateways| == 0 {
      return;
    }
    var appended: seq<ErrorLog> := [];
    var i := 0;
    assert gateways[..0] == [];
    while i < |gateways|
      invariant 0 <= i <= |gateways|
      invariant ReconcileAll(reg, gateways[..i], listings, updatePublicKeys, f) == Success(BoundStep(reg', appended, calls))
    {
      var g := gateways[i].id;
      var r := ReconcileGateway(reg', g, ListingOf(listings, g), updatePublicKeys, f);
      ReconcileAllSnoc(reg, gateways, listings, updatePublicKeys, f, i);
      if r.Failure? {
        FailurePersists(reg, gateways, listings, updatePublicKeys, f, i + 1);
        return reg', Some(r.error), errorLogs + appended, calls;
      }
      reg' := r.value.reg;
      appended := appended + r.value.logs;
      calls := calls + r.value.calls;
      i := i + 1;
    }
    assert gateways[..i] == gateways;
    localLogs := errorLogs + appended;
  }

  /** One more gateway: its reconciliation follows those of the gateways before it. */
  lemma ReconcileAllSnoc(reg: Registry, gateways: seq<Device>, listings: map<string, SourceListing>,
                         updatePublicKeys: bool, f: Faults, i: nat)
    requires i < |gateways|
    ensures var g := gateways[i].id;
      ReconcileAll(reg, gateways[..i + 1], listings, updatePublicKeys, f) ==
        match ReconcileAll(reg, gateways[..i], listings, updatePublicKeys, f)
        case Failure(e) => Failure(e)
        case Success(before) =>
          match Reconcile(before.reg, g, ListingOf(listings, g), updatePublicKeys, f)
          case Failure(e) => Failure(e)
          case Success(step) => Success(BoundStep(step.reg, before.logs + step.logs, before.calls + step.calls))
  {
    assert gateways[..i + 1][..i] == gateways[..i];
  }

  lemma {:induction false} FailurePersists(reg: Registry, gateways: seq<Device>, listings: map<string, SourceListing>,
                                           updatePublicKeys: bool, f: Faults, n: nat)
    requires n <= |gateways|
    requires ReconcileAll(reg, gateways[..n], listings, updatePublicKeys, f).Failure?
    ensures ReconcileAll(reg, gateways, listings, updatePublicKeys, f).Failure?
    decreases |gateways| - n
  {
    if n < |gateways| {
      assert gateways[..n + 1][..n] == gateways[..n];
      FailurePersists(reg, gateways, listings, updatePublicKeys, f, n + 1);
    } else {
      assert gateways[..n] == gateways;
    }
  }

  /** Convergence of the whole run: with no faults, every gateway present in the destination,
      every listing ending without error and every listed device the destination lacks at the
      start transformable, no entry is logged and each gateway ends up bound to exactly the
      devices the source binds to it. */
  lemma {:induction false} ReconcileAllConverges(reg: Registry, gateways: seq<Device>, listings: map<string, SourceListing>,
                                                 updatePublicKeys: bool)
    requires forall g :: g in gateways ==>
      g.id in reg.devices && ListingOf(listings, g.id).error.None? && MissingTransformable(reg, ListingOf(listings, g.id).devices)
    ensures ReconcileAll(reg, gateways, listings, updatePublicKeys, NoFaults).Success?
    ensures var r := ReconcileAll(reg, gateways, listings, updatePublicKeys, NoFaults).value;
      && r.logs == []
      && reg.devices.Keys <= r.reg.devices.Keys
      && forall g :: g in gateways ==> BoundSet(r.reg, g.id) == IdsOf(ListingOf(listings, g.id).devices)
  {
    if |gateways| > 0 {
      var p := gateways[..|gateways| - 1];
      var g := gateways[|gateways| - 1];
      assert gateways == p + [g];
      ReconcileAllConverges(reg, p, listings, updatePublicKeys);
      var before := ReconcileAll(reg, p, listings, updatePublicKeys, NoFaults).value;
      assert MissingTransformable(before.reg, ListingOf(listings, g.id).devices);
      ReconcileConverges(before.reg, g.id, ListingOf(listings, g.id), updatePublicKeys);
      var r := Reconcile(before.reg, g.id, ListingOf(listings, g.id), updatePublicKeys, NoFaults).value;
      forall h | h in gateways
        ensures BoundSet(r.reg, h.id) == IdsOf(ListingOf(listings, h.id).devices)
      {
        if h.id != g.id {
          assert h in p;
          assert BoundList(r.reg, h.id) == BoundList(before.reg, h.id);
        }
      }
    }
  }
}
