/** The destination registry as the migration sees it through its client: a set of devices keyed
    by id and, per gateway, the ordered list of devices bound to it. Every remote call is a
    function of this state and of a `Faults` record that says which calls fail and with what
    error; a call that is not listed in `Faults` behaves as the registry's own rules say. */
module Registry {
  import opened Wrappers
  import opened Iot

  datatype Binding = Binding(gatewayId: string, deviceId: string)

  /** A client error: its text, and the HTTP status of the response that came with it, when the
      client returned a non-nil response alongside the error. */
  datatype CallError = CallError(message: string, status: Option<int>)

  /** The calls that fail, keyed by their arguments, with the error each returns; `bindStatus`
      gives the HTTP status of a bind that succeeds (200 when not listed). */
  datatype Faults = Faults(
    create: map<string, CallError>,
    patch: map<string, string>,
    modifyConfig: map<string, string>,
    get: map<string, string>,
    listBound: map<string, string>,
    unbind: map<Binding, string>,
    bind: map<Binding, string>,
    bindStatus: map<Binding, int>)

  const NoFaults := Faults(map[], map[], map[], map[], map[], map[], map[], map[])

  /** `pageSize` is how many devices one List call returns when the caller sets no page size. */
  datatype Registry = Registry(devices: map<string, CbDevice>, bound: map<string, seq<string>>, pageSize: nat)

  /** The calls the migration makes, in the order it makes them. */
  datatype Call =
    | CreateCall(id: string)
    | PatchCall(id: string, mask: string)
    | ModifyConfigCall(id: string)
    | GetCall(id: string)
    | ListBoundCall(gatewayId: string)
    | UnbindCall(binding: Binding)
    | BindCall(binding: Binding)

  /** The texts the registry's client gives for a missing and for an already existing device. */
  const NotFoundMessage := "googleapi: Error 404: Device not found"
  const ConflictMessage := "googleapi: Error 409: Device already exists"

  function BoundList(reg: Registry, gatewayId: string): seq<string>
  {
    if gatewayId in reg.bound then reg.bound[gatewayId] else []
  }

  ghost function BoundSet(reg: Registry, gatewayId: string): set<string>
  {
    set d | d in BoundList(reg, gatewayId)
  }

  /** Create: an existing id is a conflict (with no response object, as the client returns). */
  function Create(reg: Registry, dev: CbDevice, f: Faults): (Registry, Option<CallError>)
  {
    if dev.id in f.create then (reg, Some(f.create[dev.id]))
    else if dev.id in reg.devices then (reg, Some(CallError(ConflictMessage, None)))
    else (reg.(devices := reg.devices[dev.id := dev]), None)
  }

  /** The fields a patch overwrites, named as in an update mask. */
  function ApplyMask(current: CbDevice, from: CbDevice, mask: seq<string>): CbDevice
  {
    current.(
      credentials := if "credentials" in mask then from.credentials else current.credentials,
      blocked := if "blocked" in mask then from.blocked else current.blocked,
      metadata := if "metadata" in mask then from.metadata else current.metadata,
      logLevel := if "logLevel" in mask then from.logLevel else current.logLevel,
      gatewayConfig := if "gatewayConfig.gatewayAuthMethod" in mask
        then current.gatewayConfig.(gatewayAuthMethod := from.gatewayConfig.gatewayAuthMethod)
        else current.gatewayConfig)
  }

  function Patch(reg: Registry, id: string, from: CbDevice, mask: seq<string>, f: Faults): (Registry, Option<string>)
  {
    if id in f.patch then (reg, Some(f.patch[id]))
    else if id !in reg.devices then (reg, Some(NotFoundMessage))
    else (reg.(devices := reg.devices[id := ApplyMask(reg.devices[id], from, mask)]), None)
  }

  /** ModifyCloudToDeviceConfig: replaces the device's configuration payload. The service also
      records a new config version for each push; versions are not part of this model. */
  function ModifyConfig(reg: Registry, id: string, data: seq<bv8>, f: Faults): (Registry, Option<string>)
  {
    if id in f.modifyConfig then (reg, Some(f.modifyConfig[id]))
    else if id !in reg.devices then (reg, Some(NotFoundMessage))
    else
      var dev := reg.devices[id];
      (reg.(devices := reg.devices[id := dev.(config := dev.config.(binaryData := data))]), None)
  }

  /** Get: the error, if any; on success the device returned is the one stored under `id`. */
  function Get(reg: Registry, id: string, f: Faults): Option<string>
  {
    if id in f.get then Some(f.get[id])
    else if id !in reg.devices then Some(NotFoundMessage)
    else None
  }

  /** The ids of the devices bound to a gateway, in the registry's order, over every page of the
      listing (what a caller that follows the next-page tokens collects). */
  function ListBound(reg: Registry, gatewayId: string, f: Faults): Result<seq<string>, string>
  {
    if gatewayId in f.listBound then Failure(f.listBound[gatewayId]) else Success(BoundList(reg, gatewayId))
  }

  /** The first `n` entries of a listing, or all of them when there are fewer. */
  function FirstPage(ids: seq<string>, n: nat): (page: seq<string>)
    ensures |page| == if |ids| <= n then |ids| else n
    ensures page <= ids
  {
    if |ids| <= n then ids else ids[..n]
  }

  /** A single List call for a gateway's bound devices that sets no page size and does not follow
      the next-page token: only the first page of the ids. */
  function ListBoundFirstPage(reg: Registry, gatewayId: string, f: Faults): Result<seq<string>, string>
  {
    if gatewayId in f.listBound then Failure(f.listBound[gatewayId])
    else Success(FirstPage(BoundList(reg, gatewayId), reg.pageSize))
  }

  function Remove(ids: seq<string>, id: string): seq<string>
  {
    Seqs.Filter(ids, (x: string) => x != id)
  }

  /** Unbind: unbinding a device that is not bound succeeds and changes nothing. */
  function Unbind(reg: Registry, b: Binding, f: Faults): (Registry, Option<string>)
  {
    if b in f.unbind then (reg, Some(f.unbind[b]))
    else (reg.(bound := reg.bound[b.gatewayId := Remove(BoundList(reg, b.gatewayId), b.deviceId)]), None)
  }

  /** Bind: both devices must exist; binding twice keeps one binding. */
  function Bind(reg: Registry, b: Binding, f: Faults): (Registry, Result<int, string>)
  {
    if b in f.bind then (reg, Failure(f.bind[b]))
    else if b.deviceId !in reg.devices || b.gatewayId !in reg.devices then (reg, Failure(NotFoundMessage))
    else
      var list := BoundList(reg, b.gatewayId);
      var list' := if b.deviceId in list then list else list + [b.deviceId];
      (reg.(bound := reg.bound[b.gatewayId := list']),
       Success(if b in f.bindStatus then f.bindStatus[b] else 200))
  }
}
