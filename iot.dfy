/** The device records the migration moves: the source registry's device (the Cloud IoT
    protobuf message) and the destination registry's device (the ClearBlade REST record).
    Library renderings are kept abstract: a timestamp carries the text that RFC 3339
    formatting gives for it, and binary payloads are carried as bytes, before base64. */
module Iot {
  import opened Wrappers
  import Seqs

  /** A protobuf timestamp as Go's AsTime() sees it: its Unix second, and the RFC 3339 text that
      time.Format gives for it. A nil timestamp converts to the Unix epoch, second 0. */
  datatype Timestamp = Timestamp(unixSeconds: int, rfc3339: string)

  /** The enum names of protobuf's GatewayType, as its String() method gives them. */
  datatype GatewayType = GatewayTypeUnspecified | Gateway | NonGateway
  {
    function Name(): string
    {
      match this
      case GatewayTypeUnspecified => "GATEWAY_TYPE_UNSPECIFIED"
      case Gateway => "GATEWAY"
      case NonGateway => "NON_GATEWAY"
    }
  }

  /** Enum fields whose only use is their String() name (key format, auth method, log level)
      are carried as that name. */
  datatype PublicKeyCredential = PublicKeyCredential(format: string, key: string)

  datatype DeviceCredential = DeviceCredential(expirationTime: Timestamp, publicKey: PublicKeyCredential)

  datatype GatewayConfig = GatewayConfig(
    gatewayType: GatewayType,
    gatewayAuthMethod: string,
    lastAccessedGatewayId: string,
    lastAccessedGatewayTime: Timestamp)

  datatype DeviceConfig = DeviceConfig(
    version: int,
    cloudUpdateTime: Timestamp,
    deviceAckTime: Timestamp,
    binaryData: seq<bv8>)

  datatype DeviceState = DeviceState(updateTime: Timestamp, binaryData: seq<bv8>)

  datatype Status = Status(code: int, message: string)

  /** A device of the source registry. `lastErrorStatus`, `state`, `config` and `gatewayConfig`
      are pointers in the source and may be nil. */
  datatype Device = Device(
    id: string,
    numId: nat,
    credentials: seq<DeviceCredential>,
    lastHeartbeatTime: Timestamp,
    lastEventTime: Timestamp,
    lastStateTime: Timestamp,
    lastConfigAckTime: Timestamp,
    lastConfigSendTime: Timestamp,
    blocked: bool,
    lastErrorTime: Timestamp,
    lastErrorStatus: Option<Status>,
    config: Option<DeviceConfig>,
    state: Option<DeviceState>,
    logLevel: string,
    metadata: map<string, string>,
    gatewayConfig: Option<GatewayConfig>)

  /** A device as the destination registry stores it. Absent nested records are Go zero values. */
  datatype CbCredential = CbCredential(expirationTime: string, publicKey: PublicKeyCredential)

  datatype CbConfig = CbConfig(
    version: string,
    cloudUpdateTime: string,
    deviceAckTime: string,
    binaryData: seq<bv8>)

  datatype CbGatewayConfig = CbGatewayConfig(
    gatewayType: string,
    gatewayAuthMethod: string,
    lastAccessedGatewayId: string,
    lastAccessedGatewayTime: string)

  datatype CbState = CbState(updateTime: string, binaryData: seq<bv8>)

  datatype CbStatus = CbStatus(code: int, message: string)

  datatype CbDevice = CbDevice(
    id: string,
    name: string,
    numId: string,
    blocked: bool,
    config: CbConfig,
    gatewayConfig: CbGatewayConfig,
    credentials: seq<CbCredential>,
    lastConfigAckTime: string,
    lastConfigSendTime: string,
    lastErrorTime: string,
    lastEventTime: string,
    lastHeartbeatTime: string,
    lastStateTime: string,
    logLevel: string,
    metadata: map<string, string>,
    state: CbState,
    lastErrorStatus: CbStatus)

  /** transform dereferences Config and GatewayConfig without a nil check: it panics unless
      both are present. */
  predicate Transformable(d: Device)
  {
    d.config.Some? && d.gatewayConfig.Some?
  }

  /** A device is a gateway when it has a gateway config of type GATEWAY. */
  predicate IsGateway(d: Device)
  {
    d.gatewayConfig.Some? && d.gatewayConfig.value.gatewayType == Gateway
  }

  /** What a ListDevices iterator of the source yields: the devices, then either the end (None)
      or the error it stops with. */
  datatype SourceListing = SourceListing(devices: seq<Device>, error: Option<string>)

  ghost function IdsOf(devices: seq<Device>): set<string>
  {
    set d | d in devices :: d.id
  }

  /** One more device adds exactly its id. */
  lemma IdsOfAppend(devs: seq<Device>, d: Device)
    ensures IdsOf(devs + [d]) == IdsOf(devs) + {d.id}
  {
    forall id | id in IdsOf(devs + [d]) ensures id in IdsOf(devs) + {d.id} {
      var c :| c in devs + [d] && c.id == id;
      if c != d {
        assert c in devs;
      }
    }
    assert d in devs + [d];
    forall id | id in IdsOf(devs) ensures id in IdsOf(devs + [d]) {
      var c :| c in devs && c.id == id;
      assert c in devs + [d];
    }
  }

  /** The gateways among `devices`, in order. */
  function GatewaysIn(devices: seq<Device>): seq<Device>
  {
    Seqs.Filter(devices, IsGateway)
  }
}
