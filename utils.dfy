/** The string, path and record helpers of utils.go. */
module Utils {
  import opened Wrappers
  import opened Strings
  import opened Iot

  // ---------------------------------------------------------------- readInput

  /** What readInput keeps of the line it read: one trailing "\n" removed, then one trailing
      "\r" (so a Windows "\r\n" ending goes entirely). */
  function TrimLine(input: string): string
  {
    TrimSuffix(TrimSuffix(input, "\n"), "\r")
  }

  /** readInput, with the line read from standard input (or the read error) as a parameter. */
  function ReadInput(read: Result<string, string>): (r: Result<string, string>)
    ensures read.Failure? ==> r == read
    ensures read.Success? ==> r.Success? && r.value == TrimLine(read.value)
  {
    match read
    case Failure(e) => Failure(e)
    case Success(line) => Success(TrimLine(line))
  }

  /** Both line endings are removed, and text without them is left alone. */
  lemma TrimLineEndings(x: string)
    ensures TrimLine(x + "\r\n") == x
    ensures !HasSuffix(x, "\r") ==> TrimLine(x + "\n") == x
    ensures !HasSuffix(x, "\r") && !HasSuffix(x, "\n") ==> TrimLine(x) == x
  {
    assert HasSuffix(x + "\r\n", "\n");
    assert (x + "\r\n")[..|x + "\r\n"| - 1] == x + "\r";
    assert HasSuffix(x + "\r", "\r");
    assert (x + "\r")[..|x| ] == x;
    assert HasSuffix(x + "\n", "\n");
    assert (x + "\n")[..|x|] == x;
  }

  /** Only one of each ending goes: a doubled "\r" keeps one. */
  lemma TrimLineRemovesOnlyOne(x: string)
    ensures TrimLine(x + "\r\r\n") == x + "\r"
  {
    assert HasSuffix(x + "\r\r\n", "\n");
    assert (x + "\r\r\n")[..|x| + 2] == x + "\r\r";
    assert HasSuffix(x + "\r\r", "\r");
    assert (x + "\r\r")[..|x| + 1] == x + "\r";
  }

  // ---------------------------------------------------------------- getAbsPath

  const CannotExpandError := "cannot expand user-specific home dir"

  /** getAbsPath. The current user's home directory and filepath.Join are library calls, so
      they are parameters. */
  function GetAbsPath(path: string, homeDir: string, join: (string, string) -> string): (r: Result<string, string>)
    ensures path == "" ==> r == Success("")
    ensures path != "" && path[0] != '~' ==> r == Success(TrimSuffix(path, "\r"))
    ensures path != "" && path[0] == '~' && |path| > 1 && path[1] != '/' && path[1] != '\\' ==>
      r == Failure(CannotExpandError)
    ensures path != "" && path[0] == '~' && (|path| == 1 || path[1] == '/' || path[1] == '\\') ==>
      r == Success(join(homeDir, path[1..]))
  {
    if |path| == 0 then Success(path)
    else if path[0] != '~' then Success(TrimSuffix(path, "\r"))
    else if |path| > 1 && path[1] != '/' && path[1] != '\\' then Failure(CannotExpandError)
    else Success(join(homeDir, path[1..]))
  }

  // ---------------------------------------------------------------- regions and URIs

  /** The regions the destination service runs in. */
  const Regions: map<string, string> := map[
    "us-central1" := "us-central1",
    "asia-east1" := "asia-east1",
    "europe-west1" := "europe-west1"]

  function IsValidRegion(region: string): (ok: bool)
    ensures ok <==> region == "us-central1" || region == "asia-east1" || region == "europe-west1"
  {
    region in Regions
  }

  const SandboxUri := "https://iot-sandbox.clearblade.com"
  const UriPrefix := "https://"
  const UriSuffix := ".clearblade.com"

  /** getURI. The sandbox flag is a parameter. An unsupported region ends the process
      (log.Fatalln); the model returns that as a Failure. */
  function GetUri(region: string, sandbox: bool): (r: Result<string, string>)
    ensures sandbox ==> r == Success(SandboxUri)
    ensures !sandbox ==> (r.Success? <==> IsValidRegion(region))
    ensures !sandbox && r.Success? ==> r.value == UriPrefix + region + UriSuffix
  {
    if sandbox then Success(SandboxUri)
    else if !IsValidRegion(region) then Failure("Provided region '" + region + "' is not supported.")
    else Success(UriPrefix + region + UriSuffix)
  }

  /** Reads the region back out of a regional URI. */
  function RegionOfUri(uri: string): string
  {
    if HasPrefix(uri, UriPrefix) && HasSuffix(uri, UriSuffix) && |UriPrefix| + |UriSuffix| <= |uri|
    then uri[|UriPrefix|..|uri| - |UriSuffix|]
    else ""
  }

  /** Different regions get different URIs: the region is recovered from its URI. */
  lemma GetUriRoundTrip(region: string)
    requires IsValidRegion(region)
    ensures GetUri(region, false).Success?
    ensures RegionOfUri(GetUri(region, false).value) == region
  {
    var uri := UriPrefix + region + UriSuffix;
    assert uri[..|UriPrefix|] == UriPrefix;
    assert uri[|uri| - |UriSuffix|..] == UriSuffix;
    assert uri[|UriPrefix|..|uri| - |UriSuffix|] == region;
  }

  // ---------------------------------------------------------------- getTimeString

  /** getTimeString: the empty string for the Unix epoch (which is also what a nil protobuf
      timestamp converts to), the RFC 3339 text otherwise. */
  function GetTimeString(t: Timestamp): (r: string)
    ensures t.unixSeconds == 0 ==> r == ""
    ensures t.unixSeconds != 0 ==> r == t.rfc3339
  {
    if t.unixSeconds == 0 then "" else t.rfc3339
  }

  /** As RFC 3339 text is never empty, the empty string means exactly "no time". */
  lemma GetTimeStringEmpty(t: Timestamp)
    requires t.rfc3339 != ""
    ensures GetTimeString(t) == "" <==> t.unixSeconds == 0
  {
  }

  // ---------------------------------------------------------------- transform

  function CredentialOf(c: DeviceCredential): CbCredential
  {
    CbCredential(GetTimeString(c.expirationTime), c.publicKey)
  }

  function CredentialsOf(creds: seq<DeviceCredential>): seq<CbCredential>
  {
    if |creds| == 0 then [] else CredentialsOf(creds[..|creds| - 1]) + [CredentialOf(creds[|creds| - 1])]
  }

  /** The destination record transform builds for a source device (the fields that transform
      assigns unconditionally, then the two that it assigns only when present). */
  function CbDeviceOf(d: Device, updatePublicKeys: bool): (r: CbDevice)
    requires Transformable(d)
    ensures r.id == d.id && r.name == d.id
  {
    var gc := d.gatewayConfig.value;
    CbDevice(
      id := d.id,
      name := d.id,
      numId := NatToString(d.numId),
      blocked := d.blocked,
      config := CbConfig(IntToString(d.config.value.version), GetTimeString(d.config.value.cloudUpdateTime),
                         GetTimeString(d.config.value.deviceAckTime), d.config.value.binaryData),
      gatewayConfig := CbGatewayConfig(gc.gatewayType.Name(), gc.gatewayAuthMethod,
                                       gc.lastAccessedGatewayId, GetTimeString(gc.lastAccessedGatewayTime)),
      credentials := if updatePublicKeys then CredentialsOf(d.credentials) else [],
      lastConfigAckTime := GetTimeString(d.lastConfigAckTime),
      lastConfigSendTime := GetTimeString(d.lastConfigSendTime),
      lastErrorTime := GetTimeString(d.lastErrorTime),
      lastEventTime := GetTimeString(d.lastEventTime),
      lastHeartbeatTime := GetTimeString(d.lastHeartbeatTime),
      lastStateTime := GetTimeString(d.lastStateTime),
      logLevel := d.logLevel,
      metadata := d.metadata,
      state := match d.state
               case None => CbState("", [])
               case Some(st) => CbState(GetTimeString(st.updateTime), st.binaryData),
      lastErrorStatus := match d.lastErrorStatus
                         case None => CbStatus(0, "")
                         case Some(es) => CbStatus(es.code, es.message))
  }

  lemma {:induction false} CredentialsOfShape(creds: seq<DeviceCredential>)
    ensures |CredentialsOf(creds)| == |creds|
    ensures forall i :: 0 <= i < |creds| ==> CredentialsOf(creds)[i] == CredentialOf(creds[i])
  {
    if |creds| > 0 {
      CredentialsOfShape(creds[..|creds| - 1]);
    }
  }

  /** The destination record is named by the source id; credentials are carried over only when
      public keys are updated, then one per source credential, in order, keeping its key. */
  lemma {:induction false} TransformRules(d: Device, updatePublicKeys: bool)
    requires Transformable(d)
    ensures var r := CbDeviceOf(d, updatePublicKeys);
      && r.id == d.id && r.name == d.id
      && (!updatePublicKeys ==> r.credentials == [])
      && (updatePublicKeys ==> |r.credentials| == |d.credentials|)
      && (updatePublicKeys ==> forall i :: 0 <= i < |d.credentials| ==>
            r.credentials[i].publicKey == d.credentials[i].publicKey &&
            r.credentials[i].expirationTime == GetTimeString(d.credentials[i].expirationTime))
      && (d.state.None? ==> r.state == CbState("", []))
      && (d.lastErrorStatus.None? ==> r.lastErrorStatus == CbStatus(0, ""))
  {
    CredentialsOfShape(d.credentials);
  }

  /** transform, as the loop that builds the credential list and then the record. */
  method Transform(d: Device, updatePublicKeys: bool) returns (r: CbDevice)
    requires Transformable(d)
    ensures r == CbDeviceOf(d, updatePublicKeys)
    ensures r.id == d.id && r.name == d.id
  {
    var parsedCreds: seq<CbCredential> := [];
    if updatePublicKeys {
      var i := 0;
      while i < |d.credentials|
        invariant 0 <= i <= |d.credentials|
        invariant parsedCreds == CredentialsOf(d.credentials[..i])
      {
        var c := d.credentials[i];
        assert d.credentials[..i + 1][..i] == d.credentials[..i];
        parsedCreds := parsedCreds + [CbCredential(GetTimeString(c.expirationTime), c.publicKey)];
        i := i + 1;
      }
      assert d.credentials[..i] == d.credentials;
    }
    var gc := d.gatewayConfig.value;
    r := CbDevice(
      id := d.id,
      name := d.id,
      numId := NatToString(d.numId),
      blocked := d.blocked,
      config := CbConfig(IntToString(d.config.value.version), GetTimeString(d.config.value.cloudUpdateTime),
                         GetTimeString(d.config.value.deviceAckTime), d.config.value.binaryData),
      gatewayConfig := CbGatewayConfig(gc.gatewayType.Name(), gc.gatewayAuthMethod,
                                       gc.lastAccessedGatewayId, GetTimeString(gc.lastAccessedGatewayTime)),
      credentials := parsedCreds,
      lastConfigAckTime := GetTimeString(d.lastConfigAckTime),
      lastConfigSendTime := GetTimeString(d.lastConfigSendTime),
      lastErrorTime := GetTimeString(d.lastErrorTime),
      lastEventTime := GetTimeString(d.lastEventTime),
      lastHeartbeatTime := GetTimeString(d.lastHeartbeatTime),
      lastStateTime := GetTimeString(d.lastStateTime),
      logLevel := d.logLevel,
      metadata := d.metadata,
      state := CbState("", []),
      lastErrorStatus := CbStatus(0, ""));
    if d.state.Some? {
      r := r.(state := CbState(GetTimeString(d.state.value.updateTime), d.state.value.binaryData));
    }
    if d.lastErrorStatus.Some? {
      r := r.(lastErrorStatus := CbStatus(d.lastErrorStatus.value.code, d.lastErrorStatus.value.message));
    }
  }

  /** A sequence of devices as transform renders them, in order; transform keeps each id. */
  function TransformAll(devs: seq<Device>, updatePublicKeys: bool): (cbs: seq<CbDevice>)
    requires forall d :: d in devs ==> Transformable(d)
    ensures |cbs| == |devs|
    ensures forall k :: 0 <= k < |devs| ==> cbs[k].id == devs[k].id
  {
    seq(|devs|, k requires 0 <= k < |devs| => CbDeviceOf(devs[k], updatePublicKeys))
  }

  /** Transforming one more device appends its record. */
  lemma TransformAllSnoc(devs: seq<Device>, updatePublicKeys: bool, i: nat)
    requires forall d :: d in devs ==> Transformable(d)
    requires i < |devs|
    ensures TransformAll(devs[..i + 1], updatePublicKeys) ==
      TransformAll(devs[..i], updatePublicKeys) + [CbDeviceOf(devs[i], updatePublicKeys)]
  {
    var next := TransformAll(devs[..i + 1], updatePublicKeys);
    var prev := TransformAll(devs[..i], updatePublicKeys);
    forall k | 0 <= k < i
      ensures next[k] == prev[k]
    {
      assert devs[..i + 1][k] == devs[..i][k];
    }
    assert devs[..i + 1][i] == devs[i];
    assert next == prev + [next[i]];
  }
}
