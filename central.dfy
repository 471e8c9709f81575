/**
 * The central (client) controller of bleClient: a scan for the provisioning
 * peripheral, first-match-wins selection, connection, MTU request, service
 * discovery, notification set-up and the write of the Wi-Fi credentials.
 *
 * The Android Bluetooth stack is abstract: a connection is an opaque Gatt
 * handle with the device address it was opened to and the stack's discovery
 * cache, and every call the controller makes into the stack is appended to
 * `commands`. Each platform callback is one method that runs to completion.
 */
module Central {
  import opened Wrappers
  import opened Uuids
  import opened Bytes
  import opened Protocol
  import opened Advertising

  /** A device's hardware address, compared as text. */
  type Address = string

  /** What the scan callback delivers: the advertising device. */
  datatype ScanResult = ScanResult(device: Address)

  /** A BluetoothGatt handle. */
  class Gatt {
    const device: Address
    /** The stack's discovery cache: service UUID to characteristic UUIDs. */
    var services: map<Uuid, set<Uuid>>

    constructor (device: Address)
      ensures this.device == device && services == map[]
    {
      this.device := device;
      services := map[];
    }
  }

  datatype MatchCount = OneAdvertisement | FewAdvertisements | MaxAdvertisements

  datatype ScanMode = OpportunisticScan | LowPowerScan | BalancedScan | LowLatencyScan

  datatype ScanSettings = ScanSettings(numOfMatches: MatchCount, scanMode: ScanMode)

  /** The scan settings: report one advertisement per device, low-power scanning. */
  const ScanSettingsConfig := ScanSettings(OneAdvertisement, LowPowerScan)

  /** The calls the controller makes into the Bluetooth stack. */
  datatype Command =
    | StartScan(filters: seq<ScanFilter>, settings: ScanSettings)
    | StopScan
    | ConnectGatt(device: Address, handle: Gatt)
    | Disconnect(handle: Gatt)
    | RequestMtu(handle: Gatt, mtu: nat)
    | DiscoverServices(handle: Gatt)
    | SetNotification(handle: Gatt, service: Uuid, characteristic: Uuid, enable: bool)
    | Write(handle: Gatt, service: Uuid, characteristic: Uuid, value: seq<byte>)

  /** How a callback ends: normally, or by a NullPointerException. */
  datatype Outcome = Handled | NullDereference

  /** BluetoothProfile.STATE_CONNECTED */
  const StateConnected: int := 2
  /** BluetoothGatt.GATT_SUCCESS */
  const GattSuccess: int := 0

  const RequestedMtu: nat := 512

  /** The fields of the credentials sendMsg writes, in order. */
  const CredentialFields: seq<string> :=
    ["WIFI:S:", "goke_ofice", ";T:", "WPA", ";P:", "goke!wifi", ";H:", "false", ";;"]

  /** The credentials: "WIFI:S:goke_ofice;T:WPA;P:goke!wifi;H:false;;". */
  const WifiCredentials: string :=
    var f := CredentialFields; f[0] + f[1] + f[2] + f[3] + f[4] + f[5] + f[6] + f[7] + f[8]

  /** The ASCII codes of each credential field. */
  const CredentialFieldBytes: seq<seq<byte>> := [
    [0x57, 0x49, 0x46, 0x49, 0x3A, 0x53, 0x3A], [0x67, 0x6F, 0x6B, 0x65, 0x5F, 0x6F, 0x66, 0x69, 0x63, 0x65],
    [0x3B, 0x54, 0x3A], [0x57, 0x50, 0x41], [0x3B, 0x50, 0x3A],
    [0x67, 0x6F, 0x6B, 0x65, 0x21, 0x77, 0x69, 0x66, 0x69], [0x3B, 0x48, 0x3A],
    [0x66, 0x61, 0x6C, 0x73, 0x65], [0x3B, 0x3B]]

  /** The one scan filter: the protocol service UUID and the manufacturer's name under its id. */
  function ScanFilters(): (fs: seq<ScanFilter>)
    ensures |fs| == 1
    ensures fs[0].serviceUuid == Some(ServiceUuid)
    ensures fs[0].manufacturer.Some? && fs[0].manufacturer.value.id == ManufacturerId
    ensures fs[0].manufacturer.value.data == ManufacturerBytes()
  {
    [ScanFilter(Some(ServiceUuid), Some(ManufacturerData(ManufacturerId, ManufacturerBytes())))]
  }

  /** The bytes sendMsg writes: the credentials in ASCII, field by field. */
  function WifiPayload(): seq<byte>
  {
    var b := CredentialFieldBytes; b[0] + b[1] + b[2] + b[3] + b[4] + b[5] + b[6] + b[7] + b[8]
  }

  /** Each credential field is ASCII and encodes to its listed bytes. */
  lemma CredentialFieldEncodes(i: nat)
    requires i < |CredentialFields|
    ensures IsAscii(CredentialFields[i]) && Encode(CredentialFields[i]) == CredentialFieldBytes[i]
  {
    var s, b := CredentialFields[i], CredentialFieldBytes[i];
    assert IsAscii(s);
    assert forall k :: 0 <= k < |s| ==> b[k] as int == s[k] as int;
  }

  /** Encoding nine ASCII fields one after another is encoding their concatenation. */
  lemma EncodeFields(a: string, b: string, c: string, d: string, e: string, f: string, g: string, h: string, k: string)
    requires IsAscii(a) && IsAscii(b) && IsAscii(c) && IsAscii(d) && IsAscii(e)
    requires IsAscii(f) && IsAscii(g) && IsAscii(h) && IsAscii(k)
    ensures IsAscii(a + b + c + d + e + f + g + h + k)
    ensures Encode(a + b + c + d + e + f + g + h + k)
         == Encode(a) + Encode(b) + Encode(c) + Encode(d) + Encode(e) + Encode(f) + Encode(g) + Encode(h) + Encode(k)
  {
    EncodeAppend(a, b);
    EncodeAppend(a + b, c);
    EncodeAppend(a + b + c, d);
    EncodeAppend(a + b + c + d, e);
    EncodeAppend(a + b + c + d + e, f);
    EncodeAppend(a + b + c + d + e + f, g);
    EncodeAppend(a + b + c + d + e + f + g, h);
    EncodeAppend(a + b + c + d + e + f + g + h, k);
  }

  /** The payload is the credentials' getBytes(), and decodes back to them. */
  lemma WifiPayloadEncodesCredentials()
    ensures IsAscii(WifiCredentials) && WifiPayload() == Encode(WifiCredentials)
    ensures Decode(WifiPayload()) == Some(WifiCredentials)
  {
    var f := CredentialFields;
    CredentialFieldEncodes(0);
    CredentialFieldEncodes(1);
    CredentialFieldEncodes(2);
    CredentialFieldEncodes(3);
    CredentialFieldEncodes(4);
    CredentialFieldEncodes(5);
    CredentialFieldEncodes(6);
    CredentialFieldEncodes(7);
    CredentialFieldEncodes(8);
    EncodeFields(f[0], f[1], f[2], f[3], f[4], f[5], f[6], f[7], f[8]);
    DecodeEncode(WifiCredentials);
  }

  /** connectBleDevice keeps the held handle: it reports viable and is open to this device. */
  predicate KeepsHandle(held: Gatt?, viable: bool, device: Address)
  {
    held != null && viable && held.device == device
  }

  /** What connectBleDevice issues before a real connect: a viable held handle is disconnected. */
  function Teardown(held: Gatt?, viable: bool): (cmds: seq<Command>)
    ensures cmds != [] <==> held != null && viable
    ensures cmds != [] ==> held != null && cmds == [Disconnect(held)]
  {
    if held != null && viable then [Disconnect(held)] else []
  }

  /**
   * What discovery completion issues on handle g: notification on the write
   * characteristic, when g's cache has the protocol service and that
   * service has the write characteristic; otherwise nothing.
   */
  function DiscoveryPlan(g: Gatt): (cmds: seq<Command>)
    reads g
    ensures |cmds| <= 1
    ensures cmds != [] <==> ServiceUuid in g.services && WriteUuid in g.services[ServiceUuid]
    ensures cmds != [] ==> cmds[0] == SetNotification(g, ServiceUuid, WriteUuid, true)
  {
    if ServiceUuid in g.services && WriteUuid in g.services[ServiceUuid]
    then [SetNotification(g, ServiceUuid, WriteUuid, true)]
    else []
  }

  class CentralController {
    /** scanFilters and scanSettings, fixed at construction. */
    const filters: seq<ScanFilter>
    const settings: ScanSettings
    /** The bytes of the credentials sendMsg writes, fixed at construction. */
    const payload: seq<byte>

    /** targetBluetoothGatt: the connection handle held, if any. */
    var gatt: Gatt?
    /** targetScanResult: the device selected for connection, if any. */
    var target: Option<ScanResult>
    /** The scan button reads "stop": a scan was last started. */
    var scanning: bool
    /** Meant to say a write may be sent; nothing ever sets it. */
    var canMsg: bool
    /** The calls made into the Bluetooth stack, oldest first. */
    var commands: seq<Command>

    /**
     * What sendMsg issues: exactly one write of the credentials to the write
     * characteristic of the protocol service, when a handle is held and its
     * cache has both; otherwise nothing.
     */
    function WritePlan(held: Gatt?): (cmds: seq<Command>)
      reads held
      ensures |cmds| <= 1
      ensures cmds != [] <==> held != null && ServiceUuid in held.services && WriteUuid in held.services[ServiceUuid]
      ensures cmds != [] ==> held != null && cmds[0] == Write(held, ServiceUuid, WriteUuid, payload)
    {
      if held == null then []
      else if ServiceUuid !in held.services then []
      else if WriteUuid !in held.services[ServiceUuid] then []
      else [Write(held, ServiceUuid, WriteUuid, payload)]
    }

    /** The flag canMsg is never true. */
    ghost predicate Valid()
      reads this
    {
      !canMsg
    }

    constructor ()
      ensures filters == ScanFilters() && settings == ScanSettingsConfig && payload == WifiPayload()
      ensures Valid()
      ensures gatt == null && target == None && !scanning && commands == []
    {
      filters := ScanFilters();
      settings := ScanSettingsConfig;
      payload := WifiPayload();
      gatt := null;
      target := None;
      scanning := false;
      canMsg := false;
      commands := [];
    }

    /** scanLeDeviceCommon: start scanning (given the location permission) or stop. */
    method ScanLeDeviceCommon(enable: bool, locationGranted: bool)
      requires Valid()
      modifies this
      ensures Valid() && gatt == old(gatt) && target == old(target)
      ensures enable && !locationGranted ==> scanning == old(scanning) && commands == old(commands)
      ensures enable && locationGranted ==>
        scanning && commands == old(commands) + [StartScan(filters, settings)]
      ensures !enable ==> !scanning && commands == old(commands) + [StopScan]
    {
      if enable {
        if !locationGranted {
          return;
        }
        scanning := true;
        commands := commands + [StartScan(filters, settings)];
      } else {
        scanning := false;
        commands := commands + [StopScan];
      }
    }

    /** startBleSan: the scan button, which starts or stops by its label. */
    method StartBleScan(bleFeature: bool, btEnabled: bool, locationGranted: bool)
      requires Valid()
      modifies this
      ensures Valid() && gatt == old(gatt) && target == old(target)
      ensures !(bleFeature && btEnabled) ==> scanning == old(scanning) && commands == old(commands)
      ensures bleFeature && btEnabled && !old(scanning) && locationGranted ==>
        scanning && commands == old(commands) + [StartScan(filters, settings)]
      ensures bleFeature && btEnabled && !old(scanning) && !locationGranted ==>
        !scanning && commands == old(commands)
      ensures bleFeature && btEnabled && old(scanning) ==>
        !scanning && commands == old(commands) + [StopScan]
    {
      if !bleFeature || !btEnabled {
        return;
      }
      if !scanning {
        ScanLeDeviceCommon(true, locationGranted);
      } else {
        ScanLeDeviceCommon(false, locationGranted);
      }
    }

    /**
     * connectBleDevice: keep a viable handle already open to the device;
     * otherwise disconnect a viable handle to another device and open a new
     * handle. `viable` is what the held handle's connect() reports.
     */
    method ConnectBleDevice(toConnect: Option<ScanResult>, viable: bool)
      requires Valid()
      modifies this
      ensures Valid() && target == old(target) && scanning == old(scanning)
      ensures toConnect.None? ==> gatt == old(gatt) && commands == old(commands)
      ensures toConnect.Some? && KeepsHandle(old(gatt), viable, toConnect.value.device) ==>
        gatt == old(gatt) && commands == old(commands)
      ensures toConnect.Some? && !KeepsHandle(old(gatt), viable, toConnect.value.device) ==>
        && fresh(gatt) && gatt.device == toConnect.value.device && gatt.services == map[]
        && commands == old(commands) + Teardown(old(gatt), viable) + [ConnectGatt(toConnect.value.device, gatt)]
    {
      if toConnect.None? {
        return;
      }
      var device := toConnect.value.device;
      if gatt != null {
        if viable {
          if gatt.device == device {
            return;
          } else {
            commands := commands + [Disconnect(gatt)];
          }
        }
      }
      var g := new Gatt(device);
      gatt := g;
      commands := commands + [ConnectGatt(device, g)];
    }

    /**
     * onFound: select the result only when no device is selected yet, stop
     * scanning, and connect to the selected device.
     */
    method OnFound(result: ScanResult, viable: bool)
      requires Valid()
      modifies this
      ensures Valid() && !scanning
      ensures target == if old(target).None? then Some(result) else old(target)
      ensures KeepsHandle(old(gatt), viable, target.value.device) ==>
        gatt == old(gatt) && commands == old(commands) + [StopScan]
      ensures !KeepsHandle(old(gatt), viable, target.value.device) ==>
        && fresh(gatt) && gatt.device == target.value.device && gatt.services == map[]
        && commands == old(commands) + [StopScan] + Teardown(old(gatt), viable)
                       + [ConnectGatt(target.value.device, gatt)]
    {
      canMsg := false;
      if target.None? {
        target := Some(result);
      }
      ScanLeDeviceCommon(false, false);
      ConnectBleDevice(target, viable);
    }

    /** onConnect: hold the handle, then request the MTU, then discover services. */
    method OnConnect(g: Gatt)
      requires Valid()
      modifies this
      ensures Valid() && gatt == g && target == old(target) && scanning == old(scanning)
      ensures commands == old(commands) + [RequestMtu(g, RequestedMtu), DiscoverServices(g)]
    {
      gatt := g;
      commands := commands + [RequestMtu(g, RequestedMtu), DiscoverServices(g)];
    }

    /**
     * onDisConnect: disconnect the HELD handle (not the callback's) and clear
     * both the handle and the selection. With no handle held, the dereference
     * throws before anything is cleared.
     */
    method OnDisConnect(g: Gatt) returns (outcome: Outcome)
      requires Valid()
      modifies this
      ensures Valid() && gatt == null && scanning == old(scanning)
      ensures outcome == NullDereference <==> old(gatt) == null
      ensures old(gatt) != null ==> target == None && commands == old(commands) + [Disconnect(old(gatt))]
      ensures old(gatt) == null ==> target == old(target) && commands == old(commands)
    {
      canMsg := false;
      if gatt == null {
        return NullDereference;
      }
      commands := commands + [Disconnect(gatt)];
      gatt := null;
      target := None;
      outcome := Handled;
    }

    /**
     * onConnectionStateChange: a CONNECTED state runs onConnect; a status
     * other than success then runs onDisConnect, so both may run, in that order.
     */
    method OnConnectionStateChange(g: Gatt, status: int, newState: int) returns (outcome: Outcome)
      requires Valid()
      modifies this
      ensures Valid() && scanning == old(scanning)
      ensures status == GattSuccess ==> outcome == Handled
      ensures newState != StateConnected && status == GattSuccess ==>
        gatt == old(gatt) && target == old(target) && commands == old(commands)
      ensures newState == StateConnected && status == GattSuccess ==>
        && gatt == g && target == old(target)
        && commands == old(commands) + [RequestMtu(g, RequestedMtu), DiscoverServices(g)]
      ensures newState == StateConnected && status != GattSuccess ==>
        && outcome == Handled && gatt == null && target == None
        && commands == old(commands) + [RequestMtu(g, RequestedMtu), DiscoverServices(g), Disconnect(g)]
      ensures newState != StateConnected && status != GattSuccess ==>
        && gatt == null
        && (outcome == NullDereference <==> old(gatt) == null)
        && (old(gatt) != null ==> target == None && commands == old(commands) + [Disconnect(old(gatt))])
        && (old(gatt) == null ==> target == old(target) && commands == old(commands))
    {
      outcome := Handled;
      if newState == StateConnected {
        OnConnect(g);
      }
      if status != GattSuccess {
        outcome := OnDisConnect(g);
      }
    }

    /**
     * onServicesDiscovered: whatever the status, pass the protocol service,
     * when g's cache has it, to onServiceFound.
     */
    method OnServicesDiscovered(g: Gatt, status: int)
      requires Valid()
      modifies this
      ensures Valid() && gatt == old(gatt) && target == old(target) && scanning == old(scanning)
      ensures commands == old(commands) + DiscoveryPlan(g)
    {
      if ServiceUuid in g.services {
        OnServiceFound(g, ServiceUuid, g.services[ServiceUuid]);
      }
    }

    /** onServiceFound: enable notification on the write characteristic when the service has it. */
    method OnServiceFound(g: Gatt, service: Uuid, characteristics: set<Uuid>)
      requires Valid()
      modifies this
      ensures Valid() && gatt == old(gatt) && target == old(target) && scanning == old(scanning)
      ensures WriteUuid in characteristics ==>
        commands == old(commands) + [SetNotification(g, service, WriteUuid, true)]
      ensures WriteUuid !in characteristics ==> commands == old(commands)
    {
      if WriteUuid in characteristics {
        commands := commands + [SetNotification(g, service, WriteUuid, true)];
      }
    }

    /** sendMsg: a guard chain over the held handle, then one write of the credentials. */
    method SendMsg()
      requires Valid()
      modifies this
      ensures Valid() && gatt == old(gatt) && target == old(target) && scanning == old(scanning)
      ensures commands == old(commands) + WritePlan(gatt)
    {
      if gatt == null {
        return;
      }
      if ServiceUuid !in gatt.services {
        return;
      }
      var characteristics := gatt.services[ServiceUuid];
      if WriteUuid !in characteristics {
        return;
      }
      commands := commands + [Write(gatt, ServiceUuid, WriteUuid, payload)];
    }
  }
}
