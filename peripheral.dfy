/**
 * The peripheral (server) lifecycle of bleServer: the static GATT schema,
 * the advertise settings and payload, and the activity's two references, a
 * GATT server and an advertiser, which start and stop open, reuse, close
 * and release. Every call into the Bluetooth stack is appended to `commands`.
 */
module Peripheral {
  import opened Protocol
  import opened GattSchema
  import opened Advertising

  /**
   * The schema registered on every start: one primary service 0x1FF9 whose
   * only characteristic 0x1FFA is readable and writable with and without
   * response, and carries the one descriptor 0x1FFB.
   */
  function ServiceSchema(): (s: Service)
    ensures s.uuid == ServiceUuid && s.serviceType == Primary && |s.characteristics| == 1
    ensures s.characteristics[0].uuid == WriteUuid
    ensures s.characteristics[0].properties == PropertyRead | PropertyWrite | PropertyWriteNoResponse
    ensures s.characteristics[0].permissions == PermissionRead | PermissionWrite
    ensures s.characteristics[0].descriptors == [Descriptor(ContentUuid, PermissionRead | PermissionWrite)]
  {
    var characteristic := NewCharacteristic(WriteUuid,
      PropertyWrite | PropertyRead | PropertyWriteNoResponse,
      PermissionRead | PermissionWrite);
    var described := AddDescriptor(characteristic, Descriptor(ContentUuid, PermissionRead | PermissionWrite));
    AddCharacteristic(NewService(ServiceUuid, Primary), described)
  }

  /** getAdvertiseSettings: balanced, connectable, never timing out, high transmit power. */
  function AdvertiseSettingsConfig(): (s: AdvertiseSettings)
    ensures s.mode == Balanced && s.txPowerLevel == High
    ensures s.connectable && s.timeoutMillis == 0
  {
    DefaultSettings.(mode := Balanced).(connectable := true).(timeoutMillis := 0).(txPowerLevel := High)
  }

  /**
   * getAdvertiseData: the device name, the transmit power, the manufacturer's
   * name under its id and nothing else, and the protocol service UUID only.
   */
  function AdvertiseDataConfig(): (d: AdvertiseData)
    ensures d.includeDeviceName && d.includeTxPowerLevel
    ensures d.manufacturerData.Keys == {ManufacturerId}
    ensures d.manufacturerData[ManufacturerId] == ManufacturerBytes()
    ensures d.serviceUuids == [ServiceUuid]
  {
    var named := EmptyData.(includeDeviceName := true).(includeTxPowerLevel := true);
    AddServiceUuid(AddManufacturerData(named, ManufacturerId, ManufacturerBytes()), ServiceUuid)
  }

  /** A BluetoothGattServer handle. */
  class GattServer {
    constructor ()
    {
    }
  }

  /** A BluetoothLeAdvertiser handle. */
  class Advertiser {
    constructor ()
    {
    }
  }

  /** The calls the controller makes into the Bluetooth stack. */
  datatype Command =
    | OpenGattServer(server: GattServer)
    | AddService(server: GattServer, service: Service)
    | ClearServices(server: GattServer)
    | Close(server: GattServer)
    | AcquireAdvertiser(advertiser: Advertiser)
    | StartAdvertising(advertiser: Advertiser, settings: AdvertiseSettings, data: AdvertiseData)
    | StopAdvertising(advertiser: Advertiser)

  /** The text of the start/stop button. */
  datatype Label = StartLabel | StopLabel

  /**
   * What stopBleAd issues: for a held server, clear its services and close
   * it; for a held advertiser, stop advertising; nothing for a null reference.
   */
  function StopPlan(server: GattServer?, advertiser: Advertiser?): (cmds: seq<Command>)
    ensures |cmds| == (if server != null then 2 else 0) + (if advertiser != null then 1 else 0)
    ensures cmds == [] <==> server == null && advertiser == null
    ensures server != null ==> cmds[0] == ClearServices(server) && cmds[1] == Close(server)
    ensures advertiser != null ==> cmds[|cmds| - 1] == StopAdvertising(advertiser)
  {
    (if server != null then [ClearServices(server), Close(server)] else [])
    + (if advertiser != null then [StopAdvertising(advertiser)] else [])
  }

  class PeripheralController {
    /** The static schema and the advertise settings and payload, fixed at construction. */
    const schema: Service
    const settings: AdvertiseSettings
    const data: AdvertiseData

    /** bluetoothGattServer */
    var server: GattServer?
    /** bluetoothLeAdvertiser */
    var advertiser: Advertiser?
    /** The text the start/stop button shows. */
    var buttonText: Label
    /** The calls made into the Bluetooth stack, oldest first. */
    var commands: seq<Command>

    /**
     * What startBleAd issues: open a server only when none was held, register
     * the schema, acquire an advertiser only when none was held, and start
     * advertising last.
     */
    function StartPlan(held: GattServer?, heldAdvertiser: Advertiser?, nowServer: GattServer, nowAdvertiser: Advertiser)
      : (cmds: seq<Command>)
      ensures |cmds| == 2 + (if held == null then 1 else 0) + (if heldAdvertiser == null then 1 else 0)
      ensures (OpenGattServer(nowServer) in cmds) <==> held == null
      ensures (AcquireAdvertiser(nowAdvertiser) in cmds) <==> heldAdvertiser == null
      ensures held == null ==> cmds[0] == OpenGattServer(nowServer)
      ensures cmds[if held == null then 1 else 0] == AddService(nowServer, schema)
      ensures heldAdvertiser == null ==> cmds[|cmds| - 2] == AcquireAdvertiser(nowAdvertiser)
      ensures cmds[|cmds| - 1] == StartAdvertising(nowAdvertiser, settings, data)
    {
      (if held == null then [OpenGattServer(nowServer)] else [])
      + [AddService(nowServer, schema)]
      + (if heldAdvertiser == null then [AcquireAdvertiser(nowAdvertiser)] else [])
      + [StartAdvertising(nowAdvertiser, settings, data)]
    }

    /** The two references are held together or released together. */
    ghost predicate Valid()
      reads this
    {
      (server == null) == (advertiser == null)
    }

    constructor ()
      ensures schema == ServiceSchema() && settings == AdvertiseSettingsConfig() && data == AdvertiseDataConfig()
      ensures Valid() && server == null && advertiser == null && buttonText == StartLabel && commands == []
    {
      schema := ServiceSchema();
      settings := AdvertiseSettingsConfig();
      data := AdvertiseDataConfig();
      server := null;
      advertiser := null;
      buttonText := StartLabel;
      commands := [];
    }

    /** startBleAd(): open or reuse the server, add the schema, acquire or reuse the advertiser, advertise. */
    method StartBleAd()
      requires Valid()
      modifies this
      ensures Valid() && server != null && advertiser != null && buttonText == old(buttonText)
      ensures old(server) != null ==> server == old(server)
      ensures old(server) == null ==> fresh(server)
      ensures old(advertiser) != null ==> advertiser == old(advertiser)
      ensures old(advertiser) == null ==> fresh(advertiser)
      ensures commands == old(commands) + StartPlan(old(server), old(advertiser), server, advertiser)
    {
      if server == null {
        var s := new GattServer();
        server := s;
        commands := commands + [OpenGattServer(s)];
      }
      commands := commands + [AddService(server, schema)];
      if advertiser == null {
        var a := new Advertiser();
        advertiser := a;
        commands := commands + [AcquireAdvertiser(a)];
      }
      commands := commands + [StartAdvertising(advertiser, settings, data)];
    }

    /**
     * stopBleAd(destroy): clear and close a held server and stop a held
     * advertiser; only when destroying are the references released.
     */
    method StopBleAd(destroy: bool)
      requires Valid()
      modifies this
      ensures Valid() && buttonText == old(buttonText)
      ensures commands == old(commands) + StopPlan(old(server), old(advertiser))
      ensures destroy ==> server == null && advertiser == null
      ensures !destroy ==> server == old(server) && advertiser == old(advertiser)
    {
      if server != null {
        commands := commands + [ClearServices(server), Close(server)];
        if destroy {
          server := null;
        }
      }
      if advertiser != null {
        commands := commands + [StopAdvertising(advertiser)];
        if destroy {
          advertiser := null;
        }
      }
    }

    /**
     * startBleAd(View): the button. Without BLE or with Bluetooth off it does
     * nothing; on "start" it starts and shows "stop"; otherwise it stops,
     * keeping the references, and shows "start".
     */
    method StartBleAdClicked(bleFeature: bool, btEnabled: bool)
      requires Valid()
      modifies this
      ensures Valid()
      ensures !(bleFeature && btEnabled) ==>
        server == old(server) && advertiser == old(advertiser) && buttonText == old(buttonText) && commands == old(commands)
      ensures bleFeature && btEnabled && old(buttonText) == StartLabel ==>
        && buttonText == StopLabel && server != null && advertiser != null
        && (old(server) != null ==> server == old(server)) && (old(server) == null ==> fresh(server))
        && (old(advertiser) != null ==> advertiser == old(advertiser)) && (old(advertiser) == null ==> fresh(advertiser))
        && commands == old(commands) + StartPlan(old(server), old(advertiser), server, advertiser)
      ensures bleFeature && btEnabled && old(buttonText) != StartLabel ==>
        && buttonText == StartLabel && server == old(server) && advertiser == old(advertiser)
        && commands == old(commands) + StopPlan(old(server), old(advertiser))
    {
      if !bleFeature || !btEnabled {
        return;
      }
      if buttonText == StartLabel {
        StartBleAd();
        buttonText := StopLabel;
      } else {
        StopBleAd(false);
        buttonText := StartLabel;
      }
    }

    /** onDestroy: stop and release both references. */
    method OnDestroy()
      requires Valid()
      modifies this
      ensures Valid() && server == null && advertiser == null && buttonText == old(buttonText)
      ensures commands == old(commands) + StopPlan(old(server), old(advertiser))
    {
      StopBleAd(true);
    }
  }
}
