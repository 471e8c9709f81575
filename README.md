# BleDemo provisioning controllers in Dafny

BleDemo is a pair of Android apps that hand Wi-Fi credentials from a phone
to a device over Bluetooth Low Energy. The peripheral app (bleServer)
registers one GATT service and advertises it. The central app (bleClient)
scans for that advertisement and connects to the first match. It then
requests an MTU of 512, discovers services and enables notification on the
write characteristic. Its "send" button writes the text
`WIFI:S:goke_ofice;T:WPA;P:goke!wifi;H:false;;`.

This project models the two activities' controllers as Dafny classes. Each
activity field that the callbacks update is a class field. Each platform
callback or button handler is a method that runs to completion. The
Bluetooth stack is abstract. A connection is a `Gatt` object that records
the device address it was opened to and the stack's discovery cache (a map
from service UUID to characteristic UUIDs). Every call a controller makes
into the stack is appended to its `commands` log. Each method's contract
gives the new fields and the new log as a function of the old state and the
inputs.

The model reproduces the code's quirks rather than fixing them:

- `onDisConnect` dereferences the held handle without a null check. That
  path ends in the outcome `NullDereference`.
- When the held handle's `connect()` returns false, a new handle replaces
  it and no disconnect is issued.
- A CONNECTED event with a failure status runs `onConnect` and then
  `onDisConnect`.
- Service discovery ignores its status.
- A discovery completion on a handle that was already dropped still
  enables notification on that handle.

Modules:

- `Uuids`: 128-bit UUIDs. A 16-bit alias stands for the Bluetooth Base
  UUID plus the alias times 2^96 (Bluetooth Core Specification, Vol 3,
  Part B, section 2.5.1).
- `Bytes`: the byte type and `String.getBytes()` on ASCII text, with its
  decoding.
- `Protocol`: the UUIDs and manufacturer values that both apps declare.
- `GattSchema`: services, characteristics, descriptors, and the discovery
  cache a central builds from them.
- `Advertising`: advertise settings, the advertise payload, and scan
  filters.
- `Central` and `CentralScenarios`: the bleClient controller, and runs of
  it from a fresh activity.
- `Peripheral` and `PeripheralScenarios`: the bleServer lifecycle, and
  runs of it.
- `Interop`: how the two sides fit together, including one full
  provisioning run.

Behaviour a robust central or peripheral would not have, kept as the code
has it:

- A late discovery on a dropped handle is not discarded
  (`CentralScenarios.StaleDiscoveryAfterDisconnect`).
- A handle to another device is torn down before a reconnect only when
  its `connect()` reports true.
- A failure status does not always reset the central: a second failure
  after the handle was dropped reaches `onDisConnect` with no handle held,
  which throws (`CentralScenarios.DisconnectWithoutHandle`).
- The peripheral answers no read or write request: its request callbacks
  only log, so no response is modelled.
- The flag `canMsg` is only ever assigned false, so it is never true; both
  controllers' `Valid()` invariants, which every method requires and
  re-establishes, record this and the peripheral's pairing of its two
  references.

## Model

| member | source | states |
|---|---|---|
| Uuids.FromAlias | bleClient/app/src/main/java/com/ironxiao/bleclient/MainActivity.java:49-51 | the UUID of a 16-bit alias lies on the Base UUID, and its high 32 bits are the alias |
| Uuids.AliasOf | bleClient/app/src/main/java/com/ironxiao/bleclient/MainActivity.java:49-51 | a UUID has an alias exactly when its low 96 bits are the Base UUID and its high bits fit in 16 bits |
| Uuids.AliasRoundTrip | bleClient/app/src/main/java/com/ironxiao/bleclient/MainActivity.java:49-51 | reading back the alias of an alias UUID gives the alias |
| Uuids.AliasDetermines | bleClient/app/src/main/java/com/ironxiao/bleclient/MainActivity.java:49-51 | a UUID that has an alias equals the UUID of that alias |
| Uuids.FromAliasInjective | bleClient/app/src/main/java/com/ironxiao/bleclient/MainActivity.java:49-51 | distinct aliases give distinct UUIDs |
| Bytes.Encode | bleClient/app/src/main/java/com/ironxiao/bleclient/MainActivity.java:76 | `getBytes()` on ASCII text gives one byte per character, equal to the character's code |
| Bytes.Decode | bleClient/app/src/main/java/com/ironxiao/bleclient/MainActivity.java:76 | the inverse of `getBytes()` on ASCII text: bytes decode exactly when all are below 0x80; the text has the same length and the same codes |
| Bytes.DecodeEncode | bleClient/app/src/main/java/com/ironxiao/bleclient/MainActivity.java:282 | decoding the encoding of ASCII text gives the text back |
| Bytes.EncodeDecode | bleClient/app/src/main/java/com/ironxiao/bleclient/MainActivity.java:76 | encoding decoded bytes gives the bytes back |
| Bytes.EncodeAppend | bleClient/app/src/main/java/com/ironxiao/bleclient/MainActivity.java:282 | the encoding of a concatenation is the concatenation of the encodings |
| Protocol.ProtocolUuidsAreAliases | bleServer/app/src/main/java/com/ironxiao/bleserver/MainActivity.java:46-48 | the service, write and content UUIDs are the aliases 0x1FF9, 0x1FFA and 0x1FFB, and are pairwise distinct |
| Protocol.ManufacturerBytesEncodeName | bleServer/app/src/main/java/com/ironxiao/bleserver/MainActivity.java:41-42 | the manufacturer bytes are the encoding of "Nologic" and decode back to it |
| GattSchema.CharacteristicUuids | bleClient/app/src/main/java/com/ironxiao/bleclient/MainActivity.java:320 | a UUID is found in a service exactly when one of its characteristics has it |
| GattSchema.Discovered | bleClient/app/src/main/java/com/ironxiao/bleclient/MainActivity.java:100 | a service UUID is in the cache exactly when a discovered service has it; the first service's entry holds its characteristic UUIDs |
| GattSchema.DiscoveredFirstWins | bleClient/app/src/main/java/com/ironxiao/bleclient/MainActivity.java:100 | every service UUID's entry holds the characteristic UUIDs of the first service offering it |
| Central.ScanFilters | bleClient/app/src/main/java/com/ironxiao/bleclient/MainActivity.java:73-77 | one filter, naming the service UUID 0x1FF9 and the manufacturer bytes under id 0xAAA |
| Central.CredentialFieldEncodes | bleClient/app/src/main/java/com/ironxiao/bleclient/MainActivity.java:282 | each field of the credentials is ASCII and encodes to its listed bytes |
| Central.WifiPayloadEncodesCredentials | bleClient/app/src/main/java/com/ironxiao/bleclient/MainActivity.java:282 | the written bytes are the encoding of the credentials text and decode back to it |
| Central.Teardown | bleClient/app/src/main/java/com/ironxiao/bleclient/MainActivity.java:249-259 | a disconnect is issued before a real connect exactly when a handle is held and its `connect()` reports true, and it targets that handle |
| Central.DiscoveryPlan | bleClient/app/src/main/java/com/ironxiao/bleclient/MainActivity.java:96-105 | discovery issues one notification on the write characteristic exactly when the cache has service 0x1FF9 with characteristic 0x1FFA, and otherwise nothing |
| Central.CentralController.WritePlan | bleClient/app/src/main/java/com/ironxiao/bleclient/MainActivity.java:265-284 | sendMsg issues exactly one write of the credentials to 0x1FFA exactly when a handle is held whose cache has service 0x1FF9 with that characteristic |
| Central.CentralController.Valid | bleClient/app/src/main/java/com/ironxiao/bleclient/MainActivity.java:289 | the invariant every controller method requires and re-establishes: `canMsg` is false, as every assignment to it (lines 289, 310) writes false and the one true assignment (line 328) is commented out |
| Central.CentralController.constructor | bleClient/app/src/main/java/com/ironxiao/bleclient/MainActivity.java:55-79 | no handle and no selection, not scanning, nothing issued, with the scan filters, the scan settings and the payload |
| Central.CentralController.ScanLeDeviceCommon | bleClient/app/src/main/java/com/ironxiao/bleclient/MainActivity.java:151-166 | starting issues StartScan with the filters and settings only when location access is granted; stopping always issues StopScan; the scan flag follows |
| Central.CentralController.StartBleScan | bleClient/app/src/main/java/com/ironxiao/bleclient/MainActivity.java:133-149 | without BLE or with Bluetooth off nothing happens; otherwise the button starts a scan when none was started and stops it otherwise |
| Central.CentralController.ConnectBleDevice | bleClient/app/src/main/java/com/ironxiao/bleclient/MainActivity.java:246-262 | no target: nothing; a viable handle to the same address is kept; otherwise Teardown, then ConnectGatt, and the new handle is held and opened to the target |
| Central.CentralController.OnFound | bleClient/app/src/main/java/com/ironxiao/bleclient/MainActivity.java:287-293 | the result is selected only when nothing is selected; StopScan is issued; then the selected device is connected as ConnectBleDevice states |
| Central.CentralController.OnConnect | bleClient/app/src/main/java/com/ironxiao/bleclient/MainActivity.java:299-305 | the handle is held, then RequestMtu(512), then DiscoverServices |
| Central.CentralController.OnDisConnect | bleClient/app/src/main/java/com/ironxiao/bleclient/MainActivity.java:308-314 | with a held handle: Disconnect on it, then no handle and no selection; with none: NullDereference and nothing else changes |
| Central.CentralController.OnConnectionStateChange | bleClient/app/src/main/java/com/ironxiao/bleclient/MainActivity.java:83-93 | each combination of CONNECTED and failure status: onConnect's effect, then onDisConnect's effect, in that order when both apply |
| Central.CentralController.OnServicesDiscovered | bleClient/app/src/main/java/com/ironxiao/bleclient/MainActivity.java:96-105 | whatever the status, the commands grow by DiscoveryPlan of the callback's handle and no field changes |
| Central.CentralController.OnServiceFound | bleClient/app/src/main/java/com/ironxiao/bleclient/MainActivity.java:319-332 | notification on 0x1FFA is enabled exactly when the service has that characteristic |
| Central.CentralController.SendMsg | bleClient/app/src/main/java/com/ironxiao/bleclient/MainActivity.java:265-284 | the commands grow by WritePlan of the held handle and no field changes |
| CentralScenarios.FirstMatchWins | bleClient/app/src/main/java/com/ironxiao/bleclient/MainActivity.java:287-293 | over any run of scan results, every connection goes to the first result's device, nothing is disconnected, and the log holds exactly one StopScan per result |
| CentralScenarios.ReselectAfterFailedConnect | bleClient/app/src/main/java/com/ironxiao/bleclient/MainActivity.java:86-92 | CONNECTED with a failure status issues MTU, discovery and disconnect; the next result, another device, is selected and connected on a new handle |
| CentralScenarios.StaleDiscoveryAfterDisconnect | bleClient/app/src/main/java/com/ironxiao/bleclient/MainActivity.java:96-105 | after a disconnect clears handle and selection, a late discovery still enables notification on the dropped handle |
| CentralScenarios.DisconnectWithoutHandle | bleClient/app/src/main/java/com/ironxiao/bleclient/MainActivity.java:308-311 | after a CONNECTED event with a failure status has dropped the handle, a second failure ends in NullDereference; the log is the connect sequence and one disconnect |
| Peripheral.ServiceSchema | bleServer/app/src/main/java/com/ironxiao/bleserver/MainActivity.java:56-66 | one primary service 0x1FF9 with one characteristic 0x1FFA: read, write and write-no-response, read and write permission, one descriptor 0x1FFB |
| Peripheral.AdvertiseSettingsConfig | bleServer/app/src/main/java/com/ironxiao/bleserver/MainActivity.java:148-155 | balanced mode, high transmit power, connectable, no timeout |
| Peripheral.AdvertiseDataConfig | bleServer/app/src/main/java/com/ironxiao/bleserver/MainActivity.java:157-164 | device name and transmit power included, manufacturer data only under 0xAAA holding the manufacturer bytes, service UUIDs exactly [0x1FF9] |
| Peripheral.StopPlan | bleServer/app/src/main/java/com/ironxiao/bleserver/MainActivity.java:182-195 | a held server is cleared and closed, a held advertiser is stopped, in that order; nothing for null references |
| Peripheral.PeripheralController.StartPlan | bleServer/app/src/main/java/com/ironxiao/bleserver/MainActivity.java:197-207 | a server is opened exactly when none was held, and first; the schema is added next; an advertiser is acquired exactly when none was held, just before advertising starts last |
| Peripheral.PeripheralController.Valid | bleServer/app/src/main/java/com/ironxiao/bleserver/MainActivity.java:182-207 | the invariant every controller method requires and re-establishes: the server and the advertiser are held together or released together |
| Peripheral.PeripheralController.constructor | bleServer/app/src/main/java/com/ironxiao/bleserver/MainActivity.java:54-66 | no server and no advertiser, the start label, nothing issued, with the schema, settings and payload |
| Peripheral.PeripheralController.StartBleAd | bleServer/app/src/main/java/com/ironxiao/bleserver/MainActivity.java:197-207 | held references are reused and absent ones are fresh; both are held afterwards; the commands grow by StartPlan |
| Peripheral.PeripheralController.StopBleAd | bleServer/app/src/main/java/com/ironxiao/bleserver/MainActivity.java:182-195 | the commands grow by StopPlan; the references are released only when destroying |
| Peripheral.PeripheralController.StartBleAdClicked | bleServer/app/src/main/java/com/ironxiao/bleserver/MainActivity.java:123-146 | without BLE or with Bluetooth off nothing changes; the start label starts and shows stop; any other label stops, keeps the references and shows start |
| Peripheral.PeripheralController.OnDestroy | bleServer/app/src/main/java/com/ironxiao/bleserver/MainActivity.java:176-180 | the commands grow by StopPlan and both references are released |
| PeripheralScenarios.RestartReusesClosedServer | bleServer/app/src/main/java/com/ironxiao/bleserver/MainActivity.java:182-207 | start, stop, start: the second start adds the schema to the server the stop closed and reuses the advertiser, opening nothing |
| PeripheralScenarios.DestroyAfterStart | bleServer/app/src/main/java/com/ironxiao/bleserver/MainActivity.java:176-195 | destroying after a start stops what was started and releases both references; destroying again issues nothing |
| Interop.AdvertisementCarriesScanFilter | bleServer/app/src/main/java/com/ironxiao/bleserver/MainActivity.java:157-164 | the peripheral's payload carries the central's filter fields, and both sides' manufacturer data decodes to "Nologic" |
| Interop.SchemaOffersWriteTarget | bleServer/app/src/main/java/com/ironxiao/bleserver/MainActivity.java:56-66 | a central that discovered the schema finds exactly 0x1FFA under 0x1FF9, writable, with no notify property and no client configuration descriptor |
| Interop.ProvisioningRoundTrip | bleClient/app/src/main/java/com/ironxiao/bleclient/MainActivity.java:133-305 | scan, result, connect, connected, discovery of the schema, send: exactly StartScan, StopScan, ConnectGatt, RequestMtu(512), DiscoverServices, SetNotification, Write of the payload, on one handle |

## Left out

- bleClient2 is not part of this model. It is plumbing over the RxAndroidBle library, whose code is not visible here.
- ScanProcess.java is an interface with no behaviour. The model follows the activity's own two-argument `onServiceFound`.
- Permission checks and requests, `onActivityResult`, `onRequestPermissionsResult`, toasts and logging are not modelled. The location permission, the BLE feature and Bluetooth being enabled are boolean inputs.
- The `btEnabled()` check also counts a missing adapter as enabled. The model takes the check's result as an input.
- The peripheral's request callbacks (connection state, read, write and descriptor write) only log and toast. They change no state and send no response, so they are left out.
- The central's write-completion callback only logs, so it is left out.
- What the radio does is out of scope: filtering inside the stack, MTU negotiation results, advertising success or failure, callback threads, and timeouts. Each callback runs to completion, one at a time.
- Central.CentralController.ConnectBleDevice: `connect()` on the held handle is a query whose result is the input `viable`. Its side effect, a reconnection attempt, is not logged.
- Peripheral.PeripheralController.StartBleAd: `openGattServer` and `getBluetoothLeAdvertiser` are assumed to return a handle. If either returned null, the next dereference would throw, and that path is not modelled.
- Central.CentralController.StartBleScan: the button's text is modelled as the `scanning` flag. Both start with the "start" text.
- Peripheral.PeripheralController.StartBleAdClicked: the button's text is the two-valued `Label`. It starts as the "start" text.
- Bytes.Encode: `getBytes()` is modelled only for ASCII text. All text the apps encode is ASCII.
- Bytes.Decode: it is only the ASCII inverse of `Encode`. It is not `new String(bytes)` on arbitrary bytes, which decodes UTF-8 and replaces malformed input instead of failing.
- Central.CentralController.ScanLeDeviceCommon: the scanner is assumed present. The source fetches it once at creation (bleClient MainActivity.java:129), so if Bluetooth was off then and on at the click, the start or stop call at line 160 or 163 dereferences null; that path is not modelled.
- Central.CentralController.ConnectBleDevice: `connectGatt` is assumed to return a handle. If it returned null, the held handle would become null; that path is not modelled.
- Interop.AdvertisementCarriesScanFilter: `Carries` is a plain field-by-field match. It does not model how Android matches scan filters.
