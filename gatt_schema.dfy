/**
 * GATT services, characteristics and descriptors as values, with the
 * property and permission bits of BluetoothGattCharacteristic and the
 * construction steps the peripheral uses to assemble its schema.
 */
module GattSchema {
  import opened Uuids

  const PropertyRead: bv8 := 0x02
  const PropertyWriteNoResponse: bv8 := 0x04
  const PropertyWrite: bv8 := 0x08
  const PropertyNotify: bv8 := 0x10

  const PermissionRead: bv16 := 0x01
  const PermissionWrite: bv16 := 0x10

  /** The Client Characteristic Configuration descriptor, through which a central turns notifications on. */
  const ClientConfigUuid: Uuid := FromAlias(0x2902)

  datatype ServiceType = Primary | Secondary

  datatype Descriptor = Descriptor(uuid: Uuid, permissions: bv16)

  datatype Characteristic =
    Characteristic(uuid: Uuid, properties: bv8, permissions: bv16, descriptors: seq<Descriptor>)

  datatype Service = Service(uuid: Uuid, serviceType: ServiceType, characteristics: seq<Characteristic>)

  /** new BluetoothGattCharacteristic(uuid, properties, permissions): no descriptors yet. */
  function NewCharacteristic(uuid: Uuid, properties: bv8, permissions: bv16): Characteristic
  {
    Characteristic(uuid, properties, permissions, [])
  }

  /** BluetoothGattCharacteristic.addDescriptor appends. */
  function AddDescriptor(c: Characteristic, d: Descriptor): Characteristic
  {
    c.(descriptors := c.descriptors + [d])
  }

  /** new BluetoothGattService(uuid, type): no characteristics yet. */
  function NewService(uuid: Uuid, serviceType: ServiceType): Service
  {
    Service(uuid, serviceType, [])
  }

  /** BluetoothGattService.addCharacteristic appends. */
  function AddCharacteristic(s: Service, c: Characteristic): Service
  {
    s.(characteristics := s.characteristics + [c])
  }

  /** The UUIDs of a service's characteristics, as a central sees them after discovery. */
  function CharacteristicUuids(s: Service): (r: set<Uuid>)
    ensures forall c :: c in s.characteristics ==> c.uuid in r
    ensures forall u :: u in r ==> exists c :: c in s.characteristics && c.uuid == u
  {
    set c | c in s.characteristics :: c.uuid
  }

  /**
   * The discovery cache a central holds after discovering these services:
   * service UUID to characteristic UUIDs; for a UUID offered twice, the
   * first service wins, as BluetoothGatt.getService returns the first.
   */
  function Discovered(services: seq<Service>): (r: map<Uuid, set<Uuid>>)
    ensures forall s :: s in services ==> s.uuid in r
    ensures forall u :: u in r ==> exists s :: s in services && s.uuid == u
    ensures services != [] ==> r[services[0].uuid] == CharacteristicUuids(services[0])
  {
    if services == [] then map[]
    else Discovered(services[1..])[services[0].uuid := CharacteristicUuids(services[0])]
  }

  /**
   * Every service UUID's cache entry holds the characteristic UUIDs of the
   * first service that offers it.
   */
  lemma {:induction false} DiscoveredFirstWins(services: seq<Service>, i: nat)
    requires i < |services|
    requires forall j :: 0 <= j < i ==> services[j].uuid != services[i].uuid
    ensures services[i].uuid in Discovered(services)
    ensures Discovered(services)[services[i].uuid] == CharacteristicUuids(services[i])
  {
    if i > 0 {
      var tail := services[1..];
      assert tail[i - 1] == services[i];
      assert forall j :: 0 <= j < i - 1 ==> tail[j] == services[j + 1];
      DiscoveredFirstWins(tail, i - 1);
    }
  }
}
