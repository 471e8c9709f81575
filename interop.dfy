/**
 * How the two roles fit together: the peripheral's advertisement against the
 * central's scan filter, the peripheral's schema against what the central
 * looks up, and one provisioning run with both controllers.
 */
module Interop {
  import opened Wrappers
  import opened Protocol
  import opened GattSchema
  import opened Advertising
  import C = Central
  import P = Peripheral

  /**
   * The peripheral's payload carries every field of the central's scan
   * filter, and the manufacturer data both sides use reads as the
   * manufacturer's name.
   */
  lemma AdvertisementCarriesScanFilter()
    ensures forall f :: f in C.ScanFilters() ==> Carries(P.AdvertiseDataConfig(), f)
    ensures Bytes.Decode(C.ScanFilters()[0].manufacturer.value.data) == Some(Manufacturer)
    ensures Bytes.Decode(P.AdvertiseDataConfig().manufacturerData[ManufacturerId]) == Some(Manufacturer)
  {
    ManufacturerBytesEncodeName();
  }

  /**
   * A central that discovered the schema finds the write characteristic in
   * the protocol service, and that characteristic accepts writes. It offers
   * no notification: no notify property and no Client Characteristic
   * Configuration descriptor, so the notification the central enables on it
   * is local registration only.
   */
  lemma SchemaOffersWriteTarget()
    ensures ServiceUuid in Discovered([P.ServiceSchema()])
    ensures Discovered([P.ServiceSchema()])[ServiceUuid] == {WriteUuid}
    ensures P.ServiceSchema().characteristics[0].properties & PropertyWrite != 0
    ensures P.ServiceSchema().characteristics[0].permissions & PermissionWrite != 0
    ensures P.ServiceSchema().characteristics[0].properties & PropertyNotify == 0
    ensures forall d :: d in P.ServiceSchema().characteristics[0].descriptors ==> d.uuid != ClientConfigUuid
  {
  }

  /**
   * One provisioning run against the peripheral's schema: the central's
   * button starts the scan; the filtered result arrives, the central
   * connects, the connection succeeds, the stack discovers the peripheral's
   * schema, and the central writes the credentials. The commands are
   * returned in order.
   */
  method ProvisioningRoundTrip(device: C.ScanResult) returns (central: seq<C.Command>)
    ensures |central| == 7 && central[2].ConnectGatt? && central[2].device == device.device
    ensures var g := central[2].handle;
      central == [C.StartScan(C.ScanFilters(), C.ScanSettingsConfig), C.StopScan, C.ConnectGatt(device.device, g),
                  C.RequestMtu(g, C.RequestedMtu), C.DiscoverServices(g),
                  C.SetNotification(g, ServiceUuid, WriteUuid, true),
                  C.Write(g, ServiceUuid, WriteUuid, C.WifiPayload())]
  {
    var c := new C.CentralController();
    c.StartBleScan(true, true, true);
    c.OnFound(device, true);
    var g := c.gatt;
    var _ := c.OnConnectionStateChange(g, C.GattSuccess, C.StateConnected);
    SchemaOffersWriteTarget();
    g.services := Discovered([P.ServiceSchema()]);
    c.OnServicesDiscovered(g, C.GattSuccess);
    c.SendMsg();
    central := c.commands;
  }
}
