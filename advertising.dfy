/**
 * Advertising values: the settings and payload a peripheral advertises
 * with, as AdvertiseSettings.Builder and AdvertiseData.Builder assemble
 * them, and the scan filter a central registers.
 */
module Advertising {
  import opened Wrappers
  import opened Uuids
  import opened Bytes

  datatype AdvertiseMode = LowPower | Balanced | LowLatency

  datatype TxPowerLevel = UltraLow | Low | Medium | High

  datatype AdvertiseSettings =
    AdvertiseSettings(mode: AdvertiseMode, txPowerLevel: TxPowerLevel, connectable: bool, timeoutMillis: nat)

  /** A fresh AdvertiseSettings.Builder: low power, medium power, connectable, no timeout. */
  const DefaultSettings := AdvertiseSettings(LowPower, Medium, true, 0)

  datatype AdvertiseData = AdvertiseData(
    serviceUuids: seq<Uuid>,
    manufacturerData: map<nat, seq<byte>>,
    includeTxPowerLevel: bool,
    includeDeviceName: bool)

  /** A fresh AdvertiseData.Builder: nothing included. */
  const EmptyData := AdvertiseData([], map[], false, false)

  /** AdvertiseData.Builder.addManufacturerData: one entry per manufacturer id, the last one wins. */
  function AddManufacturerData(d: AdvertiseData, id: nat, data: seq<byte>): AdvertiseData
  {
    d.(manufacturerData := d.manufacturerData[id := data])
  }

  /** AdvertiseData.Builder.addServiceUuid appends. */
  function AddServiceUuid(d: AdvertiseData, u: Uuid): AdvertiseData
  {
    d.(serviceUuids := d.serviceUuids + [u])
  }

  datatype ManufacturerData = ManufacturerData(id: nat, data: seq<byte>)

  /** A ScanFilter: each field that is set must be matched by the advertisement. */
  datatype ScanFilter = ScanFilter(serviceUuid: Option<Uuid>, manufacturer: Option<ManufacturerData>)

  /**
   * The payload carries every field the filter names: the filter's service
   * UUID among the advertised ones, and, under the filter's manufacturer id,
   * data that begins with the filter's bytes.
   */
  predicate Carries(d: AdvertiseData, f: ScanFilter)
  {
    && (f.serviceUuid.Some? ==> f.serviceUuid.value in d.serviceUuids)
    && (f.manufacturer.Some? ==>
          && f.manufacturer.value.id in d.manufacturerData
          && f.manufacturer.value.data <= d.manufacturerData[f.manufacturer.value.id])
  }
}
