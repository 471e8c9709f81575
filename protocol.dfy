/**
 * The protocol constants both applications declare identically: the service,
 * write-characteristic and descriptor UUIDs, and the manufacturer id and name
 * the peripheral advertises and the central filters on.
 */
module Protocol {
  import opened Wrappers
  import opened Uuids
  import opened Bytes

  /** 00001ff9-0000-1000-8000-00805f9b34fb */
  const ServiceUuid: Uuid := 0x0000_1ff9_0000_1000_8000_0080_5f9b_34fb
  /** 00001ffa-0000-1000-8000-00805f9b34fb */
  const WriteUuid: Uuid := 0x0000_1ffa_0000_1000_8000_0080_5f9b_34fb
  /** 00001ffb-0000-1000-8000-00805f9b34fb */
  const ContentUuid: Uuid := 0x0000_1ffb_0000_1000_8000_0080_5f9b_34fb

  const ManufacturerId: nat := 0xAAA
  const Manufacturer: string := "Nologic"

  /** The three protocol UUIDs are the 16-bit aliases 0x1FF9, 0x1FFA and 0x1FFB. */
  lemma ProtocolUuidsAreAliases()
    ensures AliasOf(ServiceUuid) == Some(0x1FF9) && ServiceUuid == FromAlias(0x1FF9)
    ensures AliasOf(WriteUuid) == Some(0x1FFA) && WriteUuid == FromAlias(0x1FFA)
    ensures AliasOf(ContentUuid) == Some(0x1FFB) && ContentUuid == FromAlias(0x1FFB)
    ensures ServiceUuid != WriteUuid && WriteUuid != ContentUuid && ServiceUuid != ContentUuid
  {
  }

  /** The bytes both sides put in the manufacturer field: "Nologic" in ASCII. */
  function ManufacturerBytes(): seq<byte>
  {
    [0x4E, 0x6F, 0x6C, 0x6F, 0x67, 0x69, 0x63]
  }

  /** The manufacturer bytes are MANUFACTURE.getBytes(), and decode to the name. */
  lemma ManufacturerBytesEncodeName()
    ensures IsAscii(Manufacturer) && ManufacturerBytes() == Encode(Manufacturer)
    ensures Decode(ManufacturerBytes()) == Some(Manufacturer)
  {
    assert IsAscii(Manufacturer);
    DecodeEncode(Manufacturer);
  }
}
