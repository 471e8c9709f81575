/**
 * 128-bit UUIDs and the 16-bit aliases that the Bluetooth Core Specification
 * (Vol 3, Part B, section 2.5.1) defines on the Bluetooth Base UUID
 * 00000000-0000-1000-8000-00805F9B34FB: the alias xxxx stands for
 * 0000xxxx-0000-1000-8000-00805F9B34FB, that is Base + xxxx * 2^96.
 */
module Uuids {
  import opened Wrappers

  const UuidBound: nat := 0x1_0000_0000_0000_0000_0000_0000_0000_0000

  /** A UUID as the 128-bit number its text spells out, most significant digit first. */
  type Uuid = n: nat | n < UuidBound

  /** The Bluetooth Base UUID 00000000-0000-1000-8000-00805F9B34FB. */
  const BaseUuid: Uuid := 0x0000_0000_0000_1000_8000_0080_5F9B_34FB

  /** The UUID a 16-bit alias stands for. */
  function FromAlias(alias: nat): (u: Uuid)
    requires alias < 0x1_0000
    ensures u % 0x1_0000_0000_0000_0000_0000_0000 == BaseUuid
    ensures u / 0x1_0000_0000_0000_0000_0000_0000 == alias
  {
    BaseUuid + alias * 0x1_0000_0000_0000_0000_0000_0000
  }

  /** The 16-bit alias of a UUID, if it lies on the Base UUID with a 16-bit alias. */
  function AliasOf(u: Uuid): (r: Option<nat>)
    ensures r.Some? ==> r.value < 0x1_0000
    ensures r.Some? <==> u % 0x1_0000_0000_0000_0000_0000_0000 == BaseUuid
                         && u / 0x1_0000_0000_0000_0000_0000_0000 < 0x1_0000
  {
    var low := u % 0x1_0000_0000_0000_0000_0000_0000;
    var high := u / 0x1_0000_0000_0000_0000_0000_0000;
    if low == BaseUuid && high < 0x1_0000 then Some(high) else None
  }

  /** Reading back the alias of an alias UUID gives the alias. */
  lemma AliasRoundTrip(alias: nat)
    requires alias < 0x1_0000
    ensures AliasOf(FromAlias(alias)) == Some(alias)
  {
  }

  /** A UUID that has an alias is exactly the UUID of that alias. */
  lemma AliasDetermines(u: Uuid)
    requires AliasOf(u).Some?
    ensures FromAlias(AliasOf(u).value) == u
  {
  }

  /** Distinct aliases name distinct UUIDs. */
  lemma FromAliasInjective(a: nat, b: nat)
    requires a < 0x1_0000 && b < 0x1_0000
    requires FromAlias(a) == FromAlias(b)
    ensures a == b
  {
  }
}
