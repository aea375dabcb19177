/**
  The two characteristic searches of Peripheral.java. Some peripherals reuse one UUID for
  several characteristics of a service, so the plugin scans the service's characteristics in
  declaration order and checks both the UUID and a property bit.
 */
module CharacteristicLookup {
  import opened Options
  import opened Android

  /** `c` has the UUID and, when a property is named, that property bit. */
  predicate Matches(c: Characteristic, uuid: Uuid, property: Option<bv32>)
  {
    c.uuid == uuid && (property.None? || HasProperty(c, property.value))
  }

  /** The position of the first characteristic in `chars` that matches, if any. */
  function FirstMatch(chars: seq<Characteristic>, uuid: Uuid, property: Option<bv32>): (r: Option<nat>)
    ensures r.Some? ==> r.value < |chars| && Matches(chars[r.value], uuid, property)
    ensures r.Some? ==> forall j :: 0 <= j < r.value ==> !Matches(chars[j], uuid, property)
    ensures r.None? ==> forall j :: 0 <= j < |chars| ==> !Matches(chars[j], uuid, property)
  {
    if chars == [] then None
    else if Matches(chars[0], uuid, property) then Some(0)
    else match FirstMatch(chars[1..], uuid, property)
      case None => None
      case Some(i) => Some(i + 1)
  }

  /** BluetoothGattService.getCharacteristic: the first characteristic with the UUID, whatever its properties. */
  function GetCharacteristic(chars: seq<Characteristic>, uuid: Uuid): (r: Option<nat>)
    ensures r.Some? ==> r.value < |chars| && chars[r.value].uuid == uuid
    ensures r.Some? ==> forall j :: 0 <= j < r.value ==> chars[j].uuid != uuid
    ensures r.None? <==> forall j :: 0 <= j < |chars| ==> chars[j].uuid != uuid
  {
    FirstMatch(chars, uuid, None)
  }

  /** The characteristic findNotifyCharacteristic settles on: the first with the UUID and the NOTIFY bit. */
  function NotifyCharacteristic(chars: seq<Characteristic>, uuid: Uuid): (r: Option<nat>)
    ensures r.Some? ==> r.value < |chars| && chars[r.value].uuid == uuid && HasProperty(chars[r.value], PROPERTY_NOTIFY)
    ensures r.Some? ==> forall j :: 0 <= j < r.value ==> !(chars[j].uuid == uuid && HasProperty(chars[j], PROPERTY_NOTIFY))
    ensures r.None? <==> forall j :: 0 <= j < |chars| ==> !(chars[j].uuid == uuid && HasProperty(chars[j], PROPERTY_NOTIFY))
  {
    FirstMatch(chars, uuid, Some(PROPERTY_NOTIFY))
  }

  /** The property bit a write of the given type needs. */
  function RequiredWriteProperty(writeType: int): (p: bv32)
    ensures p == PROPERTY_WRITE_NO_RESPONSE <==> writeType == WRITE_TYPE_NO_RESPONSE
    ensures p == PROPERTY_WRITE <==> writeType != WRITE_TYPE_NO_RESPONSE
  {
    if writeType == WRITE_TYPE_NO_RESPONSE then PROPERTY_WRITE_NO_RESPONSE else PROPERTY_WRITE
  }

  /**
    The characteristic findWritableCharacteristic settles on: the first with the UUID and the
    bit the write type needs, else the first with the UUID at all.
   */
  function WritableCharacteristic(chars: seq<Characteristic>, uuid: Uuid, writeType: int): (r: Option<nat>)
    ensures r.Some? ==> r.value < |chars| && chars[r.value].uuid == uuid
    ensures r.None? <==> forall j :: 0 <= j < |chars| ==> chars[j].uuid != uuid
    ensures (exists j :: 0 <= j < |chars| && Matches(chars[j], uuid, Some(RequiredWriteProperty(writeType)))) ==>
              r.Some? && HasProperty(chars[r.value], RequiredWriteProperty(writeType)) &&
              forall j :: 0 <= j < r.value ==> !Matches(chars[j], uuid, Some(RequiredWriteProperty(writeType)))
    ensures (forall j :: 0 <= j < |chars| ==> !Matches(chars[j], uuid, Some(RequiredWriteProperty(writeType)))) ==>
              r == GetCharacteristic(chars, uuid)
  {
    match FirstMatch(chars, uuid, Some(RequiredWriteProperty(writeType)))
    case Some(i) => Some(i)
    case None => GetCharacteristic(chars, uuid)
  }

  /** findNotifyCharacteristic (Peripheral.java:337-348): a linear search that stops at the first hit. */
  method FindNotifyCharacteristic(service: seq<Characteristic>, characteristicUuid: Uuid) returns (found: Option<nat>)
    ensures found == NotifyCharacteristic(service, characteristicUuid)
  {
    found := None;
    for i := 0 to |service|
      invariant found == None
      invariant forall j :: 0 <= j < i ==> !Matches(service[j], characteristicUuid, Some(PROPERTY_NOTIFY))
    {
      if HasProperty(service[i], PROPERTY_NOTIFY) && characteristicUuid == service[i].uuid {
        found := Some(i);
        break;
      }
    }
  }

  /** findWritableCharacteristic (Peripheral.java:352-375): a search by UUID and write bit, then a fallback by UUID alone. */
  method FindWritableCharacteristic(service: seq<Characteristic>, characteristicUuid: Uuid, writeType: int)
    returns (found: Option<nat>)
    ensures found == WritableCharacteristic(service, characteristicUuid, writeType)
  {
    var writeProperty := PROPERTY_WRITE;
    if writeType == WRITE_TYPE_NO_RESPONSE {
      writeProperty := PROPERTY_WRITE_NO_RESPONSE;
    }
    found := None;
    for i := 0 to |service|
      invariant found == None
      invariant forall j :: 0 <= j < i ==> !Matches(service[j], characteristicUuid, Some(writeProperty))
    {
      if HasProperty(service[i], writeProperty) && characteristicUuid == service[i].uuid {
        found := Some(i);
        break;
      }
    }
    if found == None {
      found := GetCharacteristic(service, characteristicUuid);
    }
  }

  /** A characteristic that can indicate but not notify is never what findNotifyCharacteristic returns. */
  lemma IndicateOnlyIsNeverChosen(chars: seq<Characteristic>, uuid: Uuid, i: nat)
    requires i < |chars| && HasProperty(chars[i], PROPERTY_INDICATE) && !HasProperty(chars[i], PROPERTY_NOTIFY)
    ensures NotifyCharacteristic(chars, uuid) != Some(i)
  {
  }
}
