/**
  The slice of the Android Bluetooth API the plugin talks to: identifiers, characteristics and
  their property bits, the framework constants the plugin compares against, and the requests it
  makes of the radio stack (recorded, never performed).
 */
module Android {

  type Byte = bv8

  /** A UUID, identified by its text. */
  datatype Uuid = Uuid(text: string)

  /** UUIDHelper.uuidFromString: a string names a UUID. */
  function UuidFromString(s: string): Uuid
  {
    Uuid(s)
  }

  /** The client characteristic configuration descriptor (0x2902). */
  const CLIENT_CHARACTERISTIC_CONFIGURATION_UUID: Uuid := UuidFromString("2902")

  /** A remote device, known by its hardware address. */
  datatype DeviceId = DeviceId(address: string)

  // BluetoothGattCharacteristic property bits
  const PROPERTY_WRITE_NO_RESPONSE: bv32 := 0x04
  const PROPERTY_WRITE: bv32 := 0x08
  const PROPERTY_NOTIFY: bv32 := 0x10
  const PROPERTY_INDICATE: bv32 := 0x20

  // BluetoothGattCharacteristic write types
  const WRITE_TYPE_NO_RESPONSE: int := 1
  const WRITE_TYPE_DEFAULT: int := 2

  // BluetoothGatt status codes; 133 is the stack's generic GATT_ERROR
  const GATT_SUCCESS: int := 0
  const GATT_ERROR: int := 133

  // BluetoothProfile connection states
  const STATE_DISCONNECTED: int := 0
  const STATE_CONNECTING: int := 1
  const STATE_CONNECTED: int := 2
  const STATE_DISCONNECTING: int := 3

  /** BluetoothGattDescriptor.ENABLE_NOTIFICATION_VALUE */
  const ENABLE_NOTIFICATION_VALUE: seq<Byte> := [0x01, 0x00]

  /** A GATT characteristic as a service lists it: its UUID, its property bitmask and the UUIDs of its descriptors. */
  datatype Characteristic = Characteristic(uuid: Uuid, properties: bv32, descriptors: seq<Uuid>)

  predicate HasProperty(c: Characteristic, property: bv32)
  {
    (c.properties & property) != 0
  }

  /** The peripheral's `gatt` field: null, a live session, or a handle that `close()` has released. */
  datatype Gatt = NullGatt | OpenGatt | ClosedGatt

  /** Calls the plugin makes on a device's GATT session. */
  datatype GattRequest =
    | ConnectGatt(device: DeviceId, autoConnect: bool)
    | Disconnect
    | CloseGatt
    | DiscoverServices
    | WriteCharacteristic(characteristic: Characteristic, value: seq<Byte>, writeType: int)
    | SetCharacteristicNotification(characteristic: Characteristic, enable: bool)
    | WriteDescriptor(characteristic: Characteristic, descriptor: Uuid, value: seq<Byte>)

  /** Calls the plugin makes on the Bluetooth adapter. */
  datatype AdapterRequest = StartLeScan | StopLeScan
}
