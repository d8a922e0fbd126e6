/** The two kinds of simulated peripheral, the configuration both hand to the
    host stack, and the device each kind builds on an open transport. */
module PeripheralKinds {
  import opened Att
  import opened Gatt

  /** `BlePeripheralType`, a string enum whose values are the lower-cased
      member names. */
  datatype Kind = Example | BatteryService

  function KindValue(k: Kind): string {
    match k
    case Example => "example"
    case BatteryService => "batteryservice"
  }

  /** Looking a kind up by its string value, as `BlePeripheralType(s)` does. */
  function ParseKind(s: string): (r: Option<Kind>)
    ensures r.Some? ==> KindValue(r.value) == s
    ensures r.None? ==> forall k: Kind :: KindValue(k) != s
  {
    if s == "example" then Some(Example)
    else if s == "batteryservice" then Some(BatteryService)
    else None
  }

  lemma ParseKindValue(k: Kind)
    ensures ParseKind(KindValue(k)) == Some(k)
  {
  }

  const ADVERTISING_INTERVAL: int := 2000
  const KEYSTORE: string := "JsonKeyStore"
  const IRK: string := "865F81FF5A8B486EAAE29A27AD9F77DC"

  /** The dictionary given to `DeviceConfiguration.from_dict`. */
  datatype DeviceConfig = DeviceConfig(
    name: string, address: string, advertisingInterval: int, keystore: string, irk: string)

  /** Every peripheral variant shares the interval, key store and IRK; only
      the name and the address vary. */
  function Config(name: string, address: string): (cfg: DeviceConfig)
    ensures cfg.name == name && cfg.address == address
    ensures cfg.advertisingInterval == 2000 && cfg.keystore == "JsonKeyStore"
    ensures cfg.irk == IRK
  {
    DeviceConfig(name, address, ADVERTISING_INTERVAL, KEYSTORE, IRK)
  }

  /** The fixed identity of the single-server controller and of BleDevice1. */
  const BUMBLE_NAME: string := "Bumble"
  const BUMBLE_ADDRESS: string := "F0:F1:F2:F3:F4:F5"

  predicate IsHexDigit(ch: char) {
    '0' <= ch <= '9' || 'A' <= ch <= 'F' || 'a' <= ch <= 'f'
  }

  /** An identity resolving key of 16 bytes, written as 32 hex digits. */
  predicate IsIrk(s: string) {
    |s| == 32 && forall i :: 0 <= i < |s| ==> IsHexDigit(s[i])
  }

  /** The textual form of a BLE device address, XX:XX:XX:XX:XX:XX. */
  predicate IsAddress(s: string) {
    && |s| == 17
    && forall i :: 0 <= i < 17 ==> if i % 3 == 2 then s[i] == ':' else IsHexDigit(s[i])
  }

  /** The fixed address and key have the textual forms the host stack
      parses. */
  lemma FixedIdentityWellFormed()
    ensures IsAddress(BUMBLE_ADDRESS) && IsIrk(IRK)
  {
  }

  /** AD types used by the battery peripheral (Bluetooth Assigned Numbers,
      "Common Data Types"). */
  const AD_INCOMPLETE_LIST_OF_16_BIT_SERVICE_UUIDS: byte := 0x02
  const AD_COMPLETE_LOCAL_NAME: byte := 0x09
  const AD_SERVICE_DATA_16_BIT_UUID: byte := 0x16
  const AD_APPEARANCE: byte := 0x19

  /** One advertising-data structure: its type and payload (the length
      framing is the host stack's). */
  datatype AdEntry = AdEntry(adType: byte, data: seq<byte>)

  const BATTERY_ADVERTISED_NAME: string := "Bumble Battery"
  const BATTERY_APPEARANCE: int := 0x0340
  const BATTERY_SERVICE_SHORT: int := 0x180F
  /** The example battery level (100 %) carried in the service data. */
  const ADVERTISED_LEVEL: byte := 0x64

  /** The battery peripheral's advertising data: local name, the battery
      service's 16-bit UUID, the appearance and the service data. */
  function BatteryAdvertising(): (ad: seq<AdEntry>)
    ensures |ad| == 4
    ensures ad[0] == AdEntry(AD_COMPLETE_LOCAL_NAME, AsciiBytes(BATTERY_ADVERTISED_NAME))
    ensures ad[1] == AdEntry(AD_INCOMPLETE_LIST_OF_16_BIT_SERVICE_UUIDS, [0x0F, 0x18])
    ensures ad[2] == AdEntry(AD_APPEARANCE, [0x40, 0x03])
    ensures ad[3] == AdEntry(AD_SERVICE_DATA_16_BIT_UUID, [0x0F, 0x18, 0x64])
  {
    [
      AdEntry(AD_COMPLETE_LOCAL_NAME, AsciiBytes(BATTERY_ADVERTISED_NAME)),
      AdEntry(AD_INCOMPLETE_LIST_OF_16_BIT_SERVICE_UUIDS, PackU16Le(BATTERY_SERVICE_SHORT)),
      AdEntry(AD_APPEARANCE, PackU16Le(BATTERY_APPEARANCE)),
      AdEntry(AD_SERVICE_DATA_16_BIT_UUID, PackU16Le(BATTERY_SERVICE_SHORT) + [ADVERTISED_LEVEL])
    ]
  }

  /** The service data decodes back to the battery service UUID followed by
      the level 100 %. */
  lemma ServiceDataDecodes()
    ensures var d := BatteryAdvertising()[3].data;
      UnpackU16Le(d[..2]) == BATTERY_SERVICE_SHORT && d[2] as int == 100
    ensures UnpackU16Le(BatteryAdvertising()[1].data) == BATTERY_SERVICE_SHORT
    ensures Uuid16(BATTERY_SERVICE_SHORT) == ServiceUuid(BatteryProfile)
  {
  }

  /** The battery level callback: `random.randint(0, 100)`, any value in the
      inclusive range. */
  method ReadBatteryLevel() returns (level: int)
    ensures 0 <= level <= 100
  {
    level :| 0 <= level <= 100;
  }

  /** A device handed to the host stack: configuration, installed services,
      custom advertising data (None keeps the host stack's default) and
      whether the connection listener is attached. */
  datatype Device = Device(
    config: DeviceConfig,
    services: seq<Service>,
    advertisingData: Option<seq<AdEntry>>,
    listenerAttached: bool)

  /** `create_device` asserts that the transport is open. */
  datatype BuildResult = Built(device: Device) | TransportNotSet

  /** `create_device` of the two peripheral classes, selected by kind. */
  function CreateDevice(kind: Kind, name: string, address: string, hasTransport: bool): (r: BuildResult)
    ensures r.Built? <==> hasTransport
    ensures r.Built? ==> r.device.config == Config(name, address) && r.device.listenerAttached
    ensures r.Built? ==> (kind == Example <==> r.device.services == ExampleServices())
    ensures r.Built? ==> (kind == BatteryService <==> r.device.advertisingData.Some?)
    ensures r.Built? && kind == Example ==> r.device.advertisingData.None?
    ensures r.Built? && kind == BatteryService ==>
      r.device.services == [BatteryProfile] && r.device.advertisingData == Some(BatteryAdvertising())
  {
    if !hasTransport then TransportNotSet
    else match kind
      case Example =>
        Built(Device(Config(name, address), ExampleServices(), None, true))
      case BatteryService =>
        Built(Device(Config(name, address), [BatteryProfile], Some(BatteryAdvertising()), true))
  }

  /** The battery peripheral advertises the fixed name "Bumble Battery",
      whatever name it was configured with. */
  lemma BatteryAdvertisedNameIsFixed(n1: string, a1: string, n2: string, a2: string)
    ensures CreateDevice(BatteryService, n1, a1, true).device.advertisingData
         == CreateDevice(BatteryService, n2, a2, true).device.advertisingData
  {
  }

  /** The example kind installs only well-formed services. The battery
      kind's `BatteryProfile` is the host stack's service, whose
      characteristics are not part of this model, so for it the statement
      holds by construction and checks nothing. */
  lemma CreatedDevicesWellFormed(kind: Kind, name: string, address: string)
    ensures var d := CreateDevice(kind, name, address, true).device;
      forall i :: 0 <= i < |d.services| ==> WellFormedService(d.services[i])
  {
    ExampleServicesWellFormed();
  }
}
