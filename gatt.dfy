/** GATT attribute table: services, characteristics and descriptors as values,
    the example table that the custom-service peripherals install, and the
    dispatch of a read or write to a characteristic's value. */
module Gatt {
  import opened Att
  import Handlers

  /** 16-bit assigned numbers (Bluetooth Assigned Numbers) or 128-bit UUIDs
      in their textual form. */
  datatype Uuid = Uuid16(short: int) | Uuid128(text: string)

  const DEVICE_INFORMATION_SERVICE: Uuid := Uuid16(0x180A)
  const BATTERY_SERVICE: Uuid := Uuid16(0x180F)
  const MANUFACTURER_NAME_STRING: Uuid := Uuid16(0x2A29)
  const CHARACTERISTIC_USER_DESCRIPTION: Uuid := Uuid16(0x2901)

  const CUSTOM_SERVICE: Uuid := Uuid128("50DB505C-8AC4-4738-8448-3B1D9CC09CC5")
  const ECHO_CHARACTERISTIC: Uuid := Uuid128("D901B45B-4916-412E-ACCA-376ECB603B2C")
  const GUARDED_CHARACTERISTIC: Uuid := Uuid128("552957FB-CF1F-4A31-9535-E78847E1A714")
  const HELLO_CHARACTERISTIC: Uuid := Uuid128("486F64C6-4B5F-4B3B-8AFF-EDE134A8446A")

  datatype Property = Read | Write | Notify
  datatype Permission = Readable | Writeable

  /** Which of the program's callbacks backs a value. */
  datatype ReadCallback = EchoReadCb | GuardedReadCb
  datatype WriteCallback = EchoWriteCb | GuardedWriteCb

  datatype CharValue =
    | Static(bytes: seq<byte>)
    | Callbacks(read: ReadCallback, write: WriteCallback)

  datatype Descriptor = Descriptor(uuid: Uuid, permissions: set<Permission>, value: seq<byte>)

  datatype Characteristic = Characteristic(
    uuid: Uuid,
    properties: set<Property>,
    permissions: set<Permission>,
    value: CharValue,
    descriptors: seq<Descriptor>)

  /** A service the program lays out itself, or the host stack's Battery
      Service profile, whose characteristics the host stack defines
      (its level callback is PeripheralKinds.ReadBatteryLevel). */
  datatype Service =
    | Service(uuid: Uuid, characteristics: seq<Characteristic>)
    | BatteryProfile

  function ServiceUuid(s: Service): Uuid {
    match s
    case Service(u, _) => u
    case BatteryProfile => BATTERY_SERVICE
  }

  /** Consistency of a characteristic: a property is declared exactly when
      the matching permission is, a callback-backed value serves both read
      and write, and a notifying characteristic carries a static value. */
  predicate WellFormed(ch: Characteristic) {
    && (Read in ch.properties <==> Readable in ch.permissions)
    && (Write in ch.properties <==> Writeable in ch.permissions)
    && (ch.value.Callbacks? ==> Read in ch.properties && Write in ch.properties)
    && (Notify in ch.properties ==> ch.value.Static?)
  }

  predicate WellFormedService(s: Service) {
    s.Service? ==> forall i :: 0 <= i < |s.characteristics| ==> WellFormed(s.characteristics[i])
  }

  /** Serving a read of a characteristic value: a static value is returned
      as is, a callback is invoked with the requesting connection. */
  function ReadValue(v: CharValue, c: Connection): (r: ReadOutcome)
    ensures v.Static? ==> r == ReadOk(v.bytes)
    ensures v.Callbacks? && v.read == GuardedReadCb ==> (r.ReadOk? <==> c.isEncrypted)
    ensures v.Callbacks? && v.read == EchoReadCb ==> r != ReadFailed(AttError(INSUFFICIENT_ENCRYPTION))
  {
    match v
    case Static(b) => ReadOk(b)
    case Callbacks(EchoReadCb, _) => Handlers.EchoRead(c)
    case Callbacks(GuardedReadCb, _) => Handlers.GuardedRead(c)
  }

  /** Serving a write through a callback; a static value has no callback of
      the program's (its storage is the host stack's), hence None. */
  function WriteValue(v: CharValue, c: Connection, data: seq<byte>): (r: Option<WriteOutcome>)
    ensures r.Some? <==> v.Callbacks?
    ensures v.Callbacks? && v.write == GuardedWriteCb ==> (r.value.WriteOk? <==> c.isEncrypted)
    ensures v.Callbacks? && v.write == EchoWriteCb ==> r.value.WriteOk?
  {
    match v
    case Static(_) => None
    case Callbacks(_, EchoWriteCb) => Some(Handlers.EchoWrite(c, data))
    case Callbacks(_, GuardedWriteCb) => Some(Handlers.GuardedWrite(c, data))
  }

  // The example table, installed by the custom-service peripheral, by the
  // single-server controller and by BleDevice1.

  function ManufacturerName(): Characteristic {
    Characteristic(
      MANUFACTURER_NAME_STRING, {Read}, {Readable},
      Static(AsciiBytes("Fitbit")),
      [Descriptor(CHARACTERISTIC_USER_DESCRIPTION, {Readable}, AsciiBytes("My Description"))])
  }

  function DeviceInfoService(): Service {
    Service(DEVICE_INFORMATION_SERVICE, [ManufacturerName()])
  }

  function CustomService(): Service {
    Service(CUSTOM_SERVICE, [
      Characteristic(ECHO_CHARACTERISTIC, {Read, Write}, {Readable, Writeable},
                     Callbacks(EchoReadCb, EchoWriteCb), []),
      Characteristic(GUARDED_CHARACTERISTIC, {Read, Write}, {Readable, Writeable},
                     Callbacks(GuardedReadCb, GuardedWriteCb), []),
      Characteristic(HELLO_CHARACTERISTIC, {Read, Notify}, {Readable},
                     Static(AsciiBytes("hello")), [])
    ])
  }

  /** The two services, device information first, then the custom one. */
  function ExampleServices(): (t: seq<Service>)
    ensures |t| == 2 && t[0].Service? && t[1].Service?
    ensures ServiceUuid(t[0]) == DEVICE_INFORMATION_SERVICE && ServiceUuid(t[1]) == CUSTOM_SERVICE
  {
    [DeviceInfoService(), CustomService()]
  }

  /** The device-information service: exactly one read-only characteristic,
      the manufacturer name "Fitbit", with one readable user description
      "My Description". */
  lemma DeviceInfoLayout(c: Connection)
    ensures var s := ExampleServices()[0];
      && |s.characteristics| == 1
      && var ch := s.characteristics[0];
      && ch.uuid == MANUFACTURER_NAME_STRING
      && ch.properties == {Read} && ch.permissions == {Readable}
      && AsciiDecode(ch.value.bytes) == "Fitbit"
      && ReadValue(ch.value, c) == ReadOk(ch.value.bytes)
      && |ch.descriptors| == 1
      && ch.descriptors[0].uuid == CHARACTERISTIC_USER_DESCRIPTION
      && ch.descriptors[0].permissions == {Readable}
      && AsciiDecode(ch.descriptors[0].value) == "My Description"
  {
    AsciiRoundTrip("Fitbit");
    AsciiRoundTrip("My Description");
  }

  /** The custom service: two callback-backed read/write characteristics
      (unguarded, then guarded) and a read/notify one with the static value
      "hello", in this order. */
  lemma CustomServiceLayout()
    ensures var s := ExampleServices()[1];
      && |s.characteristics| == 3
      && s.characteristics[0].uuid == ECHO_CHARACTERISTIC
      && s.characteristics[0].properties == {Read, Write}
      && s.characteristics[0].value == Callbacks(EchoReadCb, EchoWriteCb)
      && s.characteristics[1].uuid == GUARDED_CHARACTERISTIC
      && s.characteristics[1].properties == {Read, Write}
      && s.characteristics[1].value == Callbacks(GuardedReadCb, GuardedWriteCb)
      && s.characteristics[2].uuid == HELLO_CHARACTERISTIC
      && s.characteristics[2].properties == {Read, Notify}
      && s.characteristics[2].permissions == {Readable}
      && s.characteristics[2].value.Static?
      && AsciiDecode(s.characteristics[2].value.bytes) == "hello"
  {
    AsciiRoundTrip("hello");
  }

  lemma ExampleServicesWellFormed()
    ensures forall i :: 0 <= i < |ExampleServices()| ==> WellFormedService(ExampleServices()[i])
  {
  }

  /** Access through the table: only the guarded characteristic depends on
      encryption, and for it a read succeeds (with [123]) and a write
      succeeds exactly on an encrypted link. */
  lemma ExampleAccessControl(c: Connection, data: seq<byte>)
    ensures var chs := ExampleServices()[1].characteristics;
      && (ReadValue(chs[1].value, c) == ReadOk(Handlers.GUARDED_VALUE) <==> c.isEncrypted)
      && (WriteValue(chs[1].value, c, data) == Some(WriteOk) <==> c.isEncrypted)
      && (!c.isEncrypted ==> ReadValue(chs[1].value, c) == ReadFailed(AttError(INSUFFICIENT_ENCRYPTION)))
      && (!c.isEncrypted ==> WriteValue(chs[1].value, c, data) == Some(WriteFailed(AttError(INSUFFICIENT_ENCRYPTION))))
      && WriteValue(chs[0].value, c, data) == Some(WriteOk)
      && ReadValue(chs[0].value, c) == Handlers.EchoRead(c)
      && ReadValue(chs[2].value, c) == ReadOk(AsciiBytes("hello"))
  {
  }
}
