/** `BleDevice1`: a host-stack device subclass that configures itself with
    the fixed identity, attaches its connection listener and installs the
    example attribute table on construction. Its four read/write handlers
    are the ones of module Handlers, reached through the table's
    callback-backed values. */
module Device1 {
  import opened Att
  import opened Gatt
  import opened PeripheralKinds
  import Peripherals

  class BleDevice1 {
    const config: DeviceConfig
    /** The transport whose source and sink the device's host is built on. */
    const host: Peripherals.TransportHandle
    var listenerAttached: bool
    var services: seq<Service>

    /** `__init__`: the superclass gets the fixed configuration and a host
        on the transport; then the listener is set and the two services are
        added, device information first. */
    constructor (transport: Peripherals.TransportHandle)
      ensures config == Config(BUMBLE_NAME, BUMBLE_ADDRESS) && host == transport
      ensures listenerAttached && services == ExampleServices()
      ensures AsDevice() == CreateDevice(Example, BUMBLE_NAME, BUMBLE_ADDRESS, true).device
    {
      config := Config(BUMBLE_NAME, BUMBLE_ADDRESS);
      host := transport;
      listenerAttached := false;
      services := [];
      new;
      listenerAttached := true;
      AddServices([DeviceInfoService(), CustomService()]);
    }

    /** `add_services`: the services are appended to the device's table. */
    method AddServices(ss: seq<Service>)
      modifies this
      ensures services == old(services) + ss
      ensures listenerAttached == old(listenerAttached)
    {
      services := services + ss;
    }

    /** The device as the host stack sees it: it keeps the default
        advertising data. */
    function AsDevice(): Device
      reads this
    {
      Device(config, services, None, listenerAttached)
    }
  }

  /** The configuration dictionary of BleDevice1: name "Bumble", address
      F0:F1:F2:F3:F4:F5, interval 2000, the JSON key store and the fixed
      IRK, in the textual forms the host stack parses. */
  lemma Device1Configuration(d: Device)
    requires d == CreateDevice(Example, BUMBLE_NAME, BUMBLE_ADDRESS, true).device
    ensures d.config.name == "Bumble" && d.config.address == "F0:F1:F2:F3:F4:F5"
    ensures d.config.advertisingInterval == 2000 && d.config.keystore == "JsonKeyStore"
    ensures d.config.irk == "865F81FF5A8B486EAAE29A27AD9F77DC"
    ensures IsAddress(d.config.address) && IsIrk(d.config.irk)
  {
    FixedIdentityWellFormed();
  }

  /** Through BleDevice1's table: the guarded characteristic reads [123]
      and accepts a write exactly on an encrypted link and otherwise fails
      with Insufficient Encryption; the unguarded one never fails that way
      and always accepts a write. */
  lemma Device1AccessControl(d: Device, c: Connection, data: seq<byte>)
    requires d == CreateDevice(Example, BUMBLE_NAME, BUMBLE_ADDRESS, true).device
    ensures |d.services| == 2 && d.services[1].Service? && |d.services[1].characteristics| == 3
    ensures var chs := d.services[1].characteristics;
      && (ReadValue(chs[1].value, c) == ReadOk([123]) <==> c.isEncrypted)
      && (!c.isEncrypted ==> ReadValue(chs[1].value, c) == ReadFailed(AttError(0x0F)))
      && (WriteValue(chs[1].value, c, data) == Some(WriteOk) <==> c.isEncrypted)
      && (!c.isEncrypted ==> WriteValue(chs[1].value, c, data) == Some(WriteFailed(AttError(0x0F))))
      && WriteValue(chs[0].value, c, data) == Some(WriteOk)
      && ReadValue(chs[0].value, c) != ReadFailed(AttError(0x0F))
  {
    ExampleAccessControl(c, data);
  }
}
