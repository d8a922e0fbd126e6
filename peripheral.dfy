/** One simulated peripheral: the host-stack resources it owns and the fixed
    sequence of host-stack calls that starts it. The host stack's calls are
    steps recorded in a ghost trace; their own behaviour is not modelled,
    only whether each fallible one raised. */
module Peripherals {
  import opened Att
  import opened PeripheralKinds

  /** What the model sees of the host stack's transport: how often its
      `close` was called. */
  datatype TransportHandle = TransportHandle(closeCount: nat)

  /** The background task awaiting the transport's termination. */
  datatype WaitTask = WaitTask(cancelled: bool)

  /** The host-stack calls of a start, in the order they are made. */
  datatype Step =
    | OpenTransport
    | DeviceCreated(device: Device)
    | PowerOn
    | StartAdvertising(autoRestart: bool)
    | SpawnWaitTask
    | WaitTaskCancelled
    | TransportClosed

  /** Whether each fallible host-stack call of a start returns or raises:
      opening the transport, building the device (`create_device`, which
      parses the configuration and constructs the device and its host),
      powering on, and starting to advertise. */
  datatype HostBehaviour = HostBehaviour(openOk: bool, deviceOk: bool, powerOnOk: bool, advertiseOk: bool)

  datatype StartOutcome = Started | OpenFailed | DeviceFailed | PowerOnFailed | AdvertisingFailed

  function StartSequence(d: Device): seq<Step> {
    [OpenTransport, DeviceCreated(d), PowerOn, StartAdvertising(true), SpawnWaitTask]
  }

  /** The first call that raises ends the start; the exception propagates. */
  function ExpectedOutcome(h: HostBehaviour): (o: StartOutcome)
    ensures o.Started? <==> h.openOk && h.deviceOk && h.powerOnOk && h.advertiseOk
    ensures o == OpenFailed <==> !h.openOk
    ensures o == DeviceFailed <==> h.openOk && !h.deviceOk
    ensures o == PowerOnFailed <==> h.openOk && h.deviceOk && !h.powerOnOk
    ensures o == AdvertisingFailed <==> h.openOk && h.deviceOk && h.powerOnOk && !h.advertiseOk
  {
    if !h.openOk then OpenFailed
    else if !h.deviceOk then DeviceFailed
    else if !h.powerOnOk then PowerOnFailed
    else if !h.advertiseOk then AdvertisingFailed
    else Started
  }

  /** How many steps of StartSequence complete before the first raise. */
  function StepsCompleted(h: HostBehaviour): (k: nat)
    ensures k <= 5
    ensures k == 5 <==> ExpectedOutcome(h).Started?
    ensures k >= 1 <==> h.openOk
    ensures k >= 2 <==> h.openOk && h.deviceOk
    ensures k >= 3 <==> h.openOk && h.deviceOk && h.powerOnOk
    ensures k >= 4 ==> k == 5
  {
    if !h.openOk then 0
    else if !h.deviceOk then 1
    else if !h.powerOnOk then 2
    else if !h.advertiseOk then 3
    else 5
  }

  /** In every prefix of a start, the wait task is spawned only after
      advertising has started, which comes after power-on, which comes after
      the device is created on an opened transport. */
  lemma StartPrefixOrdered(d: Device, h: HostBehaviour)
    ensures var t := StartSequence(d)[..StepsCompleted(h)];
      && (SpawnWaitTask in t ==> t[|t| - 2] == StartAdvertising(true))
      && (StartAdvertising(true) in t ==> t[..3] == [OpenTransport, DeviceCreated(d), PowerOn])
      && (PowerOn in t ==> t[..2] == [OpenTransport, DeviceCreated(d)])
      && (t != [] ==> t[0] == OpenTransport)
  {
  }

  class Peripheral {
    const kind: Kind
    const name: string
    const address: string
    var transport: Option<TransportHandle>
    var waitTask: Option<WaitTask>
    ghost var trace: seq<Step>

    /** `create_ble_peripheral`: the class for the kind, with the given name
        and address, nothing opened yet. */
    constructor (kind: Kind, name: string, address: string)
      ensures this.kind == kind && this.name == name && this.address == address
      ensures transport == None && waitTask == None && trace == []
    {
      this.kind := kind;
      this.name := name;
      this.address := address;
      transport := None;
      waitTask := None;
      trace := [];
    }

    /** The device `create_device` builds once the transport is open. */
    function BuiltDevice(): Device {
      CreateDevice(kind, name, address, true).device
    }

    /** `start_peripheral`: open the transport, create the device, power it
        on, advertise with auto-restart, then spawn the task awaiting the
        transport's termination. A raising step ends the start: what was set
        before it stays set and nothing is undone. */
    method Start(host: HostBehaviour) returns (outcome: StartOutcome)
      modifies this
      ensures outcome == ExpectedOutcome(host)
      ensures trace == old(trace) + StartSequence(BuiltDevice())[..StepsCompleted(host)]
      ensures transport == if host.openOk then Some(TransportHandle(0)) else old(transport)
      ensures waitTask == if outcome.Started? then Some(WaitTask(false)) else old(waitTask)
    {
      if !host.openOk {
        return OpenFailed;
      }
      transport := Some(TransportHandle(0));
      trace := trace + [OpenTransport];

      if !host.deviceOk {
        return DeviceFailed;
      }
      var device := CreateDevice(kind, name, address, transport.Some?).device;
      trace := trace + [DeviceCreated(device)];

      if !host.powerOnOk {
        return PowerOnFailed;
      }
      trace := trace + [PowerOn];

      if !host.advertiseOk {
        return AdvertisingFailed;
      }
      trace := trace + [StartAdvertising(true)];

      waitTask := Some(WaitTask(false));
      trace := trace + [SpawnWaitTask];
      outcome := Started;
    }

    /** `wait_task.cancel()`. */
    method CancelWaitTask()
      requires waitTask.Some?
      modifies this
      ensures waitTask == Some(WaitTask(true))
      ensures transport == old(transport) && trace == old(trace) + [WaitTaskCancelled]
    {
      waitTask := Some(WaitTask(true));
      trace := trace + [WaitTaskCancelled];
    }

    /** `transport.close()`. */
    method CloseTransport()
      requires transport.Some?
      modifies this
      ensures transport == Some(TransportHandle(old(transport.value.closeCount) + 1))
      ensures waitTask == old(waitTask) && trace == old(trace) + [TransportClosed]
    {
      transport := Some(TransportHandle(transport.value.closeCount + 1));
      trace := trace + [TransportClosed];
    }
  }
}
