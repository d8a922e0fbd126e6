# BLE emulator core, modelled in Dafny

The BLE emulator simulates Bluetooth Low Energy peripherals on top of a host
stack (bumble) so that a central (an Android emulator reached over
"android-netsim") can scan them, connect and read or write their GATT
characteristics. This project models the emulator's own logic and proves
properties of it:

- **The peripheral registry** (`BlePeripheralDatabase`): it stores started
  peripherals under fresh ids. A stop checks the peripheral, cancels its
  wait task, closes its transport and deletes the entry. Stop-all stops a
  snapshot of the entries in insertion order.
- **A peripheral's start sequence** (`BlePeripheral.start_peripheral`): open
  the transport, create the device, power it on, advertise with
  auto-restart, and spawn the task that awaits the transport's termination.
  There are two kinds of peripheral: the example GATT table and the battery
  service.
- **The GATT attribute table and its encryption-gated handlers.** The source
  has three identical copies: one in the example peripheral, one in the
  single-server controller and one in `BleDevice1`. The model defines them
  once, in `Handlers`.
- **The single-server controller** of `ble_emulator_server.py`: the module
  global `global_hci_transport` is None, the open transport, or the
  exception that ended the server task. It is moved by `gatt_server_task`
  and read by `gatt_server_start` and `gatt_server_status`.
- **`BleDevice1`**: a device subclass with the fixed identity and the
  example table.

Modules, in dependency order:

- `Att`: bytes, the ATT error code, the connection, the ASCII and
  little-endian encodings.
- `Handlers`.
- `Gatt`: the attribute table as values, the example table, and dispatch
  through it.
- `PeripheralKinds`: kinds, device configuration, device construction,
  battery advertising.
- `Peripherals`: the `Peripheral` class and its start sequence.
- `Registry`: the `Database` class.
- `EmulatorServer`: the `Controller` class and the HTTP answers.
- `Device1`: the `BleDevice1` class.

The host stack is not modelled. A peripheral's transport and wait task are
values inside the `Peripheral` object:

- the transport records how often it was closed;
- the wait task records whether it was cancelled.

Each host-stack call is a step appended to a ghost trace. Whether a start's
fallible calls raise (opening the transport, building the device, power-on,
advertising) is an input, `HostBehaviour`; how a server task run goes is an
input, `TaskRun`. Cancelling the wait task and closing the transport are
taken never to raise.

## Model

| member | source | states |
|---|---|---|
| `Att.AsciiEncode` | ble_emulator/ble_peripheral.py:169 | `bytes(s, "ascii")` succeeds exactly when every character is ASCII, giving one byte per character with the character's code |
| `Att.AsciiBytes` | ble_emulator/ble_peripheral.py:220 | the encoding of an ASCII string (`utf-8` and `ascii` agree on it) has one byte per character, equal to its code |
| `Att.AsciiDecode` | ble_emulator/ble_peripheral.py:122 | not code of the source: the inverse of the encoding, used to read back the encoded literals such as "My Description"; one character per byte, with the byte's code |
| `Att.AsciiRoundTrip` | ble_emulator/ble_peripheral.py:128 | decoding the ASCII encoding of an ASCII string gives the string back |
| `Att.AsciiConcat` | ble_emulator/ble_peripheral.py:169 | a concatenation is ASCII exactly when both parts are |
| `Att.PackU16Le` | ble_emulator/ble_peripheral.py:226 | `struct.pack("<H", x)` gives two bytes, low byte first, whose value is x |
| `Att.UnpackU16Le` | ble_emulator/ble_peripheral.py:229 | not code of the source: the little-endian reading of two bytes, used to check the packed service data; its value is below 0x10000 |
| `Att.PackUnpack` | ble_emulator/ble_peripheral.py:229 | packing the decoded value of any two bytes reproduces them |
| `Handlers.EchoRead` | ble_emulator_server.py:108-110 | the unguarded read returns the ASCII bytes of "Hello " followed by the printed connection; it fails, with an encoding error, exactly when that text is not ASCII |
| `Handlers.EchoWrite` | ble_emulator_server.py:113-114 | the unguarded write always succeeds |
| `Handlers.GuardedRead` | ble_emulator/ble_peripheral.py:174-179 | the guarded read returns [123] if and only if the link is encrypted, and otherwise fails with ATT error 0x0F |
| `Handlers.GuardedWrite` | ble_emulator/ble_peripheral.py:181-184 | the guarded write fails if and only if the link is not encrypted, and then with ATT error 0x0F |
| `Handlers.UnguardedIgnoresEncryption` | ble_emulator/ble_device_1.py:91-96 | the unguarded pair gives the same outcome whatever the link's encryption, and never the encryption error |
| `Handlers.GuardedDependsOnlyOnEncryption` | ble_emulator_server.py:117-128 | the guarded pair depends on nothing but the encryption flag; the written value is never inspected |
| `Gatt.ReadValue` | ble_emulator/ble_peripheral.py:137-158 | a static value is read as is; the guarded callback succeeds exactly on an encrypted link; the unguarded one never raises the encryption error |
| `Gatt.WriteValue` | ble_emulator/ble_peripheral.py:141-153 | a write reaches a callback exactly for a callback-backed value; the guarded one succeeds exactly on an encrypted link, the unguarded one always does |
| `Gatt.ExampleServices` | ble_emulator/ble_peripheral.py:162 | exactly two services are installed, device information first, then the custom service 50DB505C-… |
| `Gatt.DeviceInfoLayout` | ble_emulator/ble_peripheral.py:119-133 | the device-information service has one characteristic, the manufacturer name: read-only, readable, value "Fitbit", with one readable user description "My Description" |
| `Gatt.CustomServiceLayout` | ble_emulator/ble_peripheral.py:134-161 | the custom service has, in order, the unguarded read/write characteristic, the guarded read/write one, and the read/notify one with the static value "hello" |
| `Gatt.ExampleServicesWellFormed` | ble_emulator/ble_peripheral.py:124-160 | in every characteristic of the example table, properties and permissions agree, callbacks serve both read and write, and the notifying one has a static value |
| `Gatt.ExampleAccessControl` | ble_emulator/ble_peripheral.py:145-153 | reached through the table, the guarded characteristic reads [123] and accepts writes exactly on an encrypted link, and fails with 0x0F otherwise; the unguarded one accepts every write; "hello" is served as is |
| `PeripheralKinds.ParseKind` | ble_emulator/ble_peripheral.py:240-242 | looking a kind up by its string value finds the kind with that value, or none when no kind has it |
| `PeripheralKinds.ParseKindValue` | ble_emulator/ble_peripheral.py:241-242 | every kind is found again from its own string value |
| `PeripheralKinds.Config` | ble_emulator/ble_peripheral.py:105-113 | the configuration keeps the given name and address, with interval 2000, the JSON key store and the fixed IRK |
| `PeripheralKinds.FixedIdentityWellFormed` | ble_emulator/ble_device_1.py:32-40 | the fixed address is six colon-separated hex pairs and the IRK is 32 hex digits |
| `PeripheralKinds.BatteryAdvertising` | ble_emulator/ble_peripheral.py:215-234 | the battery advertising data is, in order: the local name "Bumble Battery", the 16-bit UUID list 0F 18, the appearance 40 03 and the service data 0F 18 64 |
| `PeripheralKinds.ServiceDataDecodes` | ble_emulator/ble_peripheral.py:227-230 | the service data decodes to the battery service UUID 0x180F and the level 100 |
| `PeripheralKinds.ReadBatteryLevel` | ble_emulator/ble_peripheral.py:211 | the battery level callback returns a value between 0 and 100 inclusive |
| `PeripheralKinds.CreateDevice` | ble_emulator/ble_peripheral.py:101-237 | a device is built exactly when the transport is set; it keeps the name and address and has the listener attached; the example kind installs the example table, the battery kind the battery profile and custom advertising data |
| `PeripheralKinds.BatteryAdvertisedNameIsFixed` | ble_emulator/ble_peripheral.py:218-221 | the battery peripheral advertises the same data whatever name and address it was given |
| `PeripheralKinds.CreatedDevicesWellFormed` | ble_emulator/ble_peripheral.py:118-162 | the example kind installs only well-formed services (the battery profile's characteristics are not checked) |
| `Peripherals.ExpectedOutcome` | ble_emulator/ble_peripheral.py:76-85 | a start succeeds exactly when opening, building the device, power-on and advertising all return; otherwise the first of them that raises is the error |
| `Peripherals.StepsCompleted` | ble_emulator/ble_peripheral.py:76-89 | all five steps complete exactly when the start succeeds, at least one exactly when the transport opened, at least two exactly when the device was also built, at least three exactly when power-on also succeeded, and a start never stops after advertising began |
| `Peripherals.StartPrefixOrdered` | ble_emulator/ble_peripheral.py:71-89 | in whatever prefix of a start has run, the wait task follows advertising, advertising follows power-on, power-on follows device creation, and opening the transport comes first |
| `Peripherals.Peripheral.constructor` | ble_emulator/ble_peripheral.py:251-255 | `create_ble_peripheral` keeps kind, name and address, with no transport and no wait task |
| `Peripherals.Peripheral.Start` | ble_emulator/ble_peripheral.py:71-89 | the outcome is that of the first raising step; the trace grows by exactly the steps completed; the transport is set once opening succeeded, the wait task only when the whole start succeeded; nothing is undone on failure |
| `Peripherals.Peripheral.CancelWaitTask` | ble_emulator/ble_peripheral.py:43 | the wait task is cancelled; the transport is unchanged |
| `Peripherals.Peripheral.CloseTransport` | ble_emulator/ble_peripheral.py:44 | the transport's close count rises by one; the wait task is unchanged |
| `Registry.Precheck` | ble_emulator/ble_peripheral.py:40-41 | a stop passes its asserts exactly when the transport and the wait task are both set; the transport is checked first |
| `Registry.PrecheckOf` | ble_emulator/ble_peripheral.py:40-41 | the same two asserts on a recorded (transport, wait task) state, which is how stop-all's contract names the state of an entry before any stop ran |
| `Registry.IndexOf` | ble_emulator/ble_peripheral.py:39 | the lookup finds the first entry under the id, and fails exactly when no entry has it |
| `Registry.RemovedIdAbsent` | ble_emulator/ble_peripheral.py:46 | after the deletion no entry has the id, the ids still increase, and one entry fewer remains |
| `Registry.Database.constructor` | ble_emulator/ble_peripheral.py:30-31 | a new registry is empty |
| `Registry.Database.AddPeripheral` | ble_emulator/ble_peripheral.py:33-36 | the id was not a key before; the entry is appended under it and nothing else changes |
| `Registry.Database.StopPeripheral` | ble_emulator/ble_peripheral.py:38-46 | an unknown id gives NotFound and a failed assert gives its error, changing nothing; otherwise exactly that peripheral is changed: the wait task cancelled before the transport is closed once more; exactly that entry is deleted and the id is gone |
| `Registry.Database.StopFirst` | ble_emulator/ble_peripheral.py:49-50 | one round of stop-all stops the first remaining entry, whose error is its asserts on its recorded state; no other peripheral's transport or wait task changes; a failing round changes nothing |
| `Registry.Database.StopAll` | ble_emulator/ble_peripheral.py:48-50 | the entries of a snapshot are stopped in insertion order, each state recorded before any stop ran; on success the registry is empty and every entry was stopped; the first failing stop ends it, leaving the failing entry and the ones after it, with exactly the entries before it stopped. With no peripheral stored twice: the stop-all succeeds exactly when every recorded state passes the asserts; a failure is the failing entry's asserts on its state before any stop ran, and every entry before it passed them; each stopped entry has its wait task cancelled and its transport closed once, and every other entry keeps its transport and wait task |
| `Registry.StopAllScenario` | ble_emulator/ble_peripheral.py:48-50 | two peripherals started on a working host, added and stopped together: the stop-all succeeds, the registry ends empty, and each transport was closed once |
| `Registry.StopTwice` | ble_emulator/ble_peripheral.py:38-46 | after a successful stop, a second stop of the same id fails at the lookup; the transport was closed exactly once |
| `Registry.StopTwiceScenario` | ble_emulator/ble_peripheral.py:39-46 | a peripheral started on a working host, added and stopped twice: the first stop succeeds, the second gives NotFound, and its transport was closed once |
| `EmulatorServer.Assignments` | ble_emulator_server.py:137-221 | the task stores the transport when it has connected; an exception is stored when opening fails or a later step raises; a normal end stores nothing more |
| `EmulatorServer.HistoryMoves` | ble_emulator_server.py:131-221 | along any history of moves, a later value is reachable from an earlier one: the global never returns to None and an exception, once stored, stays |
| `EmulatorServer.AssignmentsAreMoves` | ble_emulator_server.py:143-221 | the task's assignments move the global None → transport → exception or None → exception |
| `EmulatorServer.StatusResponse` | ble_emulator_server.py:250-269 | status is 503 exactly for None, 500 with the error text exactly for an exception, 200 exactly for a transport |
| `EmulatorServer.StartAnswer` | ble_emulator_server.py:233-245 | once the global is set, start answers 200 for a transport and 500 with the error text for an exception |
| `EmulatorServer.StartAgreesWithStatus` | ble_emulator_server.py:233-269 | start and a status read while the global still holds the value the start answered from report the same code, and the same body for a failure |
| `EmulatorServer.Observed` | ble_emulator_server.py:229-231 | the poll loop sees a set global; it sees a transport only if the task connected, and the exception when opening failed |
| `EmulatorServer.ServerDevice` | ble_emulator_server.py:146-206 | the server's device is the example table under name "Bumble" and address F0:F1:F2:F3:F4:F5 with the default advertising data |
| `EmulatorServer.Controller.constructor` | ble_emulator_server.py:131 | the global starts at None |
| `EmulatorServer.Controller.TaskStep` | ble_emulator_server.py:143-221 | the task makes its next assignment, which is recorded in the history |
| `EmulatorServer.Controller.Start` | ble_emulator_server.py:224-247 | with the global at None the task runs until the global is set, and the answer is read from it; otherwise "already running", nothing changed, also after a failure |
| `EmulatorServer.StartTwice` | ble_emulator_server.py:224-269 | a second start always raises "already running", and a status read while the global still holds the value the first start answered from agrees with that answer |
| `EmulatorServer.StartThenLaterFailure` | ble_emulator_server.py:207-269 | a start that answers 200 can be followed by a 500 status carrying the error text once the task has stored the exception that power-on, advertising or the wait later raised |
| `Device1.BleDevice1.constructor` | ble_emulator/ble_device_1.py:30-89 | the device gets the fixed configuration, a host on the transport, the listener, and the two example services, in this order |
| `Device1.BleDevice1.AddServices` | ble_emulator/ble_device_1.py:89 | the services are appended to the table |
| `Device1.Device1Configuration` | ble_emulator/ble_device_1.py:32-40 | name "Bumble", address F0:F1:F2:F3:F4:F5, interval 2000, the JSON key store and the fixed IRK, in well-formed textual forms |
| `Device1.Device1AccessControl` | ble_emulator/ble_device_1.py:98-108 | through BleDevice1's table: the guarded characteristic reads [123] and accepts writes exactly when encrypted, otherwise fails with 0x0F; the unguarded one never does |

## Left out

- The bumble host stack is left out, because its calls are foreign code. This covers opening the transport, configuration parsing, `Device`/`Host` construction, `power_on`, `start_advertising`, `add_services`, `wait_for_termination` and `close`. Each is a trace step. Whether opening, building the device, power-on and advertising raise is an input; why the host stack raises (a malformed address, say) is not modelled.
- `Peripherals.Peripheral.CloseTransport` and `Peripherals.Peripheral.CancelWaitTask` never raise. A raising `close` (ble_emulator/ble_peripheral.py:44) would leave the entry stored with its task already cancelled; a raising `close` is not an outcome of the model.
- The AD-structure framing of `AdvertisingData` and the ATT encoding itself are the host stack's.
- The asyncio event loop is left out, because it is concurrency and timing. This covers task creation, cancellation and its delivery, and the 0.1 s sleep-poll of `gatt_server_start`. The poll is modelled as "run the task until the global is set"; the task may have made its second assignment before the poll looked (`raced`).
- Two `gatt_server_start` requests interleaved are not modelled. Both seeing None and spawning two tasks needs concurrency.
- `Registry.StopTwice`: "closed exactly once" holds for stops made one after the other. Two concurrent stops of one id can both pass the lookup and the asserts while one waits in `close`, so the transport is closed twice and the second deletion raises KeyError; interleaving is not modelled.
- `random.randint` in the battery stub becomes a nondeterministic choice. Only its range is stated.
- `uuid4` ids become a counter. Fresh ids are guaranteed; the source relies on uuid4 collisions being improbable.
- The dictionary is its entries in insertion order, which is the order Python dicts iterate in.
- The transport and the wait task are values held by the peripheral, not separate objects. Aliasing between a transport and other handles is not modelled.
- A peripheral stored under two ids is allowed, as in the source. `Registry.Database.StopAll` states "closed exactly once" only when no peripheral is stored twice; otherwise such a transport is really closed twice.
- Python `assert` statements are taken as active (not run with `-O`).
- ADB and subprocess calls, FastAPI routing and the exception handler's wiring, `ble_emulator/main.py`, `ble_emulator/ble_gatt_server.py`, the launch scripts, the GUI, the tests and logging are not part of this model.
- The debug listing of attributes and the `Listener` callbacks only log and register themselves on the connection; they are modelled as "listener attached".
- `PeripheralKinds.CreatedDevicesWellFormed` checks the example table only. The battery profile's characteristics (the READ/NOTIFY battery level with a read callback) are the host stack's and are not modelled, so they are not checked; they would not meet `Gatt.WellFormed` as it stands.
- The model keeps these behaviours of the code:
  - A failed start does not close an opened transport.
  - `stop_all` stops at the first failure instead of aggregating errors.
  - A double stop fails with a lookup error (NotFound), not an invalid-state error.
  - The wait task does not move the peripheral to a failed state.
  - A server task that ends normally leaves the closed transport in the global, so status keeps answering 200.
  - The unguarded read can fail when the printed connection is not ASCII.
