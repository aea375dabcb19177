# Locker BLE central plugin — a Dafny model

This project models the Android side of a Cordova Bluetooth Low Energy plugin that connects a phone to
door lockers. The JavaScript layer calls `execute(action, args, callbackContext)` on the plugin
(`BLECentralPlugin`). The plugin scans for advertisements, keeps one *active peripheral*, and forwards
connect, disconnect, write and subscribe commands to it. A `Peripheral` is a GATT client with a small
state machine: it holds one *command context* (the caller a later radio event resolves), one
*notify context* (the subscriber), and the flags `expectDisconnect`, `servicesDiscovered`,
`processing` and `connected`. It reacts to radio callbacks:

- connection-state changes;
- service discovery;
- descriptor and characteristic writes;
- notifications.

When a link drops, a disconnect timer resolves the command context: with success when the disconnect
was asked for, and with an error otherwise. Two finders pick the characteristic a write or a
subscription uses. Some devices reuse one UUID for several characteristics, so both finders check the
property bits as well as the UUID.

Layout:

- `android.dfy`, `cordova.dfy`, `options.dfy`: the platform vocabulary.
  - Android: UUIDs, characteristics with their property bits, the GATT handle, and the requests the
    code makes of the radio and the adapter, with their constants.
  - Cordova: callback contexts, plugin results, replies and argument getters.
- `lookup.dfy`: the two characteristic finders. Each is a pure specification function plus the loop
  that implements it, proved equal to it.
- `peripheral_spec.dfy`: the Peripheral state machine on values, with one function per command and per
  radio callback. Results sent to callers go to a `replies` log and radio requests to a `requests` log.
- `peripheral.dfy`: `class Peripheral`. It has the source's fields, and each method is proved to move
  `State()` exactly as the matching function does.
- `peripheral_runs.dfy`: arbitrary interleavings of events, and what holds across all of them.
- `peripheral_protocol.dfy`: multi-step behaviour of the state machine, such as disconnect handling,
  the 133 hand-over and where notifications go.
- `central_spec.dfy`, `central.dfy`: the plugin's dispatcher on values, and `class BleCentralPlugin`,
  which holds a `Peripheral?` object.
- `central_protocol.dfy`: facts about `execute` across actions and arguments.

Outcomes decided by the radio stack become parameters of the commands and callbacks, for example:

- whether `connectGatt` opens a session;
- whether `discoverServices` can start;
- the characteristics of the requested service;
- whether enabling notification or setting a descriptor value succeeds;
- whether an address resolves to a device.

The model follows the code as written. The following behaviours are stated and proved:

- Notifications are sent to the command context, not to the notify context
  (`NotificationsGoToCommandCaller`).
- A failed service discovery leaves the connect caller unresolved (`DiscoveryFailureLeavesConnectUnresolved`).
- `connected` is never set to true, so the "already connected" early return never fires (`NeverConnected`).
- `servicesDiscovered` is never cleared, so a write after the link dropped is still handed to the
  closed GATT handle (`WriteAfterDropStillReachesRadio`).
- `connect` replaces the active peripheral without closing the old one: the old object's state is unchanged
  (`Central.BleCentralPlugin.Connect`), and the new one has requested only its own session (`ConnectReplacesPeripheral`).
- The `write` action always uses `WRITE_TYPE_DEFAULT` (`DispatchedWritesUseDefaultType`).
- `connect` sets the plugin state to CONNECTED even when the address does not resolve
  (`ConnectStateIgnoresLookup`).
- The scan's service-UUID filter is parsed but not used.

## Model

| member | source | states |
|---|---|---|
| CharacteristicLookup.FirstMatch | src/android/Peripheral.java:341-347 | the result is the index of a characteristic with the UUID and (if asked) the property bit, and no earlier one matches; None exactly when none matches |
| CharacteristicLookup.GetCharacteristic | src/android/Peripheral.java:369-372 | the first characteristic with the UUID, whatever its properties; None iff the UUID is absent |
| CharacteristicLookup.NotifyCharacteristic | src/android/Peripheral.java:337-348 | the first characteristic with the UUID and the NOTIFY bit; None iff there is none, so an indicate-only characteristic is never chosen |
| CharacteristicLookup.RequiredWriteProperty | src/android/Peripheral.java:355-359 | WRITE_NO_RESPONSE is required exactly for write type NO_RESPONSE, and WRITE for every other type |
| CharacteristicLookup.WritableCharacteristic | src/android/Peripheral.java:352-375 | the result carries the UUID; it is the first with the required bit when one exists, and otherwise the first with the UUID at all; None iff the UUID is absent |
| CharacteristicLookup.FindNotifyCharacteristic | src/android/Peripheral.java:337-348 | the scanning loop with early exit returns exactly NotifyCharacteristic |
| CharacteristicLookup.FindWritableCharacteristic | src/android/Peripheral.java:352-375 | the property loop followed by the UUID-only fallback returns exactly WritableCharacteristic |
| CharacteristicLookup.IndicateOnlyIsNeverChosen | src/android/Peripheral.java:336-342 | a characteristic without the NOTIFY bit is never the notify characteristic, even when it has INDICATE |
| PeripheralSpec.Connect | src/android/Peripheral.java:61-69 | the caller becomes the command context, a disconnect is no longer expected, processing is set, the handle is open iff connectGatt returned a session, exactly one ConnectGatt (no auto-connect) is requested, nothing is replied, and every other field is unchanged |
| PeripheralSpec.Close | src/android/Peripheral.java:71-90 | the caller becomes the command context and a disconnect is expected; with no handle the caller gets success and the radio is not asked; otherwise exactly one Disconnect is requested and nothing is replied; other fields are unchanged |
| PeripheralSpec.Write | src/android/Peripheral.java:214-241 | the caller becomes the command context and any expected disconnect is cleared; nothing is replied; a write goes out iff there is a handle, services were discovered (or connected is set) and a writable characteristic is found, and it is then exactly one write of the data with the given type on the found characteristic |
| PeripheralSpec.RegisterNotifyCallback | src/android/Peripheral.java:244-277 | without a handle nothing changes; otherwise the caller becomes the notify context; no request is made iff there is no notify characteristic; when a NOTIFY characteristic is found, exactly SetCharacteristicNotification on it is requested, followed by the write of ENABLE_NOTIFICATION_VALUE to its configuration descriptor iff enabling and setting the value both succeed; the earlier requests stay as a prefix; nothing is replied |
| PeripheralSpec.OnConnectionStateChange | src/android/Peripheral.java:135-190 | CONNECTING and DISCONNECTING change nothing; CONNECTED requests discovery and changes nothing else, and when discovery cannot start the state is then that of a close with the command context (a disconnect requested, one expected); DISCONNECTED closes the handle and schedules one disconnect timer; an unknown state sends the unexpected-state error to the command context |
| PeripheralSpec.FireDisconnectTimer | src/android/Peripheral.java:163-176 | one timer is consumed, connected is cleared, and exactly one reply goes to the command context: the disconnected success message iff a disconnect was expected when the timer ran, and the unexpected-disconnect error otherwise |
| PeripheralSpec.OnServicesDiscovered | src/android/Peripheral.java:97-112 | a failure changes nothing; success sends exactly one OK with the service catalogue to the command context, marks services discovered and clears processing |
| PeripheralSpec.OnDescriptorWrite | src/android/Peripheral.java:118-132 | success resolves the notify context (if any) and nothing else; status 133 moves the notify context into the command slot and clears expectDisconnect; any other status changes nothing |
| PeripheralSpec.OnCharacteristicWrite | src/android/Peripheral.java:205-212 | a failed write sends its status code as an error to the command context; success changes nothing |
| PeripheralSpec.OnCharacteristicChanged | src/android/Peripheral.java:193-202 | the value goes as a kept-alive OK to the command context when there is one, and nothing else changes |
| Peripherals.Peripheral.constructor | src/android/Peripheral.java:52-57 | the object holds the device, RSSI and scan record, with no handle, no contexts, all flags false and empty logs |
| Peripherals.Peripheral.Connect | src/android/Peripheral.java:61-69 | the object's state moves as PeripheralSpec.Connect, and connected stays false |
| Peripherals.Peripheral.Close | src/android/Peripheral.java:71-90 | the object's state moves as PeripheralSpec.Close |
| Peripherals.Peripheral.Write | src/android/Peripheral.java:214-241 | the object's state moves as PeripheralSpec.Write, and the characteristic comes from the loop finder |
| Peripherals.Peripheral.RegisterNotifyCallback | src/android/Peripheral.java:244-277 | the object's state moves as PeripheralSpec.RegisterNotifyCallback, and the characteristic comes from the loop finder |
| Peripherals.Peripheral.OnConnectionStateChange | src/android/Peripheral.java:135-190 | the object's state moves as PeripheralSpec.OnConnectionStateChange, and the discovery failure goes through the object's own close |
| Peripherals.Peripheral.FireDisconnectTimer | src/android/Peripheral.java:163-176 | the object's state moves as PeripheralSpec.FireDisconnectTimer |
| Peripherals.Peripheral.OnServicesDiscovered | src/android/Peripheral.java:97-112 | the object's state moves as PeripheralSpec.OnServicesDiscovered |
| Peripherals.Peripheral.OnDescriptorWrite | src/android/Peripheral.java:118-132 | the object's state moves as PeripheralSpec.OnDescriptorWrite |
| Peripherals.Peripheral.OnCharacteristicWrite | src/android/Peripheral.java:205-212 | the object's state moves as PeripheralSpec.OnCharacteristicWrite |
| Peripherals.Peripheral.OnCharacteristicChanged | src/android/Peripheral.java:193-202 | the object's state moves as PeripheralSpec.OnCharacteristicChanged |
| PeripheralRuns.Step | src/android/Peripheral.java:61-277 | no command or callback sets connected, and neither the reply log nor the request log ever loses an entry |
| PeripheralRuns.StepAddressesCallers | src/android/Peripheral.java:49-50 | after one step, both context slots hold only contexts that were already held or that the step handed in, and every new reply goes to one of them |
| PeripheralRuns.NeverConnected | src/android/Peripheral.java:43 | along any run of commands, callbacks and timer firings, connected stays false |
| PeripheralRuns.LogsOnlyGrow | src/android/Peripheral.java:61-277 | the logs at the end of any run extend the logs at its start |
| PeripheralRuns.RepliesOnlyToCallers | src/android/Peripheral.java:49-50 | every reply of any run goes to a context that was held at the start or handed in by a command of the run |
| PeripheralProtocol.RequestedDisconnectResolvesCaller | src/android/Peripheral.java:71-90 | close, then the link drop, then the timer: the close caller gets exactly one success, with the disconnected message |
| PeripheralProtocol.DropAfterWriteReportsError | src/android/Peripheral.java:214-216 | write, then the link drop, then the timer: the write caller gets the unexpected-disconnect error |
| PeripheralProtocol.LinkLossDuringSubscribeReachesSubscriber | src/android/Peripheral.java:126-129 | a descriptor write failing with 133, then the link drop, then the timer: the subscriber gets the unexpected-disconnect error |
| PeripheralProtocol.NotificationsGoToCommandCaller | src/android/Peripheral.java:193-202 | after connect and a subscription by a different caller, the notification value is sent to the connect caller and not to the subscriber |
| PeripheralProtocol.DiscoveryFailureLeavesConnectUnresolved | src/android/Peripheral.java:101-105 | connect, CONNECTED, then a failed discovery: nothing is replied to the connect caller |
| PeripheralProtocol.WriteAfterDropStillReachesRadio | src/android/Peripheral.java:221-225 | once services were discovered, a write after the link drop is still requested of the closed handle |
| PeripheralProtocol.CloseBeforeTimerIsResolvedByTimer | src/android/Peripheral.java:158-177 | a close issued between the drop and the timer requests a Disconnect on the closed handle, replies nothing itself, and the timer then resolves that caller with success |
| Central.ParseServiceUuidList | src/android/BLECentralPlugin.java:216-223 | the result has one UUID per string of the array, in order, equal to CentralSpec.ServiceUuids |
| CentralSpec.ActionOf | src/android/BLECentralPlugin.java:94-135 | None iff the name is not one of the eight actions; startScan and scan both select the scan action, and each of stopScan, connect, disconnect, write, startNotification and enable selects its own action, both directions |
| CentralSpec.Connect | src/android/BLECentralPlugin.java:143-160 | an unresolvable address sends "Could not find the peripheral:" plus the address and changes nothing else; otherwise the active peripheral is replaced by a fresh one for that address (RSSI 1, placeholder scan record) after its connect, and nothing else changes, not even the adapter requests |
| CentralSpec.Close | src/android/BLECentralPlugin.java:162-168 | with no active peripheral nothing happens and the caller is never resolved; otherwise the peripheral closes with the caller |
| CentralSpec.Write | src/android/BLECentralPlugin.java:170-177 | with no active peripheral the caller gets the not-found error; otherwise the active peripheral's write runs |
| CentralSpec.RegisterNotifyCallback | src/android/BLECentralPlugin.java:179-187 | with no active peripheral the caller gets the unable-to-register error; otherwise the active peripheral's subscription runs |
| CentralSpec.FindLowEnergyDevices | src/android/BLECentralPlugin.java:190-198 | the caller becomes the discovery callback, an unfiltered scan is started, the caller gets a kept-alive NO_RESULT, and the state and the peripheral are unchanged |
| CentralSpec.OnLeScan | src/android/BLECentralPlugin.java:201-210 | the state becomes SCANNING; the discovery callback, if set, gets exactly one kept-alive advertisement; nothing else changes |
| CentralSpec.Execute | src/android/BLECentralPlugin.java:75-138 | returns false iff the action is unknown, and then nothing changes; for each recognised action, a missing argument throws and changes nothing, and otherwise the result is the matching operation: scan and startScan run findLowEnergyDevices on the parsed UUIDs, stopScan stops the adapter, replies success and ends IDLE, connect runs Connect and ends CONNECTED, disconnect runs Close and ends IDLE, write runs Write with the default write type, startNotification runs RegisterNotifyCallback, and enable changes nothing |
| Central.BleCentralPlugin.constructor | src/android/BLECentralPlugin.java:55-59 | IDLE, no active peripheral, no discovery callback, empty logs |
| Central.BleCentralPlugin.Connect | src/android/BLECentralPlugin.java:143-160 | the object's state moves as CentralSpec.Connect; on success the active peripheral is a new object, and the old one is left untouched |
| Central.BleCentralPlugin.Close | src/android/BLECentralPlugin.java:162-168 | the object's state moves as CentralSpec.Close |
| Central.BleCentralPlugin.Write | src/android/BLECentralPlugin.java:170-177 | the object's state moves as CentralSpec.Write |
| Central.BleCentralPlugin.RegisterNotifyCallback | src/android/BLECentralPlugin.java:179-187 | the object's state moves as CentralSpec.RegisterNotifyCallback |
| Central.BleCentralPlugin.FindLowEnergyDevices | src/android/BLECentralPlugin.java:190-198 | the object's state moves as CentralSpec.FindLowEnergyDevices |
| Central.BleCentralPlugin.OnLeScan | src/android/BLECentralPlugin.java:201-210 | the object's state moves as CentralSpec.OnLeScan |
| Central.BleCentralPlugin.Execute | src/android/BLECentralPlugin.java:75-138 | the object's state and outcome are those of CentralSpec.Execute |
| CentralProtocol.DisconnectAndEnableDispatch | src/android/BLECentralPlugin.java:110-113 | the name disconnect always returns true, closes the active peripheral with the caller and ends IDLE; the name enable returns true and changes nothing |
| CentralProtocol.ScanIsStartScan | src/android/BLECentralPlugin.java:95-99 | scan and startScan give identical results on every input |
| CentralProtocol.RecognisedActions | src/android/BLECentralPlugin.java:94-137 | execute returns false exactly for names outside the eight actions |
| CentralProtocol.WriteIgnoresAddress | src/android/BLECentralPlugin.java:170-177 | with an active peripheral, the address argument of write has no effect |
| CentralProtocol.RegisterIgnoresAddress | src/android/BLECentralPlugin.java:179-187 | with an active peripheral, the address argument of a subscription has no effect |
| CentralProtocol.DispatchedWritesUseDefaultType | src/android/BLECentralPlugin.java:114-121 | the write action adds exactly one radio request iff the arguments are well formed and the peripheral lets a write go out; that request is a default-type write of the data on the characteristic the PROPERTY_WRITE search finds, which has the WRITE bit iff some characteristic with the UUID has it |
| CentralProtocol.ConnectStateIgnoresLookup | src/android/BLECentralPlugin.java:105-109 | connect to an unresolvable address still returns true and ends CONNECTED, with the caller sent the not-found error |
| CentralProtocol.ConnectReplacesPeripheral | src/android/BLECentralPlugin.java:143-160 | connect to a resolvable address installs a peripheral for that address that has requested only its own session, and replies nothing |
| CentralProtocol.StopScanKeepsDiscoverCallback | src/android/BLECentralPlugin.java:100-104 | stopScan asks the adapter to stop and leaves the discovery callback registered |
| CentralProtocol.ScanScenario | src/android/BLECentralPlugin.java:190-210 | scan, two advertisements, stopScan: the scan caller gets NO_RESULT and then both advertisements in order, the stop caller gets success, and the state is IDLE |

## Left out

- UUID canonicalisation (`UUIDHelper`): a UUID is its text, and `UuidFromString` wraps the string. UUIDHelper is not part of this model.
- JSON marshalling of peripherals (`asJSONObject`): the service catalogue is an empty marker, and none of its content (name, id, advertising data, RSSI, services, characteristics) is kept; the advertisement carries only the device, RSSI and scan record, and the device name is dropped.
- The `java.util.Timer` thread and its 4000 ms delay. Scheduling is a counter of pending timers, and the firing is a separate event that reads the fields when it runs. Real time and concurrency are not modelled.
- Logging, and the `getConnectedDevices` queries, which only log.
- The lazy creation of the Bluetooth adapter in `execute`, the activity, and the `ENABLE` request code: the adapter is assumed present.
- org.json and Cordova argument coercion and Base64: an argument is text, a list of strings, or bytes, and any other kind counts as a JSONException.
- `Command.java`, `next()` and `onPeripheralChange`: they are not called by the modelled code paths. Command.java is not part of this model.
- `reconnectAttempts`: it is only logged, in connect, and never changed.
- `characteristic.setValue` and `setWriteType` are folded into the one write request, which carries the value and the type.
- The `activePeripheral == null` branch right after construction in the plugin's connect cannot be taken, and is not modelled.
- The return values of `gatt.writeCharacteristic` and `gatt.writeDescriptor` only affect logging, so they are not parameters.
- Radio callbacks are assumed to arrive only while the GATT session is open (`gatt == OpenGatt`). The timer task is the exception: it may fire after close.
- The reply log records what the plugin sends to each callback context, not what reaches JavaScript: the host's rule that a context whose last result was not kept alive ignores later results is not modelled, so a result sent to an already resolved context (such as a notification sent to a connect caller that received the service catalogue) appears in the log although the host drops it.
- `deviceFound` models the plugin's null guard on `getRemoteDevice` in connect. The path where that call throws for a malformed address, leaving `execute` before the state becomes CONNECTED, is not modelled.
- Java null dereferences are preconditions rather than modelled crashes:
  - a callback or timer that resolves the command context requires one;
  - `Peripheral.close` without a handle requires a caller;
  - a subscription whose notify characteristic lacks the configuration descriptor is excluded (`NotifyDescriptorPresent`);
  - `getService` returning null is not modelled, because the service is given as its list of characteristics.
