/**
  BLECentralPlugin.java as values: the coordinator's fields, with the active peripheral held as
  its PeripheralSpec state, and `execute`'s dispatch of action names.
 */
module CentralSpec {
  import opened Options
  import opened Android
  import opened Cordova
  import opened CharacteristicLookup
  import PeripheralSpec

  // action names
  const START_SCAN: string := "startScan"
  const SCAN: string := "scan"
  const STOP_SCAN: string := "stopScan"
  const CONNECT: string := "connect"
  const DISCONNECT: string := "disconnect"
  const WRITE: string := "write"
  const START_NOTIFICATION: string := "startNotification"
  const ENABLE: string := "enable"

  /** The scan record the plugin gives a peripheral it creates to connect: "a".getBytes(). */
  const PLACEHOLDER_SCAN_RECORD: seq<Byte> := [0x61]

  datatype States = ERROR | IDLE | SCANNING | CONNECTED

  /** The operations `execute` recognises; `startScan` and `scan` both name StartScanAction. */
  datatype Action =
    | StartScanAction
    | StopScanAction
    | ConnectAction
    | DisconnectAction
    | WriteAction
    | StartNotificationAction
    | EnableAction

  function ActionOf(name: string): (a: Option<Action>)
    ensures a.None? <==> name !in {START_SCAN, SCAN, STOP_SCAN, CONNECT, DISCONNECT, WRITE, START_NOTIFICATION, ENABLE}
    ensures name == START_SCAN || name == SCAN <==> a == Some(StartScanAction)
    ensures name == STOP_SCAN <==> a == Some(StopScanAction)
    ensures name == CONNECT <==> a == Some(ConnectAction)
    ensures name == DISCONNECT <==> a == Some(DisconnectAction)
    ensures name == WRITE <==> a == Some(WriteAction)
    ensures name == START_NOTIFICATION <==> a == Some(StartNotificationAction)
    ensures name == ENABLE <==> a == Some(EnableAction)
  {
    if name == START_SCAN || name == SCAN then Some(StartScanAction)
    else if name == STOP_SCAN then Some(StopScanAction)
    else if name == CONNECT then Some(ConnectAction)
    else if name == DISCONNECT then Some(DisconnectAction)
    else if name == WRITE then Some(WriteAction)
    else if name == START_NOTIFICATION then Some(StartNotificationAction)
    else if name == ENABLE then Some(EnableAction)
    else None
  }

  /** The coordinator's fields; `activePeripheral` holds the state of the peripheral object, if any. */
  datatype CentralState = CentralState(
    activeState: States,
    activePeripheral: Option<PeripheralSpec.PeripheralState>,
    discoverCallback: Option<CallbackId>,
    replies: seq<Reply>,
    adapterRequests: seq<AdapterRequest>)

  const Initial: CentralState := CentralState(IDLE, None, None, [], [])

  /**
    What the radio stack answers during one command: whether the address resolves to a device,
    whether connectGatt opens a session, the characteristics of the service asked for, and
    whether enabling local notification and setting the descriptor value succeed.
   */
  datatype RadioAnswers = RadioAnswers(
    deviceFound: bool,
    sessionOpened: bool,
    service: seq<Characteristic>,
    notificationEnabled: bool,
    descriptorValueSet: bool)

  /** How `execute` ends: it returns a boolean, or an argument getter throws JSONException. */
  datatype ExecuteOutcome = Returned(recognised: bool) | ArgumentError

  /**
    connect: an unresolvable address is reported to the caller and changes nothing else.
    Otherwise a new peripheral for that address replaces the active one, whose state is simply
    dropped (never closed), and the connect is forwarded to it.
   */
  function Connect(s: CentralState, callbackContext: CallbackId, macAddress: string,
                   deviceFound: bool, sessionOpened: bool): (t: CentralState)
    ensures !deviceFound ==>
              t == s.(replies := s.replies + [ErrorText(callbackContext, "Could not find the peripheral:" + macAddress)])
    ensures deviceFound ==>
              t.replies == s.replies && t.activePeripheral.Some? &&
              t.activePeripheral.value.device == DeviceId(macAddress) &&
              t.activePeripheral.value.commandContext == Some(callbackContext) &&
              t.activePeripheral.value.replies == [] &&
              t.activePeripheral.value.requests == [ConnectGatt(DeviceId(macAddress), false)]
    ensures deviceFound ==>
              t == s.(activePeripheral := Some(PeripheralSpec.Connect(
                        PeripheralSpec.Initial(DeviceId(macAddress), 1, PLACEHOLDER_SCAN_RECORD), callbackContext, sessionOpened)))
    ensures t.activeState == s.activeState && t.discoverCallback == s.discoverCallback
  {
    if !deviceFound then
      s.(replies := s.replies + [ErrorText(callbackContext, "Could not find the peripheral:" + macAddress)])
    else
      var created := PeripheralSpec.Initial(DeviceId(macAddress), 1, PLACEHOLDER_SCAN_RECORD);
      s.(activePeripheral := Some(PeripheralSpec.Connect(created, callbackContext, sessionOpened)))
  }

  /** close: with no active peripheral the caller is never resolved; otherwise it is forwarded. */
  function Close(s: CentralState, callbackContext: CallbackId): (t: CentralState)
    ensures s.activePeripheral.None? ==> t == s
    ensures s.activePeripheral.Some? ==>
              t == s.(activePeripheral := Some(PeripheralSpec.Close(s.activePeripheral.value, Some(callbackContext))))
  {
    match s.activePeripheral
    case None => s
    case Some(p) => s.(activePeripheral := Some(PeripheralSpec.Close(p, Some(callbackContext))))
  }

  /** write: with no active peripheral an error goes to the caller; otherwise forwarded, whatever the address. */
  function Write(s: CentralState, callbackContext: CallbackId, macAddress: string, service: seq<Characteristic>,
                 characteristicUuid: Uuid, data: seq<Byte>, writeType: int): (t: CentralState)
    ensures s.activePeripheral.None? ==>
              t == s.(replies := s.replies + [ErrorText(callbackContext, "Peripheral " + macAddress + " not found.")])
    ensures s.activePeripheral.Some? ==>
              t == s.(activePeripheral := Some(PeripheralSpec.Write(s.activePeripheral.value, callbackContext, service,
                                                                    characteristicUuid, data, writeType)))
  {
    match s.activePeripheral
    case None => s.(replies := s.replies + [ErrorText(callbackContext, "Peripheral " + macAddress + " not found.")])
    case Some(p) => s.(activePeripheral := Some(PeripheralSpec.Write(p, callbackContext, service, characteristicUuid, data, writeType)))
  }

  /** The active peripheral, if any, can take a subscription with these radio answers. */
  predicate CanRegister(s: CentralState, service: seq<Characteristic>, characteristicUuid: Uuid, notificationEnabled: bool)
  {
    s.activePeripheral.Some? && s.activePeripheral.value.gatt != NullGatt && notificationEnabled ==>
      PeripheralSpec.NotifyDescriptorPresent(service, characteristicUuid)
  }

  /** registerNotifyCallback: with no active peripheral an error goes to the caller; otherwise forwarded, whatever the address. */
  function RegisterNotifyCallback(s: CentralState, callbackContext: CallbackId, macAddress: string,
                                  service: seq<Characteristic>, characteristicUuid: Uuid,
                                  notificationEnabled: bool, descriptorValueSet: bool): (t: CentralState)
    requires CanRegister(s, service, characteristicUuid, notificationEnabled)
    ensures s.activePeripheral.None? ==>
              t == s.(replies := s.replies +
                        [ErrorText(callbackContext, "Unable to register for notifications because " + macAddress + " not found")])
    ensures s.activePeripheral.Some? ==>
              t == s.(activePeripheral := Some(PeripheralSpec.RegisterNotifyCallback(
                        s.activePeripheral.value, callbackContext, service, characteristicUuid,
                        notificationEnabled, descriptorValueSet)))
  {
    match s.activePeripheral
    case None =>
      s.(replies := s.replies + [ErrorText(callbackContext, "Unable to register for notifications because " + macAddress + " not found")])
    case Some(p) =>
      s.(activePeripheral := Some(PeripheralSpec.RegisterNotifyCallback(p, callbackContext, service, characteristicUuid,
                                                                        notificationEnabled, descriptorValueSet)))
  }

  /** parseServiceUUIDList: each string of the JSON array, in order, as a UUID. */
  function ServiceUuids(jsonArray: seq<string>): seq<Uuid>
  {
    seq(|jsonArray|, i requires 0 <= i < |jsonArray| => UuidFromString(jsonArray[i]))
  }

  /**
    findLowEnergyDevices: the caller becomes the discovery callback, an unfiltered scan starts
    (the service UUIDs are not used) and the caller gets a kept-alive NO_RESULT.
   */
  function FindLowEnergyDevices(s: CentralState, callbackContext: CallbackId, serviceUuids: seq<Uuid>): (t: CentralState)
    ensures t.discoverCallback == Some(callbackContext)
    ensures t.replies == s.replies + [Reply(callbackContext, PluginResult(NO_RESULT, NoMessage, true))]
    ensures t.adapterRequests == s.adapterRequests + [StartLeScan]
    ensures t.activeState == s.activeState && t.activePeripheral == s.activePeripheral
  {
    s.(discoverCallback := Some(callbackContext),
       adapterRequests := s.adapterRequests + [StartLeScan],
       replies := s.replies + [Reply(callbackContext, PluginResult(NO_RESULT, NoMessage, true))])
  }

  /** onLeScan: the state becomes SCANNING and the discovery callback, if set, gets one kept-alive advertisement. */
  function OnLeScan(s: CentralState, device: DeviceId, rssi: int, scanRecord: seq<Byte>): (t: CentralState)
    ensures t.activeState == SCANNING
    ensures s.discoverCallback.None? ==> t.replies == s.replies
    ensures s.discoverCallback.Some? ==>
              t.replies == s.replies + [Reply(s.discoverCallback.value, PluginResult(OK, Advertisement(device, rssi, scanRecord), true))]
    ensures t.(activeState := s.activeState, replies := s.replies) == s
  {
    var t := s.(activeState := SCANNING);
    if s.discoverCallback.None? then t
    else t.(replies := t.replies + [Reply(s.discoverCallback.value, PluginResult(OK, Advertisement(device, rssi, scanRecord), true))])
  }

  /** The arguments a write command carries are well formed: address, service, characteristic, data. */
  predicate WriteArgs(args: seq<Arg>)
  {
    GetString(args, 0).Some? && GetString(args, 1).Some? && GetString(args, 2).Some? && GetArrayBuffer(args, 3).Some?
  }

  /** The arguments a subscription command carries are well formed. */
  predicate NotificationArgs(args: seq<Arg>)
  {
    GetString(args, 0).Some? && GetString(args, 1).Some? && GetString(args, 2).Some?
  }

  /** `execute` can run without a null dereference in the peripheral it forwards to. */
  predicate CanExecute(s: CentralState, action: string, args: seq<Arg>, radio: RadioAnswers)
  {
    ActionOf(action) == Some(StartNotificationAction) && NotificationArgs(args) ==>
      CanRegister(s, radio.service, UuidFromString(GetString(args, 2).value), radio.notificationEnabled)
  }

  /**
    execute: dispatch on the action name. Unrecognised names return false and change nothing;
    a missing or ill-typed argument throws before anything changes.
   */
  function Execute(s: CentralState, action: string, args: seq<Arg>, callbackContext: CallbackId,
                   radio: RadioAnswers): (r: (CentralState, ExecuteOutcome))
    requires CanExecute(s, action, args, radio)
    ensures r.1 == Returned(false) <==> ActionOf(action).None?
    ensures r.1 != Returned(true) ==> r.0 == s
    ensures r.1 == Returned(true) && ActionOf(action) == Some(StopScanAction) ==>
              r.0.activeState == IDLE && r.0.replies == s.replies + [Success(callbackContext)]
    ensures r.1 == Returned(true) && ActionOf(action) == Some(ConnectAction) ==> r.0.activeState == CONNECTED
    ensures r.1 == Returned(true) && ActionOf(action) == Some(DisconnectAction) ==> r.0.activeState == IDLE
    ensures ActionOf(action) == Some(DisconnectAction) ==> r.1 == Returned(true)
    ensures ActionOf(action) == Some(EnableAction) ==> r == (s, Returned(true))
    ensures ActionOf(action) == Some(StartScanAction) ==>
              match GetJsonArray(args, 0)
              case None => r.1 == ArgumentError
              case Some(list) => r == (FindLowEnergyDevices(s, callbackContext, ServiceUuids(list)), Returned(true))
    ensures ActionOf(action) == Some(StopScanAction) ==>
              r == (s.(activeState := IDLE, replies := s.replies + [Success(callbackContext)],
                       adapterRequests := s.adapterRequests + [StopLeScan]), Returned(true))
    ensures ActionOf(action) == Some(ConnectAction) ==>
              match GetString(args, 0)
              case None => r.1 == ArgumentError
              case Some(mac) =>
                r == (Connect(s, callbackContext, mac, radio.deviceFound, radio.sessionOpened).(activeState := CONNECTED),
                      Returned(true))
    ensures ActionOf(action) == Some(DisconnectAction) ==> r.0 == Close(s, callbackContext).(activeState := IDLE)
    ensures ActionOf(action) == Some(WriteAction) ==>
              if !WriteArgs(args) then r.1 == ArgumentError
              else r == (Write(s, callbackContext, GetString(args, 0).value, radio.service,
                               UuidFromString(GetString(args, 2).value), GetArrayBuffer(args, 3).value,
                               WRITE_TYPE_DEFAULT), Returned(true))
    ensures ActionOf(action) == Some(StartNotificationAction) ==>
              if !NotificationArgs(args) then r.1 == ArgumentError
              else r == (RegisterNotifyCallback(s, callbackContext, GetString(args, 0).value, radio.service,
                                                UuidFromString(GetString(args, 2).value), radio.notificationEnabled,
                                                radio.descriptorValueSet), Returned(true))
  {
    match ActionOf(action)
    case None => (s, Returned(false))
    case Some(StartScanAction) =>
      (match GetJsonArray(args, 0)
       case None => (s, ArgumentError)
       case Some(list) =>
          (FindLowEnergyDevices(s, callbackContext, ServiceUuids(list)), Returned(true)))
    case Some(StopScanAction) =>
      (s.(adapterRequests := s.adapterRequests + [StopLeScan], replies := s.replies + [Success(callbackContext)],
          activeState := IDLE), Returned(true))
    case Some(ConnectAction) =>
      (match GetString(args, 0)
       case None => (s, ArgumentError)
       case Some(mac) =>
         (Connect(s, callbackContext, mac, radio.deviceFound, radio.sessionOpened).(activeState := CONNECTED), Returned(true)))
    case Some(DisconnectAction) =>
      (Close(s, callbackContext).(activeState := IDLE), Returned(true))
    case Some(WriteAction) =>
      if !WriteArgs(args) then (s, ArgumentError)
      else
        (Write(s, callbackContext, GetString(args, 0).value, radio.service, UuidFromString(GetString(args, 2).value),
               GetArrayBuffer(args, 3).value, WRITE_TYPE_DEFAULT), Returned(true))
    case Some(StartNotificationAction) =>
      if !NotificationArgs(args) then (s, ArgumentError)
      else
        (RegisterNotifyCallback(s, callbackContext, GetString(args, 0).value, radio.service,
                                UuidFromString(GetString(args, 2).value), radio.notificationEnabled,
                                radio.descriptorValueSet), Returned(true))
    case Some(EnableAction) => (s, Returned(true))
  }
}
