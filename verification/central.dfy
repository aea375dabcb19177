/**
  BLECentralPlugin.java as a class: the coordinator that owns the scan callback and at most one
  active Peripheral object, and forwards commands to it. Each method's new state is the one
  CentralSpec gives.
 */
module Central {
  import opened Options
  import opened Android
  import opened Cordova
  import opened Peripherals
  import PeripheralSpec
  import CentralSpec

  /** parseServiceUUIDList (BLECentralPlugin.java:216-223): one UUID per string, same length, same order. */
  method ParseServiceUuidList(jsonArray: seq<string>) returns (uuids: seq<Uuid>)
    ensures |uuids| == |jsonArray|
    ensures forall i :: 0 <= i < |jsonArray| ==> uuids[i] == UuidFromString(jsonArray[i])
    ensures uuids == CentralSpec.ServiceUuids(jsonArray)
  {
    var serviceUuids: seq<Uuid> := [];
    for i := 0 to |jsonArray|
      invariant |serviceUuids| == i
      invariant forall k :: 0 <= k < i ==> serviceUuids[k] == UuidFromString(jsonArray[k])
    {
      var uuidString := jsonArray[i];
      serviceUuids := serviceUuids + [UuidFromString(uuidString)];
    }
    uuids := serviceUuids;
  }

  class BleCentralPlugin {
    var activeState: CentralSpec.States
    var activePeripheral: Peripheral?
    var discoverCallback: Option<CallbackId>
    /** Results the plugin itself sends to callback contexts, oldest first. */
    var replies: seq<Reply>
    /** Requests made of the Bluetooth adapter, oldest first. */
    var adapterRequests: seq<AdapterRequest>

    ghost predicate Valid()
      reads this, activePeripheral
    {
      activePeripheral != null ==> activePeripheral.Valid()
    }

    /** The fields as a value, with the active peripheral's fields in place of the reference. */
    function State(): CentralSpec.CentralState
      reads this, activePeripheral
    {
      CentralSpec.CentralState(activeState, if activePeripheral == null then None else Some(activePeripheral.State()),
                               discoverCallback, replies, adapterRequests)
    }

    constructor ()
      ensures Valid()
      ensures State() == CentralSpec.Initial
    {
      activeState := CentralSpec.IDLE;
      activePeripheral := null;
      discoverCallback := None;
      replies := [];
      adapterRequests := [];
    }

    /**
      `deviceFound`: whether the adapter resolves the address; `sessionOpened`: whether
      connectGatt returns a session. A new peripheral object replaces the active one, which is
      left as it was, not closed.
     */
    method Connect(callbackContext: CallbackId, macAddress: string, deviceFound: bool, sessionOpened: bool)
      requires Valid()
      modifies this
      ensures Valid()
      ensures State() == CentralSpec.Connect(old(State()), callbackContext, macAddress, deviceFound, sessionOpened)
      ensures deviceFound ==> fresh(activePeripheral)
      ensures !deviceFound ==> activePeripheral == old(activePeripheral)
      ensures old(activePeripheral) != null ==> old(activePeripheral).State() == old(activePeripheral.State())
    {
      if !deviceFound {
        replies := replies + [ErrorText(callbackContext, "Could not find the peripheral:" + macAddress)];
        return;
      }
      var peripheral := new Peripheral(DeviceId(macAddress), 1, CentralSpec.PLACEHOLDER_SCAN_RECORD);
      activePeripheral := peripheral;
      peripheral.Connect(callbackContext, sessionOpened);
    }

    method Close(callbackContext: CallbackId)
      requires Valid()
      modifies activePeripheral
      ensures Valid()
      ensures State() == CentralSpec.Close(old(State()), callbackContext)
    {
      if activePeripheral == null {
        return;
      }
      activePeripheral.Close(Some(callbackContext));
    }

    /** `service`: the characteristics the session reports for the requested service. */
    method Write(callbackContext: CallbackId, macAddress: string, service: seq<Characteristic>,
                 characteristicUuid: Uuid, data: seq<Byte>, writeType: int)
      requires Valid()
      modifies this, activePeripheral
      ensures Valid()
      ensures State() == CentralSpec.Write(old(State()), callbackContext, macAddress, service, characteristicUuid, data, writeType)
      ensures activePeripheral == old(activePeripheral)
    {
      if activePeripheral == null {
        replies := replies + [ErrorText(callbackContext, "Peripheral " + macAddress + " not found.")];
        return;
      }
      activePeripheral.Write(callbackContext, service, characteristicUuid, data, writeType);
    }

    method RegisterNotifyCallback(callbackContext: CallbackId, macAddress: string, service: seq<Characteristic>,
                                  characteristicUuid: Uuid, notificationEnabled: bool, descriptorValueSet: bool)
      requires Valid()
      requires CentralSpec.CanRegister(State(), service, characteristicUuid, notificationEnabled)
      modifies this, activePeripheral
      ensures Valid()
      ensures State() == CentralSpec.RegisterNotifyCallback(old(State()), callbackContext, macAddress, service,
                                                            characteristicUuid, notificationEnabled, descriptorValueSet)
      ensures activePeripheral == old(activePeripheral)
    {
      if activePeripheral == null {
        replies := replies + [ErrorText(callbackContext, "Unable to register for notifications because " + macAddress + " not found")];
        return;
      }
      activePeripheral.RegisterNotifyCallback(callbackContext, service, characteristicUuid, notificationEnabled, descriptorValueSet);
    }

    method FindLowEnergyDevices(callbackContext: CallbackId, serviceUuids: seq<Uuid>)
      requires Valid()
      modifies this
      ensures Valid()
      ensures State() == CentralSpec.FindLowEnergyDevices(old(State()), callbackContext, serviceUuids)
      ensures activePeripheral == old(activePeripheral)
    {
      discoverCallback := Some(callbackContext);
      adapterRequests := adapterRequests + [StartLeScan];
      replies := replies + [Reply(callbackContext, PluginResult(NO_RESULT, NoMessage, true))];
    }

    /** The adapter's scan callback for one advertisement. */
    method OnLeScan(device: DeviceId, rssi: int, scanRecord: seq<Byte>)
      requires Valid()
      modifies this
      ensures Valid()
      ensures State() == CentralSpec.OnLeScan(old(State()), device, rssi, scanRecord)
      ensures activePeripheral == old(activePeripheral)
    {
      activeState := CentralSpec.SCANNING;
      if discoverCallback != None {
        replies := replies + [Reply(discoverCallback.value, PluginResult(OK, Advertisement(device, rssi, scanRecord), true))];
      }
    }

    /** execute: dispatch on the action name; `radio` supplies what the radio stack answers along the way. */
    method Execute(action: string, args: seq<Arg>, callbackContext: CallbackId, radio: CentralSpec.RadioAnswers)
      returns (outcome: CentralSpec.ExecuteOutcome)
      requires Valid()
      requires CentralSpec.CanExecute(State(), action, args, radio)
      modifies this, activePeripheral
      ensures Valid()
      ensures (State(), outcome) == CentralSpec.Execute(old(State()), action, args, callbackContext, radio)
    {
      match CentralSpec.ActionOf(action) {
      case None =>
        return CentralSpec.Returned(false);
      case Some(StartScanAction) =>
        var list := GetJsonArray(args, 0);
        if list == None {
          return CentralSpec.ArgumentError;
        }
        var serviceUuids := ParseServiceUuidList(list.value);
        FindLowEnergyDevices(callbackContext, serviceUuids);
      case Some(StopScanAction) =>
        adapterRequests := adapterRequests + [StopLeScan];
        replies := replies + [Success(callbackContext)];
        activeState := CentralSpec.IDLE;
      case Some(ConnectAction) =>
        var macAddress := GetString(args, 0);
        if macAddress == None {
          return CentralSpec.ArgumentError;
        }
        Connect(callbackContext, macAddress.value, radio.deviceFound, radio.sessionOpened);
        activeState := CentralSpec.CONNECTED;
      case Some(DisconnectAction) =>
        Close(callbackContext);
        activeState := CentralSpec.IDLE;
      case Some(WriteAction) =>
        var macAddress := GetString(args, 0);
        var serviceUuid := GetString(args, 1);
        var characteristicUuid := GetString(args, 2);
        var data := GetArrayBuffer(args, 3);
        if macAddress == None || serviceUuid == None || characteristicUuid == None || data == None {
          return CentralSpec.ArgumentError;
        }
        Write(callbackContext, macAddress.value, radio.service, UuidFromString(characteristicUuid.value), data.value,
              WRITE_TYPE_DEFAULT);
      case Some(StartNotificationAction) =>
        var macAddress := GetString(args, 0);
        var serviceUuid := GetString(args, 1);
        var characteristicUuid := GetString(args, 2);
        if macAddress == None || serviceUuid == None || characteristicUuid == None {
          return CentralSpec.ArgumentError;
        }
        RegisterNotifyCallback(callbackContext, macAddress.value, radio.service, UuidFromString(characteristicUuid.value),
                               radio.notificationEnabled, radio.descriptorValueSet);
      case Some(EnableAction) =>
      }
      return CentralSpec.Returned(true);
    }
  }
}
