/**
  Peripheral.java as a class: one object per device connection whose commands and radio
  callbacks assign its fields. Each method's new state is the one PeripheralSpec gives.
 */
module Peripherals {
  import opened Options
  import opened Android
  import opened Cordova
  import opened CharacteristicLookup
  import PeripheralSpec

  class Peripheral {
    const device: DeviceId
    const advertisingRssi: int
    const advertisingData: seq<Byte>

    var gatt: Gatt
    var connected: bool
    var servicesDiscovered: bool
    var expectDisconnect: bool
    var processing: bool
    var commandContext: Option<CallbackId>
    var notifyContext: Option<CallbackId>
    /** Disconnect timers scheduled and not yet run. */
    var pendingDisconnectTimers: nat
    /** Results sent to callback contexts, oldest first. */
    var replies: seq<Reply>
    /** Requests made of the radio, oldest first. */
    var requests: seq<GattRequest>

    /** The object invariant: nothing ever marks the peripheral connected. */
    ghost predicate Valid()
      reads this
    {
      !connected
    }

    /** The fields as a value. */
    function State(): PeripheralSpec.PeripheralState
      reads this
    {
      PeripheralSpec.PeripheralState(device, advertisingRssi, advertisingData, gatt, connected, servicesDiscovered,
                                     expectDisconnect, processing, commandContext, notifyContext,
                                     pendingDisconnectTimers, replies, requests)
    }

    constructor (device: DeviceId, advertisingRssi: int, scanRecord: seq<Byte>)
      ensures Valid()
      ensures State() == PeripheralSpec.Initial(device, advertisingRssi, scanRecord)
    {
      this.device := device;
      this.advertisingRssi := advertisingRssi;
      this.advertisingData := scanRecord;
      gatt := NullGatt;
      connected := false;
      servicesDiscovered := false;
      expectDisconnect := false;
      processing := false;
      commandContext := None;
      notifyContext := None;
      pendingDisconnectTimers := 0;
      replies := [];
      requests := [];
    }

    /** `sessionOpened`: whether connectGatt returned a session. */
    method Connect(callbackContext: CallbackId, sessionOpened: bool)
      requires Valid()
      modifies this
      ensures Valid()
      ensures State() == PeripheralSpec.Connect(old(State()), callbackContext, sessionOpened)
    {
      commandContext := Some(callbackContext);
      expectDisconnect := false;
      processing := true;
      requests := requests + [ConnectGatt(device, false)];
      gatt := if sessionOpened then OpenGatt else NullGatt;
    }

    method Close(callbackContext: Option<CallbackId>)
      requires Valid()
      requires gatt == NullGatt ==> callbackContext.Some?
      modifies this
      ensures Valid()
      ensures State() == PeripheralSpec.Close(old(State()), callbackContext)
    {
      commandContext := callbackContext;
      expectDisconnect := true;
      processing := true;
      if gatt == NullGatt {
        replies := replies + [Success(commandContext.value)];
        return;
      }
      requests := requests + [Disconnect];
    }

    /** `service`: the characteristics of the service the session reports for the service UUID. */
    method Write(callbackContext: CallbackId, service: seq<Characteristic>, characteristicUuid: Uuid,
                 data: seq<Byte>, writeType: int)
      requires Valid()
      modifies this
      ensures Valid()
      ensures State() == PeripheralSpec.Write(old(State()), callbackContext, service, characteristicUuid, data, writeType)
    {
      commandContext := Some(callbackContext);
      expectDisconnect := false;
      if gatt == NullGatt {
        return;
      }
      if !connected && !servicesDiscovered {
        return;
      }
      var characteristic := FindWritableCharacteristic(service, characteristicUuid, writeType);
      if characteristic == None {
        return;
      }
      requests := requests + [WriteCharacteristic(service[characteristic.value], data, writeType)];
    }

    /**
      `notificationEnabled`: what setCharacteristicNotification returns;
      `descriptorValueSet`: what setting the descriptor's value returns.
     */
    method RegisterNotifyCallback(callbackContext: CallbackId, service: seq<Characteristic>, characteristicUuid: Uuid,
                                  notificationEnabled: bool, descriptorValueSet: bool)
      requires Valid()
      requires gatt != NullGatt && notificationEnabled ==> PeripheralSpec.NotifyDescriptorPresent(service, characteristicUuid)
      modifies this
      ensures Valid()
      ensures State() == PeripheralSpec.RegisterNotifyCallback(old(State()), callbackContext, service, characteristicUuid,
                                                               notificationEnabled, descriptorValueSet)
    {
      if gatt == NullGatt {
        return;
      }
      expectDisconnect := false;
      notifyContext := Some(callbackContext);
      var characteristic := FindNotifyCharacteristic(service, characteristicUuid);
      if characteristic == None {
        return;
      }
      var c := service[characteristic.value];
      requests := requests + [SetCharacteristicNotification(c, true)];
      if !notificationEnabled {
        return;
      }
      if !descriptorValueSet {
        return;
      }
      requests := requests + [WriteDescriptor(c, CLIENT_CHARACTERISTIC_CONFIGURATION_UUID, ENABLE_NOTIFICATION_VALUE)];
    }

    /** `discoveryStarted`: what discoverServices returns. */
    method OnConnectionStateChange(status: int, newState: int, discoveryStarted: bool)
      requires Valid()
      requires gatt == OpenGatt
      requires PeripheralSpec.UnknownState(newState) ==> commandContext.Some?
      modifies this
      ensures Valid()
      ensures State() == PeripheralSpec.OnConnectionStateChange(old(State()), status, newState, discoveryStarted)
    {
      if newState == STATE_CONNECTING {
        return;
      } else if newState == STATE_CONNECTED {
        if connected {
          return;
        }
        requests := requests + [DiscoverServices];
        if !discoveryStarted {
          Close(commandContext);
        }
        return;
      } else if newState == STATE_DISCONNECTING {
        return;
      } else if newState == STATE_DISCONNECTED {
        requests := requests + [CloseGatt];
        gatt := ClosedGatt;
        pendingDisconnectTimers := pendingDisconnectTimers + 1;
        return;
      } else {
        replies := replies + [ErrorText(commandContext.value, PeripheralSpec.UNEXPECTED_STATE_MESSAGE)];
      }
    }

    /** The task the DISCONNECTED case schedules, run when its timer expires. */
    method FireDisconnectTimer()
      requires Valid()
      requires pendingDisconnectTimers > 0 && commandContext.Some?
      modifies this
      ensures Valid()
      ensures State() == PeripheralSpec.FireDisconnectTimer(old(State()))
    {
      pendingDisconnectTimers := pendingDisconnectTimers - 1;
      connected := false;
      if expectDisconnect {
        replies := replies + [SuccessText(commandContext.value, PeripheralSpec.DISCONNECTED_MESSAGE)];
      } else {
        replies := replies + [ErrorText(commandContext.value, PeripheralSpec.UNEXPECTED_DISCONNECT_MESSAGE)];
      }
    }

    method OnServicesDiscovered(status: int)
      requires Valid()
      requires gatt == OpenGatt
      requires status == GATT_SUCCESS ==> commandContext.Some?
      modifies this
      ensures Valid()
      ensures State() == PeripheralSpec.OnServicesDiscovered(old(State()), status)
    {
      if status != GATT_SUCCESS {
        return;
      }
      replies := replies + [Reply(commandContext.value, PluginResult(OK, ServiceCatalogue, false))];
      servicesDiscovered := true;
      processing := false;
    }

    method OnDescriptorWrite(status: int)
      requires Valid()
      requires gatt == OpenGatt
      modifies this
      ensures Valid()
      ensures State() == PeripheralSpec.OnDescriptorWrite(old(State()), status)
    {
      if status == GATT_SUCCESS {
        if notifyContext != None {
          replies := replies + [Success(notifyContext.value)];
        }
      } else {
        if status == GATT_ERROR {
          commandContext := notifyContext;
          expectDisconnect := false;
        }
      }
    }

    method OnCharacteristicChanged(value: seq<Byte>)
      requires Valid()
      requires gatt == OpenGatt
      modifies this
      ensures Valid()
      ensures State() == PeripheralSpec.OnCharacteristicChanged(old(State()), value)
    {
      if commandContext != None {
        replies := replies + [Reply(commandContext.value, PluginResult(OK, Value(value), true))];
      }
    }

    method OnCharacteristicWrite(status: int)
      requires Valid()
      requires gatt == OpenGatt
      requires status != GATT_SUCCESS ==> commandContext.Some?
      modifies this
      ensures Valid()
      ensures State() == PeripheralSpec.OnCharacteristicWrite(old(State()), status)
    {
      if status != GATT_SUCCESS {
        replies := replies + [ErrorCode(commandContext.value, status)];
      }
    }
  }
}
