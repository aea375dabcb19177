/**
  Command-and-callback exchanges of Peripheral.java, followed step by step: who is resolved,
  with what, and which radio requests go out.
 */
module PeripheralProtocol {
  import opened Options
  import opened Android
  import opened Cordova
  import opened CharacteristicLookup
  import opened PeripheralSpec

  /** close on a live session, the DISCONNECTED callback, then the timer: the closing caller gets success. */
  lemma RequestedDisconnectResolvesCaller(s: PeripheralState, ctx: CallbackId, status: int, started: bool)
    requires s.gatt == OpenGatt
    ensures var t := FireDisconnectTimer(OnConnectionStateChange(Close(s, Some(ctx)), status, STATE_DISCONNECTED, started));
            t.replies == s.replies + [SuccessText(ctx, DISCONNECTED_MESSAGE)] &&
            t.requests == s.requests + [Disconnect, CloseGatt] &&
            t.gatt == ClosedGatt && !t.connected && t.pendingDisconnectTimers == s.pendingDisconnectTimers
  {
  }

  /** A link lost after a write: the writer is told of an unexpected disconnect, never of success. */
  lemma DropAfterWriteReportsError(s: PeripheralState, ctx: CallbackId, service: seq<Characteristic>, uuid: Uuid,
                                   data: seq<Byte>, writeType: int, status: int, started: bool)
    requires s.gatt == OpenGatt
    ensures var t := FireDisconnectTimer(OnConnectionStateChange(Write(s, ctx, service, uuid, data, writeType),
                                                                 status, STATE_DISCONNECTED, started));
            t.replies == s.replies + [ErrorText(ctx, UNEXPECTED_DISCONNECT_MESSAGE)]
  {
  }

  /**
    A descriptor write failing with 133 hands the command slot to the subscriber, so the
    disconnect that follows reports the lost link to the subscriber.
   */
  lemma LinkLossDuringSubscribeReachesSubscriber(s: PeripheralState, ctx: CallbackId, service: seq<Characteristic>,
                                                 uuid: Uuid, enabled: bool, valueSet: bool, status: int, started: bool)
    requires s.gatt == OpenGatt
    requires enabled ==> NotifyDescriptorPresent(service, uuid)
    ensures var t := FireDisconnectTimer(OnConnectionStateChange(
                       OnDescriptorWrite(RegisterNotifyCallback(s, ctx, service, uuid, enabled, valueSet), GATT_ERROR),
                       status, STATE_DISCONNECTED, started));
            t.replies == s.replies + [ErrorText(ctx, UNEXPECTED_DISCONNECT_MESSAGE)]
  {
  }

  /**
    connect, link up, services found, subscribe, descriptor written, value changed: the value is
    sent to the CONNECT caller, which also got the catalogue; the subscriber only gets the
    descriptor-write success.
   */
  lemma NotificationsGoToCommandCaller(device: DeviceId, connectCtx: CallbackId, notifyCtx: CallbackId, uuid: Uuid)
    requires connectCtx != notifyCtx
    ensures
      var c := Characteristic(uuid, PROPERTY_NOTIFY, [CLIENT_CHARACTERISTIC_CONFIGURATION_UUID]);
      var s1 := Connect(Initial(device, 1, [0x61]), connectCtx, true);
      var s2 := OnConnectionStateChange(s1, GATT_SUCCESS, STATE_CONNECTED, true);
      var s3 := OnServicesDiscovered(s2, GATT_SUCCESS);
      var s4 := RegisterNotifyCallback(s3, notifyCtx, [c], uuid, true, true);
      var s5 := OnDescriptorWrite(s4, GATT_SUCCESS);
      var s6 := OnCharacteristicChanged(s5, [1, 2, 3]);
      s6.replies == [Reply(connectCtx, PluginResult(OK, ServiceCatalogue, false)),
                     Success(notifyCtx),
                     Reply(connectCtx, PluginResult(OK, Value([1, 2, 3]), true))] &&
      s6.requests == [ConnectGatt(device, false), DiscoverServices, SetCharacteristicNotification(c, true),
                      WriteDescriptor(c, CLIENT_CHARACTERISTIC_CONFIGURATION_UUID, ENABLE_NOTIFICATION_VALUE)]
  {
    var c := Characteristic(uuid, PROPERTY_NOTIFY, [CLIENT_CHARACTERISTIC_CONFIGURATION_UUID]);
    assert NotifyCharacteristic([c], uuid) == Some(0) by {
      assert Matches([c][0], uuid, Some(PROPERTY_NOTIFY));
    }
  }

  /** A failed service discovery resolves nobody: the connect caller is left waiting. */
  lemma DiscoveryFailureLeavesConnectUnresolved(s: PeripheralState, ctx: CallbackId, status: int)
    requires status != GATT_SUCCESS
    ensures var t := OnServicesDiscovered(OnConnectionStateChange(Connect(s, ctx, true), GATT_SUCCESS, STATE_CONNECTED, true), status);
            t.replies == s.replies && t.commandContext == Some(ctx) && t.servicesDiscovered == s.servicesDiscovered
  {
  }

  /**
    After the link drops the handle is closed but not cleared, and servicesDiscovered stays set,
    so a write whose characteristic is found still goes to the radio on the closed handle.
   */
  lemma WriteAfterDropStillReachesRadio(s: PeripheralState, ctx: CallbackId, service: seq<Characteristic>, uuid: Uuid,
                                        data: seq<Byte>, writeType: int, status: int, started: bool)
    requires s.gatt == OpenGatt && s.servicesDiscovered
    requires WritableCharacteristic(service, uuid, writeType).Some?
    ensures var t := Write(OnConnectionStateChange(s, status, STATE_DISCONNECTED, started), ctx, service, uuid, data, writeType);
            t.gatt == ClosedGatt && |t.requests| == |s.requests| + 2 &&
            t.requests[|s.requests| + 1].WriteCharacteristic?
  {
  }

  /**
    close while the disconnect timer is pending: close asks the closed handle to disconnect and
    resolves nothing itself; the timer, reading the slot when it fires, resolves the closing
    caller with success.
   */
  lemma CloseBeforeTimerIsResolvedByTimer(s: PeripheralState, ctx: CallbackId, status: int, started: bool)
    requires s.gatt == OpenGatt
    ensures var u := Close(OnConnectionStateChange(s, status, STATE_DISCONNECTED, started), Some(ctx));
            u.replies == s.replies && u.requests == s.requests + [CloseGatt, Disconnect] &&
            FireDisconnectTimer(u).replies == s.replies + [SuccessText(ctx, DISCONNECTED_MESSAGE)]
  {
  }
}
