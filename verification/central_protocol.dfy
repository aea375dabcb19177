/** What `execute` guarantees across actions and arguments. */
module CentralProtocol {
  import opened Options
  import opened Android
  import opened Cordova
  import opened CharacteristicLookup
  import PeripheralSpec
  import opened CentralSpec

  /** `disconnect` closes the active peripheral and ends IDLE; `enable` does nothing. */
  lemma DisconnectAndEnableDispatch(s: CentralState, args: seq<Arg>, ctx: CallbackId, radio: RadioAnswers)
    ensures Execute(s, DISCONNECT, args, ctx, radio) == (Close(s, ctx).(activeState := IDLE), Returned(true))
    ensures Execute(s, ENABLE, args, ctx, radio) == (s, Returned(true))
  {
  }

  /** `startScan` and `scan` take the identical path. */
  lemma ScanIsStartScan(s: CentralState, args: seq<Arg>, ctx: CallbackId, radio: RadioAnswers)
    requires CanExecute(s, SCAN, args, radio)
    ensures CanExecute(s, START_SCAN, args, radio)
    ensures Execute(s, SCAN, args, ctx, radio) == Execute(s, START_SCAN, args, ctx, radio)
  {
  }

  /** Exactly the eight action names are recognised. */
  lemma RecognisedActions(s: CentralState, action: string, args: seq<Arg>, ctx: CallbackId, radio: RadioAnswers)
    requires CanExecute(s, action, args, radio)
    ensures Execute(s, action, args, ctx, radio).1 == Returned(false) <==>
            action !in {START_SCAN, SCAN, STOP_SCAN, CONNECT, DISCONNECT, WRITE, START_NOTIFICATION, ENABLE}
  {
  }

  /** The address argument of write never selects the target: any two addresses give the same result. */
  lemma WriteIgnoresAddress(s: CentralState, ctx: CallbackId, mac1: string, mac2: string, service: seq<Characteristic>,
                            uuid: Uuid, data: seq<Byte>, writeType: int)
    requires s.activePeripheral.Some?
    ensures Write(s, ctx, mac1, service, uuid, data, writeType) == Write(s, ctx, mac2, service, uuid, data, writeType)
  {
  }

  /** The address argument of a subscription never selects the target either. */
  lemma RegisterIgnoresAddress(s: CentralState, ctx: CallbackId, mac1: string, mac2: string, service: seq<Characteristic>,
                               uuid: Uuid, enabled: bool, valueSet: bool)
    requires s.activePeripheral.Some? && CanRegister(s, service, uuid, enabled)
    ensures RegisterNotifyCallback(s, ctx, mac1, service, uuid, enabled, valueSet) ==
            RegisterNotifyCallback(s, ctx, mac2, service, uuid, enabled, valueSet)
  {
  }

  /**
    A dispatched write asks the radio for exactly one write, of the default type, on the
    characteristic found by the PROPERTY_WRITE search, when the arguments are well formed and the
    active peripheral lets a write go out; otherwise it asks for nothing. Dispatch never looks
    for the no-response property.
   */
  lemma DispatchedWritesUseDefaultType(s: CentralState, args: seq<Arg>, ctx: CallbackId, radio: RadioAnswers)
    requires s.activePeripheral.Some?
    ensures var t := Execute(s, WRITE, args, ctx, radio).0;
            var p := s.activePeripheral.value;
            t.activePeripheral.Some? &&
            if WriteArgs(args) &&
               PeripheralSpec.WriteGoesOut(p, radio.service, UuidFromString(GetString(args, 2).value), WRITE_TYPE_DEFAULT)
            then
              var i := WritableCharacteristic(radio.service, UuidFromString(GetString(args, 2).value), WRITE_TYPE_DEFAULT).value;
              t.activePeripheral.value.requests ==
                p.requests + [WriteCharacteristic(radio.service[i], GetArrayBuffer(args, 3).value, WRITE_TYPE_DEFAULT)] &&
              HasProperty(radio.service[i], PROPERTY_WRITE) ==
                (exists j :: 0 <= j < |radio.service| &&
                   Matches(radio.service[j], UuidFromString(GetString(args, 2).value), Some(PROPERTY_WRITE)))
            else t.activePeripheral.value.requests == p.requests
  {
  }

  /** connect ends in CONNECTED even when the address does not resolve; the caller then gets an error. */
  lemma ConnectStateIgnoresLookup(s: CentralState, mac: string, ctx: CallbackId, radio: RadioAnswers)
    requires !radio.deviceFound
    ensures var t := Execute(s, CONNECT, [TextArg(mac)], ctx, radio);
            t.1 == Returned(true) && t.0.activeState == CONNECTED &&
            t.0.activePeripheral == s.activePeripheral &&
            t.0.replies == s.replies + [ErrorText(ctx, "Could not find the peripheral:" + mac)]
  {
  }

  /**
    connect to a resolvable address replaces the active peripheral with a new one that has
    only asked for its own session. The old peripheral object is left exactly as it was, which
    BleCentralPlugin.Connect states of the object itself.
   */
  lemma ConnectReplacesPeripheral(s: CentralState, mac: string, ctx: CallbackId, radio: RadioAnswers)
    requires radio.deviceFound
    ensures var t := Execute(s, CONNECT, [TextArg(mac)], ctx, radio).0;
            t.activePeripheral.Some? && t.activePeripheral.value.device == DeviceId(mac) &&
            t.activePeripheral.value.requests == [ConnectGatt(DeviceId(mac), false)] &&
            t.replies == s.replies
  {
  }

  /** stopScan stops the adapter and leaves the discovery callback registered. */
  lemma StopScanKeepsDiscoverCallback(s: CentralState, args: seq<Arg>, ctx: CallbackId, radio: RadioAnswers)
    ensures var t := Execute(s, STOP_SCAN, args, ctx, radio).0;
            t.discoverCallback == s.discoverCallback && t.adapterRequests == s.adapterRequests + [StopLeScan]
  {
  }

  /**
    Scan, two advertisements, stopScan: both advertisements reach the scan caller in order,
    the state ends IDLE, and the adapter was asked to start and to stop.
   */
  lemma ScanScenario(ctx: CallbackId, stopCtx: CallbackId, a: DeviceId, b: DeviceId, recordA: seq<Byte>, recordB: seq<Byte>)
    ensures
      var none := RadioAnswers(false, false, [], false, false);
      var s1 := Execute(Initial, START_SCAN, [ListArg([])], ctx, none).0;
      var s2 := OnLeScan(s1, a, -40, recordA);
      var s3 := OnLeScan(s2, b, -70, recordB);
      var s4 := Execute(s3, STOP_SCAN, [], stopCtx, none).0;
      s4.activeState == IDLE && s4.adapterRequests == [StartLeScan, StopLeScan] &&
      s4.replies == [Reply(ctx, PluginResult(NO_RESULT, NoMessage, true)),
                     Reply(ctx, PluginResult(OK, Advertisement(a, -40, recordA), true)),
                     Reply(ctx, PluginResult(OK, Advertisement(b, -70, recordB), true)),
                     Success(stopCtx)]
  {
  }
}
