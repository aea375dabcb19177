/**
  Runs of the Peripheral state machine: any interleaving of commands, radio callbacks and
  disconnect-timer firings, and what holds across all of them.
 */
module PeripheralRuns {
  import opened Options
  import opened Android
  import opened Cordova
  import opened CharacteristicLookup
  import opened PeripheralSpec

  /** One thing that can happen to a peripheral. */
  datatype Event =
    | ConnectCommand(ctx: CallbackId, sessionOpened: bool)
    | CloseCommand(closeCtx: Option<CallbackId>)
    | WriteCommand(ctx: CallbackId, service: seq<Characteristic>, characteristicUuid: Uuid, data: seq<Byte>, writeType: int)
    | RegisterNotifyCommand(ctx: CallbackId, service: seq<Characteristic>, characteristicUuid: Uuid,
                            notificationEnabled: bool, descriptorValueSet: bool)
    | ConnectionStateChanged(status: int, newState: int, discoveryStarted: bool)
    | ServicesDiscovered(status: int)
    | DescriptorWritten(status: int)
    | CharacteristicWritten(status: int)
    | CharacteristicChanged(value: seq<Byte>)
    | DisconnectTimerFired

  /** The event can happen in `s` without a null dereference, and radio callbacks only on a live session. */
  predicate Enabled(s: PeripheralState, e: Event)
  {
    match e
    case ConnectCommand(_, _) => true
    case CloseCommand(ctx) => s.gatt == NullGatt ==> ctx.Some?
    case WriteCommand(_, _, _, _, _) => true
    case RegisterNotifyCommand(_, service, uuid, enabled, _) =>
      s.gatt != NullGatt && enabled ==> NotifyDescriptorPresent(service, uuid)
    case ConnectionStateChanged(_, newState, _) =>
      s.gatt == OpenGatt && (UnknownState(newState) ==> s.commandContext.Some?)
    case ServicesDiscovered(status) => s.gatt == OpenGatt && (status == GATT_SUCCESS ==> s.commandContext.Some?)
    case DescriptorWritten(_) => s.gatt == OpenGatt
    case CharacteristicWritten(status) => s.gatt == OpenGatt && (status != GATT_SUCCESS ==> s.commandContext.Some?)
    case CharacteristicChanged(_) => s.gatt == OpenGatt
    case DisconnectTimerFired => s.pendingDisconnectTimers > 0 && s.commandContext.Some?
  }

  /** The callback contexts an event hands to the peripheral. */
  function Supplied(e: Event): set<CallbackId>
  {
    match e
    case ConnectCommand(ctx, _) => {ctx}
    case CloseCommand(ctx) => if ctx.Some? then {ctx.value} else {}
    case WriteCommand(ctx, _, _, _, _) => {ctx}
    case RegisterNotifyCommand(ctx, _, _, _, _) => {ctx}
    case _ => {}
  }

  /** The callback contexts a sequence of events hands to the peripheral. */
  function SuppliedAll(es: seq<Event>): set<CallbackId>
  {
    if es == [] then {} else Supplied(es[0]) + SuppliedAll(es[1..])
  }

  /** Both context slots hold only contexts from `known`. */
  predicate ContextsWithin(s: PeripheralState, known: set<CallbackId>)
  {
    (s.commandContext.Some? ==> s.commandContext.value in known) &&
    (s.notifyContext.Some? ==> s.notifyContext.value in known)
  }

  /** Every reply after position `from` goes to a context in `known`. */
  predicate RepliesWithin(replies: seq<Reply>, from: nat, known: set<CallbackId>)
  {
    forall k :: from <= k < |replies| ==> replies[k].to in known
  }

  /** One step. No step sets `connected`, and both logs only grow. */
  function Step(s: PeripheralState, e: Event): (t: PeripheralState)
    requires Enabled(s, e)
    ensures t.connected ==> s.connected
    ensures s.replies <= t.replies && s.requests <= t.requests
  {
    match e
    case ConnectCommand(ctx, sessionOpened) => Connect(s, ctx, sessionOpened)
    case CloseCommand(ctx) => Close(s, ctx)
    case WriteCommand(ctx, service, uuid, data, writeType) => Write(s, ctx, service, uuid, data, writeType)
    case RegisterNotifyCommand(ctx, service, uuid, enabled, valueSet) =>
      RegisterNotifyCallback(s, ctx, service, uuid, enabled, valueSet)
    case ConnectionStateChanged(status, newState, started) => OnConnectionStateChange(s, status, newState, started)
    case ServicesDiscovered(status) => OnServicesDiscovered(s, status)
    case DescriptorWritten(status) => OnDescriptorWrite(s, status)
    case CharacteristicWritten(status) => OnCharacteristicWrite(s, status)
    case CharacteristicChanged(value) => OnCharacteristicChanged(s, value)
    case DisconnectTimerFired => FireDisconnectTimer(s)
  }

  /** A step addresses replies only to contexts the peripheral already held or the event supplied, and keeps only those. */
  lemma StepAddressesCallers(s: PeripheralState, e: Event, known: set<CallbackId>)
    requires Enabled(s, e) && ContextsWithin(s, known)
    ensures ContextsWithin(Step(s, e), known + Supplied(e))
    ensures RepliesWithin(Step(s, e).replies, |s.replies|, known + Supplied(e))
  {
  }

  /** The state after the events, or None when one of them cannot happen where it comes. */
  function Run(s: PeripheralState, es: seq<Event>): Option<PeripheralState>
    decreases |es|
  {
    if es == [] then Some(s)
    else if !Enabled(s, es[0]) then None
    else Run(Step(s, es[0]), es[1..])
  }

  /** `connected` is never set: from a state where it is false, every run keeps it false. */
  lemma {:induction false} NeverConnected(s: PeripheralState, es: seq<Event>)
    requires !s.connected
    ensures Run(s, es).Some? ==> !Run(s, es).value.connected
    decreases |es|
  {
    if es != [] && Enabled(s, es[0]) {
      NeverConnected(Step(s, es[0]), es[1..]);
    }
  }

  /** Nothing sent or requested is ever taken back: both logs of a run extend those of its start. */
  lemma {:induction false} LogsOnlyGrow(s: PeripheralState, es: seq<Event>)
    ensures Run(s, es).Some? ==> s.replies <= Run(s, es).value.replies && s.requests <= Run(s, es).value.requests
    decreases |es|
  {
    if es != [] && Enabled(s, es[0]) {
      LogsOnlyGrow(Step(s, es[0]), es[1..]);
    }
  }

  /**
    Results go only to callers: every reply a run sends is addressed to a context the peripheral
    already held or one a command of the run handed in.
   */
  lemma {:induction false} RepliesOnlyToCallers(s: PeripheralState, es: seq<Event>, known: set<CallbackId>)
    requires ContextsWithin(s, known)
    ensures Run(s, es).Some? ==> RepliesWithin(Run(s, es).value.replies, |s.replies|, known + SuppliedAll(es))
    decreases |es|
  {
    if es != [] && Enabled(s, es[0]) {
      var t := Step(s, es[0]);
      var known' := known + Supplied(es[0]);
      StepAddressesCallers(s, es[0], known);
      RepliesOnlyToCallers(t, es[1..], known');
      LogsOnlyGrow(t, es[1..]);
      assert known' + SuppliedAll(es[1..]) == known + SuppliedAll(es);
    }
  }
}
