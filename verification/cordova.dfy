/**
  The host bridge as the plugin sees it: opaque callback contexts, the results sent to them,
  and the JSON argument array of a command.
 */
module Cordova {
  import opened Options
  import opened Android

  /** An opaque handle on a caller's pending JavaScript callback. */
  datatype CallbackId = CallbackId(id: nat)

  datatype Status = NO_RESULT | OK | ERROR

  /** What a result carries. The JSON documents built by the plugin are kept opaque. */
  datatype Message =
    | NoMessage
    | Text(text: string)
    | Code(code: int)
    | ServiceCatalogue
    | Value(bytes: seq<Byte>)
    | Advertisement(device: DeviceId, rssi: int, scanRecord: seq<Byte>)

  datatype PluginResult = PluginResult(status: Status, message: Message, keepCallback: bool)

  /** One result sent to one callback context. */
  datatype Reply = Reply(to: CallbackId, result: PluginResult)

  /** CallbackContext.success() */
  function Success(to: CallbackId): Reply
  {
    Reply(to, PluginResult(OK, NoMessage, false))
  }

  /** CallbackContext.success(String) */
  function SuccessText(to: CallbackId, text: string): Reply
  {
    Reply(to, PluginResult(OK, Text(text), false))
  }

  /** CallbackContext.error(String) */
  function ErrorText(to: CallbackId, text: string): Reply
  {
    Reply(to, PluginResult(ERROR, Text(text), false))
  }

  /** CallbackContext.error(int) */
  function ErrorCode(to: CallbackId, code: int): Reply
  {
    Reply(to, PluginResult(ERROR, Code(code), false))
  }

  /** An element of a command's argument array. */
  datatype Arg = TextArg(text: string) | ListArg(items: seq<string>) | BufferArg(bytes: seq<Byte>)

  /** CordovaArgs.getString: None where org.json would throw. */
  function GetString(args: seq<Arg>, i: nat): Option<string>
  {
    if i < |args| && args[i].TextArg? then Some(args[i].text) else None
  }

  /** CordovaArgs.getJSONArray, for an array of strings. */
  function GetJsonArray(args: seq<Arg>, i: nat): Option<seq<string>>
  {
    if i < |args| && args[i].ListArg? then Some(args[i].items) else None
  }

  /** CordovaArgs.getArrayBuffer */
  function GetArrayBuffer(args: seq<Arg>, i: nat): Option<seq<Byte>>
  {
    if i < |args| && args[i].BufferArg? then Some(args[i].bytes) else None
  }
}
