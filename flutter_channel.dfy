/** What goes back and forth on a Flutter method channel. */
module FlutterChannel {
  import opened Values

  /** The `FlutterResult` a handler replies with. */
  datatype Reply =
    | ReplySuccess(value: Value)
    | ReplyError(code: string, message: string)
    | ReplyNotImplemented

  /** `channel.invokeMethod(method, arguments:)` from native code to Flutter. */
  datatype Invocation = Invocation(name: string, arguments: map<string, Value>)
}
