/**
 * The values and replies that cross the Flutter method channel. A `Result`
 * object the plugin answers is identified by a responder id; everything the
 * plugin answers is recorded as a `Reply` to that id.
 */
module Channel {
  import opened Wrappers

  /** Identity of one `MethodChannel.Result` object handed to the plugin. */
  type ResponderId = nat

  /** The Java objects the plugin sends: null, a String, or a HashMap<String, Object>. */
  datatype Value = VNull | VString(str: string) | VMap(entries: map<string, Value>)

  /** The three ways to answer a `MethodChannel.Result`. */
  datatype Response =
    | Success(result: Value)
    | Error(errorCode: string, errorMessage: string, errorDetails: Value)
    | NotImplemented

  datatype Reply = Reply(to: ResponderId, response: Response)

  /** A `MethodCall`: the method name and its string arguments. */
  datatype MethodCall = MethodCall(methodName: string, arguments: map<string, string>)

  /** `call.argument(key)`: the argument, or null when the caller did not pass it. */
  function Argument(call: MethodCall, key: string): (a: Option<string>)
    ensures a.Some? <==> key in call.arguments
    ensures a.Some? ==> a.value == call.arguments[key]
  {
    if key in call.arguments then Some(call.arguments[key]) else None
  }
}
