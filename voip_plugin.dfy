/**
 * `VoIPPlugin`: the `voip_native` method channel. Calls from Flutter are
 * dispatched to `VoIPManager`; the manager's NotificationCenter posts are
 * forwarded to Flutter.
 */
module VoIPPlugin {
  import opened Wrappers
  import opened Values
  import opened FlutterChannel
  import opened Uuids
  import VoIPSteps

  /** The manager operation a method call leads to. */
  datatype ManagerCall =
    | NoCall
    | InitializeManager
    | ReportCall(uuid: Uuid, handle: string, hasVideo: bool)
    | EndOneCall(uuid: Uuid)
    | EndEveryCall

  datatype Dispatch = Dispatch(reply: Reply, call: ManagerCall)

  const UnsupportedVersion := ReplyError("UNSUPPORTED_VERSION", "iOS 10.0+ required")

  /** `reportIncomingCall(args:result:)`; `freshUuid` is the new `UUID()`. */
  function ReportIncomingCall(args: map<string, Value>, freshUuid: Uuid, iOS10: bool): Dispatch
  {
    if !iOS10 then Dispatch(UnsupportedVersion, NoCall)
    else
      var callerName := match StringAt(args, "callerName") case Some(n) => n case None => "Unknown";
      var hasVideo := match BoolAt(args, "hasVideo") case Some(v) => v case None => true;
      Dispatch(ReplySuccess(VString(UuidString(freshUuid))), ReportCall(freshUuid, callerName, hasVideo))
  }

  /** `endCall(callUUID:result:)`. */
  function EndCall(callUUID: string, iOS10: bool): Dispatch
  {
    if !iOS10 then Dispatch(UnsupportedVersion, NoCall)
    else match ParseUuid(callUUID)
      case None => Dispatch(ReplyError("INVALID_UUID", "Invalid UUID format"), NoCall)
      case Some(uuid) => Dispatch(ReplySuccess(VBool(true)), EndOneCall(uuid))
  }

  /** `handle(_:result:)`; `iOS10` is `#available(iOS 10.0, *)`. */
  function Handle(name: string, arguments: Value, freshUuid: Uuid, iOS10: bool): Dispatch
  {
    if name == "initializeVoIP" then
      if iOS10 then Dispatch(ReplySuccess(VBool(true)), InitializeManager) else Dispatch(UnsupportedVersion, NoCall)
    else if name == "reportIncomingCall" then
      if arguments.VMap? then ReportIncomingCall(arguments.m, freshUuid, iOS10)
      else Dispatch(ReplyError("INVALID_ARGUMENTS", "Invalid arguments"), NoCall)
    else if name == "endCall" then
      if arguments.VMap? && StringAt(arguments.m, "callUUID").Some? then
        EndCall(StringAt(arguments.m, "callUUID").value, iOS10)
      else Dispatch(ReplyError("INVALID_ARGUMENTS", "Missing callUUID"), NoCall)
    else if name == "endAllCalls" then
      if iOS10 then Dispatch(ReplySuccess(VBool(true)), EndEveryCall) else Dispatch(UnsupportedVersion, NoCall)
    else Dispatch(ReplyNotImplemented, NoCall)
  }

  predicate KnownMethod(name: string)
  {
    name == "initializeVoIP" || name == "reportIncomingCall" || name == "endCall" || name == "endAllCalls"
  }

  /** The manager is called exactly when the reply is a success. */
  lemma ManagerCalledIffSuccess(name: string, arguments: Value, freshUuid: Uuid, iOS10: bool)
    ensures var d := Handle(name, arguments, freshUuid, iOS10);
      d.reply.ReplySuccess? <==> d.call != NoCall
  {
  }

  /** An unknown method name is not implemented, and nothing is called. */
  lemma UnknownMethodNotImplemented(name: string, arguments: Value, freshUuid: Uuid, iOS10: bool)
    requires !KnownMethod(name)
    ensures Handle(name, arguments, freshUuid, iOS10) == Dispatch(ReplyNotImplemented, NoCall)
  {
  }

  /** `reportIncomingCall` without a dictionary is `INVALID_ARGUMENTS`. */
  lemma ReportNeedsDictionary(arguments: Value, freshUuid: Uuid, iOS10: bool)
    requires !arguments.VMap?
    ensures var d := Handle("reportIncomingCall", arguments, freshUuid, iOS10);
      d.reply.ReplyError? && d.reply.code == "INVALID_ARGUMENTS" && d.call == NoCall
  {
  }

  /** `endCall` needs a string `callUUID` (else `INVALID_ARGUMENTS`) that parses (else `INVALID_UUID`); only then is the manager called, with that UUID. */
  lemma EndCallValidation(arguments: Value, freshUuid: Uuid)
    ensures var d := Handle("endCall", arguments, freshUuid, true);
      && (!(arguments.VMap? && StringAt(arguments.m, "callUUID").Some?) ==>
            d.reply.ReplyError? && d.reply.code == "INVALID_ARGUMENTS" && d.call == NoCall)
      && (arguments.VMap? && StringAt(arguments.m, "callUUID").Some? ==>
            var text := StringAt(arguments.m, "callUUID").value;
            if ParseUuid(text).None? then d.reply.ReplyError? && d.reply.code == "INVALID_UUID" && d.call == NoCall
            else d == Dispatch(ReplySuccess(VBool(true)), EndOneCall(ParseUuid(text).value)))
  {
  }

  /** `reportIncomingCall` defaults the caller to "Unknown" and video to on, and replies with the text of the UUID it reported. */
  lemma ReportDefaultsAndReply(args: map<string, Value>, freshUuid: Uuid)
    ensures var d := Handle("reportIncomingCall", VMap(args), freshUuid, true);
      && d.call.ReportCall? && d.call.uuid == freshUuid
      && d.call.handle == (if "callerName" in args && args["callerName"].VString? then args["callerName"].s else "Unknown")
      && d.call.hasVideo == (if "hasVideo" in args && args["hasVideo"].VBool? then args["hasVideo"].b else true)
      && d.reply.ReplySuccess? && d.reply.value.VString? && ParseUuid(d.reply.value.s) == Some(freshUuid)
  {
    ParseUuidString(freshUuid);
  }

  /** Ending a call with the UUID text `reportIncomingCall` replied with ends that very call. */
  lemma EndCallOfReportedCall(args: map<string, Value>, freshUuid: Uuid, otherUuid: Uuid)
    ensures var reported := Handle("reportIncomingCall", VMap(args), freshUuid, true);
      Handle("endCall", VMap(map["callUUID" := reported.reply.value]), otherUuid, true).call == EndOneCall(freshUuid)
  {
    ParseUuidString(freshUuid);
  }

  datatype CallEvent = Answered | Ended

  /** The Flutter method a call event is forwarded as. */
  function ChannelMethod(event: CallEvent): string
  {
    match event
    case Answered => "onCallAnswered"
    case Ended => "onCallEnded"
  }

  /** `voipTokenReceived(_:)`: forwards the token only when it is a string. */
  function ForwardToken(userInfo: Option<map<string, Value>>): (inv: Option<Invocation>)
    ensures inv.Some? <==> userInfo.Some? && StringAt(userInfo.value, "token").Some?
    ensures inv.Some? ==> inv.value == Invocation("onVoIPTokenReceived", map["token" := userInfo.value["token"]])
  {
    if userInfo.None? then None
    else match StringAt(userInfo.value, "token")
      case None => None
      case Some(token) => Some(Invocation("onVoIPTokenReceived", map["token" := VString(token)]))
  }

  /**
   * What `callAnswered(_:)` and `callEnded(_:)` send for `userInfo`: nothing unless
   * `callUUID` is a string; then `callUUID` always, and `timestamp` and `source` exactly
   * when they are present with their types, and no other key.
   */
  predicate ForwardsCallEvent(event: CallEvent, userInfo: Option<map<string, Value>>, inv: Option<Invocation>)
  {
    && (inv.Some? <==> userInfo.Some? && StringAt(userInfo.value, "callUUID").Some?)
    && (inv.Some? ==>
         var info, args := userInfo.value, inv.value.arguments;
         && inv.value.name == ChannelMethod(event)
         && "callUUID" in args && args["callUUID"] == info["callUUID"]
         && ("timestamp" in args <==> DoubleAt(info, "timestamp").Some?)
         && ("timestamp" in args ==> args["timestamp"] == info["timestamp"])
         && ("source" in args <==> StringAt(info, "source").Some?)
         && ("source" in args ==> args["source"] == info["source"])
         && (forall k :: k in args ==> k == "callUUID" || k == "timestamp" || k == "source"))
  }

  /** `callAnswered(_:)` and `callEnded(_:)`, building the arguments field by field. */
  method ForwardCallEvent(event: CallEvent, userInfo: Option<map<string, Value>>) returns (inv: Option<Invocation>)
    ensures ForwardsCallEvent(event, userInfo, inv)
  {
    inv := None;
    if userInfo.None? {
      return;
    }
    var info := userInfo.value;
    var callUUID := StringAt(info, "callUUID");
    if callUUID.None? {
      return;
    }
    var timestamp := DoubleAt(info, "timestamp");
    var source := StringAt(info, "source");
    var arguments: map<string, Value> := map["callUUID" := VString(callUUID.value)];
    if timestamp.Some? {
      arguments := arguments["timestamp" := VDouble(timestamp.value)];
    }
    if source.Some? {
      arguments := arguments["source" := VString(source.value)];
    }
    inv := Some(Invocation(ChannelMethod(event), arguments));
  }

  /** The observers registered in `setupNotificationListeners()`, by notification name. */
  method OnNotification(name: string, userInfo: Option<map<string, Value>>) returns (inv: Option<Invocation>)
    ensures name == VoIPSteps.VoIPTokenReceivedName ==> inv == ForwardToken(userInfo)
    ensures name !in {VoIPSteps.VoIPTokenReceivedName, VoIPSteps.CallAnsweredName, VoIPSteps.CallEndedName} ==> inv.None?
    ensures name == VoIPSteps.CallAnsweredName ==> ForwardsCallEvent(Answered, userInfo, inv)
    ensures name == VoIPSteps.CallEndedName ==> ForwardsCallEvent(Ended, userInfo, inv)
  {
    if name == VoIPSteps.VoIPTokenReceivedName {
      inv := ForwardToken(userInfo);
    } else if name == VoIPSteps.CallAnsweredName {
      inv := ForwardCallEvent(Answered, userInfo);
    } else if name == VoIPSteps.CallEndedName {
      inv := ForwardCallEvent(Ended, userInfo);
    } else {
      inv := None;
    }
  }

  /** What the manager posts for an answer reaches Flutter with all three fields, and its `callUUID` names the call. */
  method AnsweredPostReachesFlutter(uuid: Uuid, timestamp: real) returns (inv: Option<Invocation>)
    ensures inv == Some(Invocation("onCallAnswered", VoIPSteps.CallUserInfo(uuid, timestamp)))
    ensures ParseUuid(inv.value.arguments["callUUID"].s) == Some(uuid)
  {
    var info := VoIPSteps.CallUserInfo(uuid, timestamp);
    inv := OnNotification(VoIPSteps.CallAnsweredName, Some(info));
    ParseUuidString(uuid);
    var args := inv.value.arguments;
    assert "timestamp" in args && "source" in args;
    assert args.Keys == info.Keys;
    assert args == info;
  }
}
