/**
 * The call and token bookkeeping of `VoIPManager` as a state machine on
 * values. Each platform callback (a push, a CallKit action, a completion
 * handler, a timer firing, a call from Flutter) is one atomic step from one
 * `ManagerState` to the next. What the manager says to the outside world
 * (CallKit reports, HTTP requests, NotificationCenter posts, `fulfill()`) is
 * appended to `effects`; the completion handlers and timers the platform is
 * still holding are in `scheduled`.
 *
 * The class `VoIP.VoIPManager` updates its fields in place and its methods
 * are specified by these step functions.
 */
module VoIPSteps {
  import opened Wrappers
  import opened Values
  import Hex
  import opened Uuids

  /** Seconds before a failed token registration is tried again. */
  const RetryInterval: real := 30.0
  /** Seconds an answered call stays in `pendingCallActions`. */
  const DebounceDelay: real := 2.0
  /** The `source` of the events the manager posts. */
  const CallKitSource := "callkit_native"
  /** The handle of a pushed call whose payload has no `caller_name`. */
  const UnknownCaller := "Unknown"

  const VoIPTokenReceivedName := "VoIPTokenReceived"
  const CallAnsweredName := "CallAnswered"
  const CallEndedName := "CallEnded"

  datatype PushType = VoIPPush | OtherPush

  /** What `UserDefaults.standard` holds when a step reads it. */
  datatype Defaults = Defaults(currentUserId: Option<string>, authToken: Option<string>)

  /** The parts of a registration request that depend on state and defaults. */
  datatype Registration = Registration(userId: string, voipToken: string, bearer: Option<string>)

  /** What a `URLSession` data task hands its completion handler. */
  datatype TaskCompletion = TaskCompletion(transportError: bool, httpStatus: Option<int>)

  /**
   * The run loop a `Timer.scheduledTimer` timer is added to: the current
   * thread's. The main run loop runs; the threads of `URLSession`'s delegate
   * queue do not run theirs, so a timer added there never fires.
   */
  datatype RunLoop = MainRunLoop | SessionQueueRunLoop

  /** `tokenRetryTimer`: the token it resends, its interval, `isValid`, and the run loop that would fire it. */
  datatype RetryTimer = RetryTimer(token: string, interval: real, valid: bool, runLoop: RunLoop)

  /** Closures the platform holds and may run later. */
  datatype Callback =
    | ReportCompletion(uuid: Uuid)
    | EndTransactionCompletion(uuid: Uuid)
    | RegistrationCompletion(token: string)
    | DebounceExpiry(uuid: Uuid, delay: real)

  datatype Effect =
    | ReportedToProvider(uuid: Uuid, handle: string, hasVideo: bool)
    | EndTransactionRequested(uuid: Uuid)
    | RegistrationPosted(request: Registration)
    | TokenSaved(token: string)
    | Posted(name: string, userInfo: map<string, Value>)
    | ActionFulfilled(uuid: Uuid)
    | PushCompleted

  datatype ManagerState = ManagerState(
    activeCalls: map<Uuid, string>,
    pendingCallActions: map<Uuid, bool>,
    currentVoIPToken: Option<string>,
    tokenRetryTimer: Option<RetryTimer>,
    scheduled: multiset<Callback>,
    effects: seq<Effect>)

  const Initial := ManagerState(map[], map[], None, None, multiset{}, [])

  /** Answer guards are only ever set to `true`, and the retry timer always waits 30 s. */
  ghost predicate Valid(s: ManagerState)
  {
    && (forall u :: u in s.pendingCallActions ==> s.pendingCallActions[u])
    && (s.tokenRetryTimer.Some? ==> s.tokenRetryTimer.value.interval == RetryInterval)
  }

  /** The `userInfo` of a `CallAnswered` or `CallEnded` post. */
  function CallUserInfo(uuid: Uuid, timestamp: real): map<string, Value>
  {
    map["callUUID" := VString(UuidString(uuid)), "timestamp" := VDouble(timestamp),
        "source" := VString(CallKitSource)]
  }

  // ---- calls -------------------------------------------------------------

  /** `reportIncomingCall(uuid:handle:hasVideo:)`. */
  function ReportIncomingCall(s: ManagerState, uuid: Uuid, handle: string, hasVideo: bool): ManagerState
  {
    if uuid in s.activeCalls then s
    else s.(activeCalls := s.activeCalls[uuid := handle],
            effects := s.effects + [ReportedToProvider(uuid, handle, hasVideo)],
            scheduled := s.scheduled + multiset{ReportCompletion(uuid)})
  }

  /** The completion of `reportNewIncomingCall`, with or without an error. */
  function ReportCompleted(s: ManagerState, uuid: Uuid, failed: bool): ManagerState
  {
    var s' := s.(scheduled := s.scheduled - multiset{ReportCompletion(uuid)});
    if failed then s'.(activeCalls := s.activeCalls - {uuid}) else s'
  }

  /** `endCall(uuid:)`: request an end-call transaction. */
  function EndCall(s: ManagerState, uuid: Uuid): ManagerState
  {
    s.(effects := s.effects + [EndTransactionRequested(uuid)],
       scheduled := s.scheduled + multiset{EndTransactionCompletion(uuid)})
  }

  /** The completion of the end-call transaction. */
  function EndTransactionCompleted(s: ManagerState, uuid: Uuid, failed: bool): ManagerState
  {
    var s' := s.(scheduled := s.scheduled - multiset{EndTransactionCompletion(uuid)});
    if failed then s'
    else s'.(activeCalls := s.activeCalls - {uuid}, pendingCallActions := s.pendingCallActions - {uuid})
  }

  /** `endCall` on each key, in the order the dictionary yields them. */
  function EndCalls(s: ManagerState, order: seq<Uuid>): ManagerState
    decreases |order|
  {
    if |order| == 0 then s else EndCalls(EndCall(s, order[0]), order[1..])
  }

  /** `order` lists every key of the set exactly once. */
  ghost predicate Enumerates(order: seq<Uuid>, keys: set<Uuid>)
  {
    && (set u | u in order) == keys && |order| == |keys|
    && (forall i, j :: 0 <= i < j < |order| ==> order[i] != order[j])
  }

  /** `pushRegistry(_:didReceiveIncomingPushWith:for:completion:)`; `freshUuid` is the new `UUID()`. */
  function IncomingPushReceived(s: ManagerState, pushType: PushType, payload: map<string, Value>,
                                freshUuid: Uuid): ManagerState
  {
    if pushType != VoIPPush then s.(effects := s.effects + [PushCompleted])
    else
      var caller := match StringAt(payload, "caller_name") case Some(n) => n case None => UnknownCaller;
      var s' := ReportIncomingCall(s, freshUuid, caller, true);
      s'.(effects := s'.effects + [PushCompleted])
  }

  /** `provider(_:perform: CXAnswerCallAction)`. */
  function AnswerCallAction(s: ManagerState, uuid: Uuid, timestamp: real): ManagerState
  {
    if uuid in s.pendingCallActions && s.pendingCallActions[uuid] then
      s.(effects := s.effects + [ActionFulfilled(uuid)])
    else
      s.(pendingCallActions := s.pendingCallActions[uuid := true],
         effects := s.effects + [Posted(CallAnsweredName, CallUserInfo(uuid, timestamp)), ActionFulfilled(uuid)],
         scheduled := s.scheduled + multiset{DebounceExpiry(uuid, DebounceDelay)})
  }

  /** The 2 s `asyncAfter` block scheduled by an applied answer. */
  function DebounceExpired(s: ManagerState, uuid: Uuid): ManagerState
  {
    s.(pendingCallActions := s.pendingCallActions - {uuid},
       scheduled := s.scheduled - multiset{DebounceExpiry(uuid, DebounceDelay)})
  }

  /** `provider(_:perform: CXEndCallAction)`. */
  function EndCallAction(s: ManagerState, uuid: Uuid, timestamp: real): ManagerState
  {
    s.(activeCalls := s.activeCalls - {uuid},
       pendingCallActions := s.pendingCallActions - {uuid},
       effects := s.effects + [Posted(CallEndedName, CallUserInfo(uuid, timestamp)), ActionFulfilled(uuid)])
  }

  // ---- token -------------------------------------------------------------

  /** `sendTokenToServer(_:)`. */
  function SendTokenToServer(s: ManagerState, token: string, d: Defaults): ManagerState
  {
    match d.currentUserId
    case None => s.(currentVoIPToken := Some(token))
    case Some(userId) =>
      s.(effects := s.effects + [RegistrationPosted(Registration(userId, token, d.authToken))],
         scheduled := s.scheduled + multiset{RegistrationCompletion(token)})
  }

  /** `scheduleTokenRetry(_:)` called on the thread of `loop`: invalidate the old timer, keep only the new one. */
  function ScheduleTokenRetryOn(s: ManagerState, token: string, loop: RunLoop): ManagerState
  {
    s.(tokenRetryTimer := Some(RetryTimer(token, RetryInterval, true, loop)))
  }

  /** `scheduleTokenRetry(_:)` as intended: the retry timer goes on the main run loop. */
  function ScheduleTokenRetry(s: ManagerState, token: string): ManagerState
  {
    ScheduleTokenRetryOn(s, token, MainRunLoop)
  }

  /** The data task's completion handler for a registration of `token`, running on the thread of `loop`. */
  function RegistrationCompletedOn(s: ManagerState, token: string, c: TaskCompletion, loop: RunLoop): ManagerState
  {
    var s' := s.(scheduled := s.scheduled - multiset{RegistrationCompletion(token)});
    if c.transportError then ScheduleTokenRetryOn(s', token, loop)
    else match c.httpStatus
      case None => s'
      case Some(code) => if code == 200 then s'.(tokenRetryTimer := None) else ScheduleTokenRetryOn(s', token, loop)
  }

  /** As written: the completion runs on the session's delegate queue, so a retry lands on a run loop nobody runs. */
  function RegistrationCompletedAsWritten(s: ManagerState, token: string, c: TaskCompletion): ManagerState
  {
    RegistrationCompletedOn(s, token, c, SessionQueueRunLoop)
  }

  /** As intended, and as the rest of the model uses it: a retry is scheduled on the main run loop. */
  function RegistrationCompleted(s: ManagerState, token: string, c: TaskCompletion): ManagerState
  {
    RegistrationCompletedOn(s, token, c, MainRunLoop)
  }

  /**
   * The retry timer fires: it is no longer valid, and its token is sent again.
   * A timer on a run loop that is not run never fires.
   */
  function RetryTimerFired(s: ManagerState, d: Defaults): ManagerState
  {
    match s.tokenRetryTimer
    case None => s
    case Some(t) =>
      if !t.valid || t.runLoop != MainRunLoop then s
      else SendTokenToServer(s.(tokenRetryTimer := Some(t.(valid := false))), t.token, d)
  }

  /** `sendPendingTokenIfNeeded()`. */
  function SendPendingTokenIfNeeded(s: ManagerState, d: Defaults): ManagerState
  {
    match s.currentVoIPToken
    case None => s
    case Some(token) => SendTokenToServer(s, token, d)
  }

  /** The push token text: two lower-case hex digits per byte. */
  function TokenText(tokenBytes: seq<Hex.byte>): string
  {
    Hex.Encode(tokenBytes, false)
  }

  /** `pushRegistry(_:didUpdate:for:)`: a token rotation. */
  function PushCredentialsUpdated(s: ManagerState, tokenBytes: seq<Hex.byte>, d: Defaults): ManagerState
  {
    var token := TokenText(tokenBytes);
    var s1 := s.(currentVoIPToken := Some(token), effects := s.effects + [TokenSaved(token)]);
    var s2 := SendTokenToServer(s1, token, d);
    s2.(effects := s2.effects + [Posted(VoIPTokenReceivedName, map["token" := VString(token)])])
  }
}
