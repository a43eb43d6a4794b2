/**
 * `VoIPManager`: the object that owns the call and token bookkeeping and is
 * the PushKit and CallKit delegate. Each method is one callback or call and
 * is specified by the matching step of `VoIPSteps`.
 */
module VoIP {
  import opened Wrappers
  import opened Values
  import Hex
  import opened Uuids
  import opened VoIPSteps
  import VoIPProperties

  class VoIPManager {
    var activeCalls: map<Uuid, string>
    var pendingCallActions: map<Uuid, bool>
    var currentVoIPToken: Option<string>
    var tokenRetryTimer: Option<RetryTimer>
    /** The completion handlers and timers the platform holds. */
    ghost var scheduled: multiset<Callback>
    /** What the manager has said to CallKit, the server, NotificationCenter and PushKit. */
    ghost var effects: seq<Effect>

    ghost function State(): ManagerState
      reads this
    {
      ManagerState(activeCalls, pendingCallActions, currentVoIPToken, tokenRetryTimer, scheduled, effects)
    }

    ghost predicate Valid()
      reads this
    {
      VoIPSteps.Valid(State())
    }

    /** `init()`: empty maps, no token, no timer (CallKit and PushKit set-up is not modelled). */
    constructor ()
      ensures Valid() && State() == Initial
    {
      activeCalls, pendingCallActions := map[], map[];
      currentVoIPToken, tokenRetryTimer := None, None;
      scheduled, effects := multiset{}, [];
    }

    method ReportIncomingCall(uuid: Uuid, handle: string, hasVideo: bool)
      requires Valid()
      modifies this
      ensures Valid() && State() == VoIPSteps.ReportIncomingCall(old(State()), uuid, handle, hasVideo)
    {
      if uuid in activeCalls {
        return;
      }
      activeCalls := activeCalls[uuid := handle];
      effects := effects + [ReportedToProvider(uuid, handle, hasVideo)];
      scheduled := scheduled + multiset{ReportCompletion(uuid)};
    }

    /** The closure passed to `reportNewIncomingCall`: `failed` when it receives an error. */
    method OnReportCompletion(uuid: Uuid, failed: bool)
      requires Valid() && ReportCompletion(uuid) in scheduled
      modifies this
      ensures Valid() && State() == VoIPSteps.ReportCompleted(old(State()), uuid, failed)
    {
      scheduled := scheduled - multiset{ReportCompletion(uuid)};
      if failed {
        activeCalls := activeCalls - {uuid};
      }
    }

    method EndCall(uuid: Uuid)
      requires Valid()
      modifies this
      ensures Valid() && State() == VoIPSteps.EndCall(old(State()), uuid)
    {
      effects := effects + [EndTransactionRequested(uuid)];
      scheduled := scheduled + multiset{EndTransactionCompletion(uuid)};
    }

    /** The closure passed to `callController.request`. */
    method OnEndTransactionCompletion(uuid: Uuid, failed: bool)
      requires Valid() && EndTransactionCompletion(uuid) in scheduled
      modifies this
      ensures Valid() && State() == VoIPSteps.EndTransactionCompleted(old(State()), uuid, failed)
    {
      scheduled := scheduled - multiset{EndTransactionCompletion(uuid)};
      if !failed {
        activeCalls := activeCalls - {uuid};
        pendingCallActions := pendingCallActions - {uuid};
      }
    }

    /** `endCall` for every key of `activeCalls`; `order` is the order the keys came in. */
    method EndAllCalls() returns (ghost order: seq<Uuid>)
      requires Valid()
      modifies this
      ensures Valid() && Enumerates(order, old(activeCalls).Keys)
      ensures State() == EndCalls(old(State()), order)
    {
      ghost var s0 := State();
      var remaining := activeCalls.Keys;
      order := [];
      while remaining != {}
        invariant Valid() && State() == EndCalls(s0, order)
        invariant (set v | v in order) !! remaining
        invariant (set v | v in order) + remaining == s0.activeCalls.Keys
        invariant |(set v | v in order)| == |order|
        invariant forall i, j :: 0 <= i < j < |order| ==> order[i] != order[j]
        decreases remaining
      {
        var uuid :| uuid in remaining;
        EndCall(uuid);
        VoIPProperties.EndCallsSnoc(s0, order, uuid);
        EnumerationGrows(order, uuid);
        order := order + [uuid];
        remaining := remaining - {uuid};
      }
    }

    method SendTokenToServer(token: string, d: Defaults)
      requires Valid()
      modifies this
      ensures Valid() && State() == VoIPSteps.SendTokenToServer(old(State()), token, d)
    {
      if d.currentUserId.None? {
        currentVoIPToken := Some(token);
        return;
      }
      var userId := d.currentUserId.value;
      effects := effects + [RegistrationPosted(Registration(userId, token, d.authToken))];
      scheduled := scheduled + multiset{RegistrationCompletion(token)};
    }

    method ScheduleTokenRetry(token: string)
      requires Valid()
      modifies this
      ensures Valid() && State() == VoIPSteps.ScheduleTokenRetry(old(State()), token)
    {
      tokenRetryTimer := Some(RetryTimer(token, RetryInterval, true, MainRunLoop));
    }

    /** The data task's completion handler for a registration of `token`. */
    method OnRegistrationCompletion(token: string, c: TaskCompletion)
      requires Valid() && RegistrationCompletion(token) in scheduled
      modifies this
      ensures Valid() && State() == VoIPSteps.RegistrationCompleted(old(State()), token, c)
    {
      scheduled := scheduled - multiset{RegistrationCompletion(token)};
      if c.transportError {
        ScheduleTokenRetry(token);
        return;
      }
      if c.httpStatus.Some? {
        if c.httpStatus.value == 200 {
          tokenRetryTimer := None;
        } else {
          ScheduleTokenRetry(token);
        }
      }
    }

    /** The retry timer's block runs once, 30 s after it was scheduled on the main run loop. */
    method OnRetryTimerFired(d: Defaults)
      requires Valid() && tokenRetryTimer.Some? && tokenRetryTimer.value.valid
      requires tokenRetryTimer.value.runLoop == MainRunLoop
      modifies this
      ensures Valid() && State() == VoIPSteps.RetryTimerFired(old(State()), d)
    {
      var timer := tokenRetryTimer.value;
      tokenRetryTimer := Some(timer.(valid := false));
      SendTokenToServer(timer.token, d);
    }

    method SendPendingTokenIfNeeded(d: Defaults)
      requires Valid()
      modifies this
      ensures Valid() && State() == VoIPSteps.SendPendingTokenIfNeeded(old(State()), d)
    {
      if currentVoIPToken.Some? {
        SendTokenToServer(currentVoIPToken.value, d);
      }
    }

    /** `pushRegistry(_:didUpdate:for:)`. */
    method DidUpdatePushCredentials(tokenBytes: seq<Hex.byte>, d: Defaults)
      requires Valid()
      modifies this
      ensures Valid() && State() == PushCredentialsUpdated(old(State()), tokenBytes, d)
    {
      var token := TokenText(tokenBytes);
      currentVoIPToken := Some(token);
      effects := effects + [TokenSaved(token)];
      SendTokenToServer(token, d);
      effects := effects + [Posted(VoIPTokenReceivedName, map["token" := VString(token)])];
    }

    /** `pushRegistry(_:didReceiveIncomingPushWith:for:completion:)`; `freshUuid` is the new `UUID()`. */
    method DidReceiveIncomingPush(pushType: PushType, payload: map<string, Value>, freshUuid: Uuid)
      requires Valid()
      modifies this
      ensures Valid() && State() == IncomingPushReceived(old(State()), pushType, payload, freshUuid)
    {
      if pushType != VoIPPush {
        effects := effects + [PushCompleted];
        return;
      }
      var callerName := match StringAt(payload, "caller_name") case Some(n) => n case None => UnknownCaller;
      ReportIncomingCall(freshUuid, callerName, true);
      effects := effects + [PushCompleted];
    }

    /** `provider(_:perform: CXAnswerCallAction)`; `timestamp` is `Date().timeIntervalSince1970`. */
    method PerformAnswerCallAction(uuid: Uuid, timestamp: real)
      requires Valid()
      modifies this
      ensures Valid() && State() == AnswerCallAction(old(State()), uuid, timestamp)
    {
      if uuid in pendingCallActions && pendingCallActions[uuid] {
        effects := effects + [ActionFulfilled(uuid)];
        return;
      }
      pendingCallActions := pendingCallActions[uuid := true];
      effects := effects + [Posted(CallAnsweredName, CallUserInfo(uuid, timestamp))];
      effects := effects + [ActionFulfilled(uuid)];
      scheduled := scheduled + multiset{DebounceExpiry(uuid, DebounceDelay)};
    }

    /** The `asyncAfter(deadline: .now() + 2.0)` block of an applied answer. */
    method OnDebounceExpired(uuid: Uuid)
      requires Valid() && DebounceExpiry(uuid, DebounceDelay) in scheduled
      modifies this
      ensures Valid() && State() == DebounceExpired(old(State()), uuid)
    {
      pendingCallActions := pendingCallActions - {uuid};
      scheduled := scheduled - multiset{DebounceExpiry(uuid, DebounceDelay)};
    }

    /** `provider(_:perform: CXEndCallAction)`. */
    method PerformEndCallAction(uuid: Uuid, timestamp: real)
      requires Valid()
      modifies this
      ensures Valid() && State() == EndCallAction(old(State()), uuid, timestamp)
    {
      activeCalls := activeCalls - {uuid};
      pendingCallActions := pendingCallActions - {uuid};
      effects := effects + [Posted(CallEndedName, CallUserInfo(uuid, timestamp))];
      effects := effects + [ActionFulfilled(uuid)];
    }
  }

  /** Appending a key not yet listed adds it to the listed set and keeps the list free of repeats. */
  lemma EnumerationGrows(order: seq<Uuid>, uuid: Uuid)
    requires uuid !in (set v | v in order) && |(set v | v in order)| == |order|
    ensures (set v | v in order + [uuid]) == (set v | v in order) + {uuid}
    ensures |(set v | v in order + [uuid])| == |order + [uuid]|
  {
    assert (set v | v in order + [uuid]) == (set v | v in order) + {uuid};
  }
}
