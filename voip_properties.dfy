/** What the call and token steps of `VoIPSteps` guarantee, alone and in sequence. */
module VoIPProperties {
  import opened Wrappers
  import opened Values
  import Hex
  import opened Uuids
  import opened VoIPSteps

  /** The effects a step appended. */
  function Added(before: ManagerState, after: ManagerState): seq<Effect>
    requires |before.effects| <= |after.effects|
  {
    after.effects[|before.effects|..]
  }

  // ---- calls -------------------------------------------------------------

  /** Reporting a call that is already tracked changes nothing and reports nothing. */
  lemma DuplicateReportIgnored(s: ManagerState, uuid: Uuid, handle: string, hasVideo: bool)
    requires uuid in s.activeCalls
    ensures ReportIncomingCall(s, uuid, handle, hasVideo) == s
  {
  }

  /** A new call is tracked with its handle before it is reported, and reported once. */
  lemma NewCallTrackedThenReported(s: ManagerState, uuid: Uuid, handle: string, hasVideo: bool)
    requires uuid !in s.activeCalls
    ensures var r := ReportIncomingCall(s, uuid, handle, hasVideo);
      && r.activeCalls == s.activeCalls[uuid := handle]
      && r.effects == s.effects + [ReportedToProvider(uuid, handle, hasVideo)]
      && r.scheduled == s.scheduled + multiset{ReportCompletion(uuid)}
      && r.pendingCallActions == s.pendingCallActions
      && r.currentVoIPToken == s.currentVoIPToken && r.tokenRetryTimer == s.tokenRetryTimer
  {
  }

  /** After the report completes, the new call is still tracked if and only if CallKit reported no error. */
  lemma ReportRolledBackIffError(s: ManagerState, uuid: Uuid, handle: string, hasVideo: bool, failed: bool)
    requires uuid !in s.activeCalls
    ensures var r := ReportCompleted(ReportIncomingCall(s, uuid, handle, hasVideo), uuid, failed);
      && (uuid in r.activeCalls <==> !failed)
      && (!failed ==> r.activeCalls[uuid] == handle)
      && r.activeCalls - {uuid} == s.activeCalls
      && r.scheduled == s.scheduled
  {
    assert s.activeCalls[uuid := handle] - {uuid} == s.activeCalls;
  }

  /** An answer for a call whose guard is set only fulfils the action. */
  lemma AnswerSuppressedWhilePending(s: ManagerState, uuid: Uuid, timestamp: real)
    requires Valid(s) && uuid in s.pendingCallActions
    ensures AnswerCallAction(s, uuid, timestamp) == s.(effects := s.effects + [ActionFulfilled(uuid)])
  {
  }

  /** An answer for a call without a guard sets it, posts one `CallAnswered`, fulfils and arms the 2 s expiry. */
  lemma AnswerApplied(s: ManagerState, uuid: Uuid, timestamp: real)
    requires uuid !in s.pendingCallActions
    ensures var r := AnswerCallAction(s, uuid, timestamp);
      && r.pendingCallActions == s.pendingCallActions[uuid := true]
      && Added(s, r) == [Posted(CallAnsweredName, CallUserInfo(uuid, timestamp)), ActionFulfilled(uuid)]
      && r.scheduled == s.scheduled + multiset{DebounceExpiry(uuid, DebounceDelay)}
      && r.activeCalls == s.activeCalls
  {
  }

  /** Two answers for the same call in a row post `CallAnswered` at most once and fulfil both. */
  lemma DuplicateAnswerPostsOnce(s: ManagerState, uuid: Uuid, t1: real, t2: real)
    requires Valid(s)
    ensures var r := AnswerCallAction(AnswerCallAction(s, uuid, t1), uuid, t2);
      Added(s, r) == if uuid in s.pendingCallActions then [ActionFulfilled(uuid), ActionFulfilled(uuid)]
                     else [Posted(CallAnsweredName, CallUserInfo(uuid, t1)), ActionFulfilled(uuid), ActionFulfilled(uuid)]
  {
    var r1 := AnswerCallAction(s, uuid, t1);
    assert uuid in r1.pendingCallActions && r1.pendingCallActions[uuid];
  }

  /** Once the 2 s expiry has run, a later answer is applied again. */
  lemma AnswerAppliedAgainAfterExpiry(s: ManagerState, uuid: Uuid, t1: real, t2: real)
    requires uuid !in s.pendingCallActions
    ensures var r := AnswerCallAction(DebounceExpired(AnswerCallAction(s, uuid, t1), uuid), uuid, t2);
      Added(s, r) == [Posted(CallAnsweredName, CallUserInfo(uuid, t1)), ActionFulfilled(uuid),
                      Posted(CallAnsweredName, CallUserInfo(uuid, t2)), ActionFulfilled(uuid)]
  {
  }

  /** The expiry of the answer guard removes that one key and nothing else. */
  lemma DebounceRemovesOnlyItsKey(s: ManagerState, uuid: Uuid)
    ensures var r := DebounceExpired(s, uuid);
      && r.pendingCallActions == s.pendingCallActions - {uuid}
      && r.activeCalls == s.activeCalls && r.effects == s.effects
  {
  }

  /** Every answer and every end action is fulfilled exactly once, as the last thing it does. */
  lemma EveryActionFulfilledOnce(s: ManagerState, uuid: Uuid, timestamp: real)
    ensures var a := Added(s, AnswerCallAction(s, uuid, timestamp));
      |a| > 0 && a[|a| - 1] == ActionFulfilled(uuid) && multiset(a)[ActionFulfilled(uuid)] == 1
      && forall u :: u != uuid ==> ActionFulfilled(u) !in a
    ensures var e := Added(s, EndCallAction(s, uuid, timestamp));
      |e| > 0 && e[|e| - 1] == ActionFulfilled(uuid) && multiset(e)[ActionFulfilled(uuid)] == 1
      && forall u :: u != uuid ==> ActionFulfilled(u) !in e
  {
  }

  /** An end action forgets the call in both maps, keeps every other key, posts one `CallEnded` and fulfils. */
  lemma EndActionForgetsCall(s: ManagerState, uuid: Uuid, timestamp: real)
    ensures var r := EndCallAction(s, uuid, timestamp);
      && uuid !in r.activeCalls && uuid !in r.pendingCallActions
      && (forall u :: u != uuid ==> (u in r.activeCalls <==> u in s.activeCalls))
      && (forall u :: u != uuid && u in s.activeCalls ==> r.activeCalls[u] == s.activeCalls[u])
      && (forall u :: u != uuid ==> (u in r.pendingCallActions <==> u in s.pendingCallActions))
      && (forall u :: u != uuid && u in s.pendingCallActions ==> r.pendingCallActions[u] == s.pendingCallActions[u])
      && Added(s, r) == [Posted(CallEndedName, CallUserInfo(uuid, timestamp)), ActionFulfilled(uuid)]
  {
  }

  /** A second end action for the same call posts `CallEnded` a second time. */
  lemma RepeatedEndPostsAgain(s: ManagerState, uuid: Uuid, t1: real, t2: real)
    ensures var r := EndCallAction(EndCallAction(s, uuid, t1), uuid, t2);
      Added(s, r) == [Posted(CallEndedName, CallUserInfo(uuid, t1)), ActionFulfilled(uuid),
                      Posted(CallEndedName, CallUserInfo(uuid, t2)), ActionFulfilled(uuid)]
  {
  }

  /** `endCall` forgets the call only when the transaction succeeds. */
  lemma EndCallForgetsOnlyOnSuccess(s: ManagerState, uuid: Uuid, failed: bool)
    ensures var r := EndTransactionCompleted(EndCall(s, uuid), uuid, failed);
      && r.effects == s.effects + [EndTransactionRequested(uuid)]
      && r.scheduled == s.scheduled
      && (failed ==> r.activeCalls == s.activeCalls && r.pendingCallActions == s.pendingCallActions)
      && (!failed ==> r.activeCalls == s.activeCalls - {uuid} && r.pendingCallActions == s.pendingCallActions - {uuid})
  {
  }

  function EndRequests(order: seq<Uuid>): (r: seq<Effect>)
    ensures |r| == |order|
  {
    if |order| == 0 then [] else [EndTransactionRequested(order[0])] + EndRequests(order[1..])
  }

  function EndCompletions(order: seq<Uuid>): multiset<Callback>
  {
    if |order| == 0 then multiset{} else multiset{EndTransactionCompletion(order[0])} + EndCompletions(order[1..])
  }

  /** `endAllCalls` requests one end transaction per key, in order, and changes no map itself. */
  lemma {:induction false} EndCallsRequestsEach(s: ManagerState, order: seq<Uuid>)
    ensures var r := EndCalls(s, order);
      && r.activeCalls == s.activeCalls && r.pendingCallActions == s.pendingCallActions
      && r.currentVoIPToken == s.currentVoIPToken && r.tokenRetryTimer == s.tokenRetryTimer
      && r.effects == s.effects + EndRequests(order)
      && r.scheduled == s.scheduled + EndCompletions(order)
    decreases |order|
  {
    if |order| > 0 {
      EndCallsRequestsEach(EndCall(s, order[0]), order[1..]);
      assert s.effects + [EndTransactionRequested(order[0])] + EndRequests(order[1..])
          == s.effects + EndRequests(order);
    }
  }

  /** Ending one more call after a sequence of them. */
  lemma {:induction false} EndCallsSnoc(s: ManagerState, order: seq<Uuid>, uuid: Uuid)
    ensures EndCalls(s, order + [uuid]) == EndCall(EndCalls(s, order), uuid)
    decreases |order|
  {
    if |order| == 0 {
      assert order + [uuid] == [uuid];
    } else {
      assert (order + [uuid])[1..] == order[1..] + [uuid];
      EndCallsSnoc(EndCall(s, order[0]), order[1..], uuid);
    }
  }

  /** `EndRequests(order)` names exactly the calls of `order`. */
  lemma {:induction false} EndRequestsNameOrder(order: seq<Uuid>, uuid: Uuid)
    ensures EndTransactionRequested(uuid) in EndRequests(order) <==> uuid in order
  {
    if |order| > 0 {
      EndRequestsNameOrder(order[1..], uuid);
      assert order == [order[0]] + order[1..];
    }
  }

  /** Each call of `order` is requested as often as it occurs in `order`. */
  lemma {:induction false} EndRequestsCount(order: seq<Uuid>, uuid: Uuid)
    ensures multiset(EndRequests(order))[EndTransactionRequested(uuid)] == multiset(order)[uuid]
  {
    if |order| > 0 {
      EndRequestsCount(order[1..], uuid);
      assert order == [order[0]] + order[1..];
    }
  }

  /** In a list without repetition every element occurs once. */
  lemma {:induction false} DistinctOccursOnce(order: seq<Uuid>, uuid: Uuid)
    requires forall i, j :: 0 <= i < j < |order| ==> order[i] != order[j]
    ensures multiset(order)[uuid] == if uuid in order then 1 else 0
  {
    if |order| > 0 {
      DistinctOccursOnce(order[1..], uuid);
      assert order == [order[0]] + order[1..];
      if uuid == order[0] {
        assert uuid !in order[1..] by {
          forall k | 0 <= k < |order[1..]| ensures order[1..][k] != uuid {
            assert order[1..][k] == order[k + 1];
          }
        }
      }
    }
  }

  /** `endAllCalls` appends only end requests, exactly one for each call tracked when it started. */
  lemma EndAllCallsRequestsEachOnce(s: ManagerState, order: seq<Uuid>, uuid: Uuid)
    requires Enumerates(order, s.activeCalls.Keys)
    ensures var r := EndCalls(s, order);
      && |s.effects| <= |r.effects|
      && (forall e :: e in Added(s, r) ==> e.EndTransactionRequested?)
      && multiset(Added(s, r))[EndTransactionRequested(uuid)] == (if uuid in s.activeCalls then 1 else 0)
  {
    EndCallsRequestsEach(s, order);
    var r := EndCalls(s, order);
    assert Added(s, r) == EndRequests(order);
    EndRequestsOnlyRequests(order);
    EndRequestsCount(order, uuid);
    DistinctOccursOnce(order, uuid);
    assert uuid in order <==> uuid in (set u | u in order);
  }

  /** `EndRequests` holds nothing but end requests. */
  lemma {:induction false} EndRequestsOnlyRequests(order: seq<Uuid>)
    ensures forall e :: e in EndRequests(order) ==> e.EndTransactionRequested?
  {
    if |order| > 0 {
      EndRequestsOnlyRequests(order[1..]);
    }
  }

  /** Two VoIP pushes always make two calls: each gets its own new UUID, so nothing is de-duplicated. */
  lemma TwoPushesReportTwice(s: ManagerState, payload: map<string, Value>, u1: Uuid, u2: Uuid)
    requires u1 !in s.activeCalls && u2 !in s.activeCalls && u1 != u2
    ensures var r := IncomingPushReceived(IncomingPushReceived(s, VoIPPush, payload, u1), VoIPPush, payload, u2);
      var caller := match StringAt(payload, "caller_name") case Some(n) => n case None => UnknownCaller;
      && Added(s, r) == [ReportedToProvider(u1, caller, true), PushCompleted,
                         ReportedToProvider(u2, caller, true), PushCompleted]
      && r.activeCalls == s.activeCalls[u1 := caller][u2 := caller]
  {
  }

  /** A push of another type only calls the completion handler. */
  lemma OtherPushOnlyCompletes(s: ManagerState, payload: map<string, Value>, u: Uuid)
    ensures IncomingPushReceived(s, OtherPush, payload, u) == s.(effects := s.effects + [PushCompleted])
  {
  }

  /** A pushed call's handle is the payload's `caller_name` string, or "Unknown". */
  lemma PushedCallerName(s: ManagerState, payload: map<string, Value>, u: Uuid)
    requires u !in s.activeCalls
    ensures var r := IncomingPushReceived(s, VoIPPush, payload, u);
      && u in r.activeCalls
      && ("caller_name" in payload && payload["caller_name"].VString? ==> r.activeCalls[u] == payload["caller_name"].s)
      && (!("caller_name" in payload && payload["caller_name"].VString?) ==> r.activeCalls[u] == "Unknown")
  {
  }

  /** The posted call events carry the call's UUID text, which names that call again, a Double timestamp and the source. */
  lemma CallUserInfoNamesCall(uuid: Uuid, timestamp: real)
    ensures var info := CallUserInfo(uuid, timestamp);
      && StringAt(info, "callUUID").Some? && ParseUuid(StringAt(info, "callUUID").value) == Some(uuid)
      && DoubleAt(info, "timestamp") == Some(timestamp)
      && StringAt(info, "source") == Some("callkit_native")
  {
    ParseUuidString(uuid);
  }

  // ---- token -------------------------------------------------------------

  /** Without a user id the token is kept for later and no request is made. */
  lemma SendWithoutUserBuffers(s: ManagerState, token: string, d: Defaults)
    requires d.currentUserId.None?
    ensures SendTokenToServer(s, token, d) == s.(currentVoIPToken := Some(token))
  {
  }

  /** With a user id exactly one registration of the token is posted, and the timer is left alone. */
  lemma SendWithUserPosts(s: ManagerState, token: string, d: Defaults)
    requires d.currentUserId.Some?
    ensures var r := SendTokenToServer(s, token, d);
      && Added(s, r) == [RegistrationPosted(Registration(d.currentUserId.value, token, d.authToken))]
      && r.scheduled == s.scheduled + multiset{RegistrationCompletion(token)}
      && r.tokenRetryTimer == s.tokenRetryTimer && r.currentVoIPToken == s.currentVoIPToken
  {
  }

  /** HTTP 200 clears the retry timer. */
  lemma SuccessClearsRetry(s: ManagerState, token: string)
    ensures RegistrationCompleted(s, token, TaskCompletion(false, Some(200))).tokenRetryTimer == None
  {
  }

  /** A transport error or a status other than 200 replaces any timer by one valid 30 s retry of the same token. */
  lemma FailureSchedulesOneRetry(s: ManagerState, token: string, c: TaskCompletion)
    requires c.transportError || (c.httpStatus.Some? && c.httpStatus.value != 200)
    ensures var r := RegistrationCompleted(s, token, c);
      && r.tokenRetryTimer == Some(RetryTimer(token, RetryInterval, true, MainRunLoop))
      && r.effects == s.effects
  {
  }

  /** A completion with neither an error nor an HTTP response changes nothing but the handler's own slot. */
  lemma NonHttpResponseIgnored(s: ManagerState, token: string)
    ensures RegistrationCompleted(s, token, TaskCompletion(false, None))
         == s.(scheduled := s.scheduled - multiset{RegistrationCompletion(token)})
  {
  }

  /** A rotation stores the new token (as hex text) and tries to send it; it leaves a pending retry in place. */
  lemma RotationOverwritesAndSends(s: ManagerState, tokenBytes: seq<Hex.byte>, d: Defaults)
    ensures var token := TokenText(tokenBytes);
      var r := PushCredentialsUpdated(s, tokenBytes, d);
      && r.currentVoIPToken == Some(token)
      && r.tokenRetryTimer == s.tokenRetryTimer
      && Added(s, r) == [TokenSaved(token)]
           + (if d.currentUserId.Some? then [RegistrationPosted(Registration(d.currentUserId.value, token, d.authToken))] else [])
           + [Posted(VoIPTokenReceivedName, map["token" := VString(token)])]
  {
  }

  /** The stored token is 2 lower-case hex digits per byte and decodes back to the pushed bytes. */
  lemma TokenTextDecodes(tokenBytes: seq<Hex.byte>)
    ensures |TokenText(tokenBytes)| == 2 * |tokenBytes|
    ensures forall k :: 0 <= k < |TokenText(tokenBytes)| ==> Hex.IsLowerHexDigit(TokenText(tokenBytes)[k])
    ensures Hex.Decode(TokenText(tokenBytes)) == Some(tokenBytes)
  {
    forall k | 0 <= k < |TokenText(tokenBytes)|
      ensures Hex.IsLowerHexDigit(TokenText(tokenBytes)[k])
    {
      Hex.EncodeDigits(tokenBytes, false, k);
    }
    Hex.DecodeEncode(tokenBytes, false);
  }

  /** `sendPendingTokenIfNeeded` sends only when a token is stored, and then sends that token. */
  lemma SendPendingOnlyWithToken(s: ManagerState, d: Defaults)
    ensures s.currentVoIPToken.None? ==> SendPendingTokenIfNeeded(s, d) == s
    ensures s.currentVoIPToken.Some? ==>
      SendPendingTokenIfNeeded(s, d) == SendTokenToServer(s, s.currentVoIPToken.value, d)
  {
  }

  /** A token that arrives before the user id is not sent; once the user id is known, one request sends it. */
  lemma BufferedTokenSentOnce(s: ManagerState, tokenBytes: seq<Hex.byte>, userId: string, auth: Option<string>)
    ensures var token := TokenText(tokenBytes);
      var s1 := PushCredentialsUpdated(s, tokenBytes, Defaults(None, auth));
      var s2 := SendPendingTokenIfNeeded(s1, Defaults(Some(userId), auth));
      && (forall e :: e in Added(s, s1) ==> !e.RegistrationPosted?)
      && Added(s1, s2) == [RegistrationPosted(Registration(userId, token, auth))]
  {
  }

  /** One failed attempt followed by the retry timer firing: one more request for the same token. */
  function FailAndRetry(s: ManagerState, token: string, d: Defaults): ManagerState
  {
    RetryTimerFired(RegistrationCompleted(s, token, TaskCompletion(true, None)), d)
  }

  function RetryRounds(s: ManagerState, token: string, d: Defaults, n: nat): ManagerState
  {
    if n == 0 then s else FailAndRetry(RetryRounds(s, token, d, n - 1), token, d)
  }

  function Repeat(e: Effect, n: nat): (r: seq<Effect>)
    ensures |r| == n
  {
    if n == 0 then [] else Repeat(e, n - 1) + [e]
  }

  /** One more copy at the end of a prefix. */
  lemma RepeatSnoc(prefix: seq<Effect>, e: Effect, n: nat)
    requires n > 0
    ensures prefix + Repeat(e, n - 1) + [e] == prefix + Repeat(e, n)
  {
  }

  /** One failed attempt and its retry re-send the token once. */
  lemma FailAndRetryResends(s: ManagerState, token: string, d: Defaults)
    requires d.currentUserId.Some?
    ensures var r := FailAndRetry(s, token, d);
      && r.effects == s.effects + [RegistrationPosted(Registration(d.currentUserId.value, token, d.authToken))]
      && r.tokenRetryTimer == Some(RetryTimer(token, RetryInterval, false, MainRunLoop))
      && r.activeCalls == s.activeCalls && r.pendingCallActions == s.pendingCallActions
      && r.currentVoIPToken == s.currentVoIPToken
  {
  }

  /**
   * As written, a failed registration installs its retry timer on the
   * session queue's run loop, so the timer never fires and the token is never
   * sent again; compare `FailAndRetryResends`, where it is.
   */
  lemma RetryNeverFiresAsWritten(s: ManagerState, token: string, c: TaskCompletion, d: Defaults)
    requires c.transportError || (c.httpStatus.Some? && c.httpStatus.value != 200)
    ensures var r := RegistrationCompletedAsWritten(s, token, c);
      && r.tokenRetryTimer == Some(RetryTimer(token, RetryInterval, true, SessionQueueRunLoop))
      && RetryTimerFired(r, d) == r
      && r.effects == s.effects
  {
  }

  /** Each of `n` failures is retried once after 30 s by re-sending the same token. */
  lemma {:induction false} RetriesResendSameToken(s: ManagerState, token: string, d: Defaults, n: nat)
    requires d.currentUserId.Some?
    ensures RetryRounds(s, token, d, n).effects
      == s.effects + Repeat(RegistrationPosted(Registration(d.currentUserId.value, token, d.authToken)), n)
  {
    if n > 0 {
      var p := RetryRounds(s, token, d, n - 1);
      RetriesResendSameToken(s, token, d, n - 1);
      FailAndRetryResends(p, token, d);
      RepeatSnoc(s.effects, RegistrationPosted(Registration(d.currentUserId.value, token, d.authToken)), n);
    }
  }

  /** Failed rounds leave the calls and the stored token alone, and end with the fired timer of the same token. */
  lemma {:induction false} RetriesKeepCalls(s: ManagerState, token: string, d: Defaults, n: nat)
    requires d.currentUserId.Some?
    ensures var r := RetryRounds(s, token, d, n);
      && (n > 0 ==> r.tokenRetryTimer == Some(RetryTimer(token, RetryInterval, false, MainRunLoop)))
      && r.activeCalls == s.activeCalls && r.pendingCallActions == s.pendingCallActions
      && r.currentVoIPToken == s.currentVoIPToken
  {
    if n > 0 {
      RetriesKeepCalls(s, token, d, n - 1);
      FailAndRetryResends(RetryRounds(s, token, d, n - 1), token, d);
    }
  }

  /** After any number of failures, an HTTP 200 leaves no retry timer: no retry fires after success. */
  lemma RetriesEndOnSuccess(s: ManagerState, token: string, d: Defaults, n: nat)
    requires d.currentUserId.Some?
    ensures var r := RegistrationCompleted(RetryRounds(s, token, d, n), token, TaskCompletion(false, Some(200)));
      && r.tokenRetryTimer == None
      && RetryTimerFired(r, d) == r
  {
  }

  /** A rotation does not cancel the retry of an earlier token: the timer still fires and re-sends the old token. */
  lemma RotationKeepsOldRetry(s: ManagerState, earlier: string, tokenBytes: seq<Hex.byte>, d: Defaults)
    requires d.currentUserId.Some?
    ensures var s1 := RegistrationCompleted(s, earlier, TaskCompletion(true, None));
      var s2 := PushCredentialsUpdated(s1, tokenBytes, d);
      var s3 := RetryTimerFired(s2, d);
      && s2.tokenRetryTimer == Some(RetryTimer(earlier, RetryInterval, true, MainRunLoop))
      && s3.currentVoIPToken == Some(TokenText(tokenBytes))
      && Added(s2, s3) == [RegistrationPosted(Registration(d.currentUserId.value, earlier, d.authToken))]
  {
  }

  /** A retry that fires while no user id is known buffers the token and schedules nothing further. */
  lemma RetryWithoutUserStops(s: ManagerState, token: string, d: Defaults)
    requires s.tokenRetryTimer == Some(RetryTimer(token, RetryInterval, true, MainRunLoop)) && d.currentUserId.None?
    ensures var r := RetryTimerFired(s, d);
      && r.currentVoIPToken == Some(token)
      && r.tokenRetryTimer == Some(RetryTimer(token, RetryInterval, false, MainRunLoop))
      && r.effects == s.effects && r.scheduled == s.scheduled
  {
  }
}
