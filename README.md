# FlutterPutter native layer, modelled in Dafny

This project models the native side of the FlutterPutter chat and calls app:

- the iOS `VoIPManager`: CallKit call bookkeeping (`activeCalls`, the
  2-second answer guard `pendingCallActions`), PushKit pushes, and the VoIP
  token's rotation, buffering, upload and 30-second retry;
- the iOS `VoIPPlugin`: the `voip_native` method channel that dispatches
  Flutter calls to the manager, and the forwarding of the manager's
  `VoIPTokenReceived`, `CallAnswered` and `CallEnded` notifications to Flutter;
- the web `noble_kyber_bridge.js`: wrapping a 64-byte master key as
  `[ML-KEM ciphertext][master key XOR repeated shared secret]` and unwrapping it;
- the `screenshot_security` channel on Android (`MainActivity`: `FLAG_SECURE`,
  a MediaStore observer and the screenshot test on a new image) and on iOS
  (`AppDelegate`: an off-screen secure text field and the screenshot and
  screen-recording notifications).

Layout:

| file | module | contents |
|---|---|---|
| wrappers.dfy | `Wrappers` | `Option`, `Result` |
| values.dfy | `Values` | the dynamic `Any` values of `userInfo`, payloads and channel arguments, with `as?` casts |
| hex.dfy | `Hex` | `%02x`-style byte-to-hex text and its decoder |
| uuids.dfy | `Uuids` | `UUID.uuidString` and `UUID(uuidString:)` |
| voip_steps.dfy | `VoIPSteps` | the manager's state as a value and one step function per entry point or callback |
| voip_properties.dfy | `VoIPProperties` | lemmas about the steps, alone and in sequence |
| voip_manager.dfy | `VoIP` | `class VoIPManager`, whose methods update its fields and are proved to take the step the functions describe |
| flutter_channel.dfy | `FlutterChannel` | replies and `invokeMethod` calls on a method channel |
| voip_plugin.dfy | `VoIPPlugin` | dispatch of `voip_native` calls and notification forwarding |
| kyber_bridge.dfy | `KyberBridge` | the key-wrapping frame, `class NobleBridge` with its array loops |
| screenshot_channel.dfy | `ScreenshotChannel` | the four shared command names and their replies |
| android_screenshot.dfy | `AndroidScreenshot` | case-insensitive matching, the screenshot test, `class MainActivity` |
| ios_screenshot.dfy | `IosScreenshot` | `class AppDelegate` |

How the outside world appears in the model:

- Platform callbacks that run later (the CallKit report completion, the
  end-transaction completion, the `URLSession` completion, the 2-second
  `asyncAfter`) are recorded in a ghost multiset `scheduled` when they are
  armed; the method for each callback may run only while its entry is
  outstanding, and removes it. The retry timer is the real field
  `tokenRetryTimer`, with a `valid` flag for `invalidate()`.
- Everything the manager asks of CallKit, the server, `UserDefaults` or
  NotificationCenter is appended to a ghost log `effects`.
- `UserDefaults` values (`currentUserId`, `authToken`), fresh `UUID()`s,
  clock readings, captured-screen state and platform failures (a throwing
  `setFlags`, a throwing `registerContentObserver`, a missing window) are
  parameters of the operation that reads them.
- ML-KEM is a pair of functions (`Kem`): encapsulation of a public key and
  decapsulation of a ciphertext with a secret key, each of which may fail.
  The round trip is proved for any KEM that is correct for the key pair used
  (`KemCorrectFor`), stated as a precondition.

Where the app's design notes and the code disagree, the model follows the
code:

- A VoIP push always gets a new `UUID()`, so two pushes for the same caller
  are two calls; the `activeCalls` check only prevents the same UUID from
  being reported twice (`TwoPushesReportTwice`).
- A second CallKit end action for the same call posts `CallEnded` again; only
  answers are guarded (`RepeatedEndPostsAgain`).
- A token rotation does not cancel a retry that is already scheduled for the
  previous token. That retry can still fire and re-send the old token if it
  comes before the completion of the new token's request, which invalidates
  or replaces it (`RotationKeepsOldRetry` proves that ordering).
- There is no per-call status beyond membership in `activeCalls` and
  `pendingCallActions`, and no "confirmed" state of the token upload: an
  HTTP 200 only clears the retry timer.

## Model

| member | source | states |
|---|---|---|
| Hex.DigitRoundTrip | ios/Runner/VoIPManager.swift:189 | every digit value below 16, written in either case, reads back as itself |
| Hex.ByteHex | ios/Runner/VoIPManager.swift:189 | the text of one byte is its high-nibble digit followed by its low-nibble digit |
| Hex.Encode | ios/Runner/VoIPManager.swift:189 | the byte texts joined in order, two characters per byte; `Hex.DecodeEncode` proves `Hex.Decode` its inverse |
| Hex.Decode | ios/Runner/VoIPManager.swift:189 | hex text decodes exactly when it has even length and only hex digits, to half as many bytes |
| Hex.EncodeAt | ios/Runner/VoIPManager.swift:189 | characters 2i and 2i+1 of the text are the high and low nibble digits of byte i |
| Hex.EncodeDigits | ios/Runner/VoIPManager.swift:189 | `%02.2hhx` text consists of lower-case hex digits only (upper-case for the UUID form) |
| Hex.EncodeAppend | ios/Runner/VoIPManager.swift:189 | the text of a concatenation is the concatenation of the texts |
| Hex.DecodeEncode | ios/Runner/VoIPManager.swift:189 | decoding the hex text of any byte string gives the byte string back |
| Hex.EncodeInjective | ios/Runner/VoIPManager.swift:189 | two different tokens never have the same text |
| Uuids.UuidString | ios/Runner/VoIPPlugin.swift:61 | `uuidString` is 36 characters with hyphens at positions 8, 13, 18 and 23 |
| Uuids.DigitsOf | ios/Runner/VoIPPlugin.swift:70 | the 32 digit characters of a 36-character UUID text |
| Uuids.ParseUuid | ios/Runner/VoIPPlugin.swift:70 | `UUID(uuidString:)` succeeds exactly on the 8-4-4-4-12 hyphenated form with 32 hex digits of either case |
| Uuids.ParseUuidString | ios/Runner/VoIPPlugin.swift:61-75 | parsing the text of any UUID gives that UUID back |
| Uuids.UuidStringInjective | ios/Runner/VoIPManager.swift:247 | different calls have different `uuidString`s |
| VoIPSteps.CallUserInfo | ios/Runner/VoIPManager.swift:246-250 | the posted info: `callUUID` as upper-case UUID text, `timestamp` as a Double, `source` as `callkit_native` |
| VoIPSteps.ReportIncomingCall | ios/Runner/VoIPManager.swift:49-63 | an already tracked UUID changes nothing; otherwise the call is tracked with its handle, reported to CallKit and its completion is outstanding |
| VoIPSteps.ReportCompleted | ios/Runner/VoIPManager.swift:63-71 | the completion is consumed, and on an error the call is no longer tracked |
| VoIPSteps.EndCall | ios/Runner/VoIPManager.swift:75-81 | one end-call transaction is requested and its completion is outstanding; no map changes yet |
| VoIPSteps.EndTransactionCompleted | ios/Runner/VoIPManager.swift:81-89 | the completion is consumed; without an error the call leaves both maps |
| VoIPSteps.EndCalls | ios/Runner/VoIPManager.swift:93-99 | `endCall` applied to each UUID of the given order in turn |
| VoIPSteps.IncomingPushReceived | ios/Runner/VoIPManager.swift:207-219 | a push of another type only completes; a VoIP push reports the fresh UUID with `caller_name` or "Unknown" and video on, then completes |
| VoIPSteps.AnswerCallAction | ios/Runner/VoIPManager.swift:229-259 | a guarded call only fulfils; otherwise the guard is set, `CallAnswered` posted, the action fulfilled and a 2 s expiry armed |
| VoIPSteps.DebounceExpired | ios/Runner/VoIPManager.swift:256-258 | the call's guard is removed and the expiry consumed |
| VoIPSteps.EndCallAction | ios/Runner/VoIPManager.swift:261-282 | the call leaves both maps, `CallEnded` is posted and the action fulfilled |
| VoIPSteps.SendTokenToServer | ios/Runner/VoIPManager.swift:102-165 | without a user id the token is stored; with one a registration is posted and its completion is outstanding |
| VoIPSteps.ScheduleTokenRetryOn | ios/Runner/VoIPManager.swift:168-174 | the timer is replaced by a valid 30 s retry of the token, on the run loop of the calling thread |
| VoIPSteps.ScheduleTokenRetry | ios/Runner/VoIPManager.swift:168-174 | the retry as intended, on the main run loop |
| VoIPSteps.RegistrationCompletedOn | ios/Runner/VoIPManager.swift:142-162 | the completion is consumed; an error or a status other than 200 schedules a retry on the given run loop, 200 clears the timer, no HTTP response does nothing more |
| VoIPSteps.RegistrationCompletedAsWritten | ios/Runner/VoIPManager.swift:142-174 | the completion as written, whose retry lands on the session queue's run loop |
| VoIPSteps.RegistrationCompleted | ios/Runner/VoIPManager.swift:142-162 | the completion as intended, whose retry goes on the main run loop |
| VoIPSteps.RetryTimerFired | ios/Runner/VoIPManager.swift:170-173 | a valid timer on the main run loop becomes invalid and its token is sent again; any other timer does nothing |
| VoIPSteps.SendPendingTokenIfNeeded | ios/Runner/VoIPManager.swift:177-182 | the stored token, if any, is sent |
| VoIPSteps.TokenText | ios/Runner/VoIPManager.swift:189 | the push token as lower-case hex text |
| VoIPSteps.PushCredentialsUpdated | ios/Runner/VoIPManager.swift:188-205 | the hex token is stored, saved, sent, and posted as `VoIPTokenReceived` |
| VoIPProperties.DuplicateReportIgnored | ios/Runner/VoIPManager.swift:51-54 | reporting a UUID that is already tracked changes nothing and reports nothing |
| VoIPProperties.NewCallTrackedThenReported | ios/Runner/VoIPManager.swift:57-63 | a new call is tracked with its handle, reported to CallKit once with its handle and video flag, and its completion is armed |
| VoIPProperties.ReportRolledBackIffError | ios/Runner/VoIPManager.swift:63-71 | after the report completes the call is still tracked if and only if CallKit gave no error |
| VoIPProperties.AnswerSuppressedWhilePending | ios/Runner/VoIPManager.swift:233-237 | an answer whose guard is set only fulfils the action |
| VoIPProperties.AnswerApplied | ios/Runner/VoIPManager.swift:239-258 | an unguarded answer sets the guard, posts one `CallAnswered` with the call's info, fulfils, and arms one 2 s expiry |
| VoIPProperties.DuplicateAnswerPostsOnce | ios/Runner/VoIPManager.swift:229-259 | two answers for the same call in a row post `CallAnswered` once and fulfil twice |
| VoIPProperties.AnswerAppliedAgainAfterExpiry | ios/Runner/VoIPManager.swift:256-258 | after the 2 s expiry a new answer for the call is applied again |
| VoIPProperties.DebounceRemovesOnlyItsKey | ios/Runner/VoIPManager.swift:257 | the expiry removes that call's guard and no other key, and leaves the calls alone |
| VoIPProperties.EveryActionFulfilledOnce | ios/Runner/VoIPManager.swift:229-282 | each answer and each end action fulfils its action exactly once, as its last effect |
| VoIPProperties.EndActionForgetsCall | ios/Runner/VoIPManager.swift:261-282 | an end action removes the call from both maps, keeps every other key with its value, posts one `CallEnded` and fulfils |
| VoIPProperties.RepeatedEndPostsAgain | ios/Runner/VoIPManager.swift:261-282 | a second end action for the same call posts `CallEnded` a second time |
| VoIPProperties.EndCallForgetsOnlyOnSuccess | ios/Runner/VoIPManager.swift:75-90 | `endCall` requests one end transaction and forgets the call in both maps only when the transaction succeeds |
| VoIPProperties.EndRequests | ios/Runner/VoIPManager.swift:96-98 | one end-transaction request per call |
| VoIPProperties.EndCallsRequestsEach | ios/Runner/VoIPManager.swift:93-99 | ending a sequence of calls requests one end transaction per call, in order, arms one completion each and changes neither map |
| VoIPProperties.EndCallsSnoc | ios/Runner/VoIPManager.swift:96-98 | ending one more call after a sequence is one more `endCall` step |
| VoIPProperties.EndRequestsNameOrder | ios/Runner/VoIPManager.swift:96-98 | the requests made name exactly the calls enumerated |
| VoIPProperties.EndRequestsCount | ios/Runner/VoIPManager.swift:96-98 | a call is requested as often as it occurs in the order |
| VoIPProperties.DistinctOccursOnce | ios/Runner/VoIPManager.swift:96 | each key of an enumeration without repetition occurs once |
| VoIPProperties.EndRequestsOnlyRequests | ios/Runner/VoIPManager.swift:96-98 | ending calls appends nothing but end requests |
| VoIPProperties.EndAllCallsRequestsEachOnce | ios/Runner/VoIPManager.swift:93-99 | ending all calls in an enumeration of the tracked keys requests each tracked call exactly once, and nothing else |
| VoIPProperties.TwoPushesReportTwice | ios/Runner/VoIPManager.swift:207-219 | two VoIP pushes with fresh UUIDs report two calls and track both |
| VoIPProperties.OtherPushOnlyCompletes | ios/Runner/VoIPManager.swift:208-211 | a push of another type only calls the completion handler |
| VoIPProperties.PushedCallerName | ios/Runner/VoIPManager.swift:214-218 | a pushed call is tracked, and its handle is the payload's `caller_name` string, or "Unknown" |
| VoIPProperties.CallUserInfoNamesCall | ios/Runner/VoIPManager.swift:246-250 | the posted info has the call's UUID text, which parses back to the call, a Double timestamp and source `callkit_native` |
| VoIPProperties.SendWithoutUserBuffers | ios/Runner/VoIPManager.swift:104-109 | without a user id the token is only stored for later |
| VoIPProperties.SendWithUserPosts | ios/Runner/VoIPManager.swift:110-164 | with a user id one registration with that user, token and optional bearer is posted, its completion is armed and the timer is untouched |
| VoIPProperties.SuccessClearsRetry | ios/Runner/VoIPManager.swift:151-155 | HTTP 200 leaves no retry timer |
| VoIPProperties.FailureSchedulesOneRetry | ios/Runner/VoIPManager.swift:143-147 | a transport error or a status other than 200 replaces any timer by one valid 30 s retry of the same token |
| VoIPProperties.NonHttpResponseIgnored | ios/Runner/VoIPManager.swift:150 | a completion with neither error nor HTTP response changes nothing else |
| VoIPProperties.RotationOverwritesAndSends | ios/Runner/VoIPManager.swift:188-205 | a rotation stores the hex token, saves it, sends it and posts `VoIPTokenReceived` with it, leaving any pending retry in place |
| VoIPProperties.TokenTextDecodes | ios/Runner/VoIPManager.swift:189 | the token text is two lower-case hex digits per byte and decodes to the pushed bytes |
| VoIPProperties.SendPendingOnlyWithToken | ios/Runner/VoIPManager.swift:177-182 | a pending token is sent exactly when one is stored, and it is that token |
| VoIPProperties.BufferedTokenSentOnce | ios/Runner/VoIPManager.swift:104-109 | a token that arrives before the user id is sent by one request once the user id is known |
| VoIPProperties.Repeat | ios/Runner/VoIPManager.swift:146 | n copies of one effect |
| VoIPProperties.FailAndRetryResends | ios/Runner/VoIPManager.swift:168-174 | a failure followed by its timer firing re-sends the same token once |
| VoIPProperties.RetryNeverFiresAsWritten | ios/Runner/VoIPManager.swift:142-174 | as written, the retry a failure installs sits on the session queue's run loop, never fires and never re-sends the token |
| VoIPProperties.RetriesResendSameToken | ios/Runner/VoIPManager.swift:142-174 | each of n failures is retried once by re-sending the same token, so n more identical registrations are posted |
| VoIPProperties.RetriesKeepCalls | ios/Runner/VoIPManager.swift:142-174 | failed rounds leave both call maps and the stored token alone and end with the fired timer of that token |
| VoIPProperties.RetriesEndOnSuccess | ios/Runner/VoIPManager.swift:151-155 | after any number of failures an HTTP 200 leaves no retry timer |
| VoIPProperties.RotationKeepsOldRetry | ios/Runner/VoIPManager.swift:193-197 | a rotation does not cancel the retry of the earlier token; when that retry fires before the new request completes, it re-sends the old token |
| VoIPProperties.RetryWithoutUserStops | ios/Runner/VoIPManager.swift:170-173 | a retry firing without a user id buffers the token and schedules nothing further |
| VoIP.VoIPManager.constructor | ios/Runner/VoIPManager.swift:15-26 | no calls, no guards, no token, no timer |
| VoIP.VoIPManager.ReportIncomingCall | ios/Runner/VoIPManager.swift:49-63 | takes the report step and keeps the state valid |
| VoIP.VoIPManager.OnReportCompletion | ios/Runner/VoIPManager.swift:63-71 | takes the report-completion step |
| VoIP.VoIPManager.EndCall | ios/Runner/VoIPManager.swift:75-81 | takes the end-request step |
| VoIP.VoIPManager.OnEndTransactionCompletion | ios/Runner/VoIPManager.swift:81-89 | takes the end-completion step |
| VoIP.VoIPManager.EndAllCalls | ios/Runner/VoIPManager.swift:93-99 | ends every tracked call once, in some enumeration order of the keys |
| VoIP.VoIPManager.SendTokenToServer | ios/Runner/VoIPManager.swift:102-165 | takes the send step |
| VoIP.VoIPManager.ScheduleTokenRetry | ios/Runner/VoIPManager.swift:168-174 | invalidates any timer and installs a 30 s retry of the token |
| VoIP.VoIPManager.OnRegistrationCompletion | ios/Runner/VoIPManager.swift:142-162 | takes the completion step for the outstanding request |
| VoIP.VoIPManager.OnRetryTimerFired | ios/Runner/VoIPManager.swift:170-173 | a valid timer on the main run loop is invalidated and its captured token sent with the current defaults |
| VoIP.VoIPManager.SendPendingTokenIfNeeded | ios/Runner/VoIPManager.swift:177-182 | takes the pending-send step |
| VoIP.VoIPManager.DidUpdatePushCredentials | ios/Runner/VoIPManager.swift:188-205 | takes the rotation step |
| VoIP.VoIPManager.DidReceiveIncomingPush | ios/Runner/VoIPManager.swift:207-219 | takes the push step |
| VoIP.VoIPManager.PerformAnswerCallAction | ios/Runner/VoIPManager.swift:229-259 | takes the answer step |
| VoIP.VoIPManager.OnDebounceExpired | ios/Runner/VoIPManager.swift:256-258 | takes the expiry step for the outstanding block |
| VoIP.VoIPManager.PerformEndCallAction | ios/Runner/VoIPManager.swift:261-282 | takes the end-action step |
| VoIPPlugin.ManagerCalledIffSuccess | ios/Runner/VoIPPlugin.swift:17-87 | the manager is called exactly when the reply is a success |
| VoIPPlugin.Handle | ios/Runner/VoIPPlugin.swift:17-39 | the four method names and their argument checks; each reply with the manager call it makes, if any |
| VoIPPlugin.ReportIncomingCall | ios/Runner/VoIPPlugin.swift:50-62 | below iOS 10 `UNSUPPORTED_VERSION`; otherwise the fresh UUID is reported with `callerName` or "Unknown" and `hasVideo` or true, and its text is the reply |
| VoIPPlugin.EndCall | ios/Runner/VoIPPlugin.swift:64-77 | below iOS 10 `UNSUPPORTED_VERSION`; an unparsable text `INVALID_UUID`; otherwise that UUID is ended and the reply is true |
| VoIPPlugin.UnknownMethodNotImplemented | ios/Runner/VoIPPlugin.swift:36-37 | any other method name is not implemented and calls nothing |
| VoIPPlugin.ReportNeedsDictionary | ios/Runner/VoIPPlugin.swift:22-26 | `reportIncomingCall` without a dictionary replies `INVALID_ARGUMENTS` and calls nothing |
| VoIPPlugin.EndCallValidation | ios/Runner/VoIPPlugin.swift:27-33 | `endCall` without a string `callUUID` replies `INVALID_ARGUMENTS`, with an unparsable one `INVALID_UUID`, and otherwise ends the parsed UUID and replies `true` |
| VoIPPlugin.ReportDefaultsAndReply | ios/Runner/VoIPPlugin.swift:50-62 | the caller defaults to "Unknown" and video to on, and the reply is the text of the reported UUID |
| VoIPPlugin.EndCallOfReportedCall | ios/Runner/VoIPPlugin.swift:61-75 | `endCall` with the text `reportIncomingCall` replied ends that same call |
| VoIPPlugin.ForwardToken | ios/Runner/VoIPPlugin.swift:112-116 | the token is forwarded exactly when it is a string, as the only argument |
| VoIPPlugin.ForwardCallEvent | ios/Runner/VoIPPlugin.swift:118-150 | forwarded exactly when `callUUID` is a string; `timestamp` and `source` exactly when present with their types; no other key |
| VoIPPlugin.OnNotification | ios/Runner/VoIPPlugin.swift:89-110 | each of the three notification names reaches its own handler; other names send nothing |
| VoIPPlugin.AnsweredPostReachesFlutter | ios/Runner/VoIPPlugin.swift:118-132 | what the manager posts for an answer arrives at Flutter unchanged, and its `callUUID` parses to the call |
| KyberBridge.XorMask | web/noble_kyber_bridge.js:127-130 | the masked key is always 64 bytes |
| KyberBridge.XorMaskInvolution | web/noble_kyber_bridge.js:196-200 | masking twice with the same shared secret gives the key back |
| KyberBridge.Encapsulated | web/noble_kyber_bridge.js:99-145 | the checks in the source's order, then the ciphertext followed by the masked master key |
| KyberBridge.Decapsulated | web/noble_kyber_bridge.js:151-209 | the checks in the source's order, then the split at 1088 and 1152 and the unmasked key |
| KyberBridge.EncapsulateValidation | web/noble_kyber_bridge.js:103-114 | wrapping fails without initialisation, with a master key that is missing or not 64 bytes (reporting the received length), or with a missing or empty public key; it succeeds exactly when all inputs are valid and the KEM encapsulates |
| KyberBridge.EncapsulatedLayout | web/noble_kyber_bridge.js:121-140 | the output is the ciphertext followed by 64 bytes, byte i being `masterKey[i] ^ ss[i mod |ss|]` |
| KyberBridge.DecapsulateValidation | web/noble_kyber_bridge.js:155-182 | unwrapping fails without initialisation, on empty data or secret key, or on data shorter than ciphertext + 64 (reporting the length and that minimum); it succeeds exactly when all inputs are valid and the KEM decapsulates the ciphertext prefix, and then yields 64 bytes |
| KyberBridge.DecapsulateReadsOnlyFrame | web/noble_kyber_bridge.js:185-186 | bytes after the first ciphertext + 64 are ignored |
| KyberBridge.RoundTrip | web/noble_kyber_bridge.js:99-209 | with a KEM that is correct for the key pair, unwrapping the wrapped master key gives it back |
| KyberBridge.ShortFrameRefused | web/noble_kyber_bridge.js:180-182 | a frame even one byte short is refused with its length and the minimum |
| KyberBridge.NobleBridge.constructor | web/noble_kyber_bridge.js:13 | the bridge starts uninitialised |
| KyberBridge.NobleBridge.InitializeNobleBridge | web/noble_kyber_bridge.js:18-38 | the bridge is ready exactly when the test key generation succeeds |
| KyberBridge.NobleBridge.GenerateKyberKeyPair | web/noble_kyber_bridge.js:71-93 | a key pair is returned exactly when the bridge is ready and key generation succeeds |
| KyberBridge.NobleBridge.IsReady | web/noble_kyber_bridge.js:216 | whether the bridge is initialised |
| KyberBridge.NobleBridge.TestNobleKyber | web/noble_kyber_bridge.js:43-66 | false unless ready and one encapsulation and decapsulation succeed and every byte of the first secret matches the second |
| KyberBridge.NobleBridge.EncapsulateKyberKey | web/noble_kyber_bridge.js:99-145 | the array loops compute exactly the wrapping function |
| KyberBridge.NobleBridge.DecapsulateKyberKey | web/noble_kyber_bridge.js:151-209 | the array loops compute exactly the unwrapping function |
| KyberBridge.UninitializedBridgeRefuses | web/noble_kyber_bridge.js:47-50 | before initialisation key generation, wrapping and unwrapping fail and the self-test is false |
| KyberBridge.SelfTestPassesForCorrectKem | web/noble_kyber_bridge.js:52-61 | on a ready bridge the self-test passes for a KEM correct for the generated pair |
| ScreenshotChannel.ParseCommand | android/app/src/main/kotlin/com/flutterputter/bwt/MainActivity.kt:28-53 | a recognised name is the name of the command it yields |
| ScreenshotChannel.CommandReply | ios/Runner/AppDelegate.swift:47-71 | known commands reply `true`, anything else is not implemented |
| ScreenshotChannel.ParseCommandName | android/app/src/main/kotlin/com/flutterputter/bwt/MainActivity.kt:29-49 | each of the four names is recognised as its command |
| ScreenshotChannel.ParseCommandKnown | ios/Runner/AppDelegate.swift:47-71 | a name is recognised exactly when it is one of the four command names |
| AndroidScreenshot.StartsWithIgnoreCase | android/app/src/main/kotlin/com/flutterputter/bwt/MainActivity.kt:170-173 | `startsWith(p, ignoreCase = true)` by recursion on the pattern |
| AndroidScreenshot.ContainsIgnoreCase | android/app/src/main/kotlin/com/flutterputter/bwt/MainActivity.kt:170-173 | `contains(p, ignoreCase = true)` by recursion on the text: a prefix match here or further on |
| AndroidScreenshot.LooksLikeScreenshot | android/app/src/main/kotlin/com/flutterputter/bwt/MainActivity.kt:170-173 | the four case-insensitive patterns on the display name and the data path, a null column matching none |
| AndroidScreenshot.StartsWithWindow | android/app/src/main/kotlin/com/flutterputter/bwt/MainActivity.kt:170-173 | the recursive prefix test compares the first characters up to case |
| AndroidScreenshot.ContainsWindow | android/app/src/main/kotlin/com/flutterputter/bwt/MainActivity.kt:170-173 | `contains(p, ignoreCase = true)` holds exactly when some window of the text equals p up to case |
| AndroidScreenshot.StartsWithTransitive | android/app/src/main/kotlin/com/flutterputter/bwt/MainActivity.kt:170-173 | case-insensitive prefixes compose |
| AndroidScreenshot.ContainsPrefix | android/app/src/main/kotlin/com/flutterputter/bwt/MainActivity.kt:170-173 | containing a pattern means containing each of its prefixes |
| AndroidScreenshot.LooksLikeScreenshotSimplified | android/app/src/main/kotlin/com/flutterputter/bwt/MainActivity.kt:170-173 | the four-pattern test with null columns is the same as `displayName ~ "screen"` or `data ~ "screenshot"` |
| AndroidScreenshot.IsScreenshotUri | android/app/src/main/kotlin/com/flutterputter/bwt/MainActivity.kt:156-184 | true only for a first row that passes the test; false for an exception, a null cursor or an empty one |
| AndroidScreenshot.ScreenshotFileRecognised | android/app/src/main/kotlin/com/flutterputter/bwt/MainActivity.kt:170 | an image named `Screenshot_…` is a screenshot, whatever its path |
| AndroidScreenshot.MainActivity.constructor | android/app/src/main/kotlin/com/flutterputter/bwt/MainActivity.kt:17-21 | not blocked, no observer, detection off |
| AndroidScreenshot.MainActivity.BlockScreenshots | android/app/src/main/kotlin/com/flutterputter/bwt/MainActivity.kt:65-79 | sets `FLAG_SECURE` and the flag unless the window throws, which changes nothing |
| AndroidScreenshot.MainActivity.EnableScreenshots | android/app/src/main/kotlin/com/flutterputter/bwt/MainActivity.kt:82-93 | clears `FLAG_SECURE` and the flag unless the window throws |
| AndroidScreenshot.MainActivity.StartScreenshotDetection | android/app/src/main/kotlin/com/flutterputter/bwt/MainActivity.kt:96-139 | a no-op while active; otherwise stores an observer and becomes active only if registration returns; one observer is registered exactly while active |
| AndroidScreenshot.MainActivity.StopScreenshotDetection | android/app/src/main/kotlin/com/flutterputter/bwt/MainActivity.kt:142-153 | unregisters and clears the observer and the flag only when an observer is stored |
| AndroidScreenshot.MainActivity.OnChange | android/app/src/main/kotlin/com/flutterputter/bwt/MainActivity.kt:107-122 | Flutter is told, with timestamp, platform and URI, exactly when the URI is non-null and a screenshot |
| AndroidScreenshot.MainActivity.OnResume | android/app/src/main/kotlin/com/flutterputter/bwt/MainActivity.kt:186-196 | `FLAG_SECURE` is set again exactly when blocked |
| AndroidScreenshot.MainActivity.OnDestroy | android/app/src/main/kotlin/com/flutterputter/bwt/MainActivity.kt:198-203 | detection stops, so no observer stays registered; the blocked flag and the window flag stay as they were |
| AndroidScreenshot.MainActivity.Handle | android/app/src/main/kotlin/com/flutterputter/bwt/MainActivity.kt:27-54 | each known command replies `true` and leaves exactly the state its command method promises; any other name replies not implemented and changes nothing |
| AndroidScreenshot.StartTwiceStopOnce | android/app/src/main/kotlin/com/flutterputter/bwt/MainActivity.kt:97-149 | starting twice leaves one observer registered and one stop leaves none, with one registration and one unregistration logged |
| IosScreenshot.AppDelegate.constructor | ios/Runner/AppDelegate.swift:8-12 | no field, not blocked, detection off, no channel |
| IosScreenshot.AppDelegate.SetupScreenshotSecurity | ios/Runner/AppDelegate.swift:32-44 | the channel exists only with a Flutter root view controller |
| IosScreenshot.AppDelegate.StartScreenshotDetection | ios/Runner/AppDelegate.swift:78-105 | a no-op while active; otherwise detection turns on with its observers |
| IosScreenshot.AppDelegate.StopScreenshotDetection | ios/Runner/AppDelegate.swift:108-126 | always turns detection and its observers off |
| IosScreenshot.AppDelegate.ScreenshotDetected | ios/Runner/AppDelegate.swift:129-158 | the `screenshot` event is sent exactly when detection is active and the channel exists; the alert is scheduled after 0.1 s exactly when blocked |
| IosScreenshot.AppDelegate.ScreenRecordingDetected | ios/Runner/AppDelegate.swift:161-192 | the `screen_recording` event is sent exactly when the screen is captured, detection is active and the channel exists; the 1 s alert exactly when captured and blocked |
| IosScreenshot.AppDelegate.BlockScreenshots | ios/Runner/AppDelegate.swift:195-228 | without a window nothing changes; otherwise blocked, and one more secure field attached and stored |
| IosScreenshot.AppDelegate.EnableScreenshots | ios/Runner/AppDelegate.swift:231-239 | not blocked; only the stored field is removed |
| IosScreenshot.AppDelegate.Handle | ios/Runner/AppDelegate.swift:46-72 | each known command replies `true` and leaves exactly the state its command method promises; any other name replies not implemented and changes nothing |
| IosScreenshot.BlockTwiceThenEnable | ios/Runner/AppDelegate.swift:210-236 | blocking twice then enabling leaves one secure field attached while the flag says unblocked |

## Left out

- UI and OS frameworks are not modelled: CallKit, PushKit, `CXProviderConfiguration`, the app icon, alerts' text and presentation, `UITextField` layout, `FLAG_SECURE` semantics, the MediaStore query itself; each appears only as the effect logged or the parameter read.
- Concurrency and queues (the main queue, `URLSession` threads, `handler.post`) are not modelled; callbacks run one at a time, in any order the caller chooses among the outstanding ones.
- VoIP.VoIPManager.OnRetryTimerFired: the class and every retry lemma use the intended behaviour, a retry timer on the main run loop that fires 30 s later. As written, the timer is created inside the `URLSession` completion, on a thread whose run loop is not run, so it never fires (see "## Findings"). The model also does not capture the 30 s delay itself: the timer fires whenever it is the next step taken.
- VoIP.VoIPManager.EndAllCalls: the order in which Swift enumerates the dictionary keys is not fixed; the model proves the result for whichever enumeration the loop made.
- VoIPSteps.SendTokenToServer: the JSON body's `platform`, `bundleId`, `environment`, `deviceModel` and `systemVersion` fields and the fixed server URL are constant or device data and are left out; `URL(string:)` and `JSONSerialization` always succeed here, so their early returns are not modelled.
- `UserDefaults.set(token, forKey: "voipToken")` is recorded as an effect only; nothing reads it back.
- `provider` is always present, so the optional-chained `provider?.reportNewIncomingCall` always runs.
- Timestamps (`Date().timeIntervalSince1970`) are opaque `real` parameters, and millisecond timestamps opaque integers; floating-point rounding is not modelled.
- `#available(iOS 11.0, *)` is taken as true in `AppDelegate` (the observers and the recording handler); `#available(iOS 10.0, *)` in `VoIPPlugin` is a parameter.
- AndroidScreenshot.StopScreenshotDetection: `unregisterContentObserver` throwing is not modelled.
- The legacy forwarding methods `userDidTakeScreenshot` and `handleScreenRecordingChanged` are not modelled; they only call the two handlers that are.
- The ML-KEM-768 algorithm itself, key generation randomness and key sizes are not modelled; the KEM is a pair of functions and `ciphertextSize` is the constant 1088 instead of being measured from a throw-away encapsulation.
- KyberBridge: conversion of Dart lists to `Uint8Array` is the identity, since inputs are already bytes; lists holding values outside 0-255 are not modelled.
- AndroidScreenshot.Lower: case folding covers ASCII letters only; Kotlin's `ignoreCase` also folds other alphabets.
- `Values`: a Swift `as? Bool` that would also accept an `NSNumber` integer is modelled as accepting only booleans.
- test_phantom_invitation_debug.js is not part of this model.

## Findings

| source | as written | input that shows it | evidently intended | confidence | as-written member | corrected member |
|---|---|---|---|---|---|---|
| ios/Runner/VoIPManager.swift:142-174 | `scheduleTokenRetry` runs inside the data task's completion handler, on the session's delegate queue. `Timer.scheduledTimer` adds the timer to that thread's run loop, which nobody runs, so the retry never fires | a registration that fails with a transport error or a non-200 status while a user id is set: the timer is installed but the token is never posted again | the retry fires after 30 s and re-sends the token, for example by scheduling the timer on the main queue | not executed; follows from Foundation's documented run-loop behaviour | VoIPProperties.RetryNeverFiresAsWritten | VoIPProperties.FailAndRetryResends |
