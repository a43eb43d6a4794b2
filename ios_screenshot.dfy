/**
 * The screenshot half of `AppDelegate` on iOS: the `screenshot_security`
 * handler, blocking by an off-screen secure text field, and the
 * screenshot / screen-recording notifications forwarded to Flutter.
 */
module IosScreenshot {
  import opened Wrappers
  import opened Values
  import opened FlutterChannel
  import opened ScreenshotChannel

  datatype CaptureKind = Screenshot | ScreenRecording

  /** The `type` field of the event. */
  function TypeName(kind: CaptureKind): string
  {
    match kind
    case Screenshot => "screenshot"
    case ScreenRecording => "screen_recording"
  }

  /** The arguments of `onScreenshotDetected`; `nowMillis` is `Int64(Date().timeIntervalSince1970 * 1000)`. */
  function DetectedArguments(nowMillis: int, kind: CaptureKind): map<string, Value>
  {
    map["timestamp" := VInt(nowMillis), "platform" := VString("ios"), "type" := VString(TypeName(kind))]
  }

  /** The protection alert, presented `delay` seconds later on the root view controller. */
  datatype ProtectionAlert = ProtectionAlert(kind: CaptureKind, delay: real)

  /** The `asyncAfter` delay of each alert. */
  function AlertDelay(kind: CaptureKind): real
  {
    match kind
    case Screenshot => 0.1
    case ScreenRecording => 1.0
  }

  class AppDelegate {
    /** `secureTextField != nil` */
    var hasSecureTextField: bool
    var isScreenshotBlocked: bool
    var screenshotDetectionActive: bool
    /** `screenshotChannel != nil` */
    var hasScreenshotChannel: bool
    /** Secure text fields added to the window and not removed since. */
    ghost var attachedSecureFields: nat
    /** Whether the two NotificationCenter observers are registered. */
    ghost var observing: bool

    /** The stored field is one of the attached ones and exists exactly while blocked; observers are registered exactly while detection is active. */
    ghost predicate Valid()
      reads this
    {
      && (hasSecureTextField <==> isScreenshotBlocked)
      && (hasSecureTextField ==> attachedSecureFields >= 1)
      && (observing <==> screenshotDetectionActive)
    }

    constructor ()
      ensures Valid()
      ensures !hasSecureTextField && !isScreenshotBlocked && !screenshotDetectionActive && !hasScreenshotChannel
      ensures attachedSecureFields == 0
    {
      hasSecureTextField := false;
      isScreenshotBlocked := false;
      screenshotDetectionActive := false;
      hasScreenshotChannel := false;
      attachedSecureFields := 0;
      observing := false;
    }

    /** `setupScreenshotSecurity()`: the channel exists only when the root view controller is a `FlutterViewController`. */
    method SetupScreenshotSecurity(hasFlutterController: bool)
      requires Valid()
      modifies this
      ensures Valid()
      ensures hasScreenshotChannel == (old(hasScreenshotChannel) || hasFlutterController)
      ensures isScreenshotBlocked == old(isScreenshotBlocked) && hasSecureTextField == old(hasSecureTextField)
      ensures screenshotDetectionActive == old(screenshotDetectionActive)
      ensures attachedSecureFields == old(attachedSecureFields)
    {
      if hasFlutterController {
        hasScreenshotChannel := true;
      }
    }

    /** `startScreenshotDetection()`: nothing when already active. */
    method StartScreenshotDetection()
      requires Valid()
      modifies this
      ensures Valid()
      ensures screenshotDetectionActive && observing
      ensures old(screenshotDetectionActive) ==> observing == old(observing)
      ensures isScreenshotBlocked == old(isScreenshotBlocked) && hasSecureTextField == old(hasSecureTextField)
      ensures hasScreenshotChannel == old(hasScreenshotChannel)
      ensures attachedSecureFields == old(attachedSecureFields)
    {
      if screenshotDetectionActive {
        return;
      }
      screenshotDetectionActive := true;
      observing := true;
    }

    /** `stopScreenshotDetection()`: always turns detection off. */
    method StopScreenshotDetection()
      requires Valid()
      modifies this
      ensures Valid()
      ensures !screenshotDetectionActive && !observing
      ensures isScreenshotBlocked == old(isScreenshotBlocked) && hasSecureTextField == old(hasSecureTextField)
      ensures hasScreenshotChannel == old(hasScreenshotChannel)
      ensures attachedSecureFields == old(attachedSecureFields)
    {
      screenshotDetectionActive := false;
      observing := false;
    }

    /** `screenshotDetected()`: Flutter hears of it when detection is active and the channel exists; the alert is scheduled when blocked. */
    method ScreenshotDetected(nowMillis: int) returns (inv: Option<Invocation>, alert: Option<ProtectionAlert>)
      requires Valid()
      ensures inv.Some? <==> screenshotDetectionActive && hasScreenshotChannel
      ensures inv.Some? ==> inv.value == Invocation(DetectedMethod, DetectedArguments(nowMillis, Screenshot))
      ensures alert.Some? <==> isScreenshotBlocked
      ensures alert.Some? ==> alert.value == ProtectionAlert(Screenshot, AlertDelay(Screenshot))
    {
      inv := None;
      alert := None;
      if screenshotDetectionActive && hasScreenshotChannel {
        inv := Some(Invocation(DetectedMethod, DetectedArguments(nowMillis, Screenshot)));
      }
      if isScreenshotBlocked {
        alert := Some(ProtectionAlert(Screenshot, AlertDelay(Screenshot)));
      }
    }

    /** `screenRecordingDetected()`; `isCaptured` is `UIScreen.main.isCaptured`. */
    method ScreenRecordingDetected(isCaptured: bool, nowMillis: int) returns (inv: Option<Invocation>, alert: Option<ProtectionAlert>)
      requires Valid()
      ensures inv.Some? <==> isCaptured && screenshotDetectionActive && hasScreenshotChannel
      ensures inv.Some? ==> inv.value == Invocation(DetectedMethod, DetectedArguments(nowMillis, ScreenRecording))
      ensures alert.Some? <==> isCaptured && isScreenshotBlocked
      ensures alert.Some? ==> alert.value == ProtectionAlert(ScreenRecording, AlertDelay(ScreenRecording))
    {
      inv := None;
      alert := None;
      if isCaptured && screenshotDetectionActive && hasScreenshotChannel {
        inv := Some(Invocation(DetectedMethod, DetectedArguments(nowMillis, ScreenRecording)));
      }
      if isCaptured && isScreenshotBlocked {
        alert := Some(ProtectionAlert(ScreenRecording, AlertDelay(ScreenRecording)));
      }
    }

    /** `blockScreenshots()` and `makeSecure(window:)`: without a window nothing changes; otherwise a new secure field is attached and stored. */
    method BlockScreenshots(hasWindow: bool)
      requires Valid()
      modifies this
      ensures Valid()
      ensures !hasWindow ==>
        isScreenshotBlocked == old(isScreenshotBlocked) && attachedSecureFields == old(attachedSecureFields)
      ensures hasWindow ==>
        isScreenshotBlocked && hasSecureTextField && attachedSecureFields == old(attachedSecureFields) + 1
      ensures screenshotDetectionActive == old(screenshotDetectionActive) && observing == old(observing)
      ensures hasScreenshotChannel == old(hasScreenshotChannel)
    {
      if !hasWindow {
        return;
      }
      isScreenshotBlocked := true;
      attachedSecureFields := attachedSecureFields + 1;
      hasSecureTextField := true;
    }

    /** `enableScreenshots()`: removes only the stored field from the window. */
    method EnableScreenshots()
      requires Valid()
      modifies this
      ensures Valid()
      ensures !isScreenshotBlocked && !hasSecureTextField
      ensures attachedSecureFields == old(attachedSecureFields) - (if old(hasSecureTextField) then 1 else 0)
      ensures screenshotDetectionActive == old(screenshotDetectionActive) && observing == old(observing)
      ensures hasScreenshotChannel == old(hasScreenshotChannel)
    {
      isScreenshotBlocked := false;
      if hasSecureTextField {
        attachedSecureFields := attachedSecureFields - 1;
      }
      hasSecureTextField := false;
    }

    /** The method-call handler; `hasWindow` is whether `self.window` is set when blocking. */
    method Handle(name: string, hasWindow: bool) returns (reply: Reply)
      requires Valid()
      modifies this
      ensures Valid()
      ensures reply == CommandReply(ParseCommand(name))
      ensures ParseCommand(name).None? ==>
        && isScreenshotBlocked == old(isScreenshotBlocked)
        && screenshotDetectionActive == old(screenshotDetectionActive)
        && attachedSecureFields == old(attachedSecureFields)
      ensures ParseCommand(name) == Some(BlockCommand) ==>
        && screenshotDetectionActive == old(screenshotDetectionActive) && observing == old(observing)
        && (!hasWindow ==>
              isScreenshotBlocked == old(isScreenshotBlocked) && attachedSecureFields == old(attachedSecureFields))
        && (hasWindow ==>
              isScreenshotBlocked && hasSecureTextField && attachedSecureFields == old(attachedSecureFields) + 1)
      ensures ParseCommand(name) == Some(EnableCommand) ==>
        && screenshotDetectionActive == old(screenshotDetectionActive) && observing == old(observing)
        && !isScreenshotBlocked && !hasSecureTextField
        && attachedSecureFields == old(attachedSecureFields) - (if old(hasSecureTextField) then 1 else 0)
      ensures ParseCommand(name) == Some(StartCommand) ==>
        && screenshotDetectionActive && observing
        && isScreenshotBlocked == old(isScreenshotBlocked) && hasSecureTextField == old(hasSecureTextField)
        && attachedSecureFields == old(attachedSecureFields)
      ensures ParseCommand(name) == Some(StopCommand) ==>
        && !screenshotDetectionActive && !observing
        && isScreenshotBlocked == old(isScreenshotBlocked) && hasSecureTextField == old(hasSecureTextField)
        && attachedSecureFields == old(attachedSecureFields)
      ensures hasScreenshotChannel == old(hasScreenshotChannel)
    {
      var command := ParseCommand(name);
      match command {
        case Some(BlockCommand) => BlockScreenshots(hasWindow);
        case Some(EnableCommand) => EnableScreenshots();
        case Some(StartCommand) => StartScreenshotDetection();
        case Some(StopCommand) => StopScreenshotDetection();
        case None =>
      }
      reply := CommandReply(command);
    }
  }

  /**
   * Blocking twice attaches two secure fields but stores only the second, so
   * enabling afterwards leaves one field attached to the window although the
   * flag says screenshots are allowed.
   */
  method BlockTwiceThenEnable() returns (blocked: bool, ghost attached: nat)
    ensures !blocked && attached == 1
  {
    var app := new AppDelegate();
    app.BlockScreenshots(true);
    app.BlockScreenshots(true);
    app.EnableScreenshots();
    blocked := app.isScreenshotBlocked;
    attached := app.attachedSecureFields;
  }
}
