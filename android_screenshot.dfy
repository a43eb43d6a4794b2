/**
 * `MainActivity` on Android: the `screenshot_security` handler, the
 * `FLAG_SECURE` switch, a MediaStore `ContentObserver` for new images, and
 * the test that decides whether a new image is a screenshot.
 */
module AndroidScreenshot {
  import opened Wrappers
  import opened Values
  import opened FlutterChannel
  import opened ScreenshotChannel

  // ---- case-insensitive matching -------------------------------------------

  /** Case folding of one character (ASCII letters only). */
  function Lower(c: char): char
  {
    if 'A' <= c <= 'Z' then (c as int + 32) as char else c
  }

  /** `a` and `b` are the same text up to case. */
  ghost predicate EqualIgnoreCase(a: string, b: string)
  {
    |a| == |b| && forall k :: 0 <= k < |a| ==> Lower(a[k]) == Lower(b[k])
  }

  /** `s.startsWith(p, ignoreCase = true)`. */
  predicate StartsWithIgnoreCase(s: string, p: string)
    decreases |p|
  {
    |p| <= |s| && (|p| == 0 || (Lower(s[0]) == Lower(p[0]) && StartsWithIgnoreCase(s[1..], p[1..])))
  }

  /** `s.contains(p, ignoreCase = true)`. */
  predicate ContainsIgnoreCase(s: string, p: string)
    decreases |s|
  {
    StartsWithIgnoreCase(s, p) || (|s| > 0 && ContainsIgnoreCase(s[1..], p))
  }

  /** A prefix test is a comparison of the first `|p|` characters. */
  lemma {:induction false} StartsWithWindow(s: string, p: string)
    ensures StartsWithIgnoreCase(s, p) <==> |p| <= |s| && EqualIgnoreCase(s[..|p|], p)
    decreases |p|
  {
    if |p| > 0 && |p| <= |s| {
      StartsWithWindow(s[1..], p[1..]);
      assert s[1..][..|p| - 1] == s[..|p|][1..];
      if EqualIgnoreCase(s[..|p|], p) {
        assert Lower(s[0]) == Lower(p[0]) by { assert s[..|p|][0] == s[0]; }
        forall k | 0 <= k < |p| - 1
          ensures Lower(s[1..][..|p| - 1][k]) == Lower(p[1..][k])
        {
          assert s[..|p|][k + 1] == s[1..][..|p| - 1][k];
        }
      }
      if StartsWithIgnoreCase(s, p) {
        forall k | 0 <= k < |p|
          ensures Lower(s[..|p|][k]) == Lower(p[k])
        {
          if k > 0 {
            assert s[..|p|][k] == s[1..][..|p| - 1][k - 1];
          }
        }
      }
    }
  }

  /** The window of `s` at `i` equals `p` up to case. */
  ghost predicate MatchesAt(s: string, p: string, i: int)
  {
    0 <= i && i + |p| <= |s| && EqualIgnoreCase(s[i..i + |p|], p)
  }

  /** `s` contains `p` exactly when some window of `s` equals `p` up to case. */
  lemma {:induction false} ContainsWindow(s: string, p: string)
    ensures ContainsIgnoreCase(s, p) <==>
      exists i :: MatchesAt(s, p, i)
    decreases |s|
  {
    StartsWithWindow(s, p);
    if |s| > 0 {
      ContainsWindow(s[1..], p);
      if ContainsIgnoreCase(s, p) {
        if StartsWithIgnoreCase(s, p) {
          assert s[0..0 + |p|] == s[..|p|];
          assert MatchesAt(s, p, 0);
        } else {
          var i :| MatchesAt(s[1..], p, i);
          assert s[1..][i..i + |p|] == s[i + 1..i + 1 + |p|];
          assert MatchesAt(s, p, i + 1);
        }
      }
      if exists i :: MatchesAt(s, p, i) {
        var i :| MatchesAt(s, p, i);
        if i == 0 {
          assert s[0..0 + |p|] == s[..|p|];
        } else {
          assert s[1..][i - 1..i - 1 + |p|] == s[i..i + |p|];
          assert MatchesAt(s[1..], p, i - 1);
        }
      }
    } else if ContainsIgnoreCase(s, p) {
      assert s[0..0 + |p|] == s[..|p|];
      assert MatchesAt(s, p, 0);
    }
  }

  /** Starting with `p`, and `p` starting with `q`, means starting with `q`. */
  lemma {:induction false} StartsWithTransitive(s: string, p: string, q: string)
    requires StartsWithIgnoreCase(s, p) && StartsWithIgnoreCase(p, q)
    ensures StartsWithIgnoreCase(s, q)
    decreases |q|
  {
    if |q| > 0 {
      StartsWithTransitive(s[1..], p[1..], q[1..]);
    }
  }

  /** Containing `p` means containing every case-insensitive prefix `q` of `p`. */
  lemma {:induction false} ContainsPrefix(s: string, p: string, q: string)
    requires ContainsIgnoreCase(s, p) && StartsWithIgnoreCase(p, q)
    ensures ContainsIgnoreCase(s, q)
    decreases |s|
  {
    if StartsWithIgnoreCase(s, p) {
      StartsWithTransitive(s, p, q);
    } else {
      ContainsPrefix(s[1..], p, q);
    }
  }

  // ---- the screenshot test -------------------------------------------------

  /** The four-way test of `isScreenshotUri` on the first row's columns; a null column matches nothing. */
  predicate LooksLikeScreenshot(displayName: Option<string>, data: Option<string>)
  {
    || (displayName.Some? && ContainsIgnoreCase(displayName.value, "screenshot"))
    || (displayName.Some? && ContainsIgnoreCase(displayName.value, "screen"))
    || (data.Some? && ContainsIgnoreCase(data.value, "Screenshots"))
    || (data.Some? && ContainsIgnoreCase(data.value, "screenshot"))
  }

  /** "screen" is a prefix of "screenshot". */
  lemma ScreenPrefix()
    ensures StartsWithIgnoreCase("screenshot", "screen")
  {
  }

  /** "screenshot" is, up to case, a prefix of "Screenshots". */
  lemma ScreenshotsPrefix()
    ensures StartsWithIgnoreCase("Screenshots", "screenshot")
  {
  }

  /** "screenshot" is, up to case, a prefix of "Screenshot_". */
  lemma ScreenshotUnderscorePrefix()
    ensures StartsWithIgnoreCase("Screenshot_", "screenshot")
  {
  }

  /** Two of the four patterns are redundant: the test is `displayName ~ "screen"` or `data ~ "screenshot"`. */
  lemma LooksLikeScreenshotSimplified(displayName: Option<string>, data: Option<string>)
    ensures LooksLikeScreenshot(displayName, data) <==>
      (displayName.Some? && ContainsIgnoreCase(displayName.value, "screen"))
      || (data.Some? && ContainsIgnoreCase(data.value, "screenshot"))
  {
    ScreenPrefix();
    ScreenshotsPrefix();
    if displayName.Some? && ContainsIgnoreCase(displayName.value, "screenshot") {
      ContainsPrefix(displayName.value, "screenshot", "screen");
    }
    if data.Some? && ContainsIgnoreCase(data.value, "Screenshots") {
      ContainsPrefix(data.value, "Screenshots", "screenshot");
    }
  }

  /** What `contentResolver.query` for the two columns gave. */
  datatype QueryResult =
    | QueryThrew                 // query or `getColumnIndexOrThrow` threw
    | NoCursor                   // `query` returned null
    | EmptyCursor                // `moveToFirst()` was false
    | FirstRow(displayName: Option<string>, data: Option<string>)

  /** `isScreenshotUri(uri)`: only a first row can make it true. */
  function IsScreenshotUri(q: QueryResult): (r: bool)
    ensures r <==> q.FirstRow? && LooksLikeScreenshot(q.displayName, q.data)
    ensures !q.FirstRow? ==> !r
  {
    match q
    case FirstRow(displayName, data) => LooksLikeScreenshot(displayName, data)
    case _ => false
  }

  /** A screenshot lands as an image whose name or path carries the word. */
  lemma ScreenshotFileRecognised(displayName: string, path: string)
    requires StartsWithIgnoreCase(displayName, "Screenshot_")
    ensures IsScreenshotUri(FirstRow(Some(displayName), Some(path)))
  {
    ScreenshotUnderscorePrefix();
    StartsWithTransitive(displayName, "Screenshot_", "screenshot");
  }

  // ---- the activity ----------------------------------------------------------

  /** What the activity does to the window, the content resolver and Flutter. */
  datatype Effect =
    | SecureFlagSet
    | SecureFlagCleared
    | ObserverRegistered
    | ObserverUnregistered

  /** The arguments of `onScreenshotDetected` sent from `onChange`. */
  function DetectedArguments(nowMillis: int, uri: string): map<string, Value>
  {
    map["timestamp" := VInt(nowMillis), "platform" := VString("android"), "uri" := VString(uri)]
  }

  class MainActivity {
    var isScreenshotBlocked: bool
    /** `screenshotObserver != null` */
    var hasScreenshotObserver: bool
    var isScreenshotDetectionActive: bool
    /** Whether `FLAG_SECURE` is set on the window. */
    ghost var windowSecure: bool
    /** How many of this activity's observers the content resolver holds. */
    ghost var registeredObservers: nat
    ghost var effects: seq<Effect>

    /** The window flag follows `isScreenshotBlocked`, and exactly one observer is registered while detection is active. */
    ghost predicate Valid()
      reads this
    {
      && windowSecure == isScreenshotBlocked
      && (isScreenshotDetectionActive ==> hasScreenshotObserver)
      && registeredObservers == (if isScreenshotDetectionActive then 1 else 0)
    }

    constructor ()
      ensures Valid()
      ensures !isScreenshotBlocked && !hasScreenshotObserver && !isScreenshotDetectionActive
      ensures effects == []
    {
      isScreenshotBlocked := false;
      hasScreenshotObserver := false;
      isScreenshotDetectionActive := false;
      windowSecure := false;
      registeredObservers := 0;
      effects := [];
    }

    /** `blockScreenshots()`; `windowFails` is `window.setFlags` throwing, which is caught. */
    method BlockScreenshots(windowFails: bool)
      requires Valid()
      modifies this
      ensures Valid()
      ensures isScreenshotBlocked == (old(isScreenshotBlocked) || !windowFails)
      ensures effects == old(effects) + (if windowFails then [] else [SecureFlagSet])
      ensures hasScreenshotObserver == old(hasScreenshotObserver)
      ensures isScreenshotDetectionActive == old(isScreenshotDetectionActive)
      ensures registeredObservers == old(registeredObservers)
    {
      if !windowFails {
        windowSecure := true;
        isScreenshotBlocked := true;
        effects := effects + [SecureFlagSet];
      }
    }

    /** `enableScreenshots()`; `windowFails` is `window.clearFlags` throwing, which is caught. */
    method EnableScreenshots(windowFails: bool)
      requires Valid()
      modifies this
      ensures Valid()
      ensures isScreenshotBlocked == (old(isScreenshotBlocked) && windowFails)
      ensures effects == old(effects) + (if windowFails then [] else [SecureFlagCleared])
      ensures hasScreenshotObserver == old(hasScreenshotObserver)
      ensures isScreenshotDetectionActive == old(isScreenshotDetectionActive)
      ensures registeredObservers == old(registeredObservers)
    {
      if !windowFails {
        windowSecure := false;
        isScreenshotBlocked := false;
        effects := effects + [SecureFlagCleared];
      }
    }

    /**
     * `startScreenshotDetection`: nothing when already active; otherwise the
     * observer is stored first, and detection is active only once
     * `registerContentObserver` returns (`registerFails` is it throwing).
     */
    method StartScreenshotDetection(registerFails: bool)
      requires Valid()
      modifies this
      ensures Valid()
      ensures old(isScreenshotDetectionActive) ==>
        isScreenshotDetectionActive && hasScreenshotObserver == old(hasScreenshotObserver) && effects == old(effects)
      ensures !old(isScreenshotDetectionActive) ==>
        && hasScreenshotObserver
        && isScreenshotDetectionActive == !registerFails
        && effects == old(effects) + (if registerFails then [] else [ObserverRegistered])
      ensures isScreenshotBlocked == old(isScreenshotBlocked)
    {
      if isScreenshotDetectionActive {
        return;
      }
      hasScreenshotObserver := true;
      if !registerFails {
        registeredObservers := registeredObservers + 1;
        effects := effects + [ObserverRegistered];
        isScreenshotDetectionActive := true;
      }
    }

    /** `stopScreenshotDetection`: unregisters and clears both fields only when an observer is stored. */
    method StopScreenshotDetection()
      requires Valid()
      modifies this
      ensures Valid()
      ensures old(hasScreenshotObserver) ==>
        !hasScreenshotObserver && !isScreenshotDetectionActive && effects == old(effects) + [ObserverUnregistered]
      ensures !old(hasScreenshotObserver) ==>
        !hasScreenshotObserver && isScreenshotDetectionActive == old(isScreenshotDetectionActive) && effects == old(effects)
      ensures !isScreenshotDetectionActive && registeredObservers == 0
      ensures isScreenshotBlocked == old(isScreenshotBlocked)
    {
      if hasScreenshotObserver {
        registeredObservers := 0;
        effects := effects + [ObserverUnregistered];
        hasScreenshotObserver := false;
        isScreenshotDetectionActive := false;
      }
    }

    /** The observer's `onChange(selfChange, uri)`: Flutter hears of the change when the URI is a screenshot. */
    method OnChange(uri: Option<string>, query: QueryResult, nowMillis: int) returns (inv: Option<Invocation>)
      requires Valid() && isScreenshotDetectionActive
      ensures inv.Some? <==> uri.Some? && IsScreenshotUri(query)
      ensures inv.Some? ==> inv.value == Invocation(DetectedMethod, DetectedArguments(nowMillis, uri.value))
    {
      inv := None;
      if uri.Some? && IsScreenshotUri(query) {
        inv := Some(Invocation(DetectedMethod, DetectedArguments(nowMillis, uri.value)));
      }
    }

    /** `onResume()`: sets `FLAG_SECURE` again exactly when screenshots are blocked. */
    method OnResume()
      requires Valid()
      modifies this
      ensures Valid()
      ensures effects == old(effects) + (if isScreenshotBlocked then [SecureFlagSet] else [])
      ensures isScreenshotBlocked == old(isScreenshotBlocked)
      ensures hasScreenshotObserver == old(hasScreenshotObserver)
      ensures isScreenshotDetectionActive == old(isScreenshotDetectionActive)
    {
      if isScreenshotBlocked {
        windowSecure := true;
        effects := effects + [SecureFlagSet];
      }
    }

    /** `onDestroy()`: stops detection, so no observer outlives the activity. */
    method OnDestroy()
      requires Valid()
      modifies this
      ensures Valid()
      ensures registeredObservers == 0 && !hasScreenshotObserver && !isScreenshotDetectionActive
      ensures effects == old(effects) + (if old(hasScreenshotObserver) then [ObserverUnregistered] else [])
      ensures isScreenshotBlocked == old(isScreenshotBlocked) && windowSecure == old(windowSecure)
    {
      StopScreenshotDetection();
    }

    /** The method-call handler; `windowFails` and `registerFails` are the failures caught inside the commands. */
    method Handle(name: string, windowFails: bool, registerFails: bool) returns (reply: Reply)
      requires Valid()
      modifies this
      ensures Valid()
      ensures reply == CommandReply(ParseCommand(name))
      ensures reply.ReplySuccess? <==> ParseCommand(name).Some?
      ensures ParseCommand(name).None? ==>
        && isScreenshotBlocked == old(isScreenshotBlocked)
        && hasScreenshotObserver == old(hasScreenshotObserver)
        && isScreenshotDetectionActive == old(isScreenshotDetectionActive)
        && effects == old(effects)
      ensures ParseCommand(name) == Some(BlockCommand) ==>
        && isScreenshotBlocked == (old(isScreenshotBlocked) || !windowFails)
        && effects == old(effects) + (if windowFails then [] else [SecureFlagSet])
        && hasScreenshotObserver == old(hasScreenshotObserver)
        && isScreenshotDetectionActive == old(isScreenshotDetectionActive)
        && registeredObservers == old(registeredObservers)
      ensures ParseCommand(name) == Some(EnableCommand) ==>
        && isScreenshotBlocked == (old(isScreenshotBlocked) && windowFails)
        && effects == old(effects) + (if windowFails then [] else [SecureFlagCleared])
        && hasScreenshotObserver == old(hasScreenshotObserver)
        && isScreenshotDetectionActive == old(isScreenshotDetectionActive)
        && registeredObservers == old(registeredObservers)
      ensures ParseCommand(name) == Some(StartCommand) ==>
        && isScreenshotBlocked == old(isScreenshotBlocked)
        && (old(isScreenshotDetectionActive) ==>
              isScreenshotDetectionActive && hasScreenshotObserver == old(hasScreenshotObserver) && effects == old(effects))
        && (!old(isScreenshotDetectionActive) ==>
              && hasScreenshotObserver
              && isScreenshotDetectionActive == !registerFails
              && effects == old(effects) + (if registerFails then [] else [ObserverRegistered]))
      ensures ParseCommand(name) == Some(StopCommand) ==>
        && isScreenshotBlocked == old(isScreenshotBlocked)
        && !hasScreenshotObserver && !isScreenshotDetectionActive && registeredObservers == 0
        && effects == old(effects) + (if old(hasScreenshotObserver) then [ObserverUnregistered] else [])
    {
      var command := ParseCommand(name);
      match command {
        case Some(BlockCommand) => BlockScreenshots(windowFails);
        case Some(EnableCommand) => EnableScreenshots(windowFails);
        case Some(StartCommand) => StartScreenshotDetection(registerFails);
        case Some(StopCommand) => StopScreenshotDetection();
        case None =>
      }
      reply := CommandReply(command);
    }
  }

  /** Starting twice registers one observer, and a single stop releases it. */
  method StartTwiceStopOnce() returns (observer: bool, active: bool, ghost registeredAfterStarts: nat,
                                       ghost registeredAfterStop: nat, ghost log: seq<Effect>)
    ensures registeredAfterStarts == 1 && registeredAfterStop == 0
    ensures !observer && !active
    ensures log == [ObserverRegistered, ObserverUnregistered]
  {
    var activity := new MainActivity();
    activity.StartScreenshotDetection(false);
    activity.StartScreenshotDetection(false);
    registeredAfterStarts := activity.registeredObservers;
    activity.StopScreenshotDetection();
    registeredAfterStop := activity.registeredObservers;
    observer := activity.hasScreenshotObserver;
    active := activity.isScreenshotDetectionActive;
    log := activity.effects;
  }
}
