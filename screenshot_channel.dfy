/** The `screenshot_security` method channel, shared by the Android and iOS hosts. */
module ScreenshotChannel {
  import opened Wrappers
  import opened Values
  import opened FlutterChannel

  const ChannelName := "screenshot_security"
  /** The method the hosts invoke on Flutter when a capture is seen. */
  const DetectedMethod := "onScreenshotDetected"

  datatype Command = BlockCommand | EnableCommand | StartCommand | StopCommand

  function CommandName(c: Command): string
  {
    match c
    case BlockCommand => "blockScreenshots"
    case EnableCommand => "enableScreenshots"
    case StartCommand => "startScreenshotDetection"
    case StopCommand => "stopScreenshotDetection"
  }

  /** The `when (call.method)` / `switch call.method` of both handlers. */
  function ParseCommand(name: string): (r: Option<Command>)
    ensures r.Some? ==> CommandName(r.value) == name
  {
    if name == "blockScreenshots" then Some(BlockCommand)
    else if name == "enableScreenshots" then Some(EnableCommand)
    else if name == "startScreenshotDetection" then Some(StartCommand)
    else if name == "stopScreenshotDetection" then Some(StopCommand)
    else None
  }

  /** Every known command replies `true`; anything else is not implemented. */
  function CommandReply(c: Option<Command>): (r: Reply)
    ensures r.ReplySuccess? <==> c.Some?
    ensures r.ReplySuccess? ==> r.value == VBool(true)
    ensures r.ReplyNotImplemented? <==> c.None?
  {
    match c
    case Some(_) => ReplySuccess(VBool(true))
    case None => ReplyNotImplemented
  }

  /** Each command is recognised by its own name. */
  lemma ParseCommandName(c: Command)
    ensures ParseCommand(CommandName(c)) == Some(c)
  {
  }

  /** A name is recognised exactly when it is one of the four command names. */
  lemma ParseCommandKnown(name: string)
    ensures ParseCommand(name).Some? <==> exists c: Command :: CommandName(c) == name
  {
    if exists c: Command :: CommandName(c) == name {
      var c: Command :| CommandName(c) == name;
      ParseCommandName(c);
    }
  }
}
