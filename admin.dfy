/** The rules of the administrative commands of src/cogs/admin.py: the
    command-prefix change, the avatar URL choice, the presence change, the
    enable/disable switch of a command and the attachment upload. Database
    reads and HTTP answers are inputs; database writes, presences and
    uploads are results. */
module Admin {
  import opened Wrappers
  import opened Strings
  import Log
  import Assets

  // ---------------------------------------------------------------------
  // setprefix

  /** What `change_cmd_prefix` does: the reply it sends, the (key, prefix)
      written to the settings, and whether it raised. */
  datatype PrefixOutcome = PrefixOutcome(reply: Option<string>, write: Option<(string, string)>, raised: bool)

  /** `change_cmd_prefix` over the keys of the settings read (None when the
      path holds nothing, which the `for` cannot iterate). */
  function ChangeCmdPrefix(mention: string, newCmdPrefix: string, keys: Option<seq<string>>): (o: PrefixOutcome)
    ensures |newCmdPrefix| > 1 ==>
              o == PrefixOutcome(Some(Log.CtxError(mention, "Prefix must be a single character!")), None, false)
    ensures |newCmdPrefix| <= 1 ==> (o.raised <==> keys.None?)
    ensures o.write.Some? <==> |newCmdPrefix| <= 1 && keys.Some? && |keys.value| > 0
    ensures o.write.Some? ==> (o.write.value == (keys.value[0], newCmdPrefix)
                               && o.reply == Some(Log.CtxSuccess(mention, "Changed command prefix to `" + newCmdPrefix + "`")))
    ensures |newCmdPrefix| <= 1 && o.write.None? ==> o.reply.None?
  {
    if |newCmdPrefix| > 1 then
      PrefixOutcome(Some(Log.CtxError(mention, "Prefix must be a single character!")), None, false)
    else if keys.None? then PrefixOutcome(None, None, true)
    else if |keys.value| == 0 then PrefixOutcome(None, None, false)
    else PrefixOutcome(Some(Log.CtxSuccess(mention, "Changed command prefix to `" + newCmdPrefix + "`")),
                       Some((keys.value[0], newCmdPrefix)), false)
  }

  /** Only the first settings key is written, however many there are. */
  lemma PrefixWritesFirstKeyOnly(mention: string, newCmdPrefix: string, first: string, rest: seq<string>)
    requires |newCmdPrefix| == 1
    ensures ChangeCmdPrefix(mention, newCmdPrefix, Some([first] + rest)).write == Some((first, newCmdPrefix))
  {
  }

  // ---------------------------------------------------------------------
  // setavatar

  predicate AngleBracket(c: char) {
    InChars("<>", c)
  }

  /** The URL `change_avatar` fetches: the only attachment's when no URL
      was given, otherwise the given URL without surrounding '<' and '>';
      None when there is nothing to use. */
  function AvatarUrl(url: Option<string>, attachmentUrls: seq<string>): (r: Option<string>)
    ensures url.None? && |attachmentUrls| == 1 ==> r == Some(attachmentUrls[0])
    ensures url.None? && |attachmentUrls| != 1 ==> r.None?
    ensures url.Some? ==> (r.None? <==> url.value == "")
    ensures url.Some? && r.Some? ==>
              r.value == StripBy(url.value, AngleBracket)
              && (|r.value| > 0 ==> r.value[0] !in "<>" && r.value[|r.value| - 1] !in "<>")
  {
    if url.None? && |attachmentUrls| == 1 then Some(attachmentUrls[0])
    else if url.Some? && url.value != "" then Some(StripBy(url.value, AngleBracket))
    else None
  }

  /** A URL given in angle brackets loses them. */
  lemma AvatarUrlUnwraps(inner: string)
    requires |inner| > 0 && inner[0] !in "<>" && inner[|inner| - 1] !in "<>"
    ensures AvatarUrl(Some("<" + inner + ">"), []) == Some(inner)
  {
    var u := "<" + inner + ">";
    assert u[1..] == inner + ">";
    assert LStrip(u, AngleBracket) == inner + ">";
    assert (inner + ">")[..|inner|] == inner;
    assert RStrip(inner + ">", AngleBracket) == inner;
  }

  /** With one attachment an explicit URL still wins. */
  lemma ExplicitUrlWins(url: string, attachmentUrl: string)
    requires url != ""
    ensures AvatarUrl(Some(url), [attachmentUrl]) == Some(StripBy(url, AngleBracket))
  {
  }

  // ---------------------------------------------------------------------
  // setstatus

  /** The activities of `presences`, each carrying the status text. */
  datatype Activity =
    | Streaming(name: string, url: string, game: string, platform: string)
    | Game(name: string)
    | Listening(name: string)
    | Watching(name: string)

  /** The statuses `presences` has an entry for. */
  predicate KnownStatus(status: string) {
    status == "streaming" || status == "playing" || status == "listening" || status == "watching"
  }

  /** `presences.get(status)` */
  function PresenceOf(status: string, text: string): (r: Option<Activity>)
    ensures r.Some? <==> KnownStatus(status)
    ensures r.Some? ==> r.value.name == text
  {
    if status == "streaming" then
      Some(Streaming(text, "https://www.youtube.com/watch?v=dQw4w9WgXcQ", "League of Legends", "YouTube"))
    else if status == "playing" then Some(Game(text))
    else if status == "listening" then Some(Listening(text))
    else if status == "watching" then Some(Watching(text))
    else None
  }

  /** The refusal sent for a status `presences` has no entry for. */
  const InvalidStatusText := "Failed to change presence! Remember to include a valid status. List of statuses: streaming, playing, listening, and watching."

  /** The reply of `change_bot_presence` and the presence it sets. */
  datatype PresenceOutcome = PresenceOutcome(reply: string, activity: Option<Activity>)

  function ChangeBotPresence(mention: string, status: string, text: Option<string>): (o: PresenceOutcome)
    ensures text.None? ==> o == PresenceOutcome(Log.CtxError(mention, "No text was provided!"), None)
    ensures text.Some? && KnownStatus(Lower(status)) ==>
              o == PresenceOutcome(Log.CtxSuccess(mention, "Changed " + Lower(status) + " status text to `" + text.value + "`"),
                                   PresenceOf(Lower(status), text.value))
    ensures text.Some? && !KnownStatus(Lower(status)) ==>
              o == PresenceOutcome(Log.CtxError(mention, InvalidStatusText), None)
  {
    var lowered := Lower(status);
    if text.None? then PresenceOutcome(Log.CtxError(mention, "No text was provided!"), None)
    else
      var newPresence := PresenceOf(lowered, text.value);
      if newPresence.None? then
        PresenceOutcome(Log.CtxError(mention, InvalidStatusText), None)
      else PresenceOutcome(Log.CtxSuccess(mention, "Changed " + lowered + " status text to `" + text.value + "`"), newPresence)
  }

  /** The status is case-insensitive: "Playing" sets a game. */
  lemma StatusIgnoresCase(mention: string, status: string, text: string)
    requires status == "Playing"
    ensures ChangeBotPresence(mention, status, Some(text)).activity == Some(Game(text))
  {
    LowerPlaying(status);
  }

  lemma LowerPlaying(s: string)
    requires s == "Playing"
    ensures Lower(s) == "playing"
  {
    assert |Lower(s)| == 7;
    forall i | 0 <= i < 7
      ensures Lower(s)[i] == "playing"[i]
    {
    }
  }

  // ---------------------------------------------------------------------
  // cmd

  /** A registered command of the bot; `enabled` is the flag the command
      switch updates in place. */
  class BotCommand {
    var enabled: bool

    constructor (enabled: bool)
      ensures this.enabled == enabled
    {
      this.enabled := enabled;
    }
  }

  /** The reply of the command switch given the command's current state;
      None for the two refusals that come before the lookup's result. */
  function SwitchReply(mention: string, cmdName: string, newState: bool, enabled: bool): string {
    if newState then
      if enabled then Log.CtxError(mention, "`" + cmdName + "` is already turned on!")
      else Log.CtxError(mention, "Successfully enabled command: `" + cmdName + "`")
    else
      if !enabled then Log.CtxError(mention, "`" + cmdName + "` is already turned off!")
      else Log.CtxError(mention, "Successfully disabled command: `" + cmdName + "`")
  }

  /** `command`: `commands` is `get_command` as a table from names (and
      aliases) to command objects. Asking for the current state is refused
      and changes nothing; asking for the other state flips that one
      command. */
  method SwitchCommand(mention: string, newState: bool, cmdName: Option<string>, commands: map<string, BotCommand>)
    returns (reply: string)
    modifies commands.Values
    ensures cmdName.None? ==> reply == Log.CtxError(mention, "You forgot to put down the name of the command.")
    ensures cmdName.Some? && cmdName.value !in commands ==> reply == Log.CtxError(mention, "No valid command name found.")
    ensures cmdName.Some? && cmdName.value in commands ==>
              reply == SwitchReply(mention, cmdName.value, newState, old(commands[cmdName.value].enabled))
              && commands[cmdName.value].enabled == newState
    ensures forall c :: c in commands.Values && (cmdName.None? || cmdName.value !in commands || c != commands[cmdName.value])
              ==> c.enabled == old(c.enabled)
  {
    if cmdName.None? {
      return Log.CtxError(mention, "You forgot to put down the name of the command.");
    }
    var name := cmdName.value;
    if name !in commands {
      return Log.CtxError(mention, "No valid command name found.");
    }
    var cmd := commands[name];
    reply := SwitchReply(mention, name, newState, cmd.enabled);
    if cmd.enabled != newState {
      cmd.enabled := newState;
    }
  }

  // ---------------------------------------------------------------------
  // upload

  /** An attachment of the command message. */
  datatype Attachment = Attachment(filename: string, url: string)

  /** The answer to fetching an attachment's URL: its status, its
      content-type header and its body. */
  datatype Response = Response(status: int, contentType: string, contents: string)

  /** `_upload_to_cloud`: nothing is uploaded unless the status is 200; a
      name without an extension makes the storage call raise. */
  datatype CloudResult = NotUploaded | Uploaded(blob: Assets.Blob) | Raised(error: Assets.StorageError)

  function UploadToCloud(response: Response, dstBlobName: string): (r: CloudResult)
    ensures response.status != 200 <==> r.NotUploaded?
    ensures r.Uploaded? ==> Assets.UploadFromMemory(response.contents, dstBlobName, response.contentType) == Ok(r.blob)
    ensures r.Raised? ==> Assets.UploadFromMemory(response.contents, dstBlobName, response.contentType) == Err(r.error)
  {
    if response.status != 200 then NotUploaded
    else match Assets.UploadFromMemory(response.contents, dstBlobName, response.contentType)
      case Ok(b) => Uploaded(b)
      case Err(e) => Raised(e)
  }

  /** Why the attachment loop ended. */
  datatype Stop = AllUploaded | InvalidName | UploadFailed(name: string) | UploadRaised(error: Assets.StorageError)

  /** What one turn of the loop does with one attachment. */
  datatype Step = BadName | NotSent(name: string) | Sent(blob: Assets.Blob) | Raise(error: Assets.StorageError)

  /** The name check, then the upload, of one attachment. */
  function StepOf(att: Attachment, resp: Response): (s: Step)
    ensures s.BadName? <==> !Assets.ValidateFilename(att.filename)
    ensures s.NotSent? ==> s.name == att.filename && UploadToCloud(resp, att.filename) == NotUploaded
    ensures s.Sent? ==> UploadToCloud(resp, att.filename) == Uploaded(s.blob)
    ensures s.Raise? ==> UploadToCloud(resp, att.filename) == Raised(s.error)
  {
    if !Assets.ValidateFilename(att.filename) then BadName
    else match UploadToCloud(resp, att.filename)
      case NotUploaded => NotSent(att.filename)
      case Uploaded(b) => Sent(b)
      case Raised(e) => Raise(e)
  }

  /** The end of the loop caused by a step that is not an upload. */
  function StopAt(s: Step): (r: Stop)
    requires !s.Sent?
    ensures r.UploadRaised? <==> s.Raise?
    ensures r != AllUploaded
  {
    match s
    case BadName => InvalidName
    case NotSent(name) => UploadFailed(name)
    case Raise(e) => UploadRaised(e)
  }

  /** The loop over the steps: the blobs of the leading uploads, and the
      first step that is not one. */
  function Run(steps: seq<Step>): (r: (seq<Assets.Blob>, Stop))
    ensures |r.0| <= |steps|
    ensures r.1 == AllUploaded <==> |r.0| == |steps|
    ensures forall i :: 0 <= i < |r.0| ==> steps[i] == Sent(r.0[i])
    ensures |r.0| < |steps| ==> !steps[|r.0|].Sent? && r.1 == StopAt(steps[|r.0|])
    decreases |steps|
  {
    if |steps| == 0 then ([], AllUploaded)
    else if !steps[0].Sent? then ([], StopAt(steps[0]))
    else
      var rest := Run(steps[1..]);
      assert forall i :: 1 <= i < |steps| ==> steps[1..][i - 1] == steps[i];
      ([steps[0].blob] + rest.0, rest.1)
  }

  /** The steps of the attachments, in order. */
  function Steps(atts: seq<Attachment>, resps: seq<Response>): (r: seq<Step>)
    requires |atts| == |resps|
    ensures |r| == |atts|
  {
    seq(|atts|, (i: int) requires 0 <= i < |atts| => StepOf(atts[i], resps[i]))
  }

  lemma StepsAt(atts: seq<Attachment>, resps: seq<Response>, i: nat)
    requires |atts| == |resps| && i < |atts|
    ensures Steps(atts, resps)[i] == StepOf(atts[i], resps[i])
  {
  }

  /** The attachment loop: the blobs uploaded and why it ended. */
  function UploadRun(atts: seq<Attachment>, resps: seq<Response>): (seq<Assets.Blob>, Stop)
    requires |atts| == |resps|
  {
    Run(Steps(atts, resps))
  }

  /** The uploads kept are those of the attachments before the one that
      ended the loop, each with a valid name and a 200 answer; the loop
      ends at the first invalid name, failed or raising upload, or after
      the last attachment. */
  lemma UploadRunMeaning(atts: seq<Attachment>, resps: seq<Response>)
    requires |atts| == |resps|
    ensures var r := UploadRun(atts, resps);
      (r.1 == AllUploaded <==> |r.0| == |atts|)
      && (forall i :: 0 <= i < |r.0| ==>
            Assets.ValidateFilename(atts[i].filename) && UploadToCloud(resps[i], atts[i].filename) == Uploaded(r.0[i]))
      && (r.1 == InvalidName ==> |r.0| < |atts| && !Assets.ValidateFilename(atts[|r.0|].filename))
      && (r.1.UploadFailed? ==>
            |r.0| < |atts| && Assets.ValidateFilename(atts[|r.0|].filename) && r.1.name == atts[|r.0|].filename
            && resps[|r.0|].status != 200)
      && (r.1.UploadRaised? ==>
            |r.0| < |atts| && Assets.ValidateFilename(atts[|r.0|].filename)
            && UploadToCloud(resps[|r.0|], atts[|r.0|].filename) == Raised(r.1.error))
  {
    var r := UploadRun(atts, resps);
    var steps := Steps(atts, resps);
    forall i | 0 <= i < |r.0|
      ensures Assets.ValidateFilename(atts[i].filename) && UploadToCloud(resps[i], atts[i].filename) == Uploaded(r.0[i])
    {
      assert steps[i] == Sent(r.0[i]);
    }
  }

  /** The reply that ends `upload_file`; None when the upload raised. */
  function UploadReply(mention: string, stop: Stop): Option<string> {
    match stop
    case AllUploaded => Some(Log.CtxSuccess(mention, "Uploaded all attachments to cloud!"))
    case InvalidName => Some(Log.CtxError(mention, "Filename is not valid. Try again."))
    case UploadFailed(name) => Some(Log.CtxError(mention, "Something went wrong with uploading " + name + "! Aw man."))
    case UploadRaised(_) => None
  }

  /** One turn of the loop, seen from the run of the remaining steps. */
  lemma RunStep(steps: seq<Step>, i: nat)
    requires i < |steps|
    ensures steps[i].Sent? ==> Run(steps[i..]) == ([steps[i].blob] + Run(steps[i + 1..]).0, Run(steps[i + 1..]).1)
    ensures !steps[i].Sent? ==> Run(steps[i..]) == ([], StopAt(steps[i]))
  {
    assert steps[i..][0] == steps[i];
    assert steps[i..][1..] == steps[i + 1..];
  }

  /** The body of the loop for one attachment: the name check, then the
      upload. */
  method CheckAndUpload(att: Attachment, resp: Response) returns (step: Step)
    ensures step == StepOf(att, resp)
  {
    var attachmentName := att.filename;
    if !Assets.ValidateFilename(attachmentName) {
      return BadName;
    }
    var isUploaded := UploadToCloud(resp, attachmentName);
    match isUploaded
    case NotUploaded => step := NotSent(attachmentName);
    case Raised(e) => step := Raise(e);
    case Uploaded(b) => step := Sent(b);
  }

  /** The run of all steps, split after the `i` steps that uploaded
      `uploaded`: the loop's invariant. */
  predicate RunFrom(steps: seq<Step>, i: nat, uploaded: seq<Assets.Blob>)
    requires i <= |steps|
  {
    Run(steps) == (uploaded + Run(steps[i..]).0, Run(steps[i..]).1)
  }

  /** Before the first step, the rest of the run is the whole run. */
  lemma RunFromStart(steps: seq<Step>)
    ensures RunFrom(steps, 0, [])
  {
    assert steps[0..] == steps && [] + Run(steps).0 == Run(steps).0;
  }

  /** An upload moves the split one step on. */
  lemma RunFromSent(steps: seq<Step>, i: nat, uploaded: seq<Assets.Blob>)
    requires i < |steps| && steps[i].Sent? && RunFrom(steps, i, uploaded)
    ensures RunFrom(steps, i + 1, uploaded + [steps[i].blob])
  {
    RunStep(steps, i);
    var rest := Run(steps[i + 1..]).0;
    assert uploaded + ([steps[i].blob] + rest) == (uploaded + [steps[i].blob]) + rest;
  }

  /** A step that is not an upload ends the run there. */
  lemma RunFromStopped(steps: seq<Step>, i: nat, uploaded: seq<Assets.Blob>)
    requires i < |steps| && !steps[i].Sent? && RunFrom(steps, i, uploaded)
    ensures Run(steps) == (uploaded, StopAt(steps[i]))
  {
    RunStep(steps, i);
    assert uploaded + [] == uploaded;
  }

  /** After the last step the run has uploaded everything. */
  lemma RunFromEnd(steps: seq<Step>, uploaded: seq<Assets.Blob>)
    requires RunFrom(steps, |steps|, uploaded)
    ensures Run(steps) == (uploaded, AllUploaded)
  {
    assert steps[|steps|..] == [] && uploaded + [] == uploaded;
  }

  /** The steps are those of the attachments, stated with the step as its
      trigger. */
  lemma StepsAll(atts: seq<Attachment>, resps: seq<Response>)
    requires |atts| == |resps|
    ensures forall k {:trigger StepOf(atts[k], resps[k])} :: 0 <= k < |atts| ==>
              Steps(atts, resps)[k] == StepOf(atts[k], resps[k])
  {
    forall k | 0 <= k < |atts|
      ensures Steps(atts, resps)[k] == StepOf(atts[k], resps[k])
    {
      StepsAt(atts, resps, k);
    }
  }

  /** The attachment loop of `upload_file`, which takes the `steps` of the
      attachments: the blobs uploaded before the loop ended, and why it
      ended. */
  method UploadAttachments(atts: seq<Attachment>, resps: seq<Response>, ghost steps: seq<Step>)
    returns (uploaded: seq<Assets.Blob>, stop: Stop)
    requires |atts| == |resps| == |steps|
    requires forall k {:trigger StepOf(atts[k], resps[k])} :: 0 <= k < |atts| ==> steps[k] == StepOf(atts[k], resps[k])
    ensures (uploaded, stop) == Run(steps)
  {
    uploaded := [];
    var i := 0;
    RunFromStart(steps);
    while i < |atts|
      invariant 0 <= i <= |atts| && RunFrom(steps, i, uploaded)
    {
      var step := CheckAndUpload(atts[i], resps[i]);
      assert step == steps[i];
      if !step.Sent? {
        RunFromStopped(steps, i, uploaded);
        return uploaded, StopAt(step);
      }
      RunFromSent(steps, i, uploaded);
      uploaded := uploaded + [step.blob];
      i := i + 1;
    }
    RunFromEnd(steps, uploaded);
    stop := AllUploaded;
  }

  /** `upload_file`: the blobs uploaded, in attachment order, then the
      reply; it stops at the first invalid name or failed upload, and the
      uploads before it stay. */
  method UploadFile(mention: string, atts: seq<Attachment>, resps: seq<Response>)
    returns (uploaded: seq<Assets.Blob>, reply: Option<string>, raised: bool)
    requires |atts| == |resps|
    ensures |atts| == 0 ==> uploaded == [] && reply == Some(Log.CtxError(mention, "File is not there. What happened?")) && !raised
    ensures |atts| > 0 ==> (uploaded == UploadRun(atts, resps).0
                            && reply == UploadReply(mention, UploadRun(atts, resps).1)
                            && (raised <==> UploadRun(atts, resps).1.UploadRaised?))
  {
    if |atts| == 0 {
      return [], Some(Log.CtxError(mention, "File is not there. What happened?")), false;
    }
    StepsAll(atts, resps);
    var stop;
    uploaded, stop := UploadAttachments(atts, resps, Steps(atts, resps));
    reply := UploadReply(mention, stop);
    raised := stop.UploadRaised?;
  }
}
