/** The decision rules of `CustomBot` in src/bot.py: choosing the command
    prefix from the settings read from the database (and creating a default
    one when that fails), the reply to a mention, the trigger of the voice
    greeting and the reply chosen by `on_command_error`. Discord and the
    database are outside the model: what they answer is an input, what the
    bot sends, writes or plays is a result. */
module Bot {
  import opened Wrappers
  import opened Strings
  import Helper
  import Log
  import Admin

  /** A record the bot writes to the log. */
  datatype LogLine = LogLine(level: Log.Level, message: string)

  // ---------------------------------------------------------------------
  // command prefix

  /** The settings read from the database: None when the path holds
      nothing; otherwise its (key, record) pairs in iteration order, each
      record given by its "cmd_prefix" field, None when `['cmd_prefix']`
      raises on it. */
  type Settings = Option<seq<(string, Option<string>)>>

  /** The prefix the `for` loop leaves behind when nothing raises: the
      field of the last key. None stands for every way the `try` fails:
      nothing to iterate, no key (so `prefix` is never bound) or a record
      without the field. */
  function PrefixOf(data: Settings): Option<string> {
    if data.None? || |data.value| == 0 then None
    else if exists k :: 0 <= k < |data.value| && data.value[k].1.None? then None
    else data.value[|data.value| - 1].1
  }

  /** `create_cmd_prefix`: what is pushed under the path, and what is
      logged; `addError` is the text of the exception `add` raises, if any.
      Nothing escapes: a failure only produces log lines. */
  datatype CreateOutcome = CreateOutcome(pushed: (string, string), logs: seq<LogLine>)

  function CreateCmdPrefix(path: string, cmdPrefix: string, addError: Option<string>): (o: CreateOutcome)
    ensures o.pushed == (path, cmdPrefix)
    ensures addError.None? ==> o.logs == [LogLine(Log.DEBUG, "Added " + cmdPrefix + " to the database!")]
    ensures addError.Some? ==> o.logs == [LogLine(Log.CRITICAL, "Could not create command prefix!"),
                                           LogLine(Log.CRITICAL, addError.value)]
  {
    if addError.None? then CreateOutcome((path, cmdPrefix), [LogLine(Log.DEBUG, "Added " + cmdPrefix + " to the database!")])
    else CreateOutcome((path, cmdPrefix), [LogLine(Log.CRITICAL, "Could not create command prefix!"),
                                           LogLine(Log.CRITICAL, addError.value)])
  }

  /** A failed creation is logged at CRITICAL, so it is emitted whatever
      BOT_ENV is; a successful one is a DEBUG record, emitted only in "DEV". */
  lemma CreateFailureAlwaysVisible(path: string, cmdPrefix: string, addError: Option<string>, botEnv: Option<string>)
    ensures var o := CreateCmdPrefix(path, cmdPrefix, addError);
      |o.logs| > 0
      && (addError.Some? ==> forall k :: 0 <= k < |o.logs| ==> Log.Emitted(o.logs[k].level, Log.Threshold(botEnv)))
      && (addError.None? ==> (Log.Emitted(o.logs[0].level, Log.Threshold(botEnv)) <==> botEnv == Some("DEV")))
  {
    Log.ThresholdFilters(botEnv, Log.CRITICAL);
    Log.ThresholdFilters(botEnv, Log.DEBUG);
  }

  /** The default prefix of the `except` branch. */
  const DefaultPrefix: string := ">"

  /** The loop of `get_cmd_prefix`: `prefix` is rebound at every key, and
      the first record without the field raises. */
  method ReadPrefix(data: seq<(string, Option<string>)>) returns (prefix: Option<string>)
    ensures prefix == PrefixOf(Some(data))
  {
    prefix := None;
    var i := 0;
    while i < |data|
      invariant 0 <= i <= |data|
      invariant forall k :: 0 <= k < i ==> data[k].1.Some?
      invariant prefix == if i == 0 then None else data[i - 1].1
    {
      if data[i].1.None? {
        return None;
      }
      prefix := data[i].1;
      i := i + 1;
    }
  }

  /** `get_cmd_prefix`: the prefix read, or '>' together with the default
      record `create_cmd_prefix` pushes. */
  method GetCmdPrefix(botSettingsPath: string, data: Settings, addError: Option<string>)
    returns (prefix: string, created: Option<CreateOutcome>)
    ensures PrefixOf(data).Some? ==> prefix == PrefixOf(data).value && created.None?
    ensures PrefixOf(data).None? ==>
              prefix == DefaultPrefix && created == Some(CreateCmdPrefix(botSettingsPath, DefaultPrefix, addError))
  {
    var read: Option<string> := None;
    if data.Some? {
      read := ReadPrefix(data.value);
    }
    if read.Some? {
      prefix, created := read.value, None;
    } else {
      prefix := DefaultPrefix;
      created := Some(CreateCmdPrefix(botSettingsPath, DefaultPrefix, addError));
    }
  }

  /** With every record holding the field, the prefix is the last key's. */
  lemma PrefixIsLastKeys(data: seq<(string, Option<string>)>)
    requires |data| > 0 && forall k :: 0 <= k < |data| ==> data[k].1.Some?
    ensures PrefixOf(Some(data)) == data[|data| - 1].1
  {
  }

  /** Any failure while reading gives the default: no data, no key, or one
      record without the field, wherever it is. */
  lemma ReadFailures(data: seq<(string, Option<string>)>, k: nat)
    ensures PrefixOf(None) == None && PrefixOf(Some([])) == None
    ensures k < |data| && data[k].1.None? ==> PrefixOf(Some(data)) == None
  {
  }

  /** `setprefix` writes the first key while the prefix is read from the
      last: with two records, the new prefix is written and the old one of
      the second record is still the one used. */
  lemma PrefixReadDisagreesWithWrite(mention: string, first: string, second: string, old1: string, old2: string,
                                     newPrefix: string)
    requires |newPrefix| == 1 && first != second
    ensures var o := Admin.ChangeCmdPrefix(mention, newPrefix, Some([first, second]));
      o.write == Some((first, newPrefix))
      && PrefixOf(Some([(first, Some(newPrefix)), (second, Some(old2))])) == Some(old2)
  {
  }

  /** Once a record lacks the field, every read fails, so every prefix
      lookup pushes one more default record: the defaults never repair the
      settings. */
  lemma BrokenRecordStaysBroken(data: seq<(string, Option<string>)>, k: nat, key: string)
    requires k < |data| && data[k].1.None?
    ensures PrefixOf(Some(data)) == None
    ensures PrefixOf(Some(data + [(key, Some(DefaultPrefix))])) == None
  {
    assert (data + [(key, Some(DefaultPrefix))])[k] == data[k];
  }

  // ---------------------------------------------------------------------
  // on_message

  /** What `on_message` does, in order. */
  datatype Action = SendText(text: string) | ProcessCommands

  /** How many times `me` is among the mentions. */
  function Count<U(==)>(xs: seq<U>, me: U): (n: nat)
    ensures n <= |xs|
  {
    if |xs| == 0 then 0 else Count(xs[..|xs| - 1], me) + (if xs[|xs| - 1] == me then 1 else 0)
  }

  /** A mention of the bot is counted, any other is not. */
  lemma {:induction false} CountMultiset<U>(xs: seq<U>, me: U)
    ensures Count(xs, me) == multiset(xs)[me]
    decreases |xs|
  {
    if |xs| > 0 {
      var n := |xs| - 1;
      CountMultiset(xs[..n], me);
      assert xs == xs[..n] + [xs[n]];
      assert multiset(xs) == multiset(xs[..n]) + multiset{xs[n]};
    }
  }

  /** `on_message`: "What?" once per mention of the bot, then the commands
      are processed whatever the message was. */
  method OnMessage<U(==)>(mentions: seq<U>, me: U) returns (actions: seq<Action>)
    ensures |actions| == multiset(mentions)[me] + 1
    ensures actions[|actions| - 1] == ProcessCommands
    ensures forall k :: 0 <= k < |actions| - 1 ==> actions[k] == SendText("What?")
  {
    actions := [];
    var i := 0;
    while i < |mentions|
      invariant 0 <= i <= |mentions|
      invariant |actions| == Count(mentions[..i], me)
      invariant forall k :: 0 <= k < |actions| ==> actions[k] == SendText("What?")
    {
      assert mentions[..i + 1][..i] == mentions[..i];
      if mentions[i] == me {
        actions := actions + [SendText("What?")];
      }
      i := i + 1;
    }
    assert mentions[..i] == mentions;
    CountMultiset(mentions, me);
    actions := actions + [ProcessCommands];
  }

  // ---------------------------------------------------------------------
  // on_voice_state_update

  /** The outcome of a voice-state change. `memberChannel` is
      `member.voice.channel`, None when reading it raises (it is then
      unbound, and using it raises); `clipAvailable` is whether
      `get_audio_file` found the clip. */
  datatype Greeting<C> =
    | GreetingOff                        // DEBUG "Not greeting anyone ..."
    | NotGreeted                         // nothing happens
    | ClipMissing(audioName: string)     // ERROR "Cannot play file `...`!"
    | ChannelUnbound                     // UnboundLocalError at the join
    | Played(channel: C, audioName: string)

  /** The trigger condition: the member came from no channel into one and
      is listed by the decimal string of the id. */
  predicate Joined<C>(before: Option<C>, after: Option<C>) {
    before.None? && after.Some?
  }

  function OnVoiceStateUpdate<C>(greetingOn: bool, clipPath: string, greetingUserIds: seq<string>,
                                 memberId: nat, memberChannel: Option<C>,
                                 before: Option<C>, after: Option<C>, clipAvailable: bool): (g: Greeting<C>)
    ensures g.GreetingOff? <==> !greetingOn || clipPath == ""
    ensures (g.ClipMissing? || g.ChannelUnbound? || g.Played?) <==>
              greetingOn && clipPath != "" && Joined(before, after) && NatToString(memberId) in greetingUserIds
    ensures g.ClipMissing? || g.Played? ==> g.audioName == Helper.GetName(clipPath)
    ensures g.Played? <==> (greetingOn && clipPath != "" && Joined(before, after)
                            && NatToString(memberId) in greetingUserIds && clipAvailable && memberChannel.Some?)
    ensures g.Played? ==> g.channel == memberChannel.value
  {
    if !greetingOn || clipPath == "" then GreetingOff
    else if !(Joined(before, after) && NatToString(memberId) in greetingUserIds) then NotGreeted
    else if !clipAvailable then ClipMissing(Helper.GetName(clipPath))
    else if memberChannel.None? then ChannelUnbound
    else Played(memberChannel.value, Helper.GetName(clipPath))
  }

  /** Moving between channels, or leaving, never greets: only a join does. */
  lemma GreetsOnlyOnJoin<C>(greetingUserIds: seq<string>, memberId: nat, memberChannel: Option<C>,
                            before: Option<C>, after: Option<C>, clipPath: string, clipAvailable: bool)
    requires before.Some? || after.None?
    ensures !OnVoiceStateUpdate(true, clipPath, greetingUserIds, memberId, memberChannel, before, after, clipAvailable).Played?
  {
  }

  /** An id listed with a leading zero never matches: `str` of an id has
      none, unless the id is 0. */
  lemma LeadingZeroIdIgnored<C>(memberId: nat, written: string, memberChannel: Option<C>, after: Option<C>)
    requires |written| > 1 && written[0] == '0'
    ensures !OnVoiceStateUpdate(true, "clip.mp3", [written], memberId, memberChannel, None, after, true).Played?
  {
  }

  // ---------------------------------------------------------------------
  // on_command_error

  /** The exception classes `on_command_error` tests, in the order of its
      branches. */
  datatype ErrorClass =
    | MissingPermissions | CommandOnCooldown | MissingRequiredArgument | TypeError | ValueError
    | HttpException | TimeoutError | TooManyArguments | BotMissingPermissions | NotOwner
    | MissingRole | CommandNotFound | CheckFailure | UserInputError

  /** An error: the classes it is an instance of (its class and its bases),
      its `str`, and `retry_after` as printed with one decimal. */
  datatype CommandError = CommandError(classes: set<ErrorClass>, text: string, retryAfter: string)

  /** The reply of the branch for class `c`. */
  function BranchReply(c: ErrorClass, author: string, e: CommandError): seq<string> {
    match c
    case MissingPermissions => [author + ": Sorry, you can't use this command. :)"]
    case CommandOnCooldown => [author + ": Wait " + e.retryAfter + " seconds before using the command again!"]
    case MissingRequiredArgument =>
      [author + ": Missing argument! That means you forgot to put one or more inputs after typing the command name!"]
    case TypeError => [Log.CtxError(author, "TypeError! Check your input(s), something is wrong with them.")]
    case ValueError => [Log.CtxError(author, "ValueError! Check your input(s), something is wrong with them.")]
    case HttpException => [Log.CtxError(author, "HTTP Exception! Here's the full output: "), Log.CtxError(author, e.text)]
    case TimeoutError => [author + ": Oops! Timeout error! Try again!"]
    case TooManyArguments => [author + ": You added too many things after the command!"]
    case BotMissingPermissions => [author + ": I need permission before I could do this!"]
    case NotOwner => [author + ": Sorry, you have to be the creator of this bot in order to use this command."]
    case MissingRole => [author + ": Sorry, you don't have the role for this command. Haha silver!"]
    case CommandNotFound => [author + ": I can't find any command with that name."]
    case CheckFailure => []
    case UserInputError => [author + ": There's an error with your input! Try again!"]
  }

  /** What `on_command_error` sends, and the one line it always logs. */
  datatype ErrorOutcome = ErrorOutcome(sent: seq<string>, logged: LogLine)

  /** The `if`/`elif` chain of `on_command_error`: the branch taken, None
      for the final `else`. */
  function Branch(cs: set<ErrorClass>): (b: Option<ErrorClass>)
    ensures b.Some? ==> b.value in cs
  {
    if MissingPermissions in cs then Some(MissingPermissions)
    else if CommandOnCooldown in cs then Some(CommandOnCooldown)
    else if MissingRequiredArgument in cs then Some(MissingRequiredArgument)
    else if TypeError in cs then Some(TypeError)
    else if ValueError in cs then Some(ValueError)
    else if HttpException in cs then Some(HttpException)
    else if TimeoutError in cs then Some(TimeoutError)
    else if TooManyArguments in cs then Some(TooManyArguments)
    else if BotMissingPermissions in cs then Some(BotMissingPermissions)
    else if NotOwner in cs then Some(NotOwner)
    else if MissingRole in cs then Some(MissingRole)
    else if CommandNotFound in cs then Some(CommandNotFound)
    else if CheckFailure in cs then Some(CheckFailure)
    else if UserInputError in cs then Some(UserInputError)
    else None
  }

  /** `on_command_error`: the taken branch's reply, the error's text for the
      final `else`, and the error logged in every case. */
  function OnCommandError(author: string, e: CommandError): (o: ErrorOutcome)
    ensures o.logged == LogLine(Log.ERROR, e.text)
    ensures Branch(e.classes).None? ==> o.sent == [e.text]
    ensures Branch(e.classes).Some? ==> o.sent == BranchReply(Branch(e.classes).value, author, e)
  {
    var sent := match Branch(e.classes)
      case None => [e.text]
      case Some(c) => BranchReply(c, author, e);
    ErrorOutcome(sent, LogLine(Log.ERROR, e.text))
  }

  /** The branches in source order. */
  const BranchOrder: seq<ErrorClass> := [
    MissingPermissions, CommandOnCooldown, MissingRequiredArgument, TypeError, ValueError,
    HttpException, TimeoutError, TooManyArguments, BotMissingPermissions, NotOwner,
    MissingRole, CommandNotFound, CheckFailure, UserInputError
  ]

  /** The first matching branch in source order decides. */
  lemma FirstMatchDecides(cs: set<ErrorClass>, i: nat)
    requires i < |BranchOrder| && BranchOrder[i] in cs
    requires forall k :: 0 <= k < i ==> BranchOrder[k] !in cs
    ensures Branch(cs) == Some(BranchOrder[i])
  {
    assert BranchOrder[0] == MissingPermissions && BranchOrder[1] == CommandOnCooldown
           && BranchOrder[2] == MissingRequiredArgument && BranchOrder[3] == TypeError
           && BranchOrder[4] == ValueError && BranchOrder[5] == HttpException
           && BranchOrder[6] == TimeoutError && BranchOrder[7] == TooManyArguments
           && BranchOrder[8] == BotMissingPermissions && BranchOrder[9] == NotOwner
           && BranchOrder[10] == MissingRole && BranchOrder[11] == CommandNotFound
           && BranchOrder[12] == CheckFailure && BranchOrder[13] == UserInputError;
    if i < 7 {
      if i == 0 {} else if i == 1 {} else if i == 2 {} else if i == 3 {} else if i == 4 {} else if i == 5 {} else {}
    } else {
      if i == 7 {} else if i == 8 {} else if i == 9 {} else if i == 10 {} else if i == 11 {} else if i == 12 {} else {}
    }
  }

  /** An error of none of the tested classes takes the final `else`. */
  lemma NoMatchEchoes(cs: set<ErrorClass>)
    requires forall k :: 0 <= k < |BranchOrder| ==> BranchOrder[k] !in cs
    ensures Branch(cs) == None
  {
    assert BranchOrder[0] == MissingPermissions && BranchOrder[1] == CommandOnCooldown
           && BranchOrder[2] == MissingRequiredArgument && BranchOrder[3] == TypeError
           && BranchOrder[4] == ValueError && BranchOrder[5] == HttpException
           && BranchOrder[6] == TimeoutError && BranchOrder[7] == TooManyArguments
           && BranchOrder[8] == BotMissingPermissions && BranchOrder[9] == NotOwner
           && BranchOrder[10] == MissingRole && BranchOrder[11] == CommandNotFound
           && BranchOrder[12] == CheckFailure && BranchOrder[13] == UserInputError;
  }

  /** A permission error is a check failure as well, and still gets its own
      reply: its branch comes first. */
  lemma OrderMatters(author: string, e: CommandError)
    requires e.classes == {MissingPermissions, CheckFailure}
    ensures OnCommandError(author, e).sent == [author + ": Sorry, you can't use this command. :)"]
  {
  }

  /** Any other check failure sends nothing; it is still logged. */
  lemma OtherCheckFailuresSilent(author: string, e: CommandError)
    requires CheckFailure in e.classes
    requires forall k :: 0 <= k < 12 ==> BranchOrder[k] !in e.classes
    ensures OnCommandError(author, e).sent == []
    ensures OnCommandError(author, e).logged == LogLine(Log.ERROR, e.text)
  {
    FirstMatchDecides(e.classes, 12);
  }

  /** An HTTP error sends two error replies: the heading and the error. */
  lemma HttpErrorSendsTwo(author: string, e: CommandError)
    requires HttpException in e.classes
    requires forall k :: 0 <= k < 5 ==> BranchOrder[k] !in e.classes
    ensures OnCommandError(author, e).sent
            == [Log.CtxError(author, "HTTP Exception! Here's the full output: "), Log.CtxError(author, e.text)]
  {
    FirstMatchDecides(e.classes, 5);
  }
}
