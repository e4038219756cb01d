/** The module-level settings of config.py, as one function from the
    environment variables and the parsed "config.ini" table to either the
    settings or the error that stops the program at import time. The
    statements run top to bottom, so the first failing check decides the
    error. */
module Config {
  import opened Wrappers
  import opened Strings
  import opened ConfigParser

  /** The environment variables read with `os.getenv`; None when unset. */
  datatype Env = Env(token: Option<string>, guild: Option<string>, botEnv: Option<string>)

  /** Why importing config.py fails. */
  datatype Fatal =
    | MissingTokenOrGuild       // the Exception at config.py:14-16
    | NotAnInteger(option: string)  // int() of None or of a non-numeral
    | AdminRoleMissing          // ADMIN_ROLE == 0
    | UnknownTimezone(region: string)
    | MissingGreetingClip
    | MissingGreetingUserIds    // None.replace
    | MissingExcludedCogs       // None.strip

  datatype Settings = Settings(
    token: string,
    guild: string,
    adminRole: int,
    staffRole: int,
    botEnv: Option<string>,
    botSettingsPath: Option<string>,
    twitchUsersPath: Option<string>,
    timezoneRegion: string,
    greetingOn: bool,
    greetingClipPath: Option<string>,
    greetingUserIds: seq<string>,
    excludedCogs: seq<string>,
    botDesc: string,
    memberJoinsMsg: string,
    statusMsg: string)

  const ProjCachePath: string := "./.proj_cache"
  const DiscordCogsPath: string := "./src/cogs"

  predicate Truthy(s: Option<string>) {
    s.Some? && s.value != ""
  }

  /** `get_bot_value(option) or default`. */
  function BotValueOr(t: Table, option: string, default: string): (r: string)
    ensures Lookup(t, "bot", option).Some? ==> r == t["bot"][option]
    ensures Lookup(t, "bot", option).None? ==> r == default
  {
    match Lookup(t, "bot", option)
    case Some(v) => v
    case None => default
  }

  predicate AllDigits(s: string) {
    forall i :: 0 <= i < |s| ==> IsDigit(s[i])
  }

  /** Python's `int(s)` on a decimal numeral: surrounding whitespace, an
      optional sign, then at least one digit. */
  function ParseInt(s: string): (r: Option<int>)
    ensures r.Some? ==> |Strip(s)| > 0
  {
    var t := Strip(s);
    if |t| == 0 then None
    else
      var neg := t[0] == '-';
      var body := if t[0] == '-' || t[0] == '+' then t[1..] else t;
      if |body| == 0 || !AllDigits(body) then None
      else if neg then Some(-(DigitsValue(body) as int))
      else Some(DigitsValue(body) as int)
  }

  /** A string that neither starts nor ends with whitespace strips to
      itself. */
  lemma StripUnchanged(s: string)
    requires |s| > 0 && !IsSpace(s[0]) && !IsSpace(s[|s| - 1])
    ensures Strip(s) == s
  {
  }

  /** A non-empty run of digits reads as its value. */
  lemma ParseDigits(d: string)
    requires |d| > 0 && AllDigits(d)
    ensures ParseInt(d) == Some(DigitsValue(d) as int)
  {
    assert IsDigit(d[0]) && IsDigit(d[|d| - 1]);
    StripUnchanged(d);
  }

  /** The same run after a minus sign reads as the negated value. */
  lemma ParseNegativeDigits(d: string)
    requires |d| > 0 && AllDigits(d)
    ensures ParseInt("-" + d) == Some(-(DigitsValue(d) as int))
  {
    var m := "-" + d;
    assert m[0] == '-' && !IsSpace('-');
    assert m[1..] == d;
    assert m[|m| - 1] == d[|d| - 1];
    assert IsDigit(d[|d| - 1]);
    StripUnchanged(m);
    assert Strip(m) == m;
  }

  /** `int(str(n)) == n`, and with a minus sign `int("-" + str(n)) == -n`. */
  lemma ParseIntRoundTrip(n: nat)
    ensures ParseInt(NatToString(n)) == Some(n as int)
    ensures ParseInt("-" + NatToString(n)) == Some(-(n as int))
  {
    DigitsRoundTrip(n);
    ParseDigits(NatToString(n));
    ParseNegativeDigits(NatToString(n));
  }

  /** `int(get_bot_value(option))`: a missing or empty value is None, which
      `int` rejects. */
  function RoleValue(t: Table, option: string): (r: Result<int, Fatal>)
    ensures r.Err? ==> r.error == NotAnInteger(option)
    ensures Lookup(t, "bot", option).None? ==> r.Err?
  {
    match Lookup(t, "bot", option)
    case None => Err(NotAnInteger(option))
    case Some(v) =>
      match ParseInt(v)
      case Some(n) => Ok(n)
      case None => Err(NotAnInteger(option))
  }

  /** The settings derivation, statement by statement. */
  function Derive(env: Env, t: Table, knownZone: string -> bool): (r: Result<Settings, Fatal>)
    ensures (!Truthy(env.token) || !Truthy(env.guild)) <==> r == Err(MissingTokenOrGuild)
    ensures r.Ok? ==> r.value.adminRole != 0 && r.value.staffRole != 0
    ensures r.Ok? ==> RoleValue(t, "admin_role") == Ok(r.value.adminRole)
    ensures r.Ok? ==> RoleValue(t, "staff_role").Ok?
                      && r.value.staffRole
                         == if RoleValue(t, "staff_role").value == 0 then r.value.adminRole
                            else RoleValue(t, "staff_role").value
    ensures r.Ok? ==> r.value.greetingOn == Lookup(t, "bot", "greeting_on").Some?
    ensures r.Ok? && r.value.greetingOn ==> r.value.greetingClipPath.Some?
    ensures r.Ok? ==> |r.value.greetingUserIds| > 0 && |r.value.excludedCogs| > 0
    ensures r.Ok? ==> Lookup(t, "bot", "greeting_user_ids").Some?
                      && r.value.greetingUserIds == Split(ReplaceAll(Lookup(t, "bot", "greeting_user_ids").value, " ", ""), ',')
    ensures r.Ok? ==> r.value.timezoneRegion == BotValueOr(t, "timezone", "US/Pacific")
                      && knownZone(r.value.timezoneRegion)
    ensures Lookup(t, "bot", "greeting_user_ids").None? ==> r.Err?
    ensures Lookup(t, "bot", "excluded_cogs").None? ==> r.Err?
    ensures r.Ok? ==> Lookup(t, "bot", "excluded_cogs").Some?
                      && r.value.excludedCogs == Split(Strip(Lookup(t, "bot", "excluded_cogs").value), ',')
    ensures r.Ok? ==> r.value.greetingClipPath == Lookup(t, "bot", "greeting_clip_path")
    ensures r.Ok? ==> r.value.token == env.token.value && r.value.guild == env.guild.value
                      && r.value.botEnv == env.botEnv
                      && r.value.botSettingsPath == Lookup(t, "bot_db", "bot_settings")
                      && r.value.twitchUsersPath == Lookup(t, "bot_db", "twitch_users")
    ensures r.Ok? ==> r.value.botDesc == BotValueOr(t, "description", "My amazing bot")
                      && r.value.memberJoinsMsg == BotValueOr(t, "member_joins_msg!", "Hello World!")
                      && r.value.statusMsg == BotValueOr(t, "status_msg", "Welcome!")
  {
    if !Truthy(env.token) || !Truthy(env.guild) then Err(MissingTokenOrGuild)
    else match RoleValue(t, "admin_role")
    case Err(e) => Err(e)
    case Ok(adminRole) =>
      match RoleValue(t, "staff_role")
      case Err(e) => Err(e)
      case Ok(staff) =>
        if adminRole == 0 then Err(AdminRoleMissing)
        else
          var staffRole := if staff == 0 then adminRole else staff;
          var region := BotValueOr(t, "timezone", "US/Pacific");
          if !knownZone(region) then Err(UnknownTimezone(region))
          else
            var greetingOn := Lookup(t, "bot", "greeting_on").Some?;
            var clip := Lookup(t, "bot", "greeting_clip_path");
            if greetingOn && clip.None? then Err(MissingGreetingClip)
            else match Lookup(t, "bot", "greeting_user_ids")
            case None => Err(MissingGreetingUserIds)
            case Some(ids) =>
              var userIds := Split(ReplaceAll(ids, " ", ""), ',');
              match Lookup(t, "bot", "excluded_cogs")
              case None => Err(MissingExcludedCogs)
              case Some(cogs) =>
                Ok(Settings(
                  env.token.value, env.guild.value, adminRole, staffRole, env.botEnv,
                  Lookup(t, "bot_db", "bot_settings"), Lookup(t, "bot_db", "twitch_users"),
                  region, greetingOn, clip, userIds, Split(Strip(cogs), ','),
                  BotValueOr(t, "description", "My amazing bot"),
                  BotValueOr(t, "member_joins_msg!", "Hello World!"),
                  BotValueOr(t, "status_msg", "Welcome!")))
  }

  /** An admin role of 0 stops the program once both roles have been read. */
  lemma AdminRoleZeroIsFatal(env: Env, t: Table, knownZone: string -> bool)
    requires Truthy(env.token) && Truthy(env.guild)
    requires RoleValue(t, "admin_role") == Ok(0) && RoleValue(t, "staff_role").Ok?
    ensures Derive(env, t, knownZone) == Err(AdminRoleMissing)
  {
  }

  /** Greeting on without a clip path stops the program. */
  lemma GreetingWithoutClipIsFatal(env: Env, t: Table, knownZone: string -> bool)
    requires Truthy(env.token) && Truthy(env.guild)
    requires RoleValue(t, "admin_role").Ok? && RoleValue(t, "admin_role").value != 0
    requires RoleValue(t, "staff_role").Ok?
    requires knownZone(BotValueOr(t, "timezone", "US/Pacific"))
    requires Lookup(t, "bot", "greeting_on").Some? && Lookup(t, "bot", "greeting_clip_path").None?
    ensures Derive(env, t, knownZone) == Err(MissingGreetingClip)
  {
  }

  /** The greeting flag is any non-empty string, "False" included. */
  lemma GreetingFlagIsPresence(env: Env, t: Table, knownZone: string -> bool)
    requires "bot" in t && "greeting_on" in t["bot"] && t["bot"]["greeting_on"] == "False"
    requires Derive(env, t, knownZone).Ok?
    ensures Derive(env, t, knownZone).value.greetingOn
  {
  }

  /** Greeting ids lose every space and are split on ','. */
  lemma GreetingIdsHaveNoSpaces(env: Env, t: Table, knownZone: string -> bool)
    requires Derive(env, t, knownZone).Ok?
    ensures var ids := Derive(env, t, knownZone).value.greetingUserIds;
      forall i :: 0 <= i < |ids| ==> ' ' !in ids[i] && ',' !in ids[i]
  {
    var raw := Lookup(t, "bot", "greeting_user_ids").value;
    var squeezed := ReplaceAll(raw, " ", "");
    RemoveCharGone(raw, ' ');
    SplitPieces(squeezed, ',');
    assert forall i :: 0 <= i < |Split(squeezed, ',')| ==> forall c :: c in Split(squeezed, ',')[i] ==> c in squeezed by {
      SplitJoinMembers(squeezed, ',');
    }
  }

  /** Every character of a piece occurs in the string split. */
  lemma SplitJoinMembers(s: string, c: char)
    ensures forall i :: 0 <= i < |Split(s, c)| ==> forall d :: d in Split(s, c)[i] ==> d in s
  {
    forall i | 0 <= i < |Split(s, c)|
      ensures forall d :: d in Split(s, c)[i] ==> d in s
    {
      PieceMembers(s, c, i);
    }
  }

  lemma {:induction false} PieceMembers(s: string, c: char, i: nat)
    requires i < |Split(s, c)|
    ensures forall d :: d in Split(s, c)[i] ==> d in s
    decreases |s|
  {
    if |s| > 0 {
      var rest := Split(s[1..], c);
      if s[0] == c {
        if i > 0 {
          PieceMembers(s[1..], c, i - 1);
        }
      } else if i == 0 {
        PieceMembers(s[1..], c, 0);
      } else {
        PieceMembers(s[1..], c, i);
      }
    }
  }

  lemma SplitExample()
    ensures Split("a, b", ',') == ["a", " b"]
  {
    assert Split("", ',') == [""];
    assert "b"[1..] == "" && ['b'] + "" == "b";
    assert Split("b", ',') == ["b"];
    assert " b"[1..] == "b" && [' '] + "b" == " b";
    assert Split(" b", ',') == [" b"];
    assert ", b"[1..] == " b";
    assert Split(", b", ',') == ["", " b"];
    assert "a, b"[1..] == ", b" && ['a'] + "" == "a";
  }

  /** Strip-then-split of "a, b": the space after the comma stays. */
  lemma StripSplitExample()
    ensures Split(Strip("a, b"), ',') == ["a", " b"]
  {
    assert !IsSpace('a') && !IsSpace('b');
    StripUnchanged("a, b");
    SplitExample();
  }

  /** Excluded cogs lose only the outer whitespace, so "a, b" yields " b". */
  lemma ExcludedCogsKeepInnerSpaces(env: Env, t: Table, knownZone: string -> bool)
    requires Lookup(t, "bot", "excluded_cogs") == Some("a, b")
    requires Derive(env, t, knownZone).Ok?
    ensures Derive(env, t, knownZone).value.excludedCogs == ["a", " b"]
  {
    StripSplitExample();
  }
}
