/** The formatting rules of log.py: the colour wrapping of `_ColoredFormatter`,
    the level threshold chosen from BOT_ENV, and the shapes of the messages
    the `Logger.CTX_*` helpers send to a user. */
module Log {
  import opened Wrappers
  import opened Strings

  /** The ANSI escape sequences of `_Color`. */
  const Red: string := "\U{1B}[91m"
  const Blue: string := "\U{1B}[94m"
  const Green: string := "\U{1B}[92m"
  const Yellow: string := "\U{1B}[93m"
  const Purple: string := "\U{1B}[95m"
  const Cyan: string := "\U{1B}[96m"
  const Grey: string := "\U{1B}[38;20m"
  const Reset: string := "\U{1B}[0m"

  /** `_ColoredFormatter.COLOR_CODE` */
  const ColorCode: map<string, string> := map[
    "DEBUG" := Grey,
    "INFO" := Green,
    "WARNING" := Yellow,
    "ERROR" := Red,
    "CRITICAL" := Red
  ]

  /** `COLOR_CODE.get(levelname, '')` */
  function ColorOf(levelName: string): (c: string)
    ensures levelName !in ColorCode ==> c == ""
    ensures levelName in ColorCode ==> c == ColorCode[levelName] && |c| > 0
  {
    if levelName in ColorCode then ColorCode[levelName] else ""
  }

  /** `format`: the colour code, the base-formatted message, the reset code. */
  function Format(levelName: string, message: string): (r: string)
    ensures StartsWith(r, ColorOf(levelName)) && EndsWith(r, Reset)
    ensures |r| == |ColorOf(levelName)| + |message| + |Reset|
  {
    ColorOf(levelName) + message + Reset
  }

  /** Removing the colour code and the reset code gives the message back. */
  lemma FormatUnwraps(levelName: string, message: string)
    ensures var r := Format(levelName, message);
      r[|ColorOf(levelName)|..|r| - |Reset|] == message
  {
    var c := ColorOf(levelName);
    var r := Format(levelName, message);
    assert r == c + message + Reset;
    assert r[|c|..|r| - |Reset|] == message;
  }

  /** An unknown level name gets no colour but keeps the reset code. */
  lemma UnknownLevelUncoloured(levelName: string, message: string)
    requires levelName !in ColorCode
    ensures Format(levelName, message) == message + Reset
  {
  }

  /** ERROR and CRITICAL share red; DEBUG, INFO and WARNING have codes of
      their own. */
  lemma LevelColours()
    ensures ColorOf("ERROR") == ColorOf("CRITICAL") == Red
    ensures ColorOf("DEBUG") != ColorOf("INFO") && ColorOf("DEBUG") != ColorOf("WARNING")
            && ColorOf("INFO") != ColorOf("WARNING")
    ensures forall l :: l in ["DEBUG", "INFO", "WARNING"] ==> ColorOf(l) != Red
  {
    assert Grey[2] != Green[2];
    assert Green[3] != Yellow[3];
    assert Green[3] != Red[3] && Yellow[3] != Red[3] && Grey[2] != Red[2];
  }

  /** The logging levels with their numeric values. */
  datatype Level = DEBUG | INFO | WARNING | ERROR | CRITICAL {
    function Value(): nat {
      match this
      case DEBUG => 10
      case INFO => 20
      case WARNING => 30
      case ERROR => 40
      case CRITICAL => 50
    }
  }

  /** `LOG_LVL`: everything in the "DEV" environment, only critical records
      otherwise. */
  function Threshold(botEnv: Option<string>): (l: Level)
    ensures l == DEBUG <==> botEnv == Some("DEV")
    ensures l != DEBUG ==> l == CRITICAL
  {
    if botEnv == Some("DEV") then DEBUG else CRITICAL
  }

  /** Whether a record of level `l` reaches the handler. */
  predicate Emitted(l: Level, threshold: Level) {
    l.Value() >= threshold.Value()
  }

  /** Outside "DEV" only CRITICAL records are emitted; in "DEV" all are. */
  lemma ThresholdFilters(botEnv: Option<string>, l: Level)
    ensures Emitted(l, Threshold(botEnv)) <==> (botEnv == Some("DEV") || l == CRITICAL)
  {
  }

  /** `CTX_ERROR` */
  function CtxError(mention: string, message: string): (r: string)
    ensures StartsWith(r, mention + ": ERROR: ") && r[|mention| + 9..] == message
  {
    mention + ": ERROR: " + message
  }

  /** `CTX_INFO` */
  function CtxInfo(mention: string, message: string): (r: string)
    ensures StartsWith(r, mention + ": ") && r[|mention| + 2..] == message
  {
    mention + ": " + message
  }

  /** `CTX_SUCCESS` */
  function CtxSuccess(mention: string, message: string): (r: string)
    ensures StartsWith(r, mention + ": SUCCESS: ") && r[|mention| + 11..] == message
  {
    mention + ": SUCCESS: " + message
  }

  /** For one user, different messages give different replies. */
  lemma CtxInjective(mention: string, a: string, b: string)
    ensures CtxError(mention, a) == CtxError(mention, b) ==> a == b
    ensures CtxInfo(mention, a) == CtxInfo(mention, b) ==> a == b
    ensures CtxSuccess(mention, a) == CtxSuccess(mention, b) ==> a == b
  {
  }

  /** An error reply is an informational reply whose message starts with
      "ERROR: ", so the two forms are not distinguishable by text alone. */
  lemma ErrorIsPrefixedInfo(mention: string, message: string)
    ensures CtxError(mention, message) == CtxInfo(mention, "ERROR: " + message)
  {
  }
}
