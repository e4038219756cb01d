/** `CustomConfigParser` of src/config_parser.py over an abstract section
    table: section name to option name to raw string. Reading and parsing
    the file are not modelled; the constructor receives the parsed table. */
module ConfigParser {
  import opened Wrappers

  type Table = map<string, map<string, string>>

  /** `_get_value` on a table: None for a missing section, a missing option
      or an empty value, the raw string otherwise. */
  function Lookup(t: Table, section: string, option: string): (r: Option<string>)
    ensures r.None? <==> (section !in t || option !in t[section] || t[section][option] == "")
    ensures r.Some? ==> r.value == t[section][option]
  {
    if section in t && option in t[section] && t[section][option] != "" then Some(t[section][option])
    else None
  }

  /** `_set_value` on a table: the section is created when absent and the
      option set in it. */
  function Store(t: Table, section: string, option: string, value: string): (r: Table)
    ensures r.Keys == t.Keys + {section}
    ensures option in r[section] && r[section][option] == value
    ensures forall s :: s in t && s != section ==> r[s] == t[s]
    ensures section in t ==> forall o :: o in t[section] && o != option ==> o in r[section] && r[section][o] == t[section][o]
    ensures r[section].Keys == (if section in t then t[section].Keys else {}) + {option}
  {
    var options := if section in t then t[section] else map[];
    t[section := options[option := value]]
  }

  /** Reading back a non-empty value gives it. */
  lemma SetThenGet(t: Table, section: string, option: string, value: string)
    requires value != ""
    ensures Lookup(Store(t, section, option, value), section, option) == Some(value)
  {
  }

  /** Setting an empty value makes the option read as None. */
  lemma SetEmptyReadsNone(t: Table, section: string, option: string)
    ensures Lookup(Store(t, section, option, ""), section, option) == None
  {
  }

  /** Every other (section, option) reads as before. */
  lemma SetKeepsOthers(t: Table, section: string, option: string, value: string, s: string, o: string)
    requires (s, o) != (section, option)
    ensures Lookup(Store(t, section, option, value), s, o) == Lookup(t, s, o)
  {
    var r := Store(t, section, option, value);
    if s == section {
      assert o != option;
      if section !in t {
        assert o !in r[s];
      }
    }
  }

  class CustomConfigParser {
    var sections: Table

    constructor (parsed: Table)
      ensures sections == parsed
    {
      sections := parsed;
    }

    /** `_get_value` */
    function GetValue(section: string, option: string): (r: Option<string>)
      reads this
      ensures r.None? <==> (section !in sections || option !in sections[section] || sections[section][option] == "")
      ensures r.Some? ==> r.value == sections[section][option]
    {
      Lookup(sections, section, option)
    }

    /** `_set_value`: values are kept as raw strings. */
    method SetValue(section: string, option: string, value: string)
      modifies this
      ensures sections == Store(old(sections), section, option, value)
      ensures value != "" ==> GetValue(section, option) == Some(value)
      ensures forall s, o :: (s, o) != (section, option) ==> GetValue(s, o) == Lookup(old(sections), s, o)
    {
      sections := Store(sections, section, option, value);
      if value != "" {
        SetThenGet(old(sections), section, option, value);
      }
      forall s, o | (s, o) != (section, option)
        ensures Lookup(sections, s, o) == Lookup(old(sections), s, o)
      {
        SetKeepsOthers(old(sections), section, option, value, s, o);
      }
    }

    /** `get_bot_value` */
    function GetBotValue(option: string): (r: Option<string>)
      reads this
      ensures r.None? <==> ("bot" !in sections || option !in sections["bot"] || sections["bot"][option] == "")
      ensures r.Some? ==> r.value == sections["bot"][option]
    {
      GetValue("bot", option)
    }

    /** `get_bot_db_value` */
    function GetBotDbValue(option: string): (r: Option<string>)
      reads this
      ensures r.None? <==> ("bot_db" !in sections || option !in sections["bot_db"] || sections["bot_db"][option] == "")
      ensures r.Some? ==> r.value == sections["bot_db"][option]
    {
      GetValue("bot_db", option)
    }
  }

  /** Values are not interpreted: "False" reads as the string "False". */
  lemma RawStrings(t: Table)
    requires "bot" in t && "greeting" in t["bot"] && t["bot"]["greeting"] == "False"
    ensures Lookup(t, "bot", "greeting") == Some("False")
  {
  }
}
