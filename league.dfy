/** The per-match record building and the totals of `League.matches` in
    src/cogs/league.py, the role table, and the language search of
    `_get_language`. The Riot API answers (the player's PUUID, the match
    data, the language list) are inputs; the date and ratio formatting,
    which go through floats and the clock's time zone, are parameters. */
module League {
  import opened Wrappers
  import opened Strings
  import opened Helper
  import Log

  /** `PLAYER_ROLE_MAP`: (lane, role) to the player's position. */
  const PlayerRoleMap: map<(string, string), string> := map[
    ("MIDDLE", "SOLO") := "Middle",
    ("TOP", "SOLO") := "Top",
    ("JUNGLE", "NONE") := "Jungle",
    ("BOTTOM", "CARRY") := "ADC",
    ("BOTTOM", "SUPPORT") := "Support"
  ]

  /** The role a record gets: 'N/A' unless the pair is mapped. */
  function PlayerRole(lane: string, role: string): (r: string)
    ensures (lane, role) in PlayerRoleMap ==> r == PlayerRoleMap[(lane, role)]
    ensures (lane, role) !in PlayerRoleMap ==> r == "N/A"
  {
    if (lane, role) in PlayerRoleMap then PlayerRoleMap[(lane, role)] else "N/A"
  }

  /** The role table written out pair by pair. */
  lemma RoleTable(lane: string, role: string)
    ensures PlayerRole(lane, role)
            == if (lane, role) == ("MIDDLE", "SOLO") then "Middle"
               else if (lane, role) == ("TOP", "SOLO") then "Top"
               else if (lane, role) == ("JUNGLE", "NONE") then "Jungle"
               else if (lane, role) == ("BOTTOM", "CARRY") then "ADC"
               else if (lane, role) == ("BOTTOM", "SUPPORT") then "Support"
               else "N/A"
  {
  }

  /** The commented-out pairs are not mapped: a bottom-lane duo is 'N/A'. */
  lemma BottomDuoUnmapped()
    ensures PlayerRole("BOTTOM", "DUO") == "N/A"
    ensures PlayerRole("BOTTOM", "DUO_SUPPORT") == "N/A"
  {
  }

  /** One participant of a match, with the fields the command reads;
      `puuid` is None when the entry has no "puuid" key. */
  datatype Participant = Participant(
    puuid: Option<string>,
    championName: string,
    kills: nat,
    deaths: nat,
    assists: nat,
    win: bool,
    lane: string,
    role: string)

  /** The "info" part of a match: its participants and its creation time in
      milliseconds. */
  datatype Match = Match(participants: seq<Participant>, gameCreation: int)

  /** The dictionary built per match (`tmp`), without the rounded KDA. */
  datatype MatchRecord = MatchRecord(
    championName: string,
    kills: nat,
    assists: nat,
    deaths: nat,
    win: bool,
    role: string,
    date: int)

  /** The `next(...)` over the participants: the index of the first one
      whose puuid is the player's. */
  function FindPlayer(ps: seq<Participant>, puuid: string): (r: Option<nat>)
    ensures r.None? <==> forall i :: 0 <= i < |ps| ==> ps[i].puuid != Some(puuid)
    ensures r.Some? ==> r.value < |ps| && ps[r.value].puuid == Some(puuid)
                        && forall j :: 0 <= j < r.value ==> ps[j].puuid != Some(puuid)
    decreases |ps|
  {
    if |ps| == 0 then None
    else if ps[0].puuid == Some(puuid) then Some(0)
    else match FindPlayer(ps[1..], puuid)
      case None => None
      case Some(k) => Some(k + 1)
  }

  /** The record of one match for the chosen participant. */
  function RecordOf(p: Participant, m: Match): (r: MatchRecord)
    ensures r.role == PlayerRole(p.lane, p.role) && r.date == m.gameCreation
    ensures (r.championName, r.kills, r.deaths, r.assists, r.win)
            == (p.championName, p.kills, p.deaths, p.assists, p.win)
  {
    MatchRecord(p.championName, p.kills, p.assists, p.deaths, p.win, PlayerRole(p.lane, p.role),
                m.gameCreation)
  }

  /** Why building the records stops: indexing the missing participant
      (None) of the match at this position. */
  datatype BuildError = PlayerNotFound(matchIndex: nat)

  /** The records of the first loop of `matches`, or the failure at the
      first match without the player. */
  function Records(games: seq<Match>, puuid: string): (r: Result<seq<MatchRecord>, BuildError>)
    ensures r.Ok? ==> |r.value| == |games|
    ensures r.Err? ==> r.error.matchIndex < |games|
    decreases |games|
  {
    if |games| == 0 then Ok([])
    else
      var n := |games| - 1;
      var prefix := games[..n];
      var front := Records(prefix, puuid);
      var found := FindPlayer(games[n].participants, puuid);
      if front.Err? then front
      else if found.None? then Err(PlayerNotFound(n))
      else Ok(front.value + [RecordOf(games[n].participants[found.value], games[n])])
  }

  /** Records that build found the player in every match. */
  lemma {:induction false} RecordsOkAll(games: seq<Match>, puuid: string)
    ensures Records(games, puuid).Ok? ==>
              forall i :: 0 <= i < |games| ==> FindPlayer(games[i].participants, puuid).Some?
    decreases |games|
  {
    if |games| > 0 && Records(games, puuid).Ok? {
      var n := |games| - 1;
      var prefix := games[..n];
      RecordsOkAll(prefix, puuid);
      forall j | 0 <= j < |games|
        ensures FindPlayer(games[j].participants, puuid).Some?
      {
        if j < n {
          assert prefix[j] == games[j];
        }
      }
    }
  }

  /** A player found in every match makes the records build. */
  lemma {:induction false} RecordsAllOk(games: seq<Match>, puuid: string)
    requires forall i :: 0 <= i < |games| ==> FindPlayer(games[i].participants, puuid).Some?
    ensures Records(games, puuid).Ok?
    decreases |games|
  {
    if |games| > 0 {
      var n := |games| - 1;
      var prefix := games[..n];
      forall j | 0 <= j < n
        ensures FindPlayer(prefix[j].participants, puuid).Some?
      {
        assert prefix[j] == games[j];
      }
      RecordsAllOk(prefix, puuid);
    }
  }

  /** Each record is the first matching participant's, in match-list order. */
  lemma {:induction false} RecordsInOrder(games: seq<Match>, puuid: string)
    requires Records(games, puuid).Ok?
    ensures forall i :: 0 <= i < |games| ==>
              FindPlayer(games[i].participants, puuid).Some?
              && Records(games, puuid).value[i]
                 == RecordOf(games[i].participants[FindPlayer(games[i].participants, puuid).value], games[i])
    decreases |games|
  {
    RecordsOkAll(games, puuid);
    if |games| > 0 {
      var n := |games| - 1;
      var prefix := games[..n];
      RecordsInOrder(prefix, puuid);
      var front := Records(prefix, puuid).value;
      RecordsStep(games, puuid, n, front);
      assert games[..n + 1] == games;
      var whole := Records(games, puuid).value;
      forall i | 0 <= i < |games|
        ensures whole[i] == RecordOf(games[i].participants[FindPlayer(games[i].participants, puuid).value], games[i])
      {
        if i < n {
          assert whole[i] == front[i] && prefix[i] == games[i];
          assert front[i] == RecordOf(prefix[i].participants[FindPlayer(prefix[i].participants, puuid).value], prefix[i]);
        } else {
          assert i == n && whole[n] == RecordOf(games[n].participants[FindPlayer(games[n].participants, puuid).value], games[n]);
        }
      }
    }
  }

  /** A failure names the first match without the player. */
  lemma {:induction false} RecordsFirstFailure(games: seq<Match>, puuid: string)
    requires Records(games, puuid).Err?
    ensures var m := Records(games, puuid).error.matchIndex;
            m < |games| && FindPlayer(games[m].participants, puuid).None?
            && forall j :: 0 <= j < m ==> FindPlayer(games[j].participants, puuid).Some?
    decreases |games|
  {
    var n := |games| - 1;
    var prefix := games[..n];
    var front := Records(prefix, puuid);
    if front.Err? {
      RecordsFirstFailure(prefix, puuid);
      var m := front.error.matchIndex;
      assert Records(games, puuid) == front;
      assert prefix[m] == games[m];
      forall j | 0 <= j < m
        ensures FindPlayer(games[j].participants, puuid).Some?
      {
        assert prefix[j] == games[j];
      }
    } else {
      RecordsOkAll(prefix, puuid);
      forall j | 0 <= j < n
        ensures FindPlayer(games[j].participants, puuid).Some?
      {
        assert prefix[j] == games[j];
      }
    }
  }

  /** The first match without the player decides the failure. */
  lemma RecordsFailAt(games: seq<Match>, puuid: string, i: nat)
    requires i < |games| && Records(games[..i], puuid).Ok?
    requires FindPlayer(games[i].participants, puuid).None?
    ensures Records(games, puuid) == Err(PlayerNotFound(i))
  {
    var prefix := games[..i];
    RecordsOkAll(prefix, puuid);
    RecordsOkAll(games, puuid);
    RecordsFirstFailure(games, puuid);
    forall j | 0 <= j < i
      ensures FindPlayer(games[j].participants, puuid).Some?
    {
      assert prefix[j] == games[j];
    }
    var k := Records(games, puuid).error.matchIndex;
    assert !(k < i) by {
      assert FindPlayer(games[k].participants, puuid).None?;
    }
    assert !(i < k);
  }

  /** A found player extends the records by that match's. */
  lemma RecordsStep(games: seq<Match>, puuid: string, i: nat, acc: seq<MatchRecord>)
    requires i < |games| && Records(games[..i], puuid) == Ok(acc)
    requires FindPlayer(games[i].participants, puuid).Some?
    ensures Records(games[..i + 1], puuid)
            == Ok(acc + [RecordOf(games[i].participants[FindPlayer(games[i].participants, puuid).value], games[i])])
  {
    assert games[..i + 1][..i] == games[..i];
  }

  /** The first loop of `matches`: one record per match, in order. */
  method BuildRecords(games: seq<Match>, puuid: string) returns (data: Result<seq<MatchRecord>, BuildError>)
    ensures data == Records(games, puuid)
  {
    var acc: seq<MatchRecord> := [];
    var i := 0;
    while i < |games|
      invariant 0 <= i <= |games|
      invariant Records(games[..i], puuid) == Ok(acc)
    {
      var playerData := FindPlayer(games[i].participants, puuid);
      if playerData.None? {
        RecordsFailAt(games, puuid, i);
        return Err(PlayerNotFound(i));
      }
      RecordsStep(games, puuid, i, acc);
      var tmp := RecordOf(games[i].participants[playerData.value], games[i]);
      acc := acc + [tmp];
      i := i + 1;
    }
    assert games[..i] == games;
    data := Ok(acc);
  }

  /** The block of text for the match numbered `count`. */
  function Block(count: nat, m: MatchRecord, formatDate: int -> string): (r: string)
    ensures StartsWith(r, "\n\nMatch #" + NatToString(count) + " \U{2014} Date: ")
  {
    "\n\nMatch #" + NatToString(count) + " \U{2014} Date: " + formatDate(m.date)
    + "\nChampion: " + m.championName
    + "\nKills: " + NatToString(m.kills)
    + "\nDeaths: " + NatToString(m.deaths)
    + "\nAssists: " + NatToString(m.assists)
    + "\nRole: " + m.role
  }

  /** `player_stats`: the blocks numbered 1..n in order. */
  function StatsText(data: seq<MatchRecord>, formatDate: int -> string): string
    decreases |data|
  {
    if |data| == 0 then ""
    else StatsText(data[..|data| - 1], formatDate) + Block(|data|, data[|data| - 1], formatDate)
  }

  /** The text starts with the block numbered 1 of the first match. */
  lemma {:induction false} StatsTextStartsAtOne(data: seq<MatchRecord>, formatDate: int -> string)
    requires |data| > 0
    ensures StartsWith(StatsText(data, formatDate), Block(1, data[0], formatDate))
    decreases |data|
  {
    var n := |data| - 1;
    if n > 0 {
      assert data[..n][0] == data[0];
      StatsTextStartsAtOne(data[..n], formatDate);
      var front := StatsText(data[..n], formatDate);
      var b := Block(1, data[0], formatDate);
      assert (front + Block(|data|, data[n], formatDate))[..|b|] == front[..|b|];
    } else {
      assert StatsText(data[..0], formatDate) == "";
      assert StatsText(data, formatDate) == Block(1, data[0], formatDate);
    }
  }

  /** The sum of one count over the records. */
  function Sum(data: seq<MatchRecord>, f: MatchRecord -> nat): nat
    decreases |data|
  {
    if |data| == 0 then 0 else Sum(data[..|data| - 1], f) + f(data[|data| - 1])
  }

  /** Sums split over concatenation. */
  lemma {:induction false} SumAppend(a: seq<MatchRecord>, b: seq<MatchRecord>, f: MatchRecord -> nat)
    ensures Sum(a + b, f) == Sum(a, f) + Sum(b, f)
    decreases |b|
  {
    if |b| == 0 {
      assert a + b == a;
    } else {
      var n := |b| - 1;
      assert (a + b)[..|a + b| - 1] == a + b[..n];
      SumAppend(a, b[..n], f);
    }
  }

  /** Every match's count is part of the total. */
  lemma {:induction false} SumBoundsEach(data: seq<MatchRecord>, f: MatchRecord -> nat, i: nat)
    requires i < |data|
    ensures f(data[i]) <= Sum(data, f)
    decreases |data|
  {
    var n := |data| - 1;
    if i < n {
      assert data[..n][i] == data[i];
      SumBoundsEach(data[..n], f, i);
    }
  }

  function Kills(m: MatchRecord): nat { m.kills }
  function Deaths(m: MatchRecord): nat { m.deaths }
  function Assists(m: MatchRecord): nat { m.assists }

  /** The second loop of `matches`: the stats text and the three totals. */
  method Summarize(data: seq<MatchRecord>, formatDate: int -> string)
    returns (playerStats: string, kills: nat, deaths: nat, assists: nat)
    ensures playerStats == StatsText(data, formatDate)
    ensures kills == Sum(data, Kills) && deaths == Sum(data, Deaths) && assists == Sum(data, Assists)
  {
    playerStats, kills, deaths, assists := "", 0, 0, 0;
    var count := 0;
    while count < |data|
      invariant 0 <= count <= |data|
      invariant playerStats == StatsText(data[..count], formatDate)
      invariant kills == Sum(data[..count], Kills) && deaths == Sum(data[..count], Deaths)
      invariant assists == Sum(data[..count], Assists)
    {
      assert data[..count + 1][..count] == data[..count];
      var m := data[count];
      var stats := Block(count + 1, m, formatDate);
      kills := kills + m.kills;
      deaths := deaths + m.deaths;
      assists := assists + m.assists;
      playerStats := playerStats + stats;
      count := count + 1;
    }
    assert data[..count] == data;
  }

  /** The total KDA: the whole number kills + assists when there were no
      deaths, otherwise the ratio of kills + assists to deaths. */
  datatype Kda = Whole(n: nat) | Ratio(takedowns: nat, deaths: nat)

  function TotalKda(kills: nat, deaths: nat, assists: nat): (r: Kda)
    ensures r.Whole? <==> deaths == 0
    ensures r.Whole? ==> r.n == kills + assists
    ensures r.Ratio? ==> r.takedowns == kills + assists && r.deaths == deaths > 0
  {
    if deaths != 0 then Ratio(kills + assists, deaths) else Whole(kills + assists)
  }

  /** A whole KDA prints as an integer; a ratio goes through the given
      rounding and float formatting. */
  function KdaText(k: Kda, formatRatio: (nat, nat) -> string): string {
    match k
    case Whole(n) => NatToString(n)
    case Ratio(t, d) => formatRatio(t, d)
  }

  /** The summary text of `matches`. */
  function Report(summonerName: string, playerStats: string, kills: nat, deaths: nat, assists: nat,
                  kda: string): (r: string)
    ensures StartsWith(r, "```Summoner: " + summonerName + "\n\n" + playerStats + "\n\nTotal kills: ")
    ensures EndsWith(r, kda + "\n```")
  {
    var head := "```Summoner: " + summonerName + "\n\n" + playerStats + "\n\nTotal kills: ";
    var tail := kda + "\n```";
    var r := head + NatToString(kills) + "\n" + "Total deaths: " + NatToString(deaths) + "\n"
             + "Total assists: " + NatToString(assists) + "\n" + "Total KDA (across these matches): " + tail;
    assert r[..|head|] == head;
    assert r[|r| - |tail|..] == tail;
    r
  }

  /** A failed call: a positional argument without a value. */
  datatype CallError = MissingPositional(parameter: string) | TooManyPositional

  /** Calling the static `Logger.CTX_INFO(ctx, message)` with positional
      arguments; a context is given by its author's mention. */
  function CtxInfoCall(args: seq<string>): (r: Result<string, CallError>)
    ensures |args| == 2 <==> r.Ok?
    ensures r.Ok? ==> r.value == Log.CtxInfo(args[0], args[1])
  {
    if |args| == 0 then Err(MissingPositional("ctx"))
    else if |args| == 1 then Err(MissingPositional("message"))
    else if |args| == 2 then Ok(Log.CtxInfo(args[0], args[1]))
    else Err(TooManyPositional)
  }

  /** The summary send as written: only the text is passed, no context, so
      the call fails for want of its second argument. */
  function ReportReplyAsWritten(report: string): (r: Result<string, CallError>)
    ensures r.Err? && r.error.MissingPositional?
  {
    CtxInfoCall([report])
  }

  /** As written the summary is never sent, whatever the matches were. */
  lemma ReportNeverSent(report: string)
    ensures ReportReplyAsWritten(report) == Err(MissingPositional("message"))
  {
  }

  /** The summary send with the command's context, as the other replies of
      the bot are made. */
  function ReportReply(mention: string, report: string): (r: Result<string, CallError>)
    ensures r == Ok(Log.CtxInfo(mention, report))
  {
    CtxInfoCall([mention, report])
  }

  /** The report `matches` builds from the match list: the two loops and
      the KDA, or the failure at the first match without the player. */
  method MatchReport(summonerName: string, puuid: string, games: seq<Match>,
                     formatDate: int -> string, formatRatio: (nat, nat) -> string)
    returns (report: Result<string, BuildError>)
    ensures report.Err? <==> Records(games, puuid).Err?
    ensures report.Err? ==> report.error == Records(games, puuid).error
    ensures report.Ok? ==>
              var data := Records(games, puuid).value;
              var kills, deaths, assists := Sum(data, Kills), Sum(data, Deaths), Sum(data, Assists);
              report.value == Report(summonerName, StatsText(data, formatDate), kills, deaths, assists,
                                     KdaText(TotalKda(kills, deaths, assists), formatRatio))
  {
    var data := BuildRecords(games, puuid);
    if data.Err? {
      return Err(data.error);
    }
    var playerStats, kills, deaths, assists := Summarize(data.value, formatDate);
    var kda := TotalKda(kills, deaths, assists);
    report := Ok(Report(summonerName, playerStats, kills, deaths, assists, KdaText(kda, formatRatio)));
  }

  /** Why `matches` ends without a summary: a match without the player, or
      the failed summary call. */
  datatype MatchesFailure = NoPlayer(buildError: BuildError) | SendRaised(callError: CallError)

  /** `matches` after the API calls, as written: the loading notice is
      sent; a match without the player raises inside the first loop, which
      leaves the notice in place; otherwise the notice is deleted and the
      summary call raises, so no summary is ever sent. */
  method Matches(summoner: string, args: seq<string>, puuid: string, games: seq<Match>,
                 formatDate: int -> string, formatRatio: (nat, nat) -> string)
    returns (loading: string, loadingDeleted: bool, reply: Result<string, MatchesFailure>)
    ensures loading == "Loading summoner " + CombineStrings(args, summoner) + "..."
    ensures loadingDeleted <==> Records(games, puuid).Ok?
    ensures Records(games, puuid).Err? ==> reply == Err(NoPlayer(Records(games, puuid).error))
    ensures Records(games, puuid).Ok? ==> reply == Err(SendRaised(MissingPositional("message")))
  {
    var summonerName := CombineStrings(args, summoner);
    loading := "Loading summoner " + summonerName + "...";
    var report := MatchReport(summonerName, puuid, games, formatDate, formatRatio);
    if report.Err? {
      return loading, false, Err(NoPlayer(report.error));
    }
    loadingDeleted := true;
    var sent := ReportReplyAsWritten(report.value);
    ReportNeverSent(report.value);
    reply := match sent
      case Ok(text) => Ok(text)
      case Err(e) => Err(SendRaised(e));
  }

  /** `matches` with the summary sent through the command's context: the
      reply is the info message of the report of the totals. */
  method MatchesIntended(mention: string, summoner: string, args: seq<string>, puuid: string, games: seq<Match>,
                         formatDate: int -> string, formatRatio: (nat, nat) -> string)
    returns (loading: string, loadingDeleted: bool, reply: Result<string, MatchesFailure>)
    ensures loading == "Loading summoner " + CombineStrings(args, summoner) + "..."
    ensures loadingDeleted <==> Records(games, puuid).Ok?
    ensures Records(games, puuid).Err? ==> reply == Err(NoPlayer(Records(games, puuid).error))
    ensures Records(games, puuid).Ok? ==>
              var data := Records(games, puuid).value;
              var kills, deaths, assists := Sum(data, Kills), Sum(data, Deaths), Sum(data, Assists);
              reply == Ok(Log.CtxInfo(mention,
                Report(CombineStrings(args, summoner), StatsText(data, formatDate), kills, deaths, assists,
                       KdaText(TotalKda(kills, deaths, assists), formatRatio))))
  {
    var summonerName := CombineStrings(args, summoner);
    loading := "Loading summoner " + summonerName + "...";
    var report := MatchReport(summonerName, puuid, games, formatDate, formatRatio);
    if report.Err? {
      return loading, false, Err(NoPlayer(report.error));
    }
    loadingDeleted := true;
    var sent := ReportReply(mention, report.value);
    reply := match sent
      case Ok(text) => Ok(text)
      case Err(e) => Err(SendRaised(e));
  }

  /** `_get_language`: the requested code when the list holds it. */
  method GetLanguage(specifiedLang: string, data: seq<string>) returns (r: Option<string>)
    ensures r.Some? <==> specifiedLang in data
    ensures r.Some? ==> r.value == specifiedLang
  {
    for i := 0 to |data|
      invariant specifiedLang !in data[..i]
    {
      if specifiedLang == data[i] {
        return Some(data[i]);
      }
    }
    assert data[..|data|] == data;
    return None;
  }
}
