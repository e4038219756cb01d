/** The two commands of src/cogs/anime.py. `search_animix` builds a keyword
    from the command's words and numbers the results; `fetch_recent_anime_episodes`
    picks the most recent episodes of a show and links them. The HTTP
    requests and the HTML scraping are replaced by their parsed results;
    an exception anywhere inside the `try` becomes the traceback reply. */
module Anime {
  import opened Wrappers
  import opened Strings

  /** What a command sends: a plain message or an embed with a title and
      (name, value) fields. */
  datatype Reply = Text(content: string) | Embed(title: string, fields: seq<(string, string)>)

  /** The reply of the `except` branch. */
  function TracebackReply(mention: string, traceback: string): Reply {
    Text(mention + ": " + traceback)
  }

  // ---------------------------------------------------------------------
  // search

  /** The parsed search answer: a JSON null, the (title, href) pairs of the
      result list, or the traceback of a failed request or parse. */
  datatype SearchResponse = NullData | Items(items: seq<(string, string)>) | Failed(traceback: string)

  /** `anime_id`: the href with every "/v1/" removed. */
  function AnimeId(href: string): string {
    ReplaceAll(href, "/v1/", "")
  }

  /** The field for the result numbered `i`. */
  function ResultField(i: nat, title: string, animeId: string): (f: (string, string))
    ensures StartsWith(f.0, NatToString(i) + ": ") && f.0[|NatToString(i)| + 2..] == title
    ensures StartsWith(f.1, "anime_id: ") && f.1[10..] == animeId
  {
    (NatToString(i) + ": " + title, "anime_id: " + animeId)
  }

  /** The fields of the search embed. */
  function SearchFieldsOf(items: seq<(string, string)>): seq<(string, string)>
    decreases |items|
  {
    if |items| == 0 then []
    else
      var n := |items| - 1;
      SearchFieldsOf(items[..n]) + [ResultField(n + 1, items[n].0, AnimeId(items[n].1))]
  }

  /** The result fields are numbered 1..k in result order. */
  lemma {:induction false} SearchFieldsNumbered(items: seq<(string, string)>)
    ensures |SearchFieldsOf(items)| == |items|
    ensures forall i :: 0 <= i < |items| ==>
              SearchFieldsOf(items)[i] == ResultField(i + 1, items[i].0, AnimeId(items[i].1))
    decreases |items|
  {
    if |items| > 0 {
      var n := |items| - 1;
      assert forall i :: 0 <= i < n ==> items[..n][i] == items[i];
      SearchFieldsNumbered(items[..n]);
    }
  }

  /** The loop that adds one field per result. */
  method SearchFields(items: seq<(string, string)>) returns (fields: seq<(string, string)>)
    ensures fields == SearchFieldsOf(items)
  {
    fields := [];
    for i := 0 to |items|
      invariant fields == SearchFieldsOf(items[..i])
    {
      assert items[..i + 1][..i] == items[..i];
      fields := fields + [ResultField(i + 1, items[i].0, AnimeId(items[i].1))];
    }
    assert items[..|items|] == items;
  }

  /** `search_animix`: no reply at all for a JSON null. */
  method SearchAnimix(mention: string, args: seq<string>, response: SearchResponse) returns (sent: Option<Reply>)
    ensures Join(" ", args) == "" ==> sent == Some(Text(mention + ": No keyword provided."))
    ensures Join(" ", args) != "" && response.NullData? ==> sent == None
    ensures Join(" ", args) != "" && response.Failed? ==> sent == Some(TracebackReply(mention, response.traceback))
    ensures Join(" ", args) != "" && response.Items? && |response.items| == 0 ==>
              sent == Some(Embed("\"" + Join(" ", args) + "\"", [("No results found.", ":(")]))
    ensures Join(" ", args) != "" && response.Items? && |response.items| > 0 ==>
              sent == Some(Embed("\"" + Join(" ", args) + "\"", SearchFieldsOf(response.items)))
  {
    var keyword := Join(" ", args);
    if keyword == "" {
      return Some(Text(mention + ": No keyword provided."));
    }
    match response
    case NullData => sent := None;
    case Failed(tb) => sent := Some(TracebackReply(mention, tb));
    case Items(anime) =>
      var title := "\"" + keyword + "\"";
      if |anime| == 0 {
        sent := Some(Embed(title, [("No results found.", ":(")]));
      } else {
        var fields := SearchFields(anime);
        sent := Some(Embed(title, fields));
      }
  }

  /** The keyword is empty exactly when there are no words or one empty
      word. */
  lemma NoKeyword(args: seq<string>)
    ensures Join(" ", args) == "" <==> (|args| == 0 || (|args| == 1 && args[0] == ""))
  {
    JoinEmpty(" ", args);
  }

  /** A leading "/v1/" is dropped from the id. */
  lemma AnimeIdDropsPrefix(rest: string)
    ensures AnimeId("/v1/" + rest) == AnimeId(rest)
  {
    assert ("/v1/" + rest)[..4] == "/v1/";
    assert ("/v1/" + rest)[4..] == rest;
  }

  // ---------------------------------------------------------------------
  // episodes

  /** The parsed episode list: "eptotal" when present, and the links keyed
      by the episode index written in decimal. */
  datatype EpisodeList = EpisodeList(eptotal: Option<int>, links: map<string, string>)

  /** The answer to the episode request: the parsed list, or the traceback
      of a failed request or parse. */
  datatype EpisodeResponse = Page(list: EpisodeList) | PageFailed(traceback: string)

  /** The zero-based episode indexes the comprehension visits: the last
      `n` of `eptotal` when `n < eptotal`, otherwise all of them. */
  function WindowIndexes(n: int, eptotal: int): (r: seq<int>)
    ensures |r| == if n < eptotal then (if n < 0 then 0 else n) else (if eptotal < 0 then 0 else eptotal)
    ensures forall k :: 0 <= k < |r| ==> r[k] == (if n < eptotal then eptotal - n else 0) + k
    ensures forall k :: 0 <= k < |r| ==> 0 <= r[k]
  {
    var lo := if n < eptotal then eptotal - n else 0;
    var count := if lo < eptotal then eptotal - lo else 0;
    seq(count, (k: int) => lo + k)
  }

  /** The window has min(n, eptotal) entries, none for a negative `n`, and
      its last index is the last episode's. */
  lemma WindowShape(n: int, eptotal: int)
    ensures n < 0 ==> |WindowIndexes(n, eptotal)| == 0
    ensures 0 <= n ==> |WindowIndexes(n, eptotal)| == (if eptotal < 0 then 0 else if n < eptotal then n else eptotal)
    ensures |WindowIndexes(n, eptotal)| > 0 ==> WindowIndexes(n, eptotal)[|WindowIndexes(n, eptotal)| - 1] == eptotal - 1
    ensures |WindowIndexes(n, eptotal)| > 0 ==> WindowIndexes(n, eptotal)[0] == (if n < eptotal then eptotal - n else 0)
  {
  }

  /** A link with every "//" removed. */
  function CleanLink(link: string): (r: string)
    ensures !Contains(r, "//")
  {
    RemovePairGone(link, '/');
    ReplaceAll(link, "//", "")
  }

  /** An episode, numbered from 1, with its cleaned link. */
  datatype Episode = Episode(number: nat, link: string)

  /** The comprehension over the window: a missing key raises, and the
      first missing index is the one reported. */
  function Episodes(indexes: seq<int>, links: map<string, string>): (r: Result<seq<Episode>, int>)
    requires forall k :: 0 <= k < |indexes| ==> 0 <= indexes[k]
    ensures r.Ok? <==> forall k :: 0 <= k < |indexes| ==> NatToString(indexes[k]) in links
    ensures r.Ok? ==> |r.value| == |indexes|
    ensures r.Ok? ==> forall k :: 0 <= k < |indexes| ==>
              r.value[k] == Episode(indexes[k] + 1, CleanLink(links[NatToString(indexes[k])]))
              && !Contains(r.value[k].link, "//")
    ensures r.Err? ==> r.error in indexes && NatToString(r.error) !in links
    decreases |indexes|
  {
    if |indexes| == 0 then Ok([])
    else
      var n := |indexes| - 1;
      var front := Episodes(indexes[..n], links);
      assert forall k :: 0 <= k < n ==> indexes[..n][k] == indexes[k];
      var key := NatToString(indexes[n]);
      if front.Err? then front
      else if key !in links then Err(indexes[n])
      else Ok(front.value + [Episode(indexes[n] + 1, CleanLink(links[key]))])
  }

  /** Episodes are numbered consecutively, ending at `eptotal`. */
  lemma EpisodesNumbered(n: int, eptotal: int, links: map<string, string>)
    requires Episodes(WindowIndexes(n, eptotal), links).Ok?
    ensures var eps := Episodes(WindowIndexes(n, eptotal), links).value;
      (forall k :: 0 < k < |eps| ==> eps[k].number == eps[k - 1].number + 1)
      && (|eps| > 0 ==> eps[|eps| - 1].number == eptotal
                        && eps[0].number == (if n < eptotal then eptotal - n + 1 else 1))
  {
  }

  /** The field of one episode. */
  function EpisodeField(e: Episode): (f: (string, string))
    ensures StartsWith(f.1, "[LINK](https://") && EndsWith(f.1, ")")
  {
    var value := "[LINK](https://" + e.link + ")";
    assert value[|value| - 1..] == ")";
    ("episode " + NatToString(e.number), value)
  }

  function EpisodeFieldsOf(eps: seq<Episode>): (r: seq<(string, string)>)
    ensures |r| == |eps|
    decreases |eps|
  {
    if |eps| == 0 then [] else EpisodeFieldsOf(eps[..|eps| - 1]) + [EpisodeField(eps[|eps| - 1])]
  }

  /** The field of the k-th episode is that episode's. */
  lemma {:induction false} EpisodeFieldsInOrder(eps: seq<Episode>)
    ensures forall k :: 0 <= k < |eps| ==> EpisodeFieldsOf(eps)[k] == EpisodeField(eps[k])
    decreases |eps|
  {
    if |eps| > 0 {
      var n := |eps| - 1;
      assert forall k :: 0 <= k < n ==> eps[..n][k] == eps[k];
      EpisodeFieldsInOrder(eps[..n]);
    }
  }

  /** The loop that adds one field per episode. */
  method EpisodeFields(eps: seq<Episode>) returns (fields: seq<(string, string)>)
    ensures fields == EpisodeFieldsOf(eps)
  {
    fields := [];
    for i := 0 to |eps|
      invariant fields == EpisodeFieldsOf(eps[..i])
    {
      assert eps[..i + 1][..i] == eps[..i];
      fields := fields + [EpisodeField(eps[i])];
    }
    assert eps[..|eps|] == eps;
  }

  /** `fetch_recent_anime_episodes`; the traceback text of a missing key is
      given by `keyErrorTrace`. */
  method FetchRecentEpisodes(mention: string, animeId: string, recentEpisodesLength: int,
                             response: EpisodeResponse, keyErrorTrace: string)
    returns (sent: Reply)
    ensures animeId == "" ==> sent == Text("Invaid anime_id.")
    ensures animeId != "" && response.PageFailed? ==> sent == TracebackReply(mention, response.traceback)
    ensures animeId != "" && response.Page? && response.list.eptotal.None? ==>
              sent == TracebackReply(mention, keyErrorTrace)
    ensures animeId != "" && response.Page? && response.list.eptotal.Some? ==>
              var eps := Episodes(WindowIndexes(recentEpisodesLength, response.list.eptotal.value),
                                  response.list.links);
              sent == if eps.Err? then TracebackReply(mention, keyErrorTrace)
                      else Embed(animeId, EpisodeFieldsOf(eps.value))
  {
    if animeId == "" {
      return Text("Invaid anime_id.");
    }
    match response
    case PageFailed(tb) => sent := TracebackReply(mention, tb);
    case Page(episodes) =>
      if episodes.eptotal.None? {
        return TracebackReply(mention, keyErrorTrace);
      }
      var eptotal := episodes.eptotal.value;
      var recent := Episodes(WindowIndexes(recentEpisodesLength, eptotal), episodes.links);
      if recent.Err? {
        return TracebackReply(mention, keyErrorTrace);
      }
      var fields := EpisodeFields(recent.value);
      sent := Embed(animeId, fields);
  }
}
