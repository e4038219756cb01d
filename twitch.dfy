/** The decision rules of the Twitch cog (src/cogs/twitch.py). The database
    read arrives as a snapshot: None when the path holds nothing, otherwise
    the (key, record) pairs in iteration order. Each handler returns the
    replies it sends, the database write it issues and whether an exception
    escaped it. */
module Twitch {
  import opened Wrappers
  import opened Strings

  /** A stored streamer: the "user" and "user_id" fields. */
  datatype Record = Record(user: string, userId: string)

  type Snapshot = Option<seq<(string, Record)>>

  datatype DbWrite =
    | AddRecord(rec: Record)
    | UpdateRecord(key: string, rec: Record)
    | DeleteKey(key: string)

  datatype Outcome<R> = Outcome(replies: seq<R>, write: Option<DbWrite>, raised: bool)

  /** The records of a snapshot; `if not data` treats None and {} alike. */
  function Records(data: Snapshot): seq<(string, Record)> {
    match data
    case Some(rs) => rs
    case None => []
  }

  /** Python truthiness of the id lookup: None and "" are falsy. */
  predicate Truthy(id: Option<string>) {
    id.Some? && id.value != ""
  }

  /** The position of the first record satisfying `p`. */
  function FirstMatch(rs: seq<(string, Record)>, p: Record -> bool): (r: Option<nat>)
    ensures r.Some? ==> r.value < |rs| && p(rs[r.value].1)
                        && forall j :: 0 <= j < r.value ==> !p(rs[j].1)
    ensures r.None? ==> forall j :: 0 <= j < |rs| ==> !p(rs[j].1)
    decreases |rs|
  {
    if |rs| == 0 then None
    else if p(rs[0].1) then Some(0)
    else match FirstMatch(rs[1..], p)
      case Some(i) => Some(i + 1)
      case None => None
  }

  /** A match with no match before it is the first match. */
  lemma FirstMatchAt(rs: seq<(string, Record)>, p: Record -> bool, i: nat)
    requires i < |rs| && p(rs[i].1)
    requires forall j :: 0 <= j < i ==> !p(rs[j].1)
    ensures FirstMatch(rs, p) == Some(i)
  {
  }

  // ---------------------------------------------------------------------
  // add

  datatype AddReply = AddInvalid(name: string) | AddDone(name: string) | AddDuplicate(name: string)

  function AddText(author: string, r: AddReply): string {
    match r
    case AddInvalid(n) => author + ": Cannot add `" + n + "` to the database. Username is invalid."
    case AddDone(n) => author + ": Added `" + n + "` to the database!"
    case AddDuplicate(n) => author + ": Cannot add `" + n + "` to the database. Username is already in the database."
  }

  /** `set_twitch_user`: refused whenever the id lookup is falsy; otherwise the
      name is added iff no stored record has it as its user. */
  function SetTwitchUser(name: string, data: Snapshot, twitchId: Option<string>): (o: Outcome<AddReply>)
    ensures !o.raised && |o.replies| == 1
    ensures !Truthy(twitchId) ==> o.replies == [AddInvalid(name)] && o.write.None?
    ensures o.write.Some? <==>
              (Truthy(twitchId) && forall i :: 0 <= i < |Records(data)| ==> Records(data)[i].1.user != name)
    ensures o.write.Some? ==> o.write == Some(AddRecord(Record(name, twitchId.value))) && o.replies == [AddDone(name)]
    ensures Truthy(twitchId) && o.write.None? ==> o.replies == [AddDuplicate(name)]
  {
    if !Truthy(twitchId) then Outcome([AddInvalid(name)], None, false)
    else if |Records(data)| == 0 then Outcome([AddDone(name)], Some(AddRecord(Record(name, twitchId.value))), false)
    else if FirstMatch(Records(data), (r: Record) => r.user == name).None? then
      Outcome([AddDone(name)], Some(AddRecord(Record(name, twitchId.value))), false)
    else Outcome([AddDuplicate(name)], None, false)
  }

  /** An empty database accepts any name with a valid id. */
  lemma EmptyDatabaseAccepts(name: string, id: string)
    requires id != ""
    ensures SetTwitchUser(name, None, Some(id)).write == Some(AddRecord(Record(name, id)))
    ensures SetTwitchUser(name, Some([]), Some(id)).write == Some(AddRecord(Record(name, id)))
  {
  }

  // ---------------------------------------------------------------------
  // update

  datatype UpdateReply =
    | DatabaseEmpty
    | UpdateTaken(newName: string)
    | UpdateDone(oldName: string, newName: string)
    | UpdateInvalid(newName: string)
    | UpdateNotFound(oldName: string)

  function UpdateText(author: string, r: UpdateReply): string {
    match r
    case DatabaseEmpty => author + ": Database is empty. Have you tried adding some Twitch users first?"
    case UpdateTaken(n) => author + ": `" + n + "` already exists in the database!"
    case UpdateDone(o, n) => author + ": Updated `" + o + "` to `" + n + "` on the database!"
    case UpdateInvalid(n) => author + ": `" + n + "` is not a valid name."
    case UpdateNotFound(o) => author + ": Could not find `" + o + "`!"
  }

  /** `update_twitch_user`: the empty-database notice when the snapshot is
      empty; then the first record whose user is the new or the old name
      decides. With no snapshot at all the scan over None raises. */
  function UpdateTwitchUser(oldName: string, newName: string, data: Snapshot, newId: Option<string>)
    : (o: Outcome<UpdateReply>)
    ensures o.raised <==> data.None?
    ensures o.write.Some? ==> newId.Some? && o.write.value.UpdateRecord? && o.write.value.rec == Record(newName, newId.value)
  {
    var notice := if |Records(data)| == 0 then [DatabaseEmpty] else [];
    if data.None? then Outcome(notice, None, true)
    else
      var rs := data.value;
      match FirstMatch(rs, (r: Record) => r.user == newName || r.user == oldName)
      case None => Outcome(notice + [UpdateNotFound(oldName)], None, false)
      case Some(i) =>
        if rs[i].1.user == newName then Outcome([UpdateTaken(newName)], None, false)
        else if newId.Some? then
          Outcome([UpdateDone(oldName, newName)], Some(UpdateRecord(rs[i].0, Record(newName, newId.value))), false)
        else Outcome([UpdateInvalid(newName)], None, false)
  }

  /** The first record naming either user decides the update. */
  lemma UpdateDecidedByFirstMatch(oldName: string, newName: string, rs: seq<(string, Record)>,
                                  newId: Option<string>, i: nat)
    requires i < |rs| && (rs[i].1.user == newName || rs[i].1.user == oldName)
    requires forall j :: 0 <= j < i ==> rs[j].1.user != newName && rs[j].1.user != oldName
    ensures var o := UpdateTwitchUser(oldName, newName, Some(rs), newId);
      if rs[i].1.user == newName then o == Outcome([UpdateTaken(newName)], None, false)
      else if newId.Some? then
        o == Outcome([UpdateDone(oldName, newName)], Some(UpdateRecord(rs[i].0, Record(newName, newId.value))), false)
      else o == Outcome([UpdateInvalid(newName)], None, false)
  {
    FirstMatchAt(rs, (r: Record) => r.user == newName || r.user == oldName, i);
  }

  /** "Could not find" is the last reply exactly when no record names either
      user; on an empty snapshot it follows the empty-database notice. */
  lemma UpdateNotFoundIff(oldName: string, newName: string, rs: seq<(string, Record)>, newId: Option<string>)
    ensures var o := UpdateTwitchUser(oldName, newName, Some(rs), newId);
      (o.replies[|o.replies| - 1] == UpdateNotFound(oldName))
      <==> forall j :: 0 <= j < |rs| ==> rs[j].1.user != newName && rs[j].1.user != oldName
    ensures |rs| == 0 ==> UpdateTwitchUser(oldName, newName, Some(rs), newId).replies
                          == [DatabaseEmpty, UpdateNotFound(oldName)]
  {
    var p := (r: Record) => r.user == newName || r.user == oldName;
    var k := FirstMatch(rs, p);
    if k.None? {
      assert forall j :: 0 <= j < |rs| ==> !p(rs[j].1);
    }
  }

  // ---------------------------------------------------------------------
  // delete

  datatype DeleteReply = DeleteDone(name: string) | DeleteNotFound(name: string)

  function DeleteText(author: string, r: DeleteReply): string {
    match r
    case DeleteDone(n) => author + ": Deleted `" + n + "` from the database!"
    case DeleteNotFound(n) => author + ": Can't find `" + n + "`!"
  }

  /** `delete_twitch_user`: deletes the key of the first record whose user is
      the name, and nothing when there is none. */
  function DeleteTwitchUser(name: string, data: Snapshot): (o: Outcome<DeleteReply>)
    ensures o.raised <==> data.None?
    ensures o.write.Some? <==> data.Some? && exists j :: 0 <= j < |data.value| && data.value[j].1.user == name
    ensures o.write.Some? ==> var i := FirstMatch(data.value, (r: Record) => r.user == name).value;
      o.write.value == DeleteKey(data.value[i].0)
      && data.value[i].1.user == name
      && (forall j :: 0 <= j < i ==> data.value[j].1.user != name)
      && o.replies == [DeleteDone(name)]
    ensures data.Some? && o.write.None? ==> o.replies == [DeleteNotFound(name)]
  {
    if data.None? then Outcome([], None, true)
    else match FirstMatch(data.value, (r: Record) => r.user == name)
      case Some(i) => Outcome([DeleteDone(name)], Some(DeleteKey(data.value[i].0)), false)
      case None => Outcome([DeleteNotFound(name)], None, false)
  }

  // ---------------------------------------------------------------------
  // get

  /** "1: user\n2: user\n..." over the records in order. */
  function UsersListing(rs: seq<(string, Record)>): string {
    if |rs| == 0 then ""
    else UsersListing(rs[..|rs| - 1]) + NatToString(|rs|) + ": " + rs[|rs| - 1].1.user + "\n"
  }

  /** The i-th line (1-based) of the listing is "i: user". */
  lemma {:induction false} UsersListingAppend(rs: seq<(string, Record)>, key: string, rec: Record)
    ensures UsersListing(rs + [(key, rec)]) == UsersListing(rs) + NatToString(|rs| + 1) + ": " + rec.user + "\n"
  {
    assert (rs + [(key, rec)])[..|rs|] == rs;
  }

  /** `get_twitch_users`: the heading and then the listing inside a code
      block; the enumeration of a missing snapshot raises before anything is
      sent. */
  method GetTwitchUsers(mention: string, data: Snapshot) returns (sent: seq<string>, raised: bool)
    ensures raised <==> data.None?
    ensures !raised ==> sent == [mention + ": List of Twitch users in the database: ",
                                 "```" + UsersListing(data.value) + "```"]
    ensures raised ==> sent == []
  {
    if data.None? {
      return [], true;
    }
    var rs := data.value;
    var usersList := "";
    var index := 0;
    while index < |rs|
      invariant 0 <= index <= |rs|
      invariant usersList == UsersListing(rs[..index])
    {
      UsersListingAppend(rs[..index], rs[index].0, rs[index].1);
      assert rs[..index + 1] == rs[..index] + [(rs[index].0, rs[index].1)];
      usersList := usersList + NatToString(index + 1) + ": " + rs[index].1.user + "\n";
      index := index + 1;
    }
    assert rs[..index] == rs;
    sent := [mention + ": List of Twitch users in the database: ", "```" + usersList + "```"];
    raised := false;
  }

  // ---------------------------------------------------------------------
  // check_if_streamers_online

  datatype Message = Message(id: nat, content: string)

  datatype Action = Post(content: string) | DeleteMessage(id: nat)

  function NotifMsg(user: string): string {
    ":red_circle: **LIVE**\n`" + user + "` is now streaming on Twitch!\nhttps://www.twitch.tv/" + user
  }

  /** `any(notif_msg in msg for msg in messages)` */
  predicate AlreadyAnnounced(notif: string, messages: seq<Message>) {
    exists i :: 0 <= i < |messages| && Contains(messages[i].content, notif)
  }

  /** The messages whose content is exactly the notice, in history order. */
  function Announcements(notif: string, messages: seq<Message>): (r: seq<nat>)
    ensures |r| <= |messages|
  {
    if |messages| == 0 then []
    else
      var front := Announcements(notif, messages[..|messages| - 1]);
      if messages[|messages| - 1].content == notif then front + [messages[|messages| - 1].id] else front
  }

  /** What one streamer's check issues: a post while live and not yet
      announced, the deletion of every exact notice while offline. */
  function StreamerActions(rec: Record, live: bool, messages: seq<Message>): seq<Action> {
    var notif := NotifMsg(rec.user);
    if live then (if AlreadyAnnounced(notif, messages) then [] else [Post(notif)])
    else
      var ids := Announcements(notif, messages);
      seq(|ids|, k requires 0 <= k < |ids| => DeleteMessage(ids[k]))
  }

  /** The actions of a whole check, streamer by streamer. */
  function CheckActions(rs: seq<(string, Record)>, live: seq<bool>, recent: seq<seq<Message>>): seq<Action>
    requires |live| == |rs| && |recent| == |rs|
  {
    if |rs| == 0 then []
    else
      var n := |rs| - 1;
      CheckActions(rs[..n], live[..n], recent[..n]) + StreamerActions(rs[n].1, live[n], recent[n])
  }

  lemma CheckActionsStep(rs: seq<(string, Record)>, live: seq<bool>, recent: seq<seq<Message>>, s: nat)
    requires |live| == |rs| && |recent| == |rs| && s < |rs|
    ensures CheckActions(rs[..s + 1], live[..s + 1], recent[..s + 1])
         == CheckActions(rs[..s], live[..s], recent[..s]) + StreamerActions(rs[s].1, live[s], recent[s])
  {
    assert rs[..s + 1][..s] == rs[..s];
    assert live[..s + 1][..s] == live[..s];
    assert recent[..s + 1][..s] == recent[..s];
  }

  /** A live streamer gets exactly one post when the notice is in none of the
      recent messages and none otherwise; no deletions. */
  lemma LiveStreamerPosts(rec: Record, messages: seq<Message>)
    ensures var acts := StreamerActions(rec, true, messages);
      |acts| <= 1
      && (|acts| == 1 <==> forall i :: 0 <= i < |messages| ==> !Contains(messages[i].content, NotifMsg(rec.user)))
      && (|acts| == 1 ==> acts[0] == Post(NotifMsg(rec.user)))
  {
  }

  /** An offline streamer's check deletes exactly the messages whose content
      is the notice, and posts nothing. */
  lemma {:induction false} OfflineDeletesExactly(notif: string, messages: seq<Message>, id: nat)
    requires forall i, j :: 0 <= i < j < |messages| ==> messages[i].id != messages[j].id
    ensures id in Announcements(notif, messages)
            <==> exists i :: 0 <= i < |messages| && messages[i].id == id && messages[i].content == notif
  {
    if |messages| > 0 {
      var n := |messages| - 1;
      OfflineDeletesExactly(notif, messages[..n], id);
      if messages[n].content != notif && messages[n].id == id {
        assert forall i :: 0 <= i < n ==> messages[i].id != id;
      }
    }
  }

  lemma OfflineNeverPosts(rec: Record, messages: seq<Message>)
    ensures forall k :: 0 <= k < |StreamerActions(rec, false, messages)| ==> StreamerActions(rec, false, messages)[k].DeleteMessage?
  {
  }

  /** Whether any recent message already contains the notice. */
  method Announced(notif: string, messages: seq<Message>) returns (announced: bool)
    ensures announced == AlreadyAnnounced(notif, messages)
  {
    announced := false;
    var m := 0;
    while m < |messages|
      invariant 0 <= m <= |messages|
      invariant announced <==> exists i :: 0 <= i < m && Contains(messages[i].content, notif)
    {
      if Contains(messages[m].content, notif) {
        announced := true;
      }
      m := m + 1;
    }
  }

  /** The deletions of an offline streamer's notices. */
  method CleanChannel(rec: Record, messages: seq<Message>) returns (deletes: seq<Action>)
    ensures deletes == StreamerActions(rec, false, messages)
  {
    var notif := NotifMsg(rec.user);
    deletes := [];
    var m := 0;
    while m < |messages|
      invariant 0 <= m <= |messages|
      invariant deletes == StreamerActions(rec, false, messages[..m])
    {
      assert messages[..m + 1][..m] == messages[..m];
      if notif == messages[m].content {
        deletes := deletes + [DeleteMessage(messages[m].id)];
      }
      m := m + 1;
    }
    assert messages[..m] == messages;
  }

  /** `check_if_streamers_online`, one pass: for each stored streamer, its
      live status and its channel's recent messages decide the posts and
      deletions. A missing snapshot makes the loop raise, which the background loop
      catches and logs, so nothing is issued. */
  method CheckIfStreamersOnline(streamers: Snapshot, live: seq<bool>, recent: seq<seq<Message>>)
    returns (actions: seq<Action>, errorLogged: bool)
    requires |live| == |Records(streamers)| && |recent| == |Records(streamers)|
    ensures errorLogged <==> streamers.None?
    ensures actions == CheckActions(Records(streamers), live, recent)
  {
    if streamers.None? {
      return [], true;
    }
    var rs := streamers.value;
    actions := [];
    var s := 0;
    while s < |rs|
      invariant 0 <= s <= |rs|
      invariant actions == CheckActions(rs[..s], live[..s], recent[..s])
    {
      var rec := rs[s].1;
      var notif := NotifMsg(rec.user);
      var messages := recent[s];
      if live[s] {
        var announced := Announced(notif, messages);
        if !announced {
          actions := actions + [Post(notif)];
        }
      } else {
        var deletes := CleanChannel(rec, messages);
        actions := actions + deletes;
      }
      CheckActionsStep(rs, live, recent, s);
      s := s + 1;
    }
    assert rs[..s] == rs && live[..s] == live && recent[..s] == recent;
    errorLogged := false;
  }
}
