# discordbot core in Dafny

A model of the deterministic core of the `discordbot` Discord bot, with
proofs about it. The bot hands most of its work to Discord, Firebase, Google
Cloud Storage, Riot, Twitch and HTTP services. The model keeps the rules
the bot's own code decides, and it takes the answers of those services as
inputs:

- `Caching` (src/utils/custom_cache.py): `CustomCache`, the memoizing
  time-to-live cache. It has two classes:
  - `TTLCache` is the bounded store behind it. It has an explicit clock,
    drops expired entries before each insert, and evicts the least recently
    used live entry when full.
  - `CustomCache` is the wrapper. It keeps its own `timestamps` table and
    decides whether a decorated call hits or misses.
- `Assets` (src/subsystems/sys_assets_storage.py): the storage subsystem's
  rules on names:
  - object-name validation;
  - the extension-to-folder category and blob naming;
  - search by stem;
  - the numbered listings;
  - the audio-file path field.
- `Helper` (src/utils/helper.py): the pathlib-based helpers (final
  component, suffix, stem), over '/'-separated paths, and
  `combine_strings`.
- The command decision rules of the cogs and the bot, as functions and
  methods over snapshots of the database and the channel:
  - `Twitch`: registry add/update/delete/list, and the live-notification
    post/delete rule;
  - `League`: role map, per-match records, totals, and the language search;
  - `Anime`: search numbering, and the episode window;
  - `Memes`: caption splitting, and the caption-count check;
  - `Admin`: prefix, avatar URL, presence, command enable/disable, and the
    upload loop;
  - `Bot`: prefix reading and creation, the mention reply, the greeting
    trigger, and the error-reply dispatch.
- `Firebase` (src/subsystems/sys_firebase.py): `get_key_value_pair`.
- `ConfigParser` (src/config_parser.py): `CustomConfigParser` over a
  section → option → string table.
- `Config` (config.py): every setting, derived from the environment and the
  parsed configuration file as one function to Settings-or-fatal-error.
- `App` (app.py): the cog file filter and the module-name computation of
  `setup_cogs`.
- `Log` (log.py): colour wrapping, the level threshold, and the shapes of
  the context messages.
- `Wrappers` and `Strings` are shared support:
  - `Wrappers` gives `Option` and `Result`;
  - `Strings` gives Python's `str` operations on `seq<char>`: split on one
    character, join, strip, replace, lower and `str(int)`.

The model follows the code where the code and the project's description
differ:

- `CustomCache` is a `cachetools.TTLCache`, which evicts the least recently
  used entry, not the oldest one. `del` of a missing key raises `KeyError`.
- The enable/disable success messages of the `cmd` command go through
  `CTX_ERROR` (src/cogs/admin.py:176, 182). So they read "ERROR:".
- The command prefix is read from the last settings record
  (src/bot.py:202-205) but written to the first one (src/cogs/admin.py:34-39).
  `Bot.PrefixReadDisagreesWithWrite` states the mismatch.

## Model

| member | source | states |
|---|---|---|
| Caching.InsertDistinct | src/utils/custom_cache.py:43-44 | an insert keeps the keys of the table distinct |
| Caching.InsertBounded | src/utils/custom_cache.py:43-44 | an insert never takes the table beyond `maxsize` |
| Caching.InsertThenLookup | src/utils/custom_cache.py:66-72 | a value stored at time t0 is read back at t1 exactly while t1 - t0 < ttl, and is gone afterwards |
| Caching.InsertAfterAllExpired | src/utils/custom_cache.py:66-72 | inserting when every entry has expired leaves exactly one entry, the new one |
| Caching.InsertBelowCapacity | src/utils/custom_cache.py:66-72 | below capacity a new key is appended to the live keys and nothing is dropped |
| Caching.InsertAtCapacity | src/utils/custom_cache.py:66-72 | at capacity a new key evicts exactly the least recently used live key, and the size stays `maxsize` |
| Caching.LruIsOldest | src/utils/custom_cache.py:66-72 | when use stamps increase along the table, the victim is the first (oldest) entry |
| Caching.TTLCache.constructor | src/utils/custom_cache.py:18 | a new store is empty, valid, and keeps the given `maxsize` and `ttl` |
| Caching.TTLCache.Contains | src/utils/custom_cache.py:26 | `k in cache` holds exactly when a live value is stored under `k` |
| Caching.TTLCache.GetItem | src/utils/custom_cache.py:41 | `cache[k]` returns the live value or None, and marks a stored key as the most recently used, even an expired one; nothing else changes |
| Caching.TTLCache.Get | src/utils/custom_cache.py:56 | `get` returns the live value or None; a live key becomes the most recently used, and for a missing or expired key nothing changes |
| Caching.TTLCache.Set | src/utils/custom_cache.py:44 | `cache[k] = v` is the expiring, evicting insert; with `maxsize` 0 it raises and changes nothing |
| Caching.TTLCache.Delete | src/utils/custom_cache.py:47 | `del` removes the key and raises KeyError exactly when no live value was stored |
| Caching.TTLCache.Length | src/utils/custom_cache.py:53 | `len` counts the live keys |
| Caching.TTLCache.Keys | src/utils/custom_cache.py:83 | the keys are the live keys in table order |
| Caching.TTLCache.Values | src/utils/custom_cache.py:86 | the values are the live values in key order, each read once and marked as used in that order |
| Caching.CustomCache.constructor | src/utils/custom_cache.py:17-21 | defaults 100 and 300; `maxsize` and `ttl` echo the arguments and are constants; the store and `timestamps` start empty |
| Caching.CustomCache.GetItem | src/utils/custom_cache.py:40-41 | `cache[k]` returns the live value or raises KeyError |
| Caching.CustomCache.SetItem | src/utils/custom_cache.py:43-44 | `cache[k] = v` inserts without touching `timestamps` |
| Caching.CustomCache.DelItem | src/utils/custom_cache.py:46-47 | `del cache[k]` removes the key from the store but never from `timestamps`, and raises KeyError when absent |
| Caching.CustomCache.Length | src/utils/custom_cache.py:52-53 | `len` counts the live keys |
| Caching.CustomCache.Get | src/utils/custom_cache.py:55-59 | `get` returns the live value or None, touching only a live key |
| Caching.CustomCache.Search | src/utils/custom_cache.py:61-64 | `search` returns its argument exactly when it is a live key, otherwise None |
| Caching.CustomCache.Add | src/utils/custom_cache.py:66-72 | `add` records the time in `timestamps` and then inserts |
| Caching.CustomCache.Keys | src/utils/custom_cache.py:82-83 | `keys()`, as `iter` (lines 49-50), lists the live keys in order |
| Caching.CustomCache.Values | src/utils/custom_cache.py:85-86 | `values()` lists the live values, aligned with `keys()` |
| Caching.KeysValuesAligned | src/utils/custom_cache.py:82-86 | keys and values have the same length; the i-th key maps to the i-th value; the keys are distinct |
| Caching.KeyIgnoresKeywordOrder | src/utils/custom_cache.py:25 | the call key does not depend on the order of the keyword arguments |
| Caching.KeyIsByName | src/utils/custom_cache.py:25 | the call key holds only the function's name and its arguments, so same-named functions share entries |
| Caching.HitIsStored | src/utils/custom_cache.py:26-34 | a hit returns the live stored value, and its timestamp, when present, is younger than `ttl` |
| Caching.SecondCallHits | src/utils/custom_cache.py:35-37 | right after a miss has stored its result, the same call hits with that result |
| Caching.NoTimestampMisses | src/utils/custom_cache.py:27 | an entry without a timestamp counts as stored at time 0, so once `now >= ttl` it is recomputed |
| Caching.CallMemoized | src/utils/custom_cache.py:23-38 | a hit returns the stored value without calling and only marks the key as used; a miss calls once; a raising call stores nothing; a returning call is added with the current time |
| Assets.CategoryIndex | src/subsystems/sys_assets_storage.py:28-32 | the category chosen is the first one listing the extension, and none when no category lists it |
| Assets.CategoryTable | src/subsystems/sys_assets_storage.py:28-32 | mp3/wav/ogg are audio, mp4/webm/mov/avi videos, png/jpg/jpeg/gif images, anything else no category |
| Assets.GetFolderCategory | src/subsystems/sys_assets_storage.py:44-57 | the category lookup fails exactly when the name has no extension |
| Assets.FolderCategoryCases | src/subsystems/sys_assets_storage.py:44-57 | an extension is lower-cased, its dot removed, and looked up in the category table |
| Assets.FolderCategoryIgnoresCase | src/subsystems/sys_assets_storage.py:53-54 | "song.MP3" is audio |
| Assets.InvalidSubstringsAreChars | src/subsystems/sys_assets_storage.py:66-67 | containing one of the forbidden substrings is containing one of the forbidden characters |
| Assets.ValidateFilenameMeaning | src/subsystems/sys_assets_storage.py:59-74 | a name is refused exactly when it is "." or "..", starts with ".well-known/acme-challenge/", or contains one of \r \n # [ ] * ? : " < > \| |
| Assets.BlobName | src/subsystems/sys_assets_storage.py:86-90 | the blob name is "category/name" when the extension has a category, the bare name otherwise, and an error with no extension |
| Assets.UploadFromMemory | src/subsystems/sys_assets_storage.py:80-92 | the upload stores the contents under the chosen blob name with the given content type, and fails exactly when the blob name does |
| Assets.BlobNameExample | src/subsystems/sys_assets_storage.py:86-90 | "theme.mp3" is stored as "audio/theme.mp3" |
| Assets.BlobNameWithoutExtension | src/subsystems/sys_assets_storage.py:53-54 | a name without an extension cannot be uploaded |
| Assets.FirstIndex | src/subsystems/sys_assets_storage.py:267-279 | the scan returns the first position whose key matches, and none when none does |
| Assets.SearchForBlob | src/subsystems/sys_assets_storage.py:267-279 | the search returns (file name, blob) of the first blob whose stem is the target, and None exactly when no stem matches |
| Assets.NumberedAppend | src/subsystems/sys_assets_storage.py:231-242 | numbering one more item appends one "n) item" line |
| Assets.NumberedFirstLine | src/subsystems/sys_assets_storage.py:231-238 | a listing starts with its first item, numbered from the start |
| Assets.RelativeAll | src/subsystems/sys_assets_storage.py:239-242 | every directory is listed, relative to the prefix |
| Assets.ListedNameNoSlash | src/subsystems/sys_assets_storage.py:231-238 | a listed blob name holds no '/': only files directly under the prefix are listed |
| Assets.ListedShape | src/subsystems/sys_assets_storage.py:231-238 | the blob listing is no longer than the blobs, and no entry contains '/' |
| Assets.ListBlobsAsStr | src/subsystems/sys_assets_storage.py:222-243 | both listings are the numbered forms of the files and the directories under `prefix + "/"` |
| Assets.ListedNameOf | src/subsystems/sys_assets_storage.py:233-237 | one step of the blob loop lists exactly the name the listing rule gives |
| Assets.ListBlobLines | src/subsystems/sys_assets_storage.py:231-238 | the blob loop builds the numbered listing of the files directly under the prefix |
| Assets.ListDirectoryLines | src/subsystems/sys_assets_storage.py:239-242 | the directory loop builds the numbered listing of the relative directories |
| Assets.ListBucketDirectoriesAsStr | src/subsystems/sys_assets_storage.py:258-265 | the bucket listing is a newline followed by the numbered directories |
| Assets.AssetsStorage.constructor | src/subsystems/sys_assets_storage.py:34-38 | the audio cache path is the project cache path plus "/AssetsStorage", and no audio file is chosen |
| Assets.AssetsStorage.DownloadAudioFile | src/subsystems/sys_assets_storage.py:111-115 | the audio file path becomes the cache path plus the clip name |
| Assets.AssetsStorage.GetAudioFile | src/subsystems/sys_assets_storage.py:117-129 | the clip is found exactly when a blob has its stem; then the path is set to that blob's file name, and otherwise it is unchanged |
| Helper.FinalComponent | src/utils/helper.py:42-48 | the final component holds no '/' and is no longer than the path |
| Helper.FinalComponentIsSuffix | src/utils/helper.py:42-48 | the final component is the part after the last '/' |
| Helper.LastDot | src/utils/helper.py:32-39 | the position found holds the last '.' of the name, and none exists when the name has no '.' |
| Helper.SuffixStart | src/utils/helper.py:32-39 | a suffix starts at a '.' that is neither the name's first nor its last character |
| Helper.GetFileExtension | src/utils/helper.py:32-39 | there is an extension exactly when the final component has a suffix by pathlib's rule, and None replaces '' |
| Helper.CombineStrings | src/utils/helper.py:17-23 | the combination starts with the name and a space |
| Helper.FinalComponentOfName | src/utils/helper.py:42-48 | a name without '/' is its own final component |
| Helper.GetFileNameIdempotent | src/utils/helper.py:42-48 | a file name holds no '/', and taking it twice is taking it once |
| Helper.NameIsStemAndExtension | src/utils/helper.py:42-57 | the file name is its stem followed by its extension (or nothing) |
| Helper.StemHasNoSlash | src/utils/helper.py:51-57 | a stem holds no '/' |
| Helper.GetNameIsStripFileExt | src/utils/helper.py:60-65 | `get_name` is `strip_file_ext`: the directories are already gone from the stem |
| Helper.ExtensionShape | src/utils/helper.py:32-39 | an extension is a '.' followed by at least one character, holds no other '.' and no '/', and ends the path |
| Helper.ExtensionOfDoubleSuffix | src/utils/helper.py:32-39 | only the last suffix counts: "a.tar.gz" has ".gz" |
| Helper.NoExtensionExamples | src/utils/helper.py:32-39 | "noext" and the dot-file ".env" have no extension |
| Helper.FinalComponentAfterDirectory | src/utils/helper.py:42-48 | the final component of "dir/name" is "name" |
| Helper.DirectoryDotIgnored | src/utils/helper.py:32-39 | a dot in a directory is not an extension |
| Helper.StemExample | src/utils/helper.py:51-57 | the stem of "src/cogs/admin.py" is "admin" |
| Helper.CombineStringsEmpty | src/utils/helper.py:17-23 | an empty list still leaves a trailing space |
| Twitch.FirstMatch | src/cogs/twitch.py:60-77 | the scan returns the first record passing the test, and none when none does |
| Twitch.FirstMatchAt | src/cogs/twitch.py:60-77 | a record that passes, with none passing before it, is the one found |
| Twitch.SetTwitchUser | src/cogs/twitch.py:23-47 | one reply; an empty id is refused; the record is added exactly when the id is set and the name is not yet registered; otherwise the name is reported taken |
| Twitch.EmptyDatabaseAccepts | src/cogs/twitch.py:38-47 | with no database or an empty one, a valid user is added |
| Twitch.UpdateTwitchUser | src/cogs/twitch.py:51-79 | the update raises exactly when the database is missing, and only ever rewrites a record as (new name, new id) |
| Twitch.UpdateDecidedByFirstMatch | src/cogs/twitch.py:60-77 | the first record naming the old or the new user decides: new name taken, updated, or the new id is invalid |
| Twitch.UpdateNotFoundIff | src/cogs/twitch.py:57-79 | "not found" is the last reply exactly when no record names either user; an empty database also sends the empty notice first |
| Twitch.DeleteTwitchUser | src/cogs/twitch.py:84-93 | the delete raises exactly when the database is missing; it removes the key of the first record naming the user, when there is one, and reports not found otherwise |
| Twitch.UsersListingAppend | src/cogs/twitch.py:98-103 | one more record appends one "n: user" line |
| Twitch.GetTwitchUsers | src/cogs/twitch.py:96-105 | the listing sends the header and the fenced numbered list, and raises exactly when the database is missing |
| Twitch.Announcements | src/cogs/twitch.py:134-140 | no more messages are deleted than were read |
| Twitch.CheckActionsStep | src/cogs/twitch.py:113-140 | one more streamer appends exactly that streamer's actions |
| Twitch.LiveStreamerPosts | src/cogs/twitch.py:122-133 | a live streamer gets at most one post, exactly when no recent message contains the notification |
| Twitch.OfflineDeletesExactly | src/cogs/twitch.py:134-140 | for an offline streamer, a message is deleted exactly when its text is the notification |
| Twitch.OfflineNeverPosts | src/cogs/twitch.py:134-140 | an offline streamer causes only deletions |
| Twitch.Announced | src/cogs/twitch.py:122-133 | the loop over recent messages answers whether the notification is already there |
| Twitch.CleanChannel | src/cogs/twitch.py:134-140 | the delete loop makes exactly the offline streamer's deletions |
| Twitch.CheckIfStreamersOnline | src/cogs/twitch.py:108-142 | the actions are the streamers' actions in order, and the error is logged exactly when the database is missing |
| League.PlayerRole | src/cogs/league.py:20-28 | a mapped (lane, role) pair gives its name, any other pair "N/A" |
| League.RoleTable | src/cogs/league.py:20-28 | the map is exactly Middle, Top, Jungle, ADC and Support |
| League.BottomDuoUnmapped | src/cogs/league.py:20-28 | the bottom-lane duo roles are not mapped |
| League.FindPlayer | src/cogs/league.py:181-183 | the participant chosen is the first with the player's id, and none when absent |
| League.RecordOf | src/cogs/league.py:191-209 | a record copies the champion, kills, deaths, assists and result, and maps the role |
| League.Records | src/cogs/league.py:173-209 | built records hold one record per match; a failure names a match of the list |
| League.RecordsOkAll | src/cogs/league.py:173-209 | records that build found the player in every match |
| League.RecordsAllOk | src/cogs/league.py:173-209 | a player found in every match makes the records build |
| League.RecordsFirstFailure | src/cogs/league.py:181-183 | a failure names a match without the player, and every earlier match has the player |
| League.RecordsInOrder | src/cogs/league.py:173-209 | the i-th record is built from the i-th match's first participant with the player's id |
| League.RecordsFailAt | src/cogs/league.py:181-183 | the first match without the player ends the build at that index |
| League.BuildRecords | src/cogs/league.py:173-209 | the first loop builds exactly the records |
| League.Block | src/cogs/league.py:217-226 | each stats block starts with "Match #n — Date: " |
| League.StatsTextStartsAtOne | src/cogs/league.py:214-226 | matches are numbered from 1 |
| League.SumAppend | src/cogs/league.py:229-231 | totals add over concatenation |
| League.SumBoundsEach | src/cogs/league.py:229-231 | a total is at least each match's count |
| League.Summarize | src/cogs/league.py:214-233 | the second loop builds the stats text and the kill, death and assist totals |
| League.TotalKda | src/cogs/league.py:236-237 | with no deaths the KDA is kills + assists; otherwise it is the ratio (kills + assists) / deaths |
| League.Report | src/cogs/league.py:240-247 | the report starts with the summoner line, the stats and "Total kills: ", and ends with the KDA |
| League.CtxInfoCall | log.py:121-124 | a call to `CTX_INFO` succeeds exactly with its two positional arguments |
| League.ReportNeverSent | src/cogs/league.py:240-247 | as written, the summary call lacks an argument, so it always raises and nothing is sent |
| League.ReportReply | src/cogs/league.py:240-247 | the summary is sent as the context's info message |
| League.ReportReplyAsWritten | src/cogs/league.py:240-247 | the summary call, made with the report only, fails for a missing positional argument |
| League.MatchReport | src/cogs/league.py:173-247 | the report is built exactly when the records are, from the stats text, the totals and the KDA; otherwise the failure of the records |
| League.Matches | src/cogs/league.py:168-247 | as written: the loading notice names the summoner; a match without the player fails inside the first loop and the notice stays; otherwise the notice is deleted and the summary call raises, so no summary is sent |
| League.MatchesIntended | src/cogs/league.py:168-247 | with the context passed to the summary call: the same notice and failures, and otherwise the reply is the info message of the report of the totals |
| League.GetLanguage | src/cogs/league.py:106-120 | the language is returned exactly when the list holds it |
| Anime.ResultField | src/cogs/anime.py:72-73 | a result field is "i: title" with value "anime_id: id" |
| Anime.SearchFieldsNumbered | src/cogs/anime.py:71-73 | one field per result, numbered from 1 in result order |
| Anime.SearchFields | src/cogs/anime.py:71-73 | the loop builds exactly the numbered fields |
| Anime.SearchAnimix | src/cogs/anime.py:42-76 | no keyword is refused; a null answer sends nothing; a failure sends the traceback; no results gives the ":(" field; otherwise the numbered fields |
| Anime.NoKeyword | src/cogs/anime.py:45-48 | the keyword is empty exactly when there are no words or one empty word |
| Anime.AnimeIdDropsPrefix | src/cogs/anime.py:60 | the id drops a leading "/v1/" |
| Anime.WindowIndexes | src/cogs/anime.py:96-102 | the window is the last n episode indexes when n < eptotal, and all of them otherwise |
| Anime.WindowShape | src/cogs/anime.py:96-102 | the window has min(n, eptotal) indexes, none for a negative n, and ends at the last episode |
| Anime.CleanLink | src/cogs/anime.py:97-102 | a cleaned link holds no "//" |
| Anime.Episodes | src/cogs/anime.py:96-102 | the episodes are built exactly when every index is a key; each is numbered index + 1 with its cleaned link; otherwise a missing index is reported |
| Anime.EpisodesNumbered | src/cogs/anime.py:96-102 | episode numbers are consecutive and end at `eptotal` |
| Anime.EpisodeField | src/cogs/anime.py:110-111 | an episode field's value is a "[LINK](https://…)" link |
| Anime.EpisodeFieldsOf | src/cogs/anime.py:108-111 | one field per episode |
| Anime.EpisodeFieldsInOrder | src/cogs/anime.py:108-111 | the k-th field is the k-th episode's |
| Anime.EpisodeFields | src/cogs/anime.py:108-111 | the loop builds exactly the episode fields |
| Anime.FetchRecentEpisodes | src/cogs/anime.py:80-121 | an empty id is refused; a failure or a missing key sends the traceback; otherwise the embed of the window's episodes |
| Memes.Coords | src/cogs/memes.py:21-24 | "small" has two text boxes and "aye" three |
| Memes.Captions | src/cogs/memes.py:48 | filtering never adds pieces |
| Memes.CaptionsAppend | src/cogs/memes.py:48 | captions keep the order of the pieces |
| Memes.GetCaptions | src/cogs/memes.py:42-49 | there are at most one more captions than delimiters, and no caption contains the delimiter |
| Memes.EmptyMessageNoCaptions | src/cogs/memes.py:47-49 | an empty message has no captions |
| Memes.BlankPieceKept | src/cogs/memes.py:48 | a piece of whitespace is kept, as an empty caption |
| Memes.EmptyPieceDropped | src/cogs/memes.py:48 | a piece that is exactly empty is dropped |
| Memes.Placements | src/cogs/memes.py:67 | each box is paired with the caption at its position |
| Memes.WriteTextToImg | src/cogs/memes.py:51-82 | a meme is made exactly when the captions match the boxes in number, and then pairs them; otherwise only the "at least" error is sent |
| Memes.SendMeme | src/cogs/memes.py:84-85 | a file is sent exactly when there is a meme |
| Admin.ChangeCmdPrefix | src/cogs/admin.py:28-39 | a prefix longer than one character is refused; otherwise the first settings key is written and announced once; empty settings write nothing; a missing snapshot raises |
| Admin.PrefixWritesFirstKeyOnly | src/cogs/admin.py:34-39 | only the first key is updated |
| Admin.AvatarUrl | src/cogs/admin.py:64-67 | no URL takes a single attachment's URL; a given URL loses its angle brackets; an empty one gives none |
| Admin.AvatarUrlUnwraps | src/cogs/admin.py:67 | "<url>" gives url |
| Admin.ExplicitUrlWins | src/cogs/admin.py:64-67 | a given URL wins over an attachment |
| Admin.PresenceOf | src/cogs/admin.py:126-147 | an activity exists exactly for the four statuses, and carries the text |
| Admin.ChangeBotPresence | src/cogs/admin.py:121-154 | no text is refused; a known lower-cased status sets its activity with a success reply; otherwise the list of statuses is sent |
| Admin.StatusIgnoresCase | src/cogs/admin.py:121 | "Playing" sets a game |
| Admin.SwitchCommand | src/cogs/admin.py:164-182 | no name or an unknown name is refused; otherwise the command ends in the requested state, and no other command changes |
| Admin.UploadToCloud | src/cogs/admin.py:184-193 | a status other than 200 uploads nothing; otherwise the upload's result is returned |
| Admin.StepOf | src/cogs/admin.py:210-219 | one attachment: an invalid name stops, a failed or raising upload stops, else the blob is uploaded |
| Admin.StopAt | src/cogs/admin.py:212-218 | every stopping step names why it stopped |
| Admin.Run | src/cogs/admin.py:209-219 | the uploads are the steps before the first stopping step, which decides the stop |
| Admin.UploadRunMeaning | src/cogs/admin.py:204-220 | all attachments upload or the first invalid, failed or raising one stops the loop, and each earlier one was valid and uploaded |
| Admin.CheckAndUpload | src/cogs/admin.py:210-219 | one loop step computes exactly that attachment's step |
| Admin.UploadAttachments | src/cogs/admin.py:208-219 | the loop's uploads and stop are those of the steps |
| Admin.UploadFile | src/cogs/admin.py:197-220 | no attachment is refused; otherwise the uploads and the reply are those of the first stop, and an upload exception propagates |
| Bot.CreateCmdPrefix | src/bot.py:215-224 | the default prefix is pushed; success logs a DEBUG line, failure two CRITICAL lines |
| Bot.CreateFailureAlwaysVisible | src/bot.py:215-224 | a failure to create the prefix is logged whatever the environment; the success line only in DEV |
| Bot.ReadPrefix | src/bot.py:201-205 | the loop reads the last record's prefix, or none when a record lacks it |
| Bot.GetCmdPrefix | src/bot.py:191-213 | a readable prefix is used; otherwise ">" is used and a default record is created |
| Bot.PrefixIsLastKeys | src/bot.py:202-205 | the prefix is the last record's |
| Bot.ReadFailures | src/bot.py:202-213 | a record without a prefix makes the read fail |
| Bot.PrefixReadDisagreesWithWrite | src/bot.py:202-205 | after `setprefix` with two records, the read still returns the second record's old prefix |
| Bot.BrokenRecordStaysBroken | src/bot.py:206-213 | a record without a prefix keeps every later read failing, even after a default record is pushed |
| Bot.Count | src/bot.py:81-83 | a count never exceeds the list's length |
| Bot.CountMultiset | src/bot.py:81-83 | the count is the multiplicity |
| Bot.OnMessage | src/bot.py:79-84 | one "What?" per mention of the bot, then the commands are processed |
| Bot.OnVoiceStateUpdate | src/bot.py:97-127 | greeting is off without the flag or the clip; a member listed by id who joins triggers it; the clip plays, by its name, in the member's channel, when it is available and the channel bound |
| Bot.GreetsOnlyOnJoin | src/bot.py:113-114 | leaving or moving between channels never greets |
| Bot.LeadingZeroIdIgnored | src/bot.py:113-114 | an id written with a leading zero never matches |
| Bot.Branch | src/bot.py:133-182 | the branch chosen is one of the error's classes |
| Bot.OnCommandError | src/bot.py:129-184 | the error is always logged; an error of no known class is echoed; otherwise the branch's reply |
| Bot.FirstMatchDecides | src/bot.py:133-182 | the first class in branch order that the error has decides the reply |
| Bot.NoMatchEchoes | src/bot.py:181-182 | an error of none of the classes takes the last branch |
| Bot.OrderMatters | src/bot.py:133-176 | a permissions error that is also a check failure gets the permissions reply |
| Bot.OtherCheckFailuresSilent | src/bot.py:175-176 | any other check failure sends nothing but is logged |
| Bot.HttpErrorSendsTwo | src/bot.py:133-182 | an HTTP error sends two messages |
| Firebase.GetKeyValuePair | src/subsystems/sys_firebase.py:43-54 | the result is (value, key) of the first record equal to the target, and None exactly when there is none |
| Firebase.FoundKeyHoldsTarget | src/subsystems/sys_firebase.py:50-53 | with distinct keys, the key found holds the target |
| Firebase.EmptyHasNoPair | src/subsystems/sys_firebase.py:54 | an empty table has no pair |
| ConfigParser.Lookup | src/config_parser.py:21-27 | a value is returned exactly when the section and option exist and the string is non-empty |
| ConfigParser.Store | src/config_parser.py:29-32 | a set adds the section when it is missing, stores the option, and keeps every other section and option |
| ConfigParser.SetThenGet | src/config_parser.py:21-32 | a non-empty value set is read back |
| ConfigParser.SetEmptyReadsNone | src/config_parser.py:21-32 | an empty value set reads as missing |
| ConfigParser.SetKeepsOthers | src/config_parser.py:29-32 | a set changes no other lookup |
| ConfigParser.CustomConfigParser.constructor | src/config_parser.py:11-14 | the parser holds the parsed table |
| ConfigParser.CustomConfigParser.GetValue | src/config_parser.py:21-27 | the lookup on the parser's table |
| ConfigParser.CustomConfigParser.SetValue | src/config_parser.py:29-32 | the table becomes the stored one; the value reads back; nothing else changes |
| ConfigParser.CustomConfigParser.GetBotValue | src/config_parser.py:34-36 | a lookup in the "bot" section |
| ConfigParser.CustomConfigParser.GetBotDbValue | src/config_parser.py:38-40 | a lookup in the "bot_db" section |
| ConfigParser.RawStrings | src/config_parser.py:21-27 | values are strings: "False" is a present value |
| Config.BotValueOr | config.py:37-42 | a bot option or its default |
| Config.ParseInt | config.py:20-21 | `int()` fails on an empty or blank string |
| Config.ParseDigits | config.py:20-21 | `int()` reads decimal digits |
| Config.ParseNegativeDigits | config.py:20-21 | `int()` reads a minus sign |
| Config.ParseIntRoundTrip | config.py:20-21 | `int(str(n))` is n, and also with a minus sign |
| Config.RoleValue | config.py:20-21 | a role option that is missing or not an integer is fatal |
| Config.Derive | config.py:11-81 | a missing token or guild is fatal; roles are non-zero integers and staff falls back to admin; greeting is on exactly when the option is present, and then needs a clip; a missing greeting-ids or excluded-cogs option is fatal; ids are split on commas with spaces removed; excluded cogs are the stripped value split on commas; the clip path, the token, guild and environment, and the two database paths are carried as read; the time zone, description, join and status messages take their defaults |
| Config.AdminRoleZeroIsFatal | config.py:23-24 | an admin role of 0 is fatal |
| Config.GreetingWithoutClipIsFatal | config.py:55-59 | greeting without a clip path is fatal |
| Config.GreetingFlagIsPresence | config.py:47-53 | "False" still turns greeting on |
| Config.GreetingIdsHaveNoSpaces | config.py:61-66 | no greeting id holds a space or a comma |
| Config.SplitExample | config.py:61-66 | splitting keeps the spaces after commas |
| Config.ExcludedCogsKeepInnerSpaces | config.py:68 | derived from "a, b", the excluded cogs are "a" and " b": spaces after commas stay |
| App.ModuleName | app.py:68-69 | a module name holds no '/' |
| App.ReplaceCharGone | app.py:68-69 | replacing '/' by '.' leaves no '/' |
| App.Loaded | app.py:63-70 | no more cogs load than files are listed |
| App.LoadedStep | app.py:63-70 | each listed file adds its module name exactly when it is an accepted ".py" file, and nothing otherwise |
| App.SetupCogs | app.py:56-71 | outside `__main__` nothing loads; otherwise exactly the accepted files, in listing order |
| App.LoadedAreAccepted | app.py:63-70 | every module loaded comes from a listed ".py" file whose stem is not excluded |
| App.StemInDirectory | app.py:64-65 | the stem of "dir/name" is the stem of the name |
| App.AdminStem | app.py:64-65 | "admin.py" has stem "admin" |
| App.ModuleNameTwoLevels | app.py:68-69 | "./a/b" and "stem.py" make "a.b.stem" |
| App.ReplaceOneSlash | app.py:68-69 | "a/b" becomes "a.b" |
| App.LStripDropsWholeRun | app.py:68 | the strip drops every leading '.' and '/', not the prefix "./" |
| App.SpacedExclusionIgnored | app.py:66 | an excluded name with a leading space excludes nothing |
| Log.ColorOf | log.py:37-44 | a known level has its non-empty colour, any other none |
| Log.Format | log.py:46-50 | the line is the colour, the message, then the reset |
| Log.FormatUnwraps | log.py:46-50 | the message is recovered between colour and reset |
| Log.UnknownLevelUncoloured | log.py:48 | an unknown level has no colour |
| Log.LevelColours | log.py:18-44 | ERROR and CRITICAL are red; DEBUG, INFO and WARNING differ and are not red |
| Log.Threshold | log.py:57 | the threshold is DEBUG exactly in DEV, otherwise CRITICAL |
| Log.ThresholdFilters | log.py:57 | a line is kept exactly in DEV, or when it is CRITICAL |
| Log.CtxError | log.py:116-119 | "mention: ERROR: message" |
| Log.CtxInfo | log.py:121-124 | "mention: message" |
| Log.CtxSuccess | log.py:126-129 | "mention: SUCCESS: message" |
| Log.CtxInjective | log.py:116-129 | each shape gives back its message |
| Log.ErrorIsPrefixedInfo | log.py:116-124 | an error message is an info message starting "ERROR: " |
| Strings.Split | src/cogs/memes.py:47 | a split has at least one piece |
| Strings.SplitCount | src/cogs/memes.py:47 | a split has one more piece than delimiters |
| Strings.SplitPieces | src/cogs/memes.py:47 | no piece contains the delimiter |
| Strings.SplitJoin | src/cogs/memes.py:47 | joining the pieces with the delimiter gives back the string |
| Strings.NatToString | src/bot.py:113 | `str(n)` is non-empty decimal digits, with no leading zero except for 0 |
| Strings.DigitsRoundTrip | src/bot.py:113 | the digits read back as n |
| Strings.NatToStringInjective | src/bot.py:113 | distinct ids have distinct strings |

## Left out

- I/O is not modelled. That covers:
  - Discord sends, embeds, edits, DMs, message history and deletion;
  - voice and `asyncio.sleep`;
  - the Firebase, storage, Riot, Twitch and HTTP calls.

  Their results are inputs: snapshots, responses, message lists and the clip's availability.
- `on_ready`, `run`/`start`/`close`, `on_member_join`, `change_nickname`, `dm` and `setup` are left out. They only call Discord.
- Randomness is left out (`get_random_blob`, `unbox`, `rtd`).
- Floating point is left out:
  - the League KDA ratio is a parameter, `formatRatio`;
  - the match dates take a parameter, `formatDate`.
- Scraping and image libraries are left out:
  - the BeautifulSoup and `literal_eval` parsing is replaced by its parsed result;
  - the drawing, the image files and the file name of the meme are not modelled.
- Caching: cachetools is modelled, not quoted:
  - `time()` and cachetools' monotonic timer are one explicit `now`;
  - the order after overwriting an existing key is the model's choice (the entry moves to the end);
  - eviction reads stamps that `get`, `values` and inserts update, following cachetools.
- Caching: time is an `int`, where `time()` returns a float. Sub-second differences in the `diff < ttl` test are not modelled.
- Caching.MakeKey: the key `(func.__name__, args, frozenset(kwargs.items()))` is a value of the model. The `TypeError` Python raises when an argument is unhashable is not modelled.
- Firebase.GetKeyValuePair takes the snapshot as a table. A `None` snapshot (an empty path), for which `for key in data` raises `TypeError`, is not modelled.
- App.SetupCogs records each `load_extension` as its module name. A failing `load_extension` (import error, missing `setup`) raises in Discord's code and is not modelled.
- Anime: `embed.set_author` (the author's display name and avatar) is not modelled. An embed is its title and its list of fields.
- Helper: paths are '/'-separated strings without empty components. pathlib's normalisation of "//" and trailing slashes is not modelled.
- Strings.Lower lower-cases ASCII letters only. There is no Unicode case mapping.
- Config.ParseInt accepts an optional sign and decimal digits around blanks. It does not accept `int()`'s underscores or non-ASCII digits.
- ConfigParser: the file parsing, interpolation, option-name case folding and `write` of `configparser` are not modelled. Neither are `get_sections` and `get_options`.
- Config.Derive takes the time-zone check as the parameter `knownZone`, standing for pytz.
- Assets: `_get_directories` returns a set in the source. Its order is unspecified, so the model takes it as a given sequence.
- Assets: the storage download, upload, rename, delete and signed URLs are not modelled. Neither are the rest of the subsystem's file helpers.
- Admin.UploadToCloud treats a missing content-type header as just another content-type string.
- Admin.UploadFile: the per-upload DEBUG lines are not modelled.
- Bot.GetCmdPrefix: the DEBUG lines carrying the exception text are not modelled. Neither is the key that Firebase's push generates.
- Bot.OnCommandError: the error-class hierarchy is given as the set of classes the error belongs to. The cooldown's float `retry_after` is given as already-formatted text, and the traceback text is a parameter (as in Anime).
- Memes.GetCaptions splits on a one-character delimiter, the only one the commands use. Its strip removes the full `str.isspace` set (`Strings.IsSpace`), not just ASCII whitespace.
- Twitch: the Twitch API answer is the input `live`.
- log.py: the logger and handler set-up is not modelled. Neither are the module-level logging calls; the model keeps their level and message.

## Findings

| source | as written | input that shows it | evidently intended | confidence | as-written member | corrected member |
|---|---|---|---|---|---|---|
| src/cogs/league.py:240-247 | `Logger.CTX_INFO` is called with the report only, without the context, so the call raises `TypeError` | any summoner whose matches all hold the player | the report is sent with the command's context, as every other reply is | not executed | League.ReportReplyAsWritten, with League.ReportNeverSent and League.Matches | League.ReportReply, with League.MatchesIntended |
