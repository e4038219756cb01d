/** The object-name rules of src/subsystems/sys_assets_storage.py. Blobs are
    represented by their names; the bucket listings arrive as sequences of
    names in the order the bucket returns them. */
module Assets {
  import opened Wrappers
  import opened Strings
  import opened Helper

  /** `AssetsStorage.CATEGORIES`, in declaration order. */
  const Categories: seq<(seq<string>, string)> := [
    (["mp3", "wav", "ogg"], "audio"),
    (["mp4", "webm", "mov", "avi"], "videos"),
    (["png", "jpg", "jpeg", "gif"], "images")
  ]

  /** The position of the first category listing `ext`. */
  function CategoryIndex(ext: string, cats: seq<(seq<string>, string)>): (r: Option<nat>)
    ensures r.Some? ==> r.value < |cats| && ext in cats[r.value].0
                        && forall j :: 0 <= j < r.value ==> ext !in cats[j].0
    ensures r.None? ==> forall j :: 0 <= j < |cats| ==> ext !in cats[j].0
    decreases |cats|
  {
    if |cats| == 0 then None
    else if ext in cats[0].0 then Some(0)
    else match CategoryIndex(ext, cats[1..])
      case Some(i) => Some(i + 1)
      case None => None
  }

  /** The folder of the first category listing `ext`. */
  function CategoryOfExt(ext: string, cats: seq<(seq<string>, string)>): Option<string> {
    match CategoryIndex(ext, cats)
    case Some(i) => Some(cats[i].1)
    case None => None
  }

  /** The extensions of each group go to its folder and all others to none. */
  lemma CategoryTable(ext: string)
    ensures CategoryOfExt(ext, Categories)
         == if ext in ["mp3", "wav", "ogg"] then Some("audio")
            else if ext in ["mp4", "webm", "mov", "avi"] then Some("videos")
            else if ext in ["png", "jpg", "jpeg", "gif"] then Some("images")
            else None
  {
    var r := CategoryIndex(ext, Categories);
    if ext in Categories[0].0 {
      assert r == Some(0);
    } else if ext in Categories[1].0 {
      assert r == Some(1);
    } else if ext in Categories[2].0 {
      assert r == Some(2);
    } else {
      assert r == None;
    }
  }

  /** The extension as `_get_folder_category` compares it: lower-cased and
      without its dot. */
  function NormalizedExtension(fileName: string): Option<string> {
    match GetFileExtension(fileName)
    case Some(x) => Some(ReplaceAll(Lower(x), ".", ""))
    case None => None
  }

  /** Raised by `file_ext.lower()` when the name has no extension. */
  datatype StorageError = NoExtension

  /** `_get_folder_category` */
  function GetFolderCategory(fileName: string): (r: Result<Option<string>, StorageError>)
    ensures r.Err? <==> GetFileExtension(fileName).None?
  {
    match NormalizedExtension(fileName)
    case Some(ext) => Ok(CategoryOfExt(ext, Categories))
    case None => Err(NoExtension)
  }

  /** Each extension group maps to its folder and every other extension to
      no folder. */
  lemma FolderCategoryCases(fileName: string)
    requires GetFileExtension(fileName).Some?
    ensures var ext := NormalizedExtension(fileName).value;
      GetFolderCategory(fileName)
      == Ok(if ext in ["mp3", "wav", "ogg"] then Some("audio")
            else if ext in ["mp4", "webm", "mov", "avi"] then Some("videos")
            else if ext in ["png", "jpg", "jpeg", "gif"] then Some("images")
            else None)
  {
    CategoryTable(NormalizedExtension(fileName).value);
  }

  lemma MP3Extension()
    ensures GetFileExtension("song.MP3") == Some(".MP3")
  {
    FinalComponentOfName("song.MP3");
    assert LastDot("song.MP3") == Some(4);
  }

  lemma LowerMP3()
    ensures ReplaceAll(Lower(".MP3"), ".", "") == "mp3"
  {
    assert Lower(".MP3") == ".mp3";
    assert ReplaceAll(".mp3", ".", "") == ReplaceAll("mp3", ".", "");
  }

  /** The comparison ignores case. */
  lemma FolderCategoryIgnoresCase()
    ensures GetFolderCategory("song.MP3") == Ok(Some("audio"))
  {
    MP3Extension();
    LowerMP3();
    CategoryTable("mp3");
  }

  /** The characters Google Cloud Storage does not allow in object names,
      one per entry of `invalid_substrings`. */
  const InvalidChars: string := "\r\n#[]*?:\"<>|"

  const InvalidSubstrings: seq<string> :=
    ["\r", "\n", "#", "[", "]", "*", "?", ":", "\"", "<", ">", "|"]

  /** `any([substr in s for substr in subs])` */
  predicate AnyContained(s: string, subs: seq<string>) {
    exists i :: 0 <= i < |subs| && Contains(s, subs[i])
  }

  /** A forbidden substring occurs exactly when a forbidden character does. */
  lemma InvalidSubstringsAreChars(filename: string)
    ensures AnyContained(filename, InvalidSubstrings) <==> exists c :: c in InvalidChars && c in filename
  {
    assert |InvalidSubstrings| == |InvalidChars|;
    forall i | 0 <= i < |InvalidChars|
      ensures Contains(filename, InvalidSubstrings[i]) <==> InvalidChars[i] in filename
    {
      assert InvalidSubstrings[i] == [InvalidChars[i]];
      ContainsChar(filename, InvalidChars[i]);
    }
  }

  /** `validate_filename` */
  function ValidateFilename(filename: string): bool {
    if filename == "." || filename == ".." then false
    else if StartsWith(filename, ".well-known/acme-challenge/") then false
    else !AnyContained(filename, InvalidSubstrings)
  }

  /** The rejected names are exactly ".", "..", the names under the ACME
      challenge directory and the names holding a forbidden character. */
  lemma ValidateFilenameMeaning(filename: string)
    ensures !ValidateFilename(filename)
        <==> (filename == "." || filename == ".."
              || StartsWith(filename, ".well-known/acme-challenge/")
              || exists c :: c in InvalidChars && c in filename)
  {
    InvalidSubstringsAreChars(filename);
  }

  /** An uploaded object. */
  datatype Blob = Blob(name: string, contents: string, contentType: string)

  /** The object name `upload_from_memory` writes to: "category/name" when the
      extension has a folder, the name itself otherwise; a name without an
      extension fails before anything is uploaded. */
  function BlobName(dstBlobName: string): (r: Result<string, StorageError>)
    ensures r.Err? <==> GetFileExtension(dstBlobName).None?
    ensures r.Ok? ==> match GetFolderCategory(dstBlobName).value
                      case Some(c) => r.value == c + "/" + dstBlobName
                      case None => r.value == dstBlobName
  {
    match GetFolderCategory(dstBlobName)
    case Err(e) => Err(e)
    case Ok(None) => Ok(dstBlobName)
    case Ok(Some(category)) => Ok(category + "/" + dstBlobName)
  }

  /** `upload_from_memory(contents, dst_blob_name, content_type)` */
  function UploadFromMemory(contents: string, dstBlobName: string, contentType: string := "text/plain")
    : (r: Result<Blob, StorageError>)
    ensures r.Err? <==> BlobName(dstBlobName).Err?
    ensures r.Ok? ==> r.value == Blob(BlobName(dstBlobName).value, contents, contentType)
  {
    match BlobName(dstBlobName)
    case Err(e) => Err(e)
    case Ok(name) => Ok(Blob(name, contents, contentType))
  }

  lemma Mp3Extension()
    ensures GetFileExtension("theme.mp3") == Some(".mp3")
  {
    FinalComponentOfName("theme.mp3");
    assert LastDot("theme.mp3") == Some(5);
  }

  lemma NormalizedMp3()
    ensures ReplaceAll(Lower(".mp3"), ".", "") == "mp3"
  {
    assert Lower(".mp3") == ".mp3";
    assert ReplaceAll(".mp3", ".", "") == ReplaceAll("mp3", ".", "");
  }

  /** Audio goes under "audio/". */
  lemma BlobNameExample()
    ensures BlobName("theme.mp3") == Ok("audio/theme.mp3")
  {
    Mp3Extension();
    NormalizedMp3();
    assert NormalizedExtension("theme.mp3") == Some("mp3");
    CategoryTable("mp3");
    assert GetFolderCategory("theme.mp3") == Ok(Some("audio"));
    assert "audio" + "/" + "theme.mp3" == "audio/theme.mp3";
  }

  /** A name without an extension cannot be uploaded. */
  lemma BlobNameWithoutExtension()
    ensures BlobName("README") == Err(NoExtension)
  {
    FinalComponentOfName("README");
    assert LastDot("README") == None;
  }

  /** The position of the first element whose key is `target`. */
  function FirstIndex(xs: seq<string>, key: string -> string, target: string): (r: Option<nat>)
    ensures r.Some? ==> r.value < |xs| && key(xs[r.value]) == target
                        && forall j :: 0 <= j < r.value ==> key(xs[j]) != target
    ensures r.None? ==> forall j :: 0 <= j < |xs| ==> key(xs[j]) != target
    decreases |xs|
  {
    if |xs| == 0 then None
    else if key(xs[0]) == target then Some(0)
    else match FirstIndex(xs[1..], key, target)
      case Some(i) => Some(i + 1)
      case None => None
  }

  /** `search_for_blob`: the final component and the name of the first blob,
      in list order, whose stem is the target; None for `(None, None)`. */
  function SearchForBlob(blobs: seq<string>, target: string): (r: Option<(string, string)>)
    ensures r.None? <==> forall j :: 0 <= j < |blobs| ==> GetName(blobs[j]) != target
    ensures r.Some? ==> exists i :: 0 <= i < |blobs| && r.value == (GetFileName(blobs[i]), blobs[i])
                                  && GetName(blobs[i]) == target
                                  && forall j :: 0 <= j < i ==> GetName(blobs[j]) != target
  {
    match FirstIndex(blobs, GetName, target)
    case Some(i) => Some((GetFileName(blobs[i]), blobs[i]))
    case None => None
  }

  /** One listing line: "k) item\n". */
  function Line(k: nat, item: string): string {
    NatToString(k) + ") " + item + "\n"
  }

  /** The items numbered consecutively from `start`, one line each. */
  function Numbered(items: seq<string>, start: nat): string
    decreases |items|
  {
    if |items| == 0 then "" else Line(start, items[0]) + Numbered(items[1..], start + 1)
  }

  lemma {:induction false} NumberedAppend(items: seq<string>, x: string, start: nat)
    ensures Numbered(items + [x], start) == Numbered(items, start) + Line(start + |items|, x)
    decreases |items|
  {
    if |items| == 0 {
      assert items + [x] == [x];
    } else {
      assert (items + [x])[1..] == items[1..] + [x];
      NumberedAppend(items[1..], x, start + 1);
    }
  }

  /** Each line begins with its number, so k-th line carries the number
      start + k - 1. */
  lemma NumberedFirstLine(items: seq<string>, start: nat)
    requires |items| > 0
    ensures StartsWith(Numbered(items, start), NatToString(start) + ") " + items[0] + "\n")
  {
  }

  /** A blob name with the "prefix/" parts removed, as `list_blobs_as_str`
      shows it. */
  function Relative(blobName: string, prefixPath: string): string
    requires |prefixPath| > 0
  {
    ReplaceAll(blobName, prefixPath, "")
  }

  /** Every directory with "prefix/" removed. */
  function RelativeAll(directories: seq<string>, prefixPath: string): (r: seq<string>)
    requires |prefixPath| > 0
    ensures |r| == |directories|
  {
    if |directories| == 0 then []
    else RelativeAll(directories[..|directories| - 1], prefixPath)
         + [Relative(directories[|directories| - 1], prefixPath)]
  }

  /** What `list_blobs_as_str` shows for one blob: the stem of its relative
      name, when that name has an extension and no '/'. */
  function ListedName(blobName: string, prefixPath: string): (r: Option<string>)
    requires |prefixPath| > 0
  {
    var name := Relative(blobName, prefixPath);
    if GetFileExtension(name).Some? && '/' !in name then Some(GetName(name)) else None
  }

  /** A listed stem holds no '/'. */
  lemma ListedNameNoSlash(blobName: string, prefixPath: string)
    requires |prefixPath| > 0 && ListedName(blobName, prefixPath).Some?
    ensures '/' !in ListedName(blobName, prefixPath).value
  {
    var name := Relative(blobName, prefixPath);
    GetNameIsStripFileExt(name);
    StemHasNoSlash(name);
  }

  /** The names `list_blobs_as_str` lists, in blob order. */
  function Listed(blobNames: seq<string>, prefixPath: string): seq<string>
    requires |prefixPath| > 0
  {
    if |blobNames| == 0 then []
    else
      var front := Listed(blobNames[..|blobNames| - 1], prefixPath);
      match ListedName(blobNames[|blobNames| - 1], prefixPath)
      case Some(n) => front + [n]
      case None => front
  }

  lemma ListedStep(blobNames: seq<string>, i: nat, prefixPath: string)
    requires |prefixPath| > 0 && i < |blobNames|
    ensures Listed(blobNames[..i + 1], prefixPath)
         == match ListedName(blobNames[i], prefixPath)
            case Some(n) => Listed(blobNames[..i], prefixPath) + [n]
            case None => Listed(blobNames[..i], prefixPath)
  {
    assert blobNames[..i + 1][..i] == blobNames[..i];
  }

  /** One pass of the listing loop: a listable blob adds one numbered line,
      any other blob adds nothing. */
  lemma ListedNumberedStep(blobNames: seq<string>, i: nat, prefixPath: string)
    requires |prefixPath| > 0 && i < |blobNames|
    ensures var before := Listed(blobNames[..i], prefixPath);
      var after := Listed(blobNames[..i + 1], prefixPath);
      match ListedName(blobNames[i], prefixPath)
      case Some(n) => |after| == |before| + 1 && Numbered(after, 1) == Numbered(before, 1) + Line(|before| + 1, n)
      case None => after == before
  {
    ListedStep(blobNames, i, prefixPath);
    if ListedName(blobNames[i], prefixPath).Some? {
      NumberedAppend(Listed(blobNames[..i], prefixPath), ListedName(blobNames[i], prefixPath).value, 1);
    }
  }

  /** There are no more listed names than blobs, and no listed stem holds
      a '/'. */
  lemma {:induction false} ListedShape(blobNames: seq<string>, prefixPath: string)
    requires |prefixPath| > 0
    ensures |Listed(blobNames, prefixPath)| <= |blobNames|
    ensures forall i :: 0 <= i < |Listed(blobNames, prefixPath)| ==> '/' !in Listed(blobNames, prefixPath)[i]
    decreases |blobNames|
  {
    if |blobNames| > 0 {
      ListedShape(blobNames[..|blobNames| - 1], prefixPath);
      var last := blobNames[|blobNames| - 1];
      if ListedName(last, prefixPath).Some? {
        ListedNameNoSlash(last, prefixPath);
      }
    }
  }

  /** `list_blobs_as_str(prefix)` over the blobs and the directories under
      "prefix/": the listed files numbered from 1, and the directories
      (with "prefix/" removed) numbered from 1. */
  method ListBlobsAsStr(blobNames: seq<string>, directories: seq<string>, prefix: string)
    returns (blobsPaths: string, directoriesInPath: string)
    ensures blobsPaths == Numbered(Listed(blobNames, prefix + "/"), 1)
    ensures directoriesInPath == Numbered(RelativeAll(directories, prefix + "/"), 1)
  {
    var prefixPath := prefix + "/";
    blobsPaths := ListBlobLines(blobNames, prefixPath);
    directoriesInPath := ListDirectoryLines(directories, prefixPath);
  }

  /** The body of the first loop of `list_blobs_as_str` for one blob: the
      stem to list, if any. */
  method ListedNameOf(blobName: string, prefixPath: string) returns (r: Option<string>)
    requires |prefixPath| > 0
    ensures r == ListedName(blobName, prefixPath)
  {
    var name := Relative(blobName, prefixPath);
    var blobExt := GetFileExtension(name);
    if blobExt.Some? && '/' !in name {
      name := GetName(name);
      r := Some(name);
    } else {
      r := None;
    }
  }

  /** The first loop of `list_blobs_as_str`: one numbered line per listed
      file. */
  method ListBlobLines(blobNames: seq<string>, prefixPath: string) returns (blobsPaths: string)
    requires |prefixPath| > 0
    ensures blobsPaths == Numbered(Listed(blobNames, prefixPath), 1)
  {
    blobsPaths := "";
    var counter := 0;
    var i := 0;
    while i < |blobNames|
      invariant 0 <= i <= |blobNames|
      invariant counter == |Listed(blobNames[..i], prefixPath)|
      invariant blobsPaths == Numbered(Listed(blobNames[..i], prefixPath), 1)
    {
      var listed := ListedNameOf(blobNames[i], prefixPath);
      ListedNumberedStep(blobNames, i, prefixPath);
      ghost var after := Listed(blobNames[..i + 1], prefixPath);
      if listed.Some? {
        counter := counter + 1;
        blobsPaths := blobsPaths + Line(counter, listed.value);
      }
      assert counter == |after| && blobsPaths == Numbered(after, 1);
      i := i + 1;
    }
    assert blobNames[..i] == blobNames;
  }

  /** The second loop of `list_blobs_as_str`: one numbered line per
      directory. */
  method ListDirectoryLines(directories: seq<string>, prefixPath: string) returns (directoriesInPath: string)
    requires |prefixPath| > 0
    ensures directoriesInPath == Numbered(RelativeAll(directories, prefixPath), 1)
  {
    directoriesInPath := "";
    var counter2 := 0;
    while counter2 < |directories|
      invariant 0 <= counter2 <= |directories|
      invariant directoriesInPath == Numbered(RelativeAll(directories[..counter2], prefixPath), 1)
    {
      var folder := Relative(directories[counter2], prefixPath);
      assert directories[..counter2 + 1][..counter2] == directories[..counter2];
      NumberedAppend(RelativeAll(directories[..counter2], prefixPath), folder, 1);
      counter2 := counter2 + 1;
      directoriesInPath := directoriesInPath + Line(counter2, folder);
    }
    assert directories[..counter2] == directories;
  }

  /** `list_bucket_directories_as_str`: a newline, then one numbered line per
      directory. */
  method ListBucketDirectoriesAsStr(directories: seq<string>) returns (message: string)
    ensures message == "\n" + Numbered(directories, 1)
  {
    message := "\n";
    var i := 0;
    while i < |directories|
      invariant 0 <= i <= |directories|
      invariant message == "\n" + Numbered(directories[..i], 1)
    {
      var count := i + 1;
      assert directories[..i + 1] == directories[..i] + [directories[i]];
      NumberedAppend(directories[..i], directories[i], 1);
      message := message + Line(count, directories[i]);
      i := i + 1;
    }
    assert directories[..i] == directories;
  }

  /** The part of `AssetsStorage` with state: where the last downloaded audio
      clip was written. */
  class AssetsStorage {
    var audioFilePath: string
    const audioCachePath: string

    constructor (projCachePath: string)
      ensures audioCachePath == projCachePath + "/AssetsStorage" && audioFilePath == ""
    {
      audioCachePath := projCachePath + "/AssetsStorage";
      audioFilePath := "";
    }

    /** `download_audio_file`: records the cache path the clip is written to. */
    method DownloadAudioFile(audioClipName: string)
      modifies this
      ensures audioFilePath == audioCachePath + "/" + audioClipName
    {
      audioFilePath := audioCachePath + "/" + audioClipName;
    }

    /** `get_audio_file` over the blobs under "audio/": false, and nothing
        recorded, when no blob has the clip's name as its stem. */
    method GetAudioFile(audioBlobs: seq<string>, audioClipName: string) returns (found: bool)
      modifies this
      ensures found <==> SearchForBlob(audioBlobs, audioClipName).Some?
      ensures found ==> audioFilePath == audioCachePath + "/" + SearchForBlob(audioBlobs, audioClipName).value.0
      ensures !found ==> audioFilePath == old(audioFilePath)
    {
      var r := SearchForBlob(audioBlobs, audioClipName);
      if r.None? {
        return false;
      }
      DownloadAudioFile(r.value.0);
      found := true;
    }
  }
}
