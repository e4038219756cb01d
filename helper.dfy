/** The path helpers of src/utils/helper.py. A path is a '/'-separated string
    without empty components; the final component, suffix and stem follow
    pathlib's rules: the suffix starts at the last '.' of the final
    component, provided that '.' is neither its first nor its last
    character. */
module Helper {
  import opened Wrappers
  import opened Strings

  /** `Path(p).name`: everything after the last '/'. */
  function FinalComponent(p: string): (r: string)
    ensures '/' !in r && |r| <= |p|
    decreases |p|
  {
    if |p| == 0 || p[|p| - 1] == '/' then ""
    else FinalComponent(p[..|p| - 1]) + [p[|p| - 1]]
  }

  /** The final component is what follows the last '/' (or the whole path). */
  lemma {:induction false} FinalComponentIsSuffix(p: string)
    ensures var r := FinalComponent(p);
      r == p[|p| - |r|..] && (|r| < |p| ==> p[|p| - |r| - 1] == '/')
    decreases |p|
  {
    if |p| > 0 && p[|p| - 1] != '/' {
      var q := p[..|p| - 1];
      var rq := FinalComponent(q);
      FinalComponentIsSuffix(q);
      assert FinalComponent(p) == rq + [p[|p| - 1]];
      assert p[|p| - |rq| - 1..] == q[|q| - |rq|..] + [p[|p| - 1]];
      if |rq| < |q| {
        assert p[|p| - |rq| - 2] == q[|q| - |rq| - 1];
      }
    }
  }

  /** The index of the last '.' in `name`. */
  function LastDot(name: string): (i: Option<nat>)
    ensures i.Some? ==> i.value < |name| && name[i.value] == '.'
    ensures i.Some? ==> forall j :: i.value < j < |name| ==> name[j] != '.'
    ensures i.None? ==> '.' !in name
    decreases |name|
  {
    if |name| == 0 then None
    else if name[|name| - 1] == '.' then Some(|name| - 1)
    else LastDot(name[..|name| - 1])
  }

  /** Where pathlib's suffix starts, if the name has one. */
  function SuffixStart(name: string): (i: Option<nat>)
    ensures i.Some? ==> 0 < i.value < |name| - 1 && name[i.value] == '.'
  {
    match LastDot(name)
    case Some(i) => if 0 < i < |name| - 1 then Some(i) else None
    case None => None
  }

  /** `PurePath.suffix` of a final component. */
  function Suffix(name: string): string {
    match SuffixStart(name)
    case Some(i) => name[i..]
    case None => ""
  }

  /** `PurePath.stem` of a final component. */
  function Stem(name: string): string {
    match SuffixStart(name)
    case Some(i) => name[..i]
    case None => name
  }

  /** `Helper.get_file_extension`: the last suffix with its dot, or None. */
  function GetFileExtension(path: string): (r: Option<string>)
    ensures r.Some? <==> SuffixStart(FinalComponent(path)).Some?
  {
    var s := Suffix(FinalComponent(path));
    if s == "" then None else Some(s)
  }

  /** `Helper.get_file_name` */
  function GetFileName(path: string): string {
    FinalComponent(path)
  }

  /** `Helper.strip_file_ext`: the stem of the final component. */
  function StripFileExt(path: string): string {
    Stem(FinalComponent(path))
  }

  /** `Helper.get_name`: the stem of the final component of the final
      component. */
  function GetName(path: string): string {
    StripFileExt(GetFileName(path))
  }

  /** `Helper.combine_strings` */
  function CombineStrings(strings: seq<string>, name: string): (r: string)
    ensures StartsWith(r, name + " ")
  {
    name + " " + Join(" ", strings)
  }

  // ---------------------------------------------------------------------

  /** A component without '/' is its own final component. */
  lemma {:induction false} FinalComponentOfName(name: string)
    requires '/' !in name
    ensures FinalComponent(name) == name
    decreases |name|
  {
    if |name| > 0 {
      FinalComponentOfName(name[..|name| - 1]);
    }
  }

  /** `get_file_name` never yields a '/', so applying it twice changes
      nothing. */
  lemma GetFileNameIdempotent(path: string)
    ensures '/' !in GetFileName(path)
    ensures GetFileName(GetFileName(path)) == GetFileName(path)
  {
    FinalComponentOfName(FinalComponent(path));
  }

  /** The final component is its stem followed by its extension. */
  lemma NameIsStemAndExtension(path: string)
    ensures GetFileName(path) == StripFileExt(path) + GetFileExtension(path).GetOr("")
  {
    var name := FinalComponent(path);
    match SuffixStart(name)
    case Some(i) =>
      assert name == name[..i] + name[i..];
    case None =>
  }

  /** The stem drops directories and contains no '/'. */
  lemma StemHasNoSlash(path: string)
    ensures '/' !in StripFileExt(path)
  {
    NameIsStemAndExtension(path);
    var name := FinalComponent(path);
    assert forall c :: c in StripFileExt(path) ==> c in name by {
      assert name == StripFileExt(path) + GetFileExtension(path).GetOr("");
    }
  }

  /** `get_name` is the same as `strip_file_ext`. */
  lemma GetNameIsStripFileExt(path: string)
    ensures GetName(path) == StripFileExt(path)
  {
    FinalComponentOfName(FinalComponent(path));
  }

  /** An extension is a dot followed by at least one character and no
      further dot or '/', and the path ends with it. */
  lemma ExtensionShape(path: string)
    requires GetFileExtension(path).Some?
    ensures var x := GetFileExtension(path).value;
      |x| >= 2 && x[0] == '.' && '.' !in x[1..] && '/' !in x && EndsWith(path, x)
  {
    var name := FinalComponent(path);
    FinalComponentIsSuffix(path);
    var i := SuffixStart(name).value;
    var x := name[i..];
    assert GetFileExtension(path).value == x;
    assert '.' !in x[1..] by {
      assert forall j :: 1 <= j < |x| ==> x[j] == name[i + j];
    }
    TailOfTail(path, name, i);
  }

  lemma TailOfTail(p: string, t: string, i: nat)
    requires |t| <= |p| && t == p[|p| - |t|..] && i <= |t|
    ensures EndsWith(p, t[i..])
  {
    assert t[i..] == p[|p| - |t| + i..];
  }

  /** Only the last suffix counts. */
  lemma ExtensionOfDoubleSuffix()
    ensures GetFileExtension("a.tar.gz") == Some(".gz")
  {
    FinalComponentOfName("a.tar.gz");
    assert LastDot("a.tar.gz") == Some(5);
  }

  /** A name without a dot, or whose only dot comes first, has no
      extension. */
  lemma NoExtensionExamples()
    ensures GetFileExtension("noext") == None
    ensures GetFileExtension(".env") == None
  {
    FinalComponentOfName("noext");
    assert LastDot("noext") == None;
    FinalComponentOfName(".env");
    assert LastDot(".env") == Some(0);
  }

  /** Directories in front of a name do not change its final component. */
  lemma {:induction false} FinalComponentAfterDirectory(dir: string, name: string)
    requires '/' !in name
    ensures FinalComponent(dir + "/" + name) == name
    decreases |name|
  {
    if |name| == 0 {
      assert dir + "/" + name == dir + "/";
    } else {
      var front := name[..|name| - 1];
      assert (dir + "/" + name)[..|dir + "/" + name| - 1] == dir + "/" + front;
      FinalComponentAfterDirectory(dir, front);
    }
  }

  /** A dot in a directory name is not a suffix. */
  lemma DirectoryDotIgnored()
    ensures GetFileExtension("dir.d/file") == None
  {
    FinalComponentAfterDirectory("dir.d", "file");
    assert "dir.d" + "/" + "file" == "dir.d/file";
    assert LastDot("file") == None;
  }

  lemma StemExample()
    ensures StripFileExt("src/cogs/admin.py") == "admin"
  {
    FinalComponentAfterDirectory("src/cogs", "admin.py");
    assert "src/cogs" + "/" + "admin.py" == "src/cogs/admin.py";
    assert LastDot("admin.py") == Some(5);
  }

  /** With no further words the combined name keeps a trailing space. */
  lemma CombineStringsEmpty(name: string)
    ensures CombineStrings([], name) == name + " "
  {
  }
}
