/** `Application.setup_cogs` of app.py: which files of the cogs directory are
    loaded as extensions, and under which module name. The directory listing
    is an input; loading an extension is recorded as its module name. */
module App {
  import opened Wrappers
  import opened Strings
  import opened Helper

  /** The characters `lstrip("./")` removes. */
  predicate DotOrSlash(c: char) {
    InChars("./", c)
  }

  /** The file filter: a ".py" file whose stem is not excluded. */
  predicate ShouldLoad(cogsPath: string, filename: string, excluded: seq<string>) {
    EndsWith(filename, ".py") && StripFileExt(cogsPath + "/" + filename) !in excluded
  }

  /** The extension name: `f"{path}.{filename[:-3]}".lstrip("./")` with every
      '/' turned into '.'. */
  function ModuleName(cogsPath: string, filename: string): (r: string)
    requires EndsWith(filename, ".py")
    ensures '/' !in r
  {
    var dotted := LStrip(cogsPath + "." + filename[..|filename| - 3], DotOrSlash);
    ReplaceCharGone(dotted, '/', '.');
    ReplaceAll(dotted, "/", ".")
  }

  /** Replacing a character by a different one leaves none of it. */
  lemma {:induction false} ReplaceCharGone(s: string, c: char, d: char)
    requires c != d
    ensures c !in ReplaceAll(s, [c], [d])
    decreases |s|
  {
    if |s| >= 1 {
      ReplaceCharGone(s[1..], c, d);
    }
  }

  /** The module names loaded for a listing, in listing order. */
  function Loaded(cogsPath: string, listing: seq<string>, excluded: seq<string>): (r: seq<string>)
    ensures |r| <= |listing|
  {
    if |listing| == 0 then []
    else
      var front := Loaded(cogsPath, listing[..|listing| - 1], excluded);
      var f := listing[|listing| - 1];
      if ShouldLoad(cogsPath, f, excluded) then front + [ModuleName(cogsPath, f)] else front
  }

  /** `setup_cogs`: nothing is loaded unless app.py runs as `__main__`;
      otherwise one extension per accepted file, in listing order. */
  method SetupCogs(isMain: bool, cogsPath: string, listing: seq<string>, excluded: seq<string>)
    returns (loaded: seq<string>)
    ensures !isMain ==> loaded == []
    ensures isMain ==> loaded == Loaded(cogsPath, listing, excluded)
  {
    loaded := [];
    if isMain {
      var i := 0;
      while i < |listing|
        invariant 0 <= i <= |listing|
        invariant loaded == Loaded(cogsPath, listing[..i], excluded)
      {
        var filename := listing[i];
        var filenameWithoutExt := StripFileExt(cogsPath + "/" + filename);
        LoadedStep(cogsPath, listing, excluded, i);
        if EndsWith(filename, ".py") && filenameWithoutExt !in excluded {
          var cogFile := ModuleName(cogsPath, filename);
          loaded := loaded + [cogFile];
        }
        i := i + 1;
      }
      assert listing[..i] == listing;
    }
  }

  /** One more file of the listing is loaded exactly when it is accepted. */
  lemma LoadedStep(cogsPath: string, listing: seq<string>, excluded: seq<string>, i: nat)
    requires i < |listing|
    ensures Loaded(cogsPath, listing[..i + 1], excluded)
            == if ShouldLoad(cogsPath, listing[i], excluded)
               then Loaded(cogsPath, listing[..i], excluded) + [ModuleName(cogsPath, listing[i])]
               else Loaded(cogsPath, listing[..i], excluded)
  {
    assert listing[..i + 1][..i] == listing[..i];
  }

  /** Every loaded module name is one of the accepted files, and no name
      contains '/'. */
  lemma {:induction false} LoadedAreAccepted(cogsPath: string, listing: seq<string>, excluded: seq<string>)
    ensures forall k :: 0 <= k < |Loaded(cogsPath, listing, excluded)| ==>
              '/' !in Loaded(cogsPath, listing, excluded)[k]
              && exists j :: 0 <= j < |listing| && ShouldLoad(cogsPath, listing[j], excluded)
                             && Loaded(cogsPath, listing, excluded)[k] == ModuleName(cogsPath, listing[j])
    decreases |listing|
  {
    if |listing| > 0 {
      var n := |listing| - 1;
      LoadedAreAccepted(cogsPath, listing[..n], excluded);
      var front := Loaded(cogsPath, listing[..n], excluded);
      forall k | 0 <= k < |front|
        ensures exists j :: 0 <= j < |listing| && ShouldLoad(cogsPath, listing[j], excluded)
                            && front[k] == ModuleName(cogsPath, listing[j])
      {
        var j :| 0 <= j < n && ShouldLoad(cogsPath, listing[..n][j], excluded)
                 && front[k] == ModuleName(cogsPath, listing[..n][j]);
        assert listing[..n][j] == listing[j];
      }
    }
  }

  /** In a directory the stem is the file name's own stem. */
  lemma StemInDirectory(cogsPath: string, filename: string)
    requires '/' !in filename
    ensures StripFileExt(cogsPath + "/" + filename) == Stem(filename)
  {
    FinalComponentAfterDirectory(cogsPath, filename);
  }

  lemma AdminStem()
    ensures Stem("admin.py") == "admin"
  {
    assert LastDot("admin.py") == Some(5);
  }

  /** A leading run of dropped characters is removed whole. */
  lemma {:induction false} LStripRun(run: string, s: string, drop: char -> bool)
    requires forall i :: 0 <= i < |run| ==> drop(run[i])
    requires |s| > 0 && !drop(s[0])
    ensures LStrip(run + s, drop) == s
    decreases |run|
  {
    if |run| > 0 {
      assert (run + s)[1..] == run[1..] + s;
      LStripRun(run[1..], s, drop);
    }
  }

  /** A prefix free of the replaced character is copied unchanged. */
  lemma {:induction false} ReplaceCharSkip(a: string, t: string, c: char, rep: string)
    requires c !in a
    ensures ReplaceAll(a + t, [c], rep) == a + ReplaceAll(t, [c], rep)
    decreases |a|
  {
    if |a| > 0 {
      assert a[0] in a;
      assert (a + t)[..1] == [a[0]] != [c];
      assert (a + t)[1..] == a[1..] + t;
      assert forall x :: x in a[1..] ==> x in a;
      ReplaceCharSkip(a[1..], t, c, rep);
      assert ReplaceAll(a + t, [c], rep) == [a[0]] + ReplaceAll(a[1..] + t, [c], rep);
      assert [a[0]] + a[1..] == a;
    } else {
      assert a + t == t;
    }
  }

  /** A cogs path of a leading run of '.' and '/' and two directory levels:
      the module name is the dotted path. */
  lemma ModuleNameTwoLevels(run: string, a: string, b: string, stem: string)
    requires forall i :: 0 <= i < |run| ==> DotOrSlash(run[i])
    requires |a| > 0 && !DotOrSlash(a[0])
    requires '/' !in a && '/' !in b && '/' !in stem
    ensures ModuleName(run + a + "/" + b, stem + ".py") == a + "." + b + "." + stem
  {
    var f := stem + ".py";
    assert f[..|f| - 3] == stem;
    var tail := b + "." + stem;
    assert '/' !in tail;
    assert run + a + "/" + b + "." + stem == run + (a + "/" + tail);
    assert (a + "/" + tail)[0] == a[0];
    LStripRun(run, a + "/" + tail, DotOrSlash);
    ReplaceOneSlash(a, tail);
    assert a + "." + tail == a + "." + b + "." + stem;
  }

  /** One '/' between slash-free parts becomes '.'. */
  lemma ReplaceOneSlash(a: string, b: string)
    requires '/' !in a && '/' !in b
    ensures ReplaceAll(a + "/" + b, "/", ".") == a + "." + b
  {
    ReplaceCharSkip(b, "", '/', ".");
    assert b + "" == b;
    assert ("/" + b)[..1] == "/";
    assert ("/" + b)[1..] == b;
    ReplaceCharSkip(a, "/" + b, '/', ".");
    assert a + "/" + b == a + ("/" + b);
  }

  /** `lstrip` drops a whole leading run of '.' and '/', not just "./". */
  lemma LStripDropsWholeRun()
    ensures LStrip("../x", DotOrSlash) == "x"
  {
    assert "../x" == "../" + "x";
    LStripRun("../", "x", DotOrSlash);
  }

  /** An entry written after ", " keeps its leading space and so excludes
      nothing. */
  lemma SpacedExclusionIgnored()
    ensures ShouldLoad("./src/cogs", "admin.py", [" admin"])
  {
    StemInDirectory("./src/cogs", "admin.py");
    AdminStem();
    assert EndsWith("admin.py", ".py");
  }
}
