/** Font discovery (font_utils.py, and scan_font_files / font_display_name in
    keycap_exporter_core.py): the font files under a list of root directories, as
    the directory walk reports them, kept when they are TrueType or OpenType files
    and, unless asked for, not variable fonts; returned sorted case-insensitively
    without duplicates. The file system is an input: for each root, whether it is a
    directory and what os.walk yields for it. */
module Fonts {
  import opened Text

  /** is_variable_font_filename: the lower-cased base name mentions "variablefont"
      or "variable-font". */
  predicate IsVariableFontFilename(path: string) {
    var base := Lower(Basename(path));
    Contains(base, "variablefont") || Contains(base, "variable-font")
  }

  /** The test ignores case: a path and its lower-cased form are classified alike. */
  lemma VariableFontIgnoresCase(path: string)
    ensures IsVariableFontFilename(Lower(path)) == IsVariableFontFilename(path)
  {
    BasenameLower(path);
    LowerIdempotent(Basename(path));
  }

  /** The test only looks at the file name, not at the directories above it. */
  lemma VariableFontLooksAtFileName(directory: string, filename: string)
    requires filename != [] && forall j :: 0 <= j < |filename| ==> filename[j] != '/'
    ensures IsVariableFontFilename(Join(directory, filename)) == IsVariableFontFilename(filename)
  {
    JoinBasename(directory, filename);
    JoinBasename("", filename);
  }

  /** A name ending in .ttf or .otf, in any case. */
  predicate HasFontExtension(filename: string) {
    var lower := Lower(filename);
    EndsWith(lower, ".ttf") || EndsWith(lower, ".otf")
  }

  /** font_display_name: the file name of a path, i.e. the whole slash-free tail
      after its last '/' (all of the path when it has none). */
  function FontDisplayName(path: string): (r: string)
    ensures EndsWith(path, r) && forall j :: 0 <= j < |r| ==> r[j] != '/'
    ensures |r| < |path| ==> path[|path| - |r| - 1] == '/'
  {
    Basename(path)
  }

  /** The display name of a path found by the walk is the file name it was found as. */
  lemma DisplayNameOfFoundFont(directory: string, filename: string)
    requires filename != [] && forall j :: 0 <= j < |filename| ==> filename[j] != '/'
    ensures FontDisplayName(Join(directory, filename)) == filename
  {
    JoinBasename(directory, filename);
  }

  /** One step of os.walk: a directory and the names of the files in it. */
  datatype WalkEntry = WalkEntry(dirpath: string, filenames: seq<string>)

  /** A root directory as the file system reports it. */
  datatype FontRoot = FontRoot(isDirectory: bool, walk: seq<WalkEntry>)

  /** The filters applied to each file name found in dirpath. */
  predicate Keep(includeVariableFonts: bool, dirpath: string, filename: string) {
    HasFontExtension(filename) &&
    (includeVariableFonts || !IsVariableFontFilename(Join(dirpath, filename)))
  }

  /** The filters as one function of directory and file name. */
  function KeepFor(inc: bool): (string, string) -> bool {
    (dirpath: string, filename: string) => Keep(inc, dirpath, filename)
  }

  /** The full paths appended for the names of one directory, in order. */
  function CollectedNames(dirpath: string, names: seq<string>, keep: (string, string) -> bool): seq<string> {
    if names == [] then []
    else
      var last := names[|names| - 1];
      CollectedNames(dirpath, names[..|names| - 1], keep) + (if keep(dirpath, last) then [Join(dirpath, last)] else [])
  }

  /** A path made of the directory and one of its names that the filters keep. */
  ghost predicate KeptIn(dirpath: string, names: seq<string>, keep: (string, string) -> bool, p: string) {
    exists k :: 0 <= k < |names| && keep(dirpath, names[k]) && p == Join(dirpath, names[k])
  }

  /** A path the walk of one root yields and the filters keep. */
  ghost predicate FoundInWalk(walk: seq<WalkEntry>, keep: (string, string) -> bool, p: string) {
    exists j :: 0 <= j < |walk| && KeptIn(walk[j].dirpath, walk[j].filenames, keep, p)
  }

  /** The paths appended for the whole walk of one root, in order. */
  function CollectedWalk(walk: seq<WalkEntry>, keep: (string, string) -> bool): seq<string> {
    if walk == [] then []
    else
      var last := walk[|walk| - 1];
      CollectedWalk(walk[..|walk| - 1], keep) + CollectedNames(last.dirpath, last.filenames, keep)
  }

  /** A path found under one of the roots that are directories. */
  ghost predicate FoundUnderRoots(roots: seq<FontRoot>, keep: (string, string) -> bool, p: string) {
    exists i :: 0 <= i < |roots| && roots[i].isDirectory && FoundInWalk(roots[i].walk, keep, p)
  }

  /** Every path the scan appends, in the order it appends them; roots that are not
      directories contribute nothing. */
  function Collected(roots: seq<FontRoot>, keep: (string, string) -> bool): seq<string> {
    if roots == [] then []
    else
      var last := roots[|roots| - 1];
      Collected(roots[..|roots| - 1], keep) + (if last.isDirectory then CollectedWalk(last.walk, keep) else [])
  }

  /** The paths collected in one directory are its kept names joined to it. */
  lemma {:induction false} CollectedNamesMembers(dirpath: string, names: seq<string>, keep: (string, string) -> bool, p: string)
    ensures p in CollectedNames(dirpath, names, keep) <==> KeptIn(dirpath, names, keep, p)
  {
    if names != [] {
      var init := names[..|names| - 1];
      CollectedNamesMembers(dirpath, init, keep, p);
      assert forall k :: 0 <= k < |init| ==> init[k] == names[k];
    }
  }

  /** The paths collected for a walk are those found in one of its directories. */
  lemma {:induction false} CollectedWalkMembers(walk: seq<WalkEntry>, keep: (string, string) -> bool, p: string)
    ensures p in CollectedWalk(walk, keep) <==> FoundInWalk(walk, keep, p)
  {
    if walk != [] {
      var init := walk[..|walk| - 1];
      var last := walk[|walk| - 1];
      CollectedWalkMembers(init, keep, p);
      CollectedNamesMembers(last.dirpath, last.filenames, keep, p);
      assert forall j :: 0 <= j < |init| ==> init[j] == walk[j];
      if FoundInWalk(walk, keep, p) {
        var j :| 0 <= j < |walk| && KeptIn(walk[j].dirpath, walk[j].filenames, keep, p);
        if j < |init| {
          assert FoundInWalk(init, keep, p);
        }
      }
      if p in CollectedWalk(init, keep) {
        var j :| 0 <= j < |init| && KeptIn(init[j].dirpath, init[j].filenames, keep, p);
        assert walk[j] == init[j];
      }
      if KeptIn(last.dirpath, last.filenames, keep, p) {
        assert walk[|walk| - 1] == last;
      }
    }
  }

  /** The paths collected under all roots are those found under a directory root. */
  lemma {:induction false} CollectedMembers(roots: seq<FontRoot>, keep: (string, string) -> bool, p: string)
    ensures p in Collected(roots, keep) <==> FoundUnderRoots(roots, keep, p)
  {
    if roots != [] {
      var init := roots[..|roots| - 1];
      var last := roots[|roots| - 1];
      CollectedMembers(init, keep, p);
      CollectedWalkMembers(last.walk, keep, p);
      assert forall i :: 0 <= i < |init| ==> init[i] == roots[i];
      if FoundUnderRoots(roots, keep, p) {
        var i :| 0 <= i < |roots| && roots[i].isDirectory && FoundInWalk(roots[i].walk, keep, p);
        if i < |init| {
          assert FoundUnderRoots(init, keep, p);
        }
      }
      if p in Collected(init, keep) {
        var i :| 0 <= i < |init| && init[i].isDirectory && FoundInWalk(init[i].walk, keep, p);
        assert roots[i] == init[i];
      }
      if last.isDirectory && FoundInWalk(last.walk, keep, p) {
        assert roots[|roots| - 1] == last;
      }
    }
  }

  /** Sorted by lower-cased path, in Python's string order. */
  predicate SortedByLower(s: seq<string>) {
    forall i, j :: 0 <= i < j < |s| ==> LexLE(Lower(s[i]), Lower(s[j]))
  }

  predicate NoDuplicates(s: seq<string>) {
    forall i, j :: 0 <= i < j < |s| ==> s[i] != s[j]
  }

  /** x placed into a sorted sequence after every element whose key is not greater. */
  function InsertByLower(x: string, s: seq<string>): (r: seq<string>)
    requires SortedByLower(s)
    ensures |r| == |s| + 1
    ensures forall y :: y in r <==> y == x || y in s
    ensures SortedByLower(r)
  {
    if s == [] then [x]
    else if !LexLE(Lower(s[0]), Lower(x)) then
      LexTotal(Lower(s[0]), Lower(x));
      assert forall j :: 0 <= j < |s| ==> LexLE(Lower(x), Lower(s[j])) by {
        forall j | 0 <= j < |s|
          ensures LexLE(Lower(x), Lower(s[j]))
        {
          if j > 0 {
            LexTransitive(Lower(x), Lower(s[0]), Lower(s[j]));
          }
        }
      }
      [x] + s
    else
      var rest := InsertByLower(x, s[1..]);
      assert forall j :: 0 <= j < |rest| ==> LexLE(Lower(s[0]), Lower(rest[j])) by {
        forall j | 0 <= j < |rest|
          ensures LexLE(Lower(s[0]), Lower(rest[j]))
        {
          assert rest[j] in rest;
        }
      }
      [s[0]] + rest
  }

  /** sorted(set(paths), key=str.lower): every path once, sorted by lower-cased path. */
  function SortByLower(paths: seq<string>): (r: seq<string>)
    ensures SortedByLower(r)
    ensures NoDuplicates(r)
    ensures forall p :: p in r <==> p in paths
  {
    if paths == [] then []
    else
      var last := paths[|paths| - 1];
      var sorted := SortByLower(paths[..|paths| - 1]);
      assert forall p :: p in paths <==> p in paths[..|paths| - 1] || p == last by {
        assert paths == paths[..|paths| - 1] + [last];
      }
      if last in sorted then sorted
      else
        var r := InsertByLower(last, sorted);
        assert NoDuplicates(r) by { InsertKeepsDistinct(last, sorted); }
        r
  }

  lemma InsertKeepsDistinct(x: string, s: seq<string>)
    requires SortedByLower(s) && NoDuplicates(s) && x !in s
    ensures NoDuplicates(InsertByLower(x, s))
  {
    if s != [] && LexLE(Lower(s[0]), Lower(x)) {
      InsertKeepsDistinct(x, s[1..]);
      var rest := InsertByLower(x, s[1..]);
      assert s[0] !in rest;
    }
  }

  /** The innermost loop of the scan: the kept names of one directory, joined to it. */
  method ScanDirectory(dirpath: string, filenames: seq<string>, includeVariableFonts: bool) returns (fontPaths: seq<string>)
    ensures fontPaths == CollectedNames(dirpath, filenames, KeepFor(includeVariableFonts))
  {
    ghost var keep := KeepFor(includeVariableFonts);
    fontPaths := [];
    var k := 0;
    while k < |filenames|
      invariant 0 <= k <= |filenames|
      invariant fontPaths == CollectedNames(dirpath, filenames[..k], keep)
    {
      var filename := filenames[k];
      CollectedNamesStep(dirpath, filenames, k, keep);
      var lowerName := Lower(filename);
      if !(EndsWith(lowerName, ".ttf") || EndsWith(lowerName, ".otf")) {
        assert !keep(dirpath, filename);
        k := k + 1;
        continue;
      }
      var fullPath := Join(dirpath, filename);
      if !includeVariableFonts && IsVariableFontFilename(fullPath) {
        assert !keep(dirpath, filename);
        k := k + 1;
        continue;
      }
      assert keep(dirpath, filename);
      fontPaths := fontPaths + [fullPath];
      k := k + 1;
    }
    assert filenames[..k] == filenames;
  }

  /** The os.walk loop of the scan: the kept files of every directory walked, in
      walk order. */
  method ScanWalk(walk: seq<WalkEntry>, includeVariableFonts: bool) returns (fontPaths: seq<string>)
    ensures fontPaths == CollectedWalk(walk, KeepFor(includeVariableFonts))
  {
    ghost var keep := KeepFor(includeVariableFonts);
    fontPaths := [];
    var j := 0;
    while j < |walk|
      invariant 0 <= j <= |walk|
      invariant fontPaths == CollectedWalk(walk[..j], keep)
    {
      var entry := walk[j];
      CollectedWalkStep(walk, j, keep);
      var found := ScanDirectory(entry.dirpath, entry.filenames, includeVariableFonts);
      fontPaths := fontPaths + found;
      j := j + 1;
    }
    assert walk[..j] == walk;
  }

  /** scan_ttf_otf_files (and scan_font_files): the loop over the roots, each
      directory root walked by ScanWalk, then the sorted de-duplicated result. */
  method ScanFontFiles(roots: seq<FontRoot>, includeVariableFonts: bool) returns (r: seq<string>)
    ensures r == SortByLower(Collected(roots, KeepFor(includeVariableFonts)))
  {
    ghost var keep := KeepFor(includeVariableFonts);
    var fontPaths: seq<string> := [];
    var i := 0;
    while i < |roots|
      invariant 0 <= i <= |roots|
      invariant fontPaths == Collected(roots[..i], keep)
    {
      var root := roots[i];
      CollectedStep(roots, i, keep);
      if !root.isDirectory {
        i := i + 1;
        continue;
      }
      var found := ScanWalk(root.walk, includeVariableFonts);
      fontPaths := fontPaths + found;
      i := i + 1;
    }
    assert roots[..i] == roots;
    r := SortByLower(fontPaths);
  }

  lemma CollectedStep(roots: seq<FontRoot>, i: nat, keep: (string, string) -> bool)
    requires i < |roots|
    ensures Collected(roots[..i + 1], keep) ==
      Collected(roots[..i], keep) + (if roots[i].isDirectory then CollectedWalk(roots[i].walk, keep) else [])
  {
    assert roots[..i + 1][..i] == roots[..i];
  }

  lemma CollectedWalkStep(walk: seq<WalkEntry>, j: nat, keep: (string, string) -> bool)
    requires j < |walk|
    ensures CollectedWalk(walk[..j + 1], keep) ==
      CollectedWalk(walk[..j], keep) + CollectedNames(walk[j].dirpath, walk[j].filenames, keep)
  {
    assert walk[..j + 1][..j] == walk[..j];
  }

  lemma CollectedNamesStep(dirpath: string, names: seq<string>, k: nat, keep: (string, string) -> bool)
    requires k < |names|
    ensures CollectedNames(dirpath, names[..k + 1], keep) ==
      CollectedNames(dirpath, names[..k], keep) + (if keep(dirpath, names[k]) then [Join(dirpath, names[k])] else [])
  {
    assert names[..k + 1][..k] == names[..k];
  }

  /** The scan keeps exactly the TrueType and OpenType files found under the
      directory roots, drops variable fonts unless they are included, lists each
      path once and sorts them by lower-cased path. */
  lemma ScanResult(roots: seq<FontRoot>, inc: bool, p: string)
    ensures var r := SortByLower(Collected(roots, KeepFor(inc)));
      SortedByLower(r) && NoDuplicates(r) &&
      (p in r <==> FoundUnderRoots(roots, KeepFor(inc), p))
  {
    CollectedMembers(roots, KeepFor(inc), p);
  }
}
