/**
 * The older merge route: files are uploaded under counter-prefixed names
 * through the older route object, whose rename of non-ASCII upload names
 * replaces the whole name, prefix included.
 */
module LegacyMerge {
  import opened Strings
  import opened Errors
  import opened Paths
  import opened LegacyBase
  import opened MergeRoutes

  /** What a merge leaves: the file map, the file system, the counter, and the error that stopped it. */
  datatype MergeOutcome = MergeOutcome(fileMap: map<string, Path>, entries: map<Path, Entry>, next: int, err: Option<Error>)

  /**
   * Registering `files` in order through the older route, numbered from
   * `next`; file i gets the temporary directory `tmpDirs[i]` if it needs a
   * copy. The first file that cannot be copied stops the merge, and the
   * counter does not advance for it.
   */
  function LegacyMerged(fileMap: map<string, Path>, entries: map<Path, Entry>, next: int,
                        files: seq<Path>, tmpDirs: seq<string>): MergeOutcome
    requires |tmpDirs| == |files|
    decreases |files|
  {
    if files == [] then MergeOutcome(fileMap, entries, next, None)
    else
      var o := AddFile(fileMap, entries, files[0], Some(MergeKey(next, files[0].name)), tmpDirs[0]);
      if o.err.Some? then MergeOutcome(o.fileMap, o.entries, next, o.err)
      else LegacyMerged(o.fileMap, o.entries, next + 1, files[1..], tmpDirs[1..])
  }

  /** A numbered upload name is ASCII when the file name is. */
  lemma MergeKeyAscii(index: int, name: string)
    requires IsAscii(name)
    ensures IsAscii(MergeKey(index, name))
  {
    var prefix := IntToString(index) + "_";
    assert IsAscii(prefix);
    assert MergeKey(index, name) == prefix + name;
  }

  /**
   * With ASCII file names the older merge does what the current one does:
   * nothing is copied, nothing fails, and each file gets its number.
   */
  lemma {:induction false} LegacyMergeAsciiAgrees(fileMap: map<string, Path>, entries: map<Path, Entry>, next: int,
                                                  files: seq<Path>, tmpDirs: seq<string>)
    requires |tmpDirs| == |files|
    requires forall i :: 0 <= i < |files| ==> IsAscii(files[i].name)
    ensures LegacyMerged(fileMap, entries, next, files, tmpDirs)
      == MergeOutcome(Merged(fileMap, next, files, AsIs), entries, next + |files|, None)
    decreases |files|
  {
    if files != [] {
      MergeKeyAscii(next, files[0].name);
      assert AsIs(files[0].name) == files[0].name;
      LegacyMergeAsciiAgrees(fileMap[MergeKey(next, files[0].name) := files[0]], entries, next + 1,
                             files[1..], tmpDirs[1..]);
    }
  }

  /** A numbered upload name is not ASCII when the file name is not. */
  lemma MergeKeyNotAscii(index: int, name: string)
    requires !IsAscii(name)
    ensures !IsAscii(MergeKey(index, name))
  {
    var prefix := IntToString(index) + "_";
    var j :| 0 <= j < |name| && name[j] as int >= 128;
    assert MergeKey(index, name) == prefix + name;
    assert MergeKey(index, name)[|prefix| + j] == name[j];
  }

  /** One step of a merge: the first file's registration either stops it or leads to the rest. */
  lemma MergedStep(fileMap: map<string, Path>, entries: map<Path, Entry>, next: int,
                   files: seq<Path>, tmpDirs: seq<string>)
    requires |tmpDirs| == |files| && files != []
    ensures var o := AddFile(fileMap, entries, files[0], Some(MergeKey(next, files[0].name)), tmpDirs[0]);
      LegacyMerged(fileMap, entries, next, files, tmpDirs)
        == if o.err.Some? then MergeOutcome(o.fileMap, o.entries, next, o.err)
           else LegacyMerged(o.fileMap, o.entries, next + 1, files[1..], tmpDirs[1..])
  {
  }

  /** A file registered under an ASCII name is stored as it is, and nothing is copied. */
  lemma AsciiStep(fileMap: map<string, Path>, entries: map<Path, Entry>, f: Path, key: string)
    requires IsAscii(key)
    ensures AddFile(fileMap, entries, f, Some(key), "") == AddOutcome(key in fileMap, fileMap[key := f], entries, None)
  {
  }

  /** A file registered under a non-ASCII name lands on its copy name, and the other files stay readable. */
  lemma RenamedStep(fileMap: map<string, Path>, entries: map<Path, Entry>, f: Path, key: string, tmpDir: string, g: Path)
    requires !IsAscii(key) && f in entries && entries[f].File?
    requires g in entries && entries[g].File?
    ensures var o := AddFile(fileMap, entries, f, Some(key), tmpDir);
      o.err.None? && o.fileMap == fileMap[CleanCopyName(f) := Path(tmpDir, CleanCopyName(f))] &&
      g in o.entries && o.entries[g].File?
  {
  }

  /** A two-file merge whose both steps succeed ends after the second step, two numbers on. */
  lemma MergedTwo(fileMap: map<string, Path>, entries: map<Path, Entry>, next: int,
                  f0: Path, f1: Path, t0: string, t1: string)
    requires AddFile(fileMap, entries, f0, Some(MergeKey(next, f0.name)), t0).err.None?
    requires var o1 := AddFile(fileMap, entries, f0, Some(MergeKey(next, f0.name)), t0);
      AddFile(o1.fileMap, o1.entries, f1, Some(MergeKey(next + 1, f1.name)), t1).err.None?
    ensures var o1 := AddFile(fileMap, entries, f0, Some(MergeKey(next, f0.name)), t0);
      var o2 := AddFile(o1.fileMap, o1.entries, f1, Some(MergeKey(next + 1, f1.name)), t1);
      LegacyMerged(fileMap, entries, next, [f0, f1], [t0, t1]) == MergeOutcome(o2.fileMap, o2.entries, next + 2, None)
  {
    var o1 := AddFile(fileMap, entries, f0, Some(MergeKey(next, f0.name)), t0);
    MergedStep(fileMap, entries, next, [f0, f1], [t0, t1]);
    assert [f0, f1][1..] == [f1] && [t0, t1][1..] == [t1];
    MergedStep(o1.fileMap, o1.entries, next + 1, [f1], [t1]);
    assert [f1][1..] == [] && [t1][1..] == [];
  }

  /** Both files of a non-ASCII pair are copied, and the second copy lands on the first one's name. */
  lemma TwoRenamedSteps(f0: Path, f1: Path, entries: map<Path, Entry>, t0: string, t1: string)
    requires !IsAscii(f0.name) && !IsAscii(f1.name) && Suffix(f0.name) == Suffix(f1.name)
    requires f0 in entries && entries[f0].File? && f1 in entries && entries[f1].File?
    ensures var o1 := AddFile(map[], entries, f0, Some(MergeKey(1, f0.name)), t0);
      var o2 := AddFile(o1.fileMap, o1.entries, f1, Some(MergeKey(2, f1.name)), t1);
      o1.err.None? && o2.err.None? && o2.fileMap == map[CleanCopyName(f1) := Path(t1, CleanCopyName(f1))]
  {
    var c := CleanCopyName(f1);
    assert CleanCopyName(f0) == c;
    var o1 := AddFile(map[], entries, f0, Some(MergeKey(1, f0.name)), t0);
    assert o1.err.None? && o1.fileMap == map[c := Path(t0, c)] && f1 in o1.entries && o1.entries[f1].File? by {
      MergeKeyNotAscii(1, f0.name);
      RenamedStep(map[], entries, f0, MergeKey(1, f0.name), t0, f1);
    }
    var o2 := AddFile(o1.fileMap, o1.entries, f1, Some(MergeKey(2, f1.name)), t1);
    assert o2.err.None? && o2.fileMap == o1.fileMap[c := Path(t1, c)] by {
      MergeKeyNotAscii(2, f1.name);
      RenamedStep(o1.fileMap, o1.entries, f1, MergeKey(2, f1.name), t1, f1);
    }
    assert map[c := Path(t0, c)][c := Path(t1, c)] == map[c := Path(t1, c)];
  }

  /**
   * Merging two files whose names are not ASCII and share a suffix registers
   * a single file: both numbered names are renamed to the same fixed name, so
   * the second copy replaces the first and the numbering is gone.
   */
  lemma {:induction false} NonAsciiMergeCollides(f0: Path, f1: Path, entries: map<Path, Entry>, t0: string, t1: string)
    requires !IsAscii(f0.name) && !IsAscii(f1.name) && Suffix(f0.name) == Suffix(f1.name)
    requires f0 in entries && entries[f0].File? && f1 in entries && entries[f1].File?
    ensures var out := LegacyMerged(map[], entries, 1, [f0, f1], [t0, t1]);
      out.err == None && out.next == 3 &&
      out.fileMap == map[CleanCopyName(f1) := Path(t1, CleanCopyName(f1))]
  {
    TwoRenamedSteps(f0, f1, entries, t0, t1);
    MergedTwo(map[], entries, 1, f0, f1, t0, t1);
  }

  /**
   * An ASCII stand-in for a file name: the name itself when it is ASCII,
   * otherwise the fixed stem followed by the suffix when that is ASCII.
   */
  function SafeName(name: string): (s: string)
    ensures IsAscii(s)
    ensures IsAscii(name) ==> s == name
  {
    assert IsAscii(CLEAN_STEM);
    if IsAscii(name) then name
    else if IsAscii(Suffix(name)) then CLEAN_STEM + Suffix(name)
    else CLEAN_STEM
  }

  /**
   * Naming each file by its number and the stand-in of its name keeps every
   * file: a merge of n files into an empty map registers n files, file i under
   * number `start + i`.
   */
  lemma SafeMergeKeepsEveryFile(start: int, files: seq<Path>)
    ensures var out := Merged(map[], start, files, SafeName);
      |out| == |files| &&
      forall i :: 0 <= i < |files| ==>
        MergeKey(start + i, SafeName(files[i].name)) in out && out[MergeKey(start + i, SafeName(files[i].name))] == files[i]
  {
    MergedKeys(map[], start, files, SafeName);
    NewKeysCount(start, files, SafeName);
    MergedStoresEach(map[], start, files, SafeName);
    assert Merged(map[], start, files, SafeName).Keys == NewKeys(start, files, SafeName);
  }

  /** The older merge route; the counter starts at 1. */
  class MergeRoute {
    const route: LegacyRoute
    var next: int

    constructor(routeUrl: string)
      ensures fresh(route) && route.routeUrl == routeUrl && !route.urlForm
      ensures route.formData == map[] && route.fileMap == map[] && route.headers == map[]
      ensures next == 1
    {
      route := new LegacyRoute(routeUrl, false);
      next := 1;
    }

    /**
     * Registers each file under `<counter>_<file name>` in list order, through
     * the older route's rename; the merge is the one `LegacyMerged` describes.
     */
    method Merge(fs: FileSystem, files: seq<Path>, tmpDirs: seq<string>) returns (err: Option<Error>)
      requires |tmpDirs| == |files|
      modifies route`fileMap, fs, this`next
      ensures MergeOutcome(route.fileMap, fs.entries, next, err)
        == LegacyMerged(old(route.fileMap), old(fs.entries), old(next), files, tmpDirs)
    {
      for i := 0 to |files|
        invariant LegacyMerged(old(route.fileMap), old(fs.entries), old(next), files, tmpDirs)
          == LegacyMerged(route.fileMap, fs.entries, next, files[i..], tmpDirs[i..])
      {
        assert files[i..][0] == files[i] && files[i..][1..] == files[i + 1..];
        assert tmpDirs[i..][0] == tmpDirs[i] && tmpDirs[i..][1..] == tmpDirs[i + 1..];
        MergedStep(route.fileMap, fs.entries, next, files[i..], tmpDirs[i..]);
        var e := MergeOne(fs, files[i], tmpDirs[i]);
        if e.Some? {
          return e;
        }
      }
      assert files[|files|..] == [];
      err := None;
    }

    /** One file of `Merge`: registered under its number and its name, the number moving on unless it fails. */
    method MergeOne(fs: FileSystem, f: Path, tmpDir: string) returns (err: Option<Error>)
      modifies route`fileMap, fs, this`next
      ensures var o := AddFile(old(route.fileMap), old(fs.entries), f, Some(MergeKey(old(next), f.name)), tmpDir);
        route.fileMap == o.fileMap && fs.entries == o.entries && err == o.err &&
        next == if o.err.None? then old(next) + 1 else old(next)
    {
      var _, e := route.AddFileMap(fs, f, Some(MergeKey(next, f.name)), tmpDir);
      err := e;
      if e.None? {
        next := next + 1;
      }
    }

    /**
     * The merge with each file named by its number and the stand-in of its
     * name: every upload name is ASCII, so the route stores the files as
     * they are, copies nothing and keeps the numbering.
     */
    method SafeMerge(fs: FileSystem, files: seq<Path>)
      modifies route`fileMap, fs, this`next
      ensures route.fileMap == Merged(old(route.fileMap), old(next), files, SafeName)
      ensures next == old(next) + |files|
      ensures fs.entries == old(fs.entries)
    {
      for i := 0 to |files|
        invariant next == old(next) + i
        invariant fs.entries == old(fs.entries)
        invariant Merged(old(route.fileMap), old(next), files, SafeName) == Merged(route.fileMap, next, files[i..], SafeName)
      {
        assert files[i..][0] == files[i] && files[i..][1..] == files[i + 1..];
        MergedCons(route.fileMap, next, files[i..], SafeName);
        SafeAdd(fs, files[i]);
      }
      assert files[|files|..] == [];
    }

    /** One file of `SafeMerge`: registered under its number and its stand-in name. */
    method SafeAdd(fs: FileSystem, f: Path)
      modifies route`fileMap, fs, this`next
      ensures route.fileMap == old(route.fileMap)[MergeKey(old(next), SafeName(f.name)) := f]
      ensures next == old(next) + 1
      ensures fs.entries == old(fs.entries)
    {
      var key := MergeKey(next, SafeName(f.name));
      MergeKeyAscii(next, SafeName(f.name));
      AsciiStep(route.fileMap, fs.entries, f, key);
      var _, _ := route.AddFileMap(fs, f, Some(key), "");
      next := next + 1;
    }
  }

  /** The merge factory: a fresh route bound to the merge endpoint. */
  method MergeApiMerge() returns (r: MergeRoute)
    ensures fresh(r) && fresh(r.route)
    ensures r.route.routeUrl == MERGE_ENDPOINT && r.next == 1 && r.route.fileMap == map[]
  {
    r := new MergeRoute(MERGE_ENDPOINT);
  }
}
