/**
 * The older Chromium routes, built on the older route object: the
 * `index.html` entry point, resources and Markdown files registered through
 * the non-ASCII rename, the URL routes, and the screenshot options.
 */
module ConvertChromium {
  import opened Strings
  import opened Errors
  import opened Paths
  import opened Utils
  import opened LegacyBase
  import ChromiumRoutes
  import ChromiumMixins

  /** A fresh older route of the given family: same endpoints as the current routes. */
  method LegacyChromiumRoute(kind: ChromiumRoutes.ChromiumRouteKind) returns (r: LegacyRoute)
    ensures fresh(r)
    ensures r.routeUrl == kind.Endpoint() && r.urlForm == kind.IsUrl()
    ensures r.formData == map[] && r.fileMap == map[] && r.headers == map[]
  {
    r := new LegacyRoute(kind.Endpoint(), kind.IsUrl());
  }

  // ------------------------------------------------------------ index and batches

  /** Registers the HTML entry point as `index.html`; the name is ASCII, so nothing is copied. */
  method LegacyIndex(r: LegacyRoute, fs: FileSystem, index: Path, tmpDir: string)
    modifies r`fileMap, fs
    ensures r.fileMap == old(r.fileMap)["index.html" := index]
    ensures fs.entries == old(fs.entries)
  {
    assert IsAscii("index.html");
    var _, _ := r.AddFileMap(fs, index, Some("index.html"), tmpDir);
  }

  /** Where a batch of registrations ends: the file map, the file system and the error that stopped it. */
  datatype BatchOutcome = BatchOutcome(fileMap: map<string, Path>, entries: map<Path, Entry>, err: Option<Error>)

  /**
   * Registering each file under its own name in order, the `i`-th one's copy
   * (if it needs one) going to `tmpDirs[i]`; the first failure stops the batch.
   */
  function LegacyAdded(fileMap: map<string, Path>, entries: map<Path, Entry>,
                       files: seq<Path>, tmpDirs: seq<string>): BatchOutcome
    requires |tmpDirs| == |files|
    decreases |files|
  {
    if files == [] then BatchOutcome(fileMap, entries, None)
    else
      var o := AddFile(fileMap, entries, files[0], None, tmpDirs[0]);
      if o.err.Some? then BatchOutcome(o.fileMap, o.entries, o.err)
      else LegacyAdded(o.fileMap, o.entries, files[1..], tmpDirs[1..])
  }

  /** One step of a batch: the first file's registration either stops it or leads to the rest. */
  lemma AddedStep(fileMap: map<string, Path>, entries: map<Path, Entry>, files: seq<Path>, tmpDirs: seq<string>)
    requires |tmpDirs| == |files| && files != []
    ensures var o := AddFile(fileMap, entries, files[0], None, tmpDirs[0]);
      LegacyAdded(fileMap, entries, files, tmpDirs)
        == if o.err.Some? then BatchOutcome(o.fileMap, o.entries, o.err)
           else LegacyAdded(o.fileMap, o.entries, files[1..], tmpDirs[1..])
  {
  }

  /**
   * With ASCII names only, the older batch does what the current one does:
   * each file stored under its own name, the later one winning, nothing
   * copied and no error.
   */
  lemma {:induction false} LegacyAddedAsciiAgrees(fileMap: map<string, Path>, entries: map<Path, Entry>,
                                                  files: seq<Path>, tmpDirs: seq<string>)
    requires |tmpDirs| == |files|
    requires forall i :: 0 <= i < |files| ==> IsAscii(files[i].name)
    ensures LegacyAdded(fileMap, entries, files, tmpDirs)
      == BatchOutcome(ChromiumRoutes.Stored(fileMap, files, ChromiumRoutes.OwnName, ChromiumRoutes.Itself), entries, None)
    decreases |files|
  {
    if files != [] {
      var m1 := fileMap[files[0].name := files[0]];
      LegacyAddedAsciiAgrees(m1, entries, files[1..], tmpDirs[1..]);
      ChromiumRoutes.StoredCons(fileMap, files, ChromiumRoutes.OwnName, ChromiumRoutes.Itself);
    }
  }

  /**
   * A batch that stops reports a read error of a file whose name is not
   * ASCII: file-not-found or is-a-directory, nothing else.
   */
  lemma {:induction false} LegacyAddedErrors(fileMap: map<string, Path>, entries: map<Path, Entry>,
                                             files: seq<Path>, tmpDirs: seq<string>)
    requires |tmpDirs| == |files|
    ensures var b := LegacyAdded(fileMap, entries, files, tmpDirs);
      b.err.Some? ==> (b.err == Some(FileNotFound) || b.err == Some(IsADirectory)) && exists i :: 0 <= i < |files| && !IsAscii(files[i].name)
    decreases |files|
  {
    if files != [] {
      var o := AddFile(fileMap, entries, files[0], None, tmpDirs[0]);
      if o.err.None? {
        LegacyAddedErrors(o.fileMap, o.entries, files[1..], tmpDirs[1..]);
        var b := LegacyAdded(fileMap, entries, files, tmpDirs);
        if b.err.Some? {
          var i :| 0 <= i < |files[1..]| && !IsAscii(files[1..][i].name);
          assert files[i + 1] == files[1..][i];
        }
      }
    }
  }

  /** Registers one resource under its own name, copied first when that name is not ASCII. */
  method LegacyResource(r: LegacyRoute, fs: FileSystem, resource: Path, tmpDir: string) returns (err: Option<Error>)
    modifies r`fileMap, fs
    ensures var o := AddFile(old(r.fileMap), old(fs.entries), resource, None, tmpDir);
      r.fileMap == o.fileMap && fs.entries == o.entries && err == o.err
  {
    var _, e := r.AddFileMap(fs, resource, None, tmpDir);
    err := e;
  }

  /** Registers each resource in order, as `LegacyAdded` describes; the first one that cannot be read stops the rest. */
  method LegacyResources(r: LegacyRoute, fs: FileSystem, resources: seq<Path>, tmpDirs: seq<string>)
    returns (err: Option<Error>)
    requires |tmpDirs| == |resources|
    modifies r`fileMap, fs
    ensures BatchOutcome(r.fileMap, fs.entries, err) == LegacyAdded(old(r.fileMap), old(fs.entries), resources, tmpDirs)
  {
    for i := 0 to |resources|
      invariant LegacyAdded(old(r.fileMap), old(fs.entries), resources, tmpDirs)
        == LegacyAdded(r.fileMap, fs.entries, resources[i..], tmpDirs[i..])
    {
      assert resources[i..][0] == resources[i] && resources[i..][1..] == resources[i + 1..];
      assert tmpDirs[i..][0] == tmpDirs[i] && tmpDirs[i..][1..] == tmpDirs[i + 1..];
      AddedStep(r.fileMap, fs.entries, resources[i..], tmpDirs[i..]);
      var e := LegacyResource(r, fs, resources[i], tmpDirs[i]);
      if e.Some? {
        return e;
      }
    }
    assert resources[|resources|..] == [];
    err := None;
  }

  /** Registers one Markdown file under its own name, as a resource is. */
  method LegacyMarkdownFile(r: LegacyRoute, fs: FileSystem, markdownFile: Path, tmpDir: string) returns (err: Option<Error>)
    modifies r`fileMap, fs
    ensures var o := AddFile(old(r.fileMap), old(fs.entries), markdownFile, None, tmpDir);
      r.fileMap == o.fileMap && fs.entries == o.entries && err == o.err
  {
    var _, e := r.AddFileMap(fs, markdownFile, None, tmpDir);
    err := e;
  }

  /** Registers each Markdown file in order, as a batch of resources is. */
  method LegacyMarkdownFiles(r: LegacyRoute, fs: FileSystem, markdownFiles: seq<Path>, tmpDirs: seq<string>)
    returns (err: Option<Error>)
    requires |tmpDirs| == |markdownFiles|
    modifies r`fileMap, fs
    ensures BatchOutcome(r.fileMap, fs.entries, err) == LegacyAdded(old(r.fileMap), old(fs.entries), markdownFiles, tmpDirs)
  {
    for i := 0 to |markdownFiles|
      invariant LegacyAdded(old(r.fileMap), old(fs.entries), markdownFiles, tmpDirs)
        == LegacyAdded(r.fileMap, fs.entries, markdownFiles[i..], tmpDirs[i..])
    {
      assert markdownFiles[i..][0] == markdownFiles[i] && markdownFiles[i..][1..] == markdownFiles[i + 1..];
      assert tmpDirs[i..][0] == tmpDirs[i] && tmpDirs[i..][1..] == tmpDirs[i + 1..];
      AddedStep(r.fileMap, fs.entries, markdownFiles[i..], tmpDirs[i..]);
      var e := LegacyMarkdownFile(r, fs, markdownFiles[i], tmpDirs[i]);
      if e.Some? {
        return e;
      }
    }
    assert markdownFiles[|markdownFiles|..] == [];
    err := None;
  }

  // ------------------------------------------------------------ URL and screenshot options

  /** Sets the page to convert or capture; nothing else changes. */
  method LegacyUrl(r: LegacyRoute, url: string)
    modifies r`formData
    ensures r.formData == old(r.formData)["url" := Text(url)]
  {
    r.formData := r.formData["url" := Text(url)];
  }

  const SCREENSHOT_QUALITY_MIN: int := 0
  const SCREENSHOT_QUALITY_MAX: int := 100

  /** Stores the screenshot quality moved into [0, 100]. */
  method LegacyQuality(r: LegacyRoute, quality: int)
    modifies r`formData
    ensures r.formData == old(r.formData)["quality" := Text(IntToString(Clamp(quality, SCREENSHOT_QUALITY_MIN, SCREENSHOT_QUALITY_MAX)))]
  {
    var q := quality;
    if q > SCREENSHOT_QUALITY_MAX {
      q := SCREENSHOT_QUALITY_MAX;
    } else if q < SCREENSHOT_QUALITY_MIN {
      q := SCREENSHOT_QUALITY_MIN;
    }
    r.formData := r.formData["quality" := Text(IntToString(q))];
  }

  /** Sets the screenshot's image format. */
  method LegacyOutputFormat(r: LegacyRoute, format: ChromiumMixins.ImageFormat)
    modifies r`formData
    ensures r.formData == old(r.formData)["format" := Text(format.Value())]
  {
    r.formData := r.formData["format" := Text(format.Value())];
  }

  /** Asks for the faster capture. */
  method OptimizeSpeed(r: LegacyRoute)
    modifies r`formData
    ensures r.formData == old(r.formData)["optimizeForSpeed" := Text("true")]
  {
    r.formData := r.formData["optimizeForSpeed" := Text("true")];
  }

  /** Asks for the smaller capture: the same field, turned off. */
  method OptimizeSize(r: LegacyRoute)
    modifies r`formData
    ensures r.formData == old(r.formData)["optimizeForSpeed" := Text("false")]
  {
    r.formData := r.formData["optimizeForSpeed" := Text("false")];
  }
}
