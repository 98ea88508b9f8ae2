/**
 * The current Chromium routes: the endpoint of each route family, the
 * `index.html` entry point, resources given as files or as text, Markdown
 * files, and the URL routes that send a multipart body with no files.
 */
module ChromiumRoutes {
  import opened Errors
  import opened Paths
  import opened Utils
  import opened BaseRoutes

  // ------------------------------------------------------------ route families

  /** The six Chromium route families. */
  datatype ChromiumRouteKind =
      UrlToPdf | HtmlToPdf | MarkdownToPdf | ScreenshotFromUrl | ScreenshotFromHtml | ScreenshotFromMarkdown
  {
    /** The fixed endpoint a route of this family posts to. */
    function Endpoint(): string
    {
      match this
      case UrlToPdf => "/forms/chromium/convert/url"
      case HtmlToPdf => "/forms/chromium/convert/html"
      case MarkdownToPdf => "/forms/chromium/convert/markdown"
      case ScreenshotFromUrl => "/forms/chromium/screenshot/url"
      case ScreenshotFromHtml => "/forms/chromium/screenshot/html"
      case ScreenshotFromMarkdown => "/forms/chromium/screenshot/markdown"
    }

    /** The URL families take a `url` field instead of files. */
    predicate IsUrl()
    {
      this == UrlToPdf || this == ScreenshotFromUrl
    }
  }

  /** Each family posts to its own endpoint. */
  lemma EndpointsDistinct(a: ChromiumRouteKind, b: ChromiumRouteKind)
    requires a != b
    ensures a.Endpoint() != b.Endpoint()
  {
  }

  /** A fresh route of the given family on `client`. */
  method NewChromiumRoute(client: Client, kind: ChromiumRouteKind) returns (r: Route)
    ensures fresh(r)
    ensures r.client == client && r.routeUrl == kind.Endpoint() && r.urlForm == kind.IsUrl()
    ensures r.formData == map[] && r.fileMap == map[] && r.inMemory == map[] && r.headers == map[]
  {
    r := new Route(client, kind.Endpoint(), kind.IsUrl());
  }

  // ------------------------------------------------------------ batches of entries

  /**
   * The map after storing each item in order under its key: what a loop of
   * single stores leaves behind.
   */
  function Stored<T, K, V>(m: map<K, V>, items: seq<T>, key: T -> K, val: T -> V): map<K, V>
    decreases |items|
  {
    if items == [] then m
    else
      var last := items[|items| - 1];
      Stored(m, items[..|items| - 1], key, val)[key(last) := val(last)]
  }

  /** A batch adds exactly the keys of its items. */
  lemma {:induction false} StoredKeys<T, K, V>(m: map<K, V>, items: seq<T>, key: T -> K, val: T -> V)
    ensures Stored(m, items, key, val).Keys == m.Keys + set i | 0 <= i < |items| :: key(items[i])
    decreases |items|
  {
    if items != [] {
      var init := items[..|items| - 1];
      StoredKeys(m, init, key, val);
      var last := |items| - 1;
      assert (set i | 0 <= i < |items| :: key(items[i]))
        == (set i | 0 <= i < |init| :: key(init[i])) + {key(items[last])} by {
        forall i | 0 <= i < |init|
          ensures key(init[i]) == key(items[i])
        {
        }
      }
    }
  }

  /** Storing a batch is storing its first item and then the rest. */
  lemma {:induction false} StoredCons<T, K, V>(m: map<K, V>, items: seq<T>, key: T -> K, val: T -> V)
    requires items != []
    ensures Stored(m, items, key, val) == Stored(m[key(items[0]) := val(items[0])], items[1..], key, val)
    decreases |items|
  {
    if |items| > 1 {
      var init := items[..|items| - 1];
      StoredCons(m, init, key, val);
      assert init[0] == items[0];
      assert init[1..] == items[1..][..|items[1..]| - 1];
    }
  }

  /** An item no later item shares its key with is the one stored under that key: the last one wins. */
  lemma {:induction false} StoredLastWins<T, K, V>(m: map<K, V>, items: seq<T>, key: T -> K, val: T -> V, i: int)
    requires 0 <= i < |items|
    requires forall j :: i < j < |items| ==> key(items[j]) != key(items[i])
    ensures key(items[i]) in Stored(m, items, key, val)
    ensures Stored(m, items, key, val)[key(items[i])] == val(items[i])
    decreases |items|
  {
    if i < |items| - 1 {
      var init := items[..|items| - 1];
      assert init[i] == items[i];
      forall j | i < j < |init|
        ensures key(init[j]) != key(init[i])
      {
        assert init[j] == items[j];
      }
      StoredLastWins(m, init, key, val, i);
    }
  }

  /** A key none of the items has keeps its old value. */
  lemma {:induction false} StoredKeepsOthers<T, K, V>(m: map<K, V>, items: seq<T>, key: T -> K, val: T -> V, k: K)
    requires k in m
    requires forall j :: 0 <= j < |items| ==> key(items[j]) != k
    ensures k in Stored(m, items, key, val) && Stored(m, items, key, val)[k] == m[k]
    decreases |items|
  {
    if items != [] {
      var init := items[..|items| - 1];
      forall j | 0 <= j < |init|
        ensures key(init[j]) != k
      {
        assert init[j] == items[j];
      }
      StoredKeepsOthers(m, init, key, val, k);
    }
  }

  /** The name a file is uploaded under when none is given: its own. */
  function OwnName(p: Path): string
  {
    p.name
  }

  /** A file is uploaded from its own path. */
  function Itself(p: Path): Path
  {
    p
  }

  /** A text resource as a batch gives it: content, name and mime type. */
  type TextResource = (string, string, Option<string>)

  function ResourceName(t: TextResource): string
  {
    t.1
  }

  function ResourceEntry(t: TextResource): (string, Option<string>)
  {
    (t.0, t.2)
  }

  // ------------------------------------------------------------ index and resources

  /** Uploads the HTML entry point as `index.html`, whatever its own name. */
  method Index(r: Route, index: Path)
    modifies r`fileMap
    ensures r.fileMap == old(r.fileMap)["index.html" := index]
  {
    var _ := r.AddFileMap(index, Some("index.html"));
  }

  /** Uploads the HTML text as the in-memory `index.html`, typed text/html. */
  method StringIndex(r: Route, index: string)
    modifies r`inMemory
    ensures r.inMemory == old(r.inMemory)["index.html" := (index, Some("text/html"))]
  {
    var _ := r.AddInMemoryFile(index, "index.html", Some("text/html"));
  }

  /** Uploads a resource under `name`, or under its own name when none is given. */
  method Resource(r: Route, resource: Path, name: Option<string>)
    modifies r`fileMap
    ensures r.fileMap == old(r.fileMap)[(if name.Some? then name.value else resource.name) := resource]
  {
    var _ := r.AddFileMap(resource, name);
  }

  method StringResource(r: Route, resource: string, name: string, mime: Option<string>)
    modifies r`inMemory
    ensures r.inMemory == old(r.inMemory)[name := (resource, mime)]
  {
    var _ := r.AddInMemoryFile(resource, name, mime);
  }

  /** Uploads each resource under its own name, in the order given. */
  method Resources(r: Route, resources: seq<Path>)
    modifies r`fileMap
    ensures r.fileMap == Stored(old(r.fileMap), resources, OwnName, Itself)
  {
    for i := 0 to |resources|
      invariant r.fileMap == Stored(old(r.fileMap), resources[..i], OwnName, Itself)
    {
      assert resources[..i + 1][..i] == resources[..i];
      Resource(r, resources[i], None);
    }
    assert resources[..|resources|] == resources;
  }

  /** Registers each text resource, in the order given. */
  method StringResources(r: Route, resources: seq<TextResource>)
    modifies r`inMemory
    ensures r.inMemory == Stored(old(r.inMemory), resources, ResourceName, ResourceEntry)
  {
    for i := 0 to |resources|
      invariant r.inMemory == Stored(old(r.inMemory), resources[..i], ResourceName, ResourceEntry)
    {
      assert resources[..i + 1][..i] == resources[..i];
      var (resource, name, mime) := resources[i];
      var _ := r.AddInMemoryFile(resource, name, mime);
    }
    assert resources[..|resources|] == resources;
  }

  /** Uploads one Markdown file under its own name. */
  method MarkdownFile(r: Route, markdownFile: Path)
    modifies r`fileMap
    ensures r.fileMap == old(r.fileMap)[markdownFile.name := markdownFile]
  {
    var _ := r.AddFileMap(markdownFile, None);
  }

  /** Uploads each Markdown file under its own name, in the order given. */
  method MarkdownFiles(r: Route, markdownFiles: seq<Path>)
    modifies r`fileMap
    ensures r.fileMap == Stored(old(r.fileMap), markdownFiles, OwnName, Itself)
  {
    for i := 0 to |markdownFiles|
      invariant r.fileMap == Stored(old(r.fileMap), markdownFiles[..i], OwnName, Itself)
    {
      assert markdownFiles[..i + 1][..i] == markdownFiles[..i];
      MarkdownFile(r, markdownFiles[i]);
    }
    assert markdownFiles[..|markdownFiles|] == markdownFiles;
  }

  /**
   * After a batch of resources every file is uploaded under its own name,
   * and a name given twice keeps the later file.
   */
  lemma ResourcesByOwnName(fileMap: map<string, Path>, resources: seq<Path>, i: int)
    requires 0 <= i < |resources|
    requires forall j :: i < j < |resources| ==> resources[j].name != resources[i].name
    ensures var out := Stored(fileMap, resources, OwnName, Itself);
      resources[i].name in out && out[resources[i].name] == resources[i]
  {
    StoredLastWins(fileMap, resources, OwnName, Itself, i);
  }

  // ------------------------------------------------------------ URL routes

  /** Sets the page to convert; nothing else changes. */
  method Url(r: Route, url: string)
    modifies r`formData
    ensures r.formData == old(r.formData)["url" := Text(url)]
  {
    r.formData := r.formData["url" := Text(url)];
  }
}
