/**
 * The route object every current endpoint builds on: the form fields, files
 * and headers of one request, how they become the multipart body, and the
 * POST with its retry loop.
 */
module BaseRoutes {
  import opened Http
  import opened Errors
  import opened Paths
  import opened Utils
  import opened Retry
  import opened Responses

  const OUTPUT_FILENAME_HEADER: string := "Gotenberg-Output-Filename"
  const TRACE_HEADER: string := "Gotenberg-Trace"

  /** The HTTP client a route posts through; only its default headers are modelled. */
  class Client {
    var headers: map<string, string>

    constructor()
      ensures headers == map[]
    {
      headers := map[];
    }
  }

  /** The response object for a raw response: the archive kind or the single-file kind. */
  function AsApiResponse(resp: RawResponse, zip: bool): (a: ApiResponse)
    ensures a.ZipFileResponse? <==> zip
    ensures a.statusCode == resp.statusCode && a.headers == resp.headers && a.content == resp.content
  {
    if zip then ZipFileResponse(resp.statusCode, resp.headers, resp.content)
    else SingleFileResponse(resp.statusCode, resp.headers, resp.content)
  }

  /** A POST result turned into the route's result, errors passing through. */
  function Classify(r: Result<RawResponse>, zip: bool): (a: Result<ApiResponse>)
    ensures a.Ok? <==> r.Ok?
    ensures r.Ok? ==> a.value == AsApiResponse(r.value, zip)
    ensures r.Err? ==> a.error == r.error
  {
    match r
    case Ok(resp) => Ok(AsApiResponse(resp, zip))
    case Err(e) => Err(e)
  }

  /** The parts for the registered files, each named by its key. */
  function FileParts(fileMap: map<string, Path>, guess: Path -> Option<string>): (parts: map<string, Part>)
    ensures parts.Keys == fileMap.Keys
    ensures forall k :: k in parts ==> parts[k] == FilePart(k, fileMap[k], guess(fileMap[k]))
  {
    map k | k in fileMap :: FilePart(k, fileMap[k], guess(fileMap[k]))
  }

  /** The parts for the in-memory resources, each named by its key. */
  function MemoryParts(inMemory: map<string, (string, Option<string>)>): (parts: map<string, Part>)
    ensures parts.Keys == inMemory.Keys
    ensures forall k :: k in parts ==> parts[k] == MemoryPart(k, inMemory[k].0, inMemory[k].1)
  {
    map k | k in inMemory :: MemoryPart(k, inMemory[k].0, inMemory[k].1)
  }

  /**
   * The multipart parts of a request: one per registered file and one per
   * in-memory resource, named by their keys; an in-memory resource replaces a
   * file of the same name because it is added second.
   */
  function AllParts(fileMap: map<string, Path>, inMemory: map<string, (string, Option<string>)>,
                    guess: Path -> Option<string>): (parts: map<string, Part>)
    ensures parts.Keys == fileMap.Keys + inMemory.Keys
    ensures forall k :: k in parts ==> parts[k].filename == k
    ensures forall k :: k in inMemory ==> parts[k] == MemoryPart(k, inMemory[k].0, inMemory[k].1)
    ensures forall k :: k in fileMap && k !in inMemory ==> parts[k] == FilePart(k, fileMap[k], guess(fileMap[k]))
  {
    FileParts(fileMap, guess) + MemoryParts(inMemory)
  }

  /** The first loop of the part assembly: one part per registered file. */
  method CollectFileParts(fileMap: map<string, Path>, guess: Path -> Option<string>)
    returns (resources: map<string, Part>)
    ensures resources == FileParts(fileMap, guess)
  {
    resources := map[];
    var todo := fileMap.Keys;
    while todo != {}
      invariant todo <= fileMap.Keys
      invariant resources.Keys == fileMap.Keys - todo
      invariant forall k :: k in resources ==> resources[k] == FilePart(k, fileMap[k], guess(fileMap[k]))
      decreases |todo|
    {
      var filename :| filename in todo;
      var filePath := fileMap[filename];
      resources := resources[filename := FilePart(filename, filePath, guess(filePath))];
      todo := todo - {filename};
    }
  }

  /** The second loop of the part assembly: each in-memory resource added over `parts`. */
  method AddMemoryParts(parts: map<string, Part>, inMemory: map<string, (string, Option<string>)>)
    returns (resources: map<string, Part>)
    ensures resources == parts + MemoryParts(inMemory)
  {
    resources := parts;
    var rest := inMemory.Keys;
    assert resources == parts + MemoryParts(inMemory - rest) by {
      assert inMemory - rest == map[];
    }
    while rest != {}
      invariant rest <= inMemory.Keys
      invariant resources == parts + MemoryParts(inMemory - rest)
      decreases |rest|
    {
      var resourceName :| resourceName in rest;
      var entry := inMemory[resourceName];
      MemoryPartsStep(parts, inMemory, rest, resourceName);
      resources := resources[resourceName := MemoryPart(resourceName, entry.0, entry.1)];
      rest := rest - {resourceName};
    }
    NothingLeft(inMemory);
  }

  /** Proof helper for `AddMemoryParts`: taking away no names leaves the resources as they are. */
  lemma NothingLeft(inMemory: map<string, (string, Option<string>)>)
    ensures inMemory - {} == inMemory
  {
  }

  /** Adding one more in-memory resource to the parts adds its part. */
  lemma MemoryPartsStep(parts: map<string, Part>, inMemory: map<string, (string, Option<string>)>,
                        rest: set<string>, name: string)
    requires name in rest && rest <= inMemory.Keys
    ensures parts + MemoryParts(inMemory - (rest - {name}))
      == (parts + MemoryParts(inMemory - rest))[name := MemoryPart(name, inMemory[name].0, inMemory[name].1)]
  {
    var before := MemoryParts(inMemory - rest);
    var after := MemoryParts(inMemory - (rest - {name}));
    assert after == before[name := MemoryPart(name, inMemory[name].0, inMemory[name].1)];
  }

  class Route {
    const client: Client
    const routeUrl: string
    /** Set for the routes that convert a URL: they send a multipart body with no files. */
    const urlForm: bool
    var responseIsZip: bool
    /** The options sent as form fields. */
    var formData: map<string, FormValue>
    /** Files to upload, by the name they are uploaded under. */
    var fileMap: map<string, Path>
    /** Text resources to upload, by name, with an optional mime type. */
    var inMemory: map<string, (string, Option<string>)>
    /** Headers sent with this route's request. */
    var headers: map<string, string>
    /** The counter that numbers merged files. */
    var next: int

    constructor(client: Client, routeUrl: string, urlForm: bool)
      ensures this.client == client && this.routeUrl == routeUrl && this.urlForm == urlForm
      ensures !responseIsZip && next == 1
      ensures formData == map[] && fileMap == map[] && inMemory == map[] && headers == map[]
    {
      this.client := client;
      this.routeUrl := routeUrl;
      this.urlForm := urlForm;
      responseIsZip := false;
      formData := map[];
      fileMap := map[];
      inMemory := map[];
      headers := map[];
      next := 1;
    }

    /**
     * Forgets the options and the files, and drops the output-filename and
     * trace headers; in-memory resources, the merge counter and the response
     * kind are kept.
     */
    method Reset()
      modifies this`formData, this`fileMap, this`headers
      ensures formData == map[] && fileMap == map[]
      ensures headers == old(headers) - {OUTPUT_FILENAME_HEADER, TRACE_HEADER}
      ensures inMemory == old(inMemory) && next == old(next) && responseIsZip == old(responseIsZip)
    {
      formData := map[];
      fileMap := map[];
      headers := headers - {OUTPUT_FILENAME_HEADER, TRACE_HEADER};
    }

    /** The same as `Reset`. */
    method Close()
      modifies this`formData, this`fileMap, this`headers
      ensures formData == map[] && fileMap == map[]
      ensures headers == old(headers) - {OUTPUT_FILENAME_HEADER, TRACE_HEADER}
      ensures inMemory == old(inMemory) && next == old(next) && responseIsZip == old(responseIsZip)
    {
      Reset();
    }

    /**
     * Registers a file under `name`, or under its own file name when no name
     * is given; an existing entry is overwritten and `warned` reports that.
     */
    method AddFileMap(filepath: Path, name: Option<string>) returns (warned: bool)
      modifies this`fileMap
      ensures var key := if name.Some? then name.value else filepath.name;
        warned == (key in old(fileMap)) && fileMap == old(fileMap)[key := filepath]
    {
      var key := if name.Some? then name.value else filepath.name;
      warned := key in fileMap;
      fileMap := fileMap[key := filepath];
    }

    /** Registers text content under `name`, overwriting any earlier entry. */
    method AddInMemoryFile(data: string, name: string, mime: Option<string>) returns (warned: bool)
      modifies this`inMemory
      ensures warned == (name in old(inMemory))
      ensures inMemory == old(inMemory)[name := (data, mime)]
    {
      warned := name in inMemory;
      inMemory := inMemory[name := (data, mime)];
    }

    /** Sets the output file name header, on the client. */
    method OutputFilename(filename: string)
      modifies client
      ensures client.headers == old(client.headers)[OUTPUT_FILENAME_HEADER := filename]
    {
      client.headers := client.headers[OUTPUT_FILENAME_HEADER := filename];
    }

    /** Sets the request-tracing header, on the client. */
    method TraceId(traceId: string)
      modifies client
      ensures client.headers == old(client.headers)[TRACE_HEADER := traceId]
    {
      client.headers := client.headers[TRACE_HEADER := traceId];
    }

    /**
     * Corrected output-filename setter: the header goes on this route's own
     * headers, which `Reset` clears.
     */
    method SetOutputFilename(filename: string)
      modifies this`headers
      ensures headers == old(headers)[OUTPUT_FILENAME_HEADER := filename]
    {
      headers := headers[OUTPUT_FILENAME_HEADER := filename];
    }

    /** Corrected trace setter: the header goes on this route's own headers. */
    method SetTraceId(traceId: string)
      modifies this`headers
      ensures headers == old(headers)[TRACE_HEADER := traceId]
    {
      headers := headers[TRACE_HEADER := traceId];
    }

    /**
     * The files argument of the POST: for URL routes the empty dictionary that
     * forces multipart, for every other route all registered parts.
     */
    method GetAllResources(guess: Path -> Option<string>) returns (files: RequestFiles)
      ensures urlForm ==> files == FORCE_MULTIPART
      ensures !urlForm ==> files == RequestFiles(AllParts(fileMap, inMemory, guess), false)
    {
      if urlForm {
        return FORCE_MULTIPART;
      }
      var resources := CollectFileParts(fileMap, guess);
      resources := AddMemoryParts(resources, inMemory);
      return RequestFiles(resources, false);
    }

    /** One POST with its status check; a non-2xx status raises. */
    method PostData(server: Server) returns (r: Result<RawResponse>)
      ensures r == PostOnce(server(0))
    {
      r := PostOnce(server(0));
    }

    /**
     * The POST retried while the server answers 5xx: attempt `k` (from 0) gets
     * `server(k)`, each wait is recorded in `sleeps` in place of sleeping, and
     * the run is the one `RetryRun` describes.
     */
    method PostDataWithRetry(server: Server, maxRetryCount: int, initialRetryWait: real, retryScale: real)
      returns (result: Result<RawResponse>, attempts: nat, sleeps: seq<real>)
      ensures RetryOutcome(result, attempts, sleeps)
        == RetryRun(server, maxRetryCount, initialRetryWait, retryScale, RaiseMaxRetries)
    {
      var retryTime := initialRetryWait;
      var count: nat := 0;
      sleeps := [];
      assert AfterSleeps(sleeps, Attempts(server, count, maxRetryCount, retryTime, retryScale, RaiseMaxRetries))
        == Attempts(server, count, maxRetryCount, retryTime, retryScale, RaiseMaxRetries);
      while count < maxRetryCount
        invariant RetryRun(server, maxRetryCount, initialRetryWait, retryScale, RaiseMaxRetries)
          == AfterSleeps(sleeps, Attempts(server, count, maxRetryCount, retryTime, retryScale, RaiseMaxRetries))
        decreases maxRetryCount - count
      {
        var previous := count;
        count := count + 1;
        match server(previous) {
          case Answered(resp) =>
            return Ok(resp), count, sleeps;
          case StatusError(resp) =>
            if !IsServerError(resp) {
              return Err(HttpStatusError(resp)), count, sleeps;
            }
            if count >= maxRetryCount {
              return Err(MaxRetriesExceeded(resp)), count, sleeps;
            }
          case Failed =>
            // the source re-raises only when this holds, and it always does
            assert count > -maxRetryCount;
            return Err(UnexpectedError), count, sleeps;
        }
        assert Attempts(server, previous, maxRetryCount, retryTime, retryScale, RaiseMaxRetries)
          == SleepThen(retryTime, Attempts(server, count, maxRetryCount, retryTime * retryScale, retryScale, RaiseMaxRetries));
        sleeps := sleeps + [retryTime];
        retryTime := retryTime * retryScale;
      }
      return Err(UnreachableCode), count, sleeps;
    }

    /** One POST, with the response wrapped by the route's response kind. */
    method Run(server: Server) returns (r: Result<ApiResponse>)
      ensures r == Classify(PostOnce(server(0)), responseIsZip)
    {
      var resp := PostData(server);
      r := Classify(resp, responseIsZip);
    }

    /** The retried POST, with the response wrapped by the route's response kind. */
    method RunWithRetry(server: Server, maxRetryCount: int, initialRetryWait: real, retryScale: real)
      returns (r: Result<ApiResponse>)
      ensures r == Classify(RetryRun(server, maxRetryCount, initialRetryWait, retryScale, RaiseMaxRetries).result,
                            responseIsZip)
    {
      var resp, _, _ := PostDataWithRetry(server, maxRetryCount, initialRetryWait, retryScale);
      r := Classify(resp, responseIsZip);
    }
  }

  /**
   * As written, the output filename set on one route is written on the
   * client and survives that route's reset, so every later request through
   * the same client still carries it.
   */
  method OutputFilenameSurvivesReset(filename: string) returns (leaked: Option<string>)
    ensures leaked == Some(filename)
  {
    var client := new Client();
    var r := new Route(client, "/forms/chromium/convert/html", false);
    r.OutputFilename(filename);
    r.Reset();
    var later := new Route(client, "/forms/libreoffice/convert", false);
    leaked := if OUTPUT_FILENAME_HEADER in later.client.headers then Some(later.client.headers[OUTPUT_FILENAME_HEADER]) else None;
  }

  /** Corrected: a filename and trace set on the route are gone after its reset, and the client is untouched. */
  method CorrectedHeadersClearedByReset(filename: string, traceId: string) returns (kept: map<string, string>, shared: map<string, string>)
    ensures kept == map[] && shared == map[]
  {
    var client := new Client();
    var r := new Route(client, "/forms/chromium/convert/html", false);
    r.SetOutputFilename(filename);
    r.SetTraceId(traceId);
    r.Reset();
    kept := r.headers;
    shared := client.headers;
  }

  /**
   * When every permitted attempt is a 5xx, the retry loop as written ends in
   * a TypeError that carries no response, while the intended loop, the one
   * `Route.PostDataWithRetry` performs, ends in the dedicated error carrying
   * the last response; both make the same attempts and the same waits.
   */
  lemma MaxRetriesAsWritten(server: Server, max: int, wait: real, scale: real)
    requires max >= 1
    requires forall j :: 0 <= j < max ==> IsRetryable(server(j))
    ensures var asWritten := RetryRun(server, max, wait, scale, ResponseKeywordRefused);
      var intended := RetryRun(server, max, wait, scale, RaiseMaxRetries);
      server(max - 1).StatusError? &&
      asWritten.result == Err(TypeErrorRaised) &&
      intended.result == Err(MaxRetriesExceeded(server(max - 1).response)) &&
      asWritten.attempts == intended.attempts == max &&
      asWritten.sleeps == intended.sleeps == Schedule(wait, scale, max - 1)
  {
    RetryExhausts(server, max, wait, scale, ResponseKeywordRefused);
    RetryExhausts(server, max, wait, scale, RaiseMaxRetries);
  }
}
