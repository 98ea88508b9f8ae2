/**
 * The older route object: form fields, files and headers of one request,
 * the rename of non-ASCII upload names, and the retry loop that re-raises the
 * server's error once the attempts are used up.
 */
module LegacyBase {
  import opened Strings
  import opened Http
  import opened Errors
  import opened Paths
  import opened Utils
  import opened Retry
  import opened Options
  import opened BaseRoutes

  /** The stem every renamed upload gets; only the suffix of the original survives. */
  const CLEAN_STEM: string := "clean-filename-copy"

  /** The name of the ASCII copy made for a file: the fixed stem and the file's own suffix. */
  function CleanCopyName(filepath: Path): (n: string)
    ensures |n| >= |CLEAN_STEM| && n[..|CLEAN_STEM|] == CLEAN_STEM
    ensures IsAscii(Suffix(filepath.name)) ==> IsAscii(n)
  {
    var n := CLEAN_STEM + Suffix(filepath.name);
    assert n[..|CLEAN_STEM|] == CLEAN_STEM;
    n
  }

  /** The name a file is registered under before any rename: the given one, else its own. */
  function ChosenName(filepath: Path, name: Option<string>): string
  {
    if name.Some? then name.value else filepath.name
  }

  /** What registering one file does to the file map and to the file system. */
  datatype AddOutcome = AddOutcome(warned: bool, fileMap: map<string, Path>, entries: map<Path, Entry>, err: Option<Error>)

  /**
   * Registering `filepath` under `name` (or its own name). An ASCII name is
   * stored as it is. Otherwise the file's bytes are copied to a fixed name in
   * the fresh temporary directory `tmpDir`, and the copy is registered under
   * that fixed name; reading the source fails with file-not-found when it
   * is missing and with is-a-directory when it is a directory, and then
   * nothing is registered.
   */
  function AddFile(fileMap: map<string, Path>, entries: map<Path, Entry>, filepath: Path,
                   name: Option<string>, tmpDir: string): (o: AddOutcome)
    ensures o.warned == (ChosenName(filepath, name) in fileMap)
    ensures IsAscii(ChosenName(filepath, name)) ==>
      o.err.None? && o.entries == entries && o.fileMap == fileMap[ChosenName(filepath, name) := filepath]
    ensures !IsAscii(ChosenName(filepath, name)) ==>
      var copy := Path(tmpDir, CleanCopyName(filepath));
      (o.err.None? <==> filepath in entries && entries[filepath].File?) &&
      (o.err.None? ==>
        o.fileMap == fileMap[copy.name := copy] &&
        o.entries == entries[copy := entries[filepath]]) &&
      (o.err.Some? ==> o.fileMap == fileMap && o.entries == entries) &&
      (filepath !in entries ==> o.err == Some(FileNotFound)) &&
      (filepath in entries && entries[filepath].Directory? ==> o.err == Some(IsADirectory))
  {
    var chosen := ChosenName(filepath, name);
    var warned := chosen in fileMap;
    if IsAscii(chosen) then
      AddOutcome(warned, fileMap[chosen := filepath], entries, None)
    else
      var copy := Path(tmpDir, CleanCopyName(filepath));
      if filepath !in entries then
        AddOutcome(warned, fileMap, entries, Some(FileNotFound))
      else if entries[filepath].Directory? then
        AddOutcome(warned, fileMap, entries, Some(IsADirectory))
      else
        AddOutcome(warned, fileMap[copy.name := copy], entries[copy := entries[filepath]], None)
  }

  /** A successful registration of a file with an ASCII suffix adds only ASCII upload names. */
  lemma AddFileNewKeysAscii(fileMap: map<string, Path>, entries: map<Path, Entry>, filepath: Path,
                            name: Option<string>, tmpDir: string)
    requires IsAscii(Suffix(filepath.name))
    ensures var o := AddFile(fileMap, entries, filepath, name, tmpDir);
      o.err.None? ==> forall k :: k in o.fileMap && k !in fileMap ==> IsAscii(k)
  {
  }

  /**
   * The ASCII test is on the chosen upload name, not on the file: a file with
   * a non-ASCII name given an ASCII override is registered as it is.
   */
  lemma AsciiOverrideKeepsFile(fileMap: map<string, Path>, entries: map<Path, Entry>, filepath: Path,
                               name: string, tmpDir: string)
    requires IsAscii(name) && !IsAscii(filepath.name)
    ensures var o := AddFile(fileMap, entries, filepath, Some(name), tmpDir);
      o.err.None? && o.fileMap[name] == filepath && o.entries == entries
  {
  }

  class LegacyRoute {
    const routeUrl: string
    /** Set for the URL route, which sends a multipart body with no files. */
    const urlForm: bool
    /** The options sent as form fields. */
    var formData: map<string, FormValue>
    /** Files to upload, by the name they are uploaded under. */
    var fileMap: map<string, Path>
    /** Headers sent with this route's request. */
    var headers: map<string, string>

    constructor(routeUrl: string, urlForm: bool)
      ensures this.routeUrl == routeUrl && this.urlForm == urlForm
      ensures formData == map[] && fileMap == map[] && headers == map[]
    {
      this.routeUrl := routeUrl;
      this.urlForm := urlForm;
      formData := map[];
      fileMap := map[];
      headers := map[];
    }

    /** Forgets the options and the files; the headers are kept. */
    method Reset()
      modifies this`formData, this`fileMap
      ensures formData == map[] && fileMap == map[]
      ensures headers == old(headers)
    {
      formData := map[];
      fileMap := map[];
    }

    /** The same as `Reset`. */
    method Close()
      modifies this`formData, this`fileMap
      ensures formData == map[] && fileMap == map[]
      ensures headers == old(headers)
    {
      Reset();
    }

    /**
     * Registers a file as `AddFile` describes; `tmpDir` is the temporary
     * directory created if a copy is needed.
     */
    method AddFileMap(fs: FileSystem, filepath: Path, name: Option<string>, tmpDir: string)
      returns (warned: bool, err: Option<Error>)
      modifies this`fileMap, fs
      ensures AddOutcome(warned, fileMap, fs.entries, err) == AddFile(old(fileMap), old(fs.entries), filepath, name, tmpDir)
    {
      var chosen := if name.Some? then name.value else filepath.name;
      warned := chosen in fileMap;
      var key := chosen;
      var stored := filepath;
      if !IsAscii(chosen) {
        var copy := Path(tmpDir, CleanCopyName(filepath));
        if filepath !in fs.entries {
          return warned, Some(FileNotFound);
        }
        if fs.entries[filepath].Directory? {
          return warned, Some(IsADirectory);
        }
        fs.entries := fs.entries[copy := fs.entries[filepath]];
        stored := copy;
        key := copy.name;
      }
      fileMap := fileMap[key := stored];
      err := None;
    }

    /** Sets the request-tracing header on this route. */
    method Trace(traceId: string)
      modifies this`headers
      ensures headers == old(headers)[TRACE_HEADER := traceId]
    {
      headers := headers[TRACE_HEADER := traceId];
    }

    /** Sets the output file name header on this route. */
    method OutputName(filename: string)
      modifies this`headers
      ensures headers == old(headers)[OUTPUT_FILENAME_HEADER := filename]
    {
      headers := headers[OUTPUT_FILENAME_HEADER := filename];
    }

    /** Adds the PDF/A fields of `format`, which is none for the deprecated A-1a. */
    method PdfFormat(format: PdfAFormat)
      modifies this`formData
      ensures formData == old(formData) + AsForm(format.ToForm())
    {
      formData := formData + AsForm(format.ToForm());
    }

    method EnableUniversalAccess()
      modifies this`formData
      ensures formData == old(formData)["pdfua" := Text("true")]
    {
      formData := formData["pdfua" := Text("true")];
    }

    /** Writes the same "true" as `EnableUniversalAccess`: it cannot switch PDF/UA off. */
    method DisableUniversalAccess()
      modifies this`formData
      ensures formData == old(formData)["pdfua" := Text("true")]
    {
      formData := formData["pdfua" := Text("true")];
    }

    /** The files argument: the marker forcing multipart for the URL route, else one part per file. */
    method GetFiles(guess: Path -> Option<string>) returns (files: RequestFiles)
      ensures urlForm ==> files == FORCE_MULTIPART
      ensures !urlForm ==> files == RequestFiles(FileParts(fileMap, guess), false)
    {
      if urlForm {
        return FORCE_MULTIPART;
      }
      var parts := CollectFileParts(fileMap, guess);
      return RequestFiles(parts, false);
    }

    /** One POST with its status check; the raw response is returned. */
    method Run(server: Server) returns (r: Result<RawResponse>)
      ensures r == PostOnce(server(0))
    {
      r := PostOnce(server(0));
    }

    /**
     * The POST retried while the server answers 5xx; when the last permitted
     * attempt is a 5xx too, its HTTP status error is raised again.
     */
    method RunWithRetry(server: Server, maxRetryCount: int, initialRetryWait: real, retryScale: real)
      returns (result: Result<RawResponse>, attempts: nat, sleeps: seq<real>)
      ensures RetryOutcome(result, attempts, sleeps)
        == RetryRun(server, maxRetryCount, initialRetryWait, retryScale, Reraise)
    {
      var retryTime := initialRetryWait;
      var count: nat := 0;
      sleeps := [];
      while count < maxRetryCount
        invariant RetryRun(server, maxRetryCount, initialRetryWait, retryScale, Reraise)
          == AfterSleeps(sleeps, Attempts(server, count, maxRetryCount, retryTime, retryScale, Reraise))
        decreases maxRetryCount - count
      {
        var previous := count;
        count := count + 1;
        match server(previous) {
          case Answered(resp) =>
            return Ok(resp), count, sleeps;
          case StatusError(resp) =>
            if !IsServerError(resp) {
              return Err(HttpStatusError(resp)), count, sleeps;
            }
            if count >= maxRetryCount {
              return Err(HttpStatusError(resp)), count, sleeps;
            }
          case Failed =>
            // re-raised when `count > -maxRetryCount`, which always holds here
            assert count > -maxRetryCount;
            return Err(UnexpectedError), count, sleeps;
        }
        assert Attempts(server, previous, maxRetryCount, retryTime, retryScale, Reraise)
          == SleepThen(retryTime, Attempts(server, count, maxRetryCount, retryTime * retryScale, retryScale, Reraise));
        sleeps := sleeps + [retryTime];
        retryTime := retryTime * retryScale;
      }
      return Err(UnreachableCode), count, sleeps;
    }
  }

  /**
   * As written, disabling PDF/UA on the older route writes "true": after
   * enabling and then disabling it, `pdfua` still asks for PDF/UA.
   */
  method LegacyDisableUniversalAccessScenario() returns (pdfua: FormValue)
    ensures pdfua == Text("true")
  {
    var r := new LegacyRoute("/forms/pdfengines/convert", false);
    r.EnableUniversalAccess();
    r.DisableUniversalAccess();
    pdfua := r.formData["pdfua"];
  }

  /** A response with the given status and nothing else. */
  function StatusOnly(code: int): RawResponse
  {
    RawResponse(code, [], [])
  }

  /** Five server errors in a row: 500, 503, 504, 502, 503. */
  function FiveServerErrors(k: nat): Outcome
  {
    if k == 0 then StatusError(StatusOnly(500))
    else if k == 1 then StatusError(StatusOnly(503))
    else if k == 2 then StatusError(StatusOnly(504))
    else if k == 3 then StatusError(StatusOnly(502))
    else if k == 4 then StatusError(StatusOnly(503))
    else Answered(StatusOnly(200))
  }

  /**
   * Five 5xx answers with the default five attempts: the fifth response's
   * 503 error is raised again after waits of 0.1, 0.01, 0.001 and 0.0001 s.
   */
  lemma FiveServerErrorsReraiseLast()
    ensures RetryRun(FiveServerErrors, 5, 0.1, 0.1, Reraise)
      == RetryOutcome(Err(HttpStatusError(StatusOnly(503))), 5, [0.1, 0.01, 0.001, 0.0001])
  {
    forall j | 0 <= j < 5
      ensures IsRetryable(FiveServerErrors(j))
    {
    }
    RetryExhausts(FiveServerErrors, 5, 0.1, 0.1, Reraise);
    assert Schedule(0.1, 0.1, 4) == [0.1, 0.01, 0.001, 0.0001];
  }

  /** A 404 on the first attempt is raised at once, with no wait. */
  lemma NotFoundRaisedAtOnce(max: int, wait: real, scale: real)
    requires max >= 1
    ensures RetryRun(_ => StatusError(StatusOnly(404)), max, wait, scale, Reraise)
      == RetryOutcome(Err(HttpStatusError(StatusOnly(404))), 1, [])
  {
    RetryStopsAtFirstNonRetryable(_ => StatusError(StatusOnly(404)), max, wait, scale, Reraise, 0);
  }
}
