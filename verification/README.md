# gotenberg-client: a verified model of request building

gotenberg-client is a Python client for the Gotenberg document-conversion
server. A caller builds a *route*: a multipart request bound to one server
endpoint (HTML to PDF, URL to PDF, Markdown to PDF, screenshots, merging,
LibreOffice conversion). Fluent setters fill the route's form fields
(`_form_data`), its upload table (`_file_map`, in-memory files), and its
request headers. `run` posts the request once. `run_with_retry` re-posts
after server errors, waiting longer each time. The response is wrapped as
a single-file or zip response.

This Dafny project models that core and proves what it promises:

- **Routes are classes.** `BaseRoutes.Route` is the current route object,
  from `_base/routes.py`. `LegacyBase.LegacyRoute` is the older one, from
  `_base.py`. `LegacyMerge.MergeRoute` wraps a legacy route with its
  ordering counter.
  - Their methods update fields in place: `formData`, `fileMap`, `inMemory`,
    `headers`, `next`.
  - Each method's `ensures` gives the whole new state.
- **Mixins become methods.** Each mixin setter is a module-level method
  that takes the route and modifies only the field it writes. The modules
  are `CommonMixins`, `ChromiumMixins`, `ChromiumOptions`,
  `LibreOfficeMixins`, `ConvertCommon` and `ConvertChromium`.
- **Value objects are datatypes.** Page sizes, margins, orientation,
  cookies, PDF/A formats and metadata arguments are datatypes whose
  `ToForm` functions state which form keys they produce and what text each
  key holds.
- **Loops are proved against specification functions.** Each loop is a
  `while`/`for` method with invariants, proved equal to a specification
  function:
  - `Stored` for batches of resources;
  - `Merged` and `LegacyMerged` for merging;
  - `LegacyAdded` for batches on the legacy route;
  - `FileParts`/`AllParts` for the multipart body;
  - `RetryRun` for the retry loop.

  The properties are then proved about those functions: the last file
  wins, each merged file's list position can be read back from its
  upload name, every file survives a merge, retries
  stop at the first non-5xx answer, and the wait schedule is geometric.
- **The server is a parameter.** It is a function from attempt number to
  outcome: an answer, an HTTP status error or a transport failure. Sleeps
  are recorded as a sequence of seconds instead of being performed.
- **Responses and the health check are modelled too.** `Responses`
  covers the zip test and extraction. `Health` covers the health report:
  timestamp parsing with a format/parse round trip, and status parsing.

Where the documentation and the code disagree, the model follows the code:

- **Retry waits.** The `run_with_retry` docstring promises waits up to
  80 s (`_base/routes.py:79-84`). The code never waits after the last
  attempt, so the longest default wait is 40 s (`Retry.DefaultWaits`).
- **Response kind.** The zip-or-single-file decision could be read off
  the response's Content-Type. `run` instead decides by the route's own
  flag (`_base/routes.py:278-282`). `BaseRoutes.Classify` follows `run`.
  `Responses.IsZipIff` states the header test `is_zip` makes.
- **Error raised when retries run out.** `_errors.py` defines
  `MaxRetriesExceededError` without the `response` argument that
  `_base/routes.py:266` passes, so as written that line raises a
  TypeError. `BaseRoutes.Route.PostDataWithRetry` carries the response,
  as the caller evidently intends; the as-written behaviour is the
  `ResponseKeywordRefused` exhaustion policy (see "## Findings").

## Model

| member | source | states |
|---|---|---|
| BaseRoutes.Route.constructor | src/gotenberg_client/_base/routes.py:40-54 | a new route is bound to its client and endpoint, has empty form data, file map, in-memory files and headers, starts its merge counter at 1 and expects a single-file response |
| BaseRoutes.Route.Reset | src/gotenberg_client/_base/routes.py:130-139 | reset empties the form data and the file map and removes only the output-filename and trace headers from the route's own headers; in-memory files, the counter and the zip flag are untouched |
| BaseRoutes.Route.Close | src/gotenberg_client/_base/routes.py:141-145 | close leaves the route exactly as reset does |
| BaseRoutes.Route.AddFileMap | src/gotenberg_client/_base/routes.py:175-187 | a file is uploaded under the given name, or its own base name when none is given; it replaces any earlier file of that name, and a warning is raised exactly when the name was already taken |
| BaseRoutes.Route.AddInMemoryFile | src/gotenberg_client/_base/routes.py:189-196 | text content is registered under its name with its mime type, replacing an earlier entry; a warning exactly when the name was taken |
| BaseRoutes.Route.OutputFilename | src/gotenberg_client/_base/routes.py:198-207 | as written: the output filename goes into the shared client's headers, not the route's |
| BaseRoutes.Route.TraceId | src/gotenberg_client/_base/routes.py:209-215 | as written: the trace id goes into the shared client's headers, not the route's |
| BaseRoutes.Route.SetOutputFilename | src/gotenberg_client/_base/routes.py:198-207 | corrected: the output filename goes into the route's own headers, the ones reset clears |
| BaseRoutes.Route.SetTraceId | src/gotenberg_client/_base/routes.py:209-215 | corrected: the trace id goes into the route's own headers |
| BaseRoutes.Route.GetAllResources | src/gotenberg_client/_base/routes.py:147-173 | a URL route sends the empty-but-truthy multipart marker; any other route sends one part per upload name, file and in-memory alike, the in-memory entry winning a shared name |
| BaseRoutes.AllParts | src/gotenberg_client/_base/routes.py:147-173 | the parts are keyed by exactly the union of file and in-memory names, each part carries its key as filename, in-memory content wins a shared name, files carry their guessed mime type |
| BaseRoutes.FileParts | src/gotenberg_client/_base/routes.py:154-164 | one file part per file-map entry, under the same name, with that file's guessed mime type |
| BaseRoutes.MemoryParts | src/gotenberg_client/_base/routes.py:166-171 | one in-memory part per registered text, under the same name, with its content and mime type |
| BaseRoutes.CollectFileParts | src/gotenberg_client/_base/routes.py:154-164 | the loop over the file map builds exactly the file parts |
| BaseRoutes.AddMemoryParts | src/gotenberg_client/_base/routes.py:166-171 | the loop over the in-memory files adds exactly their parts on top of the file parts |
| BaseRoutes.Route.PostData | src/gotenberg_client/_base/routes.py:231-239 | one post: the first server outcome, a status error raised as such, a transport failure as an error |
| BaseRoutes.Route.PostDataWithRetry | src/gotenberg_client/_base/routes.py:241-276 | the retry loop's result, attempt count and sleeps are those of the retry specification with the give-up-with-max-retries policy (the corrected half of the exhaustion finding) |
| BaseRoutes.MaxRetriesAsWritten | src/gotenberg_client/_base/routes.py:265-266 | when every permitted attempt is a 5xx, the loop as written ends in a TypeError carrying no response, while the corrected loop ends in the max-retries error carrying the last response, after the same max attempts and max - 1 waits |
| BaseRoutes.Route.Run | src/gotenberg_client/_base/routes.py:278-282 | one post, its response classified as a zip or single-file response by the route's flag |
| BaseRoutes.Route.RunWithRetry | src/gotenberg_client/_base/routes.py:284-298 | the retried post's outcome, classified by the route's flag; errors pass through unchanged |
| BaseRoutes.AsApiResponse | src/gotenberg_client/_base/routes.py:278-282 | the zip response kind is chosen exactly when the flag is set; status, headers and content are carried over |
| BaseRoutes.Classify | src/gotenberg_client/_base/routes.py:284-298 | success stays success with the response wrapped, failure stays the same failure |
| BaseRoutes.OutputFilenameSurvivesReset | src/gotenberg_client/_base/routes.py:130-139 | as written: after setting an output filename and resetting the route, the filename is still sent on the client's headers |
| BaseRoutes.CorrectedHeadersClearedByReset | src/gotenberg_client/_base/routes.py:130-139 | corrected: with route-local headers, reset leaves neither the route nor the client carrying the filename or trace id |
| Retry.PostOnce | src/gotenberg_client/_base/routes.py:231-239 | success exactly when the server answered; a status error carries its response; a failure is the unexpected error |
| Retry.ExhaustedError | src/gotenberg_client/_base/routes.py:261-266 | the error raised when attempts run out: max-retries-exceeded (intended), a TypeError (as written) or the HTTP error re-raised (older route), each exactly under its policy; all but the TypeError carry the last response |
| Retry.Schedule | src/gotenberg_client/_base/routes.py:248-274 | the schedule of n waits has exactly n entries |
| Retry.ScheduleAt | src/gotenberg_client/_base/routes.py:248-274 | the i-th wait is the initial wait times the scale to the power i |
| Retry.SchedulePrefix | src/gotenberg_client/_base/routes.py:248-274 | a shorter run's waits are a prefix of a longer run's |
| Retry.ScheduleTotal | src/gotenberg_client/_base/routes.py:248-274 | the total time slept is the initial wait times the geometric sum of the scale |
| Retry.GeomClosedForm | src/gotenberg_client/_base/routes.py:248-274 | the geometric sum has its closed form: (x - 1) times the sum equals x^n - 1 |
| Retry.AttemptsBound | src/gotenberg_client/_base/routes.py:248-276 | from any attempt below the maximum, between one and the remaining attempts are made, the waits follow the schedule, and the unreachable error is never reached |
| Retry.RetryBound | src/gotenberg_client/_base/routes.py:248-276 | at most max attempts are made with one wait between consecutive attempts and none after the last; the unreachable error arises exactly when max is not positive, with no attempt at all |
| Retry.AttemptsStopAt | src/gotenberg_client/_base/routes.py:254-271 | the first attempt that is not a 5xx ends the run with its own outcome after the waits before it |
| Retry.RetryStopsAtFirstNonRetryable | src/gotenberg_client/_base/routes.py:254-271 | a success, a 4xx or a transport failure at attempt k is returned at once, after exactly k waits |
| Retry.AttemptsExhaust | src/gotenberg_client/_base/routes.py:251-274 | from any attempt, when every remaining attempt is a 5xx, the run ends at the maximum with the exhaustion error for the last response |
| Retry.RetryExhausts | src/gotenberg_client/_base/routes.py:251-274 | when every permitted attempt is a 5xx, exactly max attempts and max - 1 waits are made and the error carries the last response |
| Retry.DefaultWaits | src/gotenberg_client/_base/routes.py:241-276 | with the defaults (5 attempts, 5 s, factor 2) the waits are a prefix of 5, 10, 20, 40 s, and an 80 s wait never happens |
| LegacyBase.CleanCopyName | src/gotenberg_client/_base.py:204-215 | the renamed copy's name starts with the fixed clean stem and is ASCII whenever the original suffix is |
| LegacyBase.AddFile | src/gotenberg_client/_base.py:190-215 | an ASCII upload name stores the file as is; otherwise the file is copied into the temporary directory under the clean name and that copy is stored, failing with nothing changed: file-not-found when the source is missing, is-a-directory when it is a directory; a warning exactly when the chosen name was taken |
| LegacyBase.AddFileNewKeysAscii | src/gotenberg_client/_base.py:190-215 | for a file whose suffix is ASCII, every name the upload table gains is ASCII |
| LegacyBase.AsciiOverrideKeepsFile | src/gotenberg_client/_base.py:196-203 | an ASCII override name keeps a non-ASCII file as it is: no copy, no error |
| LegacyBase.LegacyRoute.constructor | src/gotenberg_client/_base.py:69-78 | a new legacy route has its endpoint and empty form data, file map and headers |
| LegacyBase.LegacyRoute.Reset | src/gotenberg_client/_base.py:92-99 | reset empties the form data and file map and keeps the headers |
| LegacyBase.LegacyRoute.Close | src/gotenberg_client/_base.py:101-105 | close leaves the legacy route as reset does |
| LegacyBase.LegacyRoute.AddFileMap | src/gotenberg_client/_base.py:190-215 | the upload table, the file system and the error are those the add-file specification gives |
| LegacyBase.LegacyRoute.Trace | src/gotenberg_client/_base.py:217-219 | the trace id goes into the route's own headers |
| LegacyBase.LegacyRoute.OutputName | src/gotenberg_client/_base.py:221-223 | the output filename goes into the route's own headers |
| LegacyBase.LegacyRoute.PdfFormat | src/gotenberg_client/_base.py:37-43 | the PDF/A format's form entries are merged into the form data |
| LegacyBase.LegacyRoute.EnableUniversalAccess | src/gotenberg_client/_base.py:54-56 | sets pdfua to "true" |
| LegacyBase.LegacyRoute.DisableUniversalAccess | src/gotenberg_client/_base.py:58-60 | as written: also sets pdfua to "true" |
| LegacyBase.LegacyDisableUniversalAccessScenario | src/gotenberg_client/_base.py:58-60 | as written: on a fresh legacy route, disabling universal access leaves pdfua at "true" |
| LegacyBase.LegacyRoute.GetFiles | src/gotenberg_client/_base.py:170-188 | a URL route sends the multipart marker, any other route one file part per upload name |
| LegacyBase.LegacyRoute.Run | src/gotenberg_client/_base.py:107-115 | one post, a status error raised as such |
| LegacyBase.LegacyRoute.RunWithRetry | src/gotenberg_client/_base.py:117-168 | the retry loop's result, attempt count and sleeps are those of the retry specification with the re-raise-last-error policy |
| LegacyBase.FiveServerErrorsReraiseLast | tests/test_misc_stuff.py:85-102 | five 5xx answers with a 0.1 s initial wait and 0.1 scale: the fifth response's 503 error is raised after waits of 0.1, 0.01, 0.001 and 0.0001 s |
| LegacyBase.NotFoundRaisedAtOnce | tests/test_misc_stuff.py:104-113 | a 404 on the first attempt is raised at once after one attempt and no wait |
| MergeRoutes.UpToUnderscore | src/gotenberg_client/_merge/routes.py:50-53 | the prefix read back from a merge name holds no underscore |
| MergeRoutes.UpToUnderscoreOfKey | src/gotenberg_client/_merge/routes.py:50-53 | the index written before the first underscore of a merge name is read back exactly |
| MergeRoutes.MergeKeysDistinct | src/gotenberg_client/_merge/routes.py:50-53 | merge names with different indexes differ, whatever the file names |
| MergeRoutes.SingleDigitKeysSorted | src/gotenberg_client/_merge/routes.py:46-53 | for counters 1 to 9, a character-by-character sort of the upload names puts them in list order |
| MergeRoutes.KeyOrderBreaksAtTen | src/gotenberg_client/_merge/routes.py:46-53 | from counter 10 on that sort departs from list order: the tenth name sorts before the second |
| MergeRoutes.MergedCons | src/gotenberg_client/_merge/routes.py:50-53 | merging a list is merging its first file at the current index and the rest from the next one |
| MergeRoutes.MergedStoresFirst | src/gotenberg_client/_merge/routes.py:50-53 | the first file of a merge is stored under its indexed name |
| MergeRoutes.LaterKeysDiffer | src/gotenberg_client/_merge/routes.py:50-53 | a name with an index below the merge's starting index is never produced by that merge |
| MergeRoutes.MergedStoresEach | src/gotenberg_client/_merge/routes.py:50-53 | every file of a merge is stored under its own indexed name: none is lost and the order is encoded in the names |
| MergeRoutes.MergedKeepsOne | src/gotenberg_client/_merge/routes.py:50-53 | an earlier upload whose name no merged file takes keeps its file |
| MergeRoutes.MergedKeeps | src/gotenberg_client/_merge/routes.py:50-53 | all earlier uploads whose names no merged file takes are kept |
| MergeRoutes.NewKeysMembers | src/gotenberg_client/_merge/routes.py:50-53 | every new name is the indexed name of one of the merged files |
| MergeRoutes.NewKeysAbove | src/gotenberg_client/_merge/routes.py:50-53 | names from an earlier merge call, with lower indexes, are not among the new names |
| MergeRoutes.NewKeysCount | src/gotenberg_client/_merge/routes.py:50-53 | a merge of n files produces exactly n distinct names |
| MergeRoutes.MergedKeys | src/gotenberg_client/_merge/routes.py:50-53 | after a merge the upload names are the old ones plus exactly the new indexed names |
| MergeRoutes.Merge | src/gotenberg_client/_merge/routes.py:30-54 | the loop stores each file under "index_name" in order and advances the counter by the number of files |
| LegacyMerge.MergeKeyAscii | src/gotenberg_client/_merge.py:61-64 | the indexed name of an ASCII file name is ASCII, so it is stored without copying |
| LegacyMerge.LegacyMergeAsciiAgrees | src/gotenberg_client/_merge.py:41-65 | with ASCII file names the legacy merge does what the current merge does, with no copy and no error |
| LegacyMerge.MergeKeyNotAscii | src/gotenberg_client/_merge.py:61-64 | the indexed name of a non-ASCII file name is not ASCII, so the file is copied and renamed |
| LegacyMerge.MergedStep | src/gotenberg_client/_merge.py:61-64 | one merge step registers the first file under its indexed name and either stops on an error or continues with the next index |
| LegacyMerge.AsciiStep | src/gotenberg_client/_base.py:190-215 | registering under an ASCII name stores the file as is, warning exactly when the name was taken |
| LegacyMerge.RenamedStep | src/gotenberg_client/_base.py:204-215 | registering a readable file under a non-ASCII name stores its copy under the clean name, and other readable files stay readable |
| LegacyMerge.MergedTwo | src/gotenberg_client/_merge.py:61-64 | a two-file legacy merge is its two registration steps, the counter advanced by two |
| LegacyMerge.TwoRenamedSteps | src/gotenberg_client/_base.py:204-215 | two non-ASCII files with the same suffix both register, and only the second one's copy remains |
| LegacyMerge.NonAsciiMergeCollides | src/gotenberg_client/_merge.py:61-64 | as written: merging two non-ASCII files with the same suffix reports success yet uploads only the second file, and the index prefix is lost |
| LegacyMerge.SafeName | src/gotenberg_client/_merge.py:61-64 | corrected: the upload name is always ASCII and an ASCII name is left alone |
| LegacyMerge.SafeMergeKeepsEveryFile | src/gotenberg_client/_merge.py:61-64 | corrected: merging n files yields n uploads, each file under its own indexed name |
| LegacyMerge.MergeRoute.constructor | src/gotenberg_client/_merge.py:30-39 | a new merge route has an empty legacy route on the endpoint and its counter at 1 |
| LegacyMerge.MergeRoute.Merge | src/gotenberg_client/_merge.py:41-65 | the loop's upload table, file system, counter and error are those of the legacy merge specification |
| LegacyMerge.MergeRoute.MergeOne | src/gotenberg_client/_merge.py:61-64 | one file is registered under its indexed name, and the counter advances only when that succeeded |
| LegacyMerge.MergeRoute.SafeMerge | src/gotenberg_client/_merge.py:41-65 | corrected: the loop stores every file under its ASCII-safe indexed name, advances the counter by the number of files and copies nothing |
| LegacyMerge.MergeRoute.SafeAdd | src/gotenberg_client/_merge.py:61-64 | corrected: one file is stored under its ASCII-safe indexed name and the counter advances |
| LegacyMerge.MergeApiMerge | src/gotenberg_client/_merge.py:73-76 | the merge entry point returns a fresh merge route on the merge endpoint with its counter at 1 |
| CommonMixins.PdfFormat | src/gotenberg_client/_common/mixins.py:35-41 | the PDF/A format's entries are merged into the form data |
| CommonMixins.UniversalAccess | src/gotenberg_client/_common/mixins.py:59-72 | pdfua is set to the boolean's text |
| CommonMixins.EnableUniversalAccess | src/gotenberg_client/_common/mixins.py:74-81 | pdfua is set to "true" |
| CommonMixins.DisableUniversalAccess | src/gotenberg_client/_common/mixins.py:83-90 | pdfua is set to "false" |
| CommonMixins.DisableUniversalAccessScenario | src/gotenberg_client/_common/mixins.py:83-90 | corrected: on a fresh route, disabling universal access leaves pdfua at "false" |
| CommonMixins.SplitKind.Value | src/gotenberg_client/_common/mixins.py:103-116 | the split mode text is "intervals" or "pages", "pages" exactly for page splitting |
| CommonMixins.SplitMode | src/gotenberg_client/_common/mixins.py:103-116 | splitMode is set to the mode's text |
| CommonMixins.SplitSpan | src/gotenberg_client/_common/mixins.py:118-130 | splitSpan is set to the span as given |
| CommonMixins.SplitUnify | src/gotenberg_client/_common/mixins.py:132-145 | splitUnify is set to the boolean's text |
| CommonMixins.Flatten | src/gotenberg_client/_common/mixins.py:262-278 | flatten is set to the boolean's text |
| CommonMixins.TrappedValue | src/gotenberg_client/_common/mixins.py:207-208 | a boolean trapped flag becomes the true or false status accordingly; a status is kept |
| CommonMixins.ValidateMetadata | src/gotenberg_client/_common/mixins.py:202-214 | the revision error exactly when a version outside [1.0, 2.0] is given; otherwise the keyword error exactly when some keyword holds a comma; nothing else is refused |
| CommonMixins.CollectMetadata | src/gotenberg_client/_common/mixins.py:221-247 | the collected metadata has only known keys, and a key exactly when its argument supplies a value |
| CommonMixins.CollectedStrings | src/gotenberg_client/_common/mixins.py:224-245 | author, copyright, creator, producer, subject and title appear exactly when given, with their text |
| CommonMixins.CollectedDatesAndKeywords | src/gotenberg_client/_common/mixins.py:228-237 | the dates appear exactly when given; the keywords appear exactly when a non-empty list is given, joined by ", " |
| CommonMixins.CollectedFlagsAndVersion | src/gotenberg_client/_common/mixins.py:234-247 | marked and trapped appear exactly when given; the version appears exactly when it is given and not zero, so every valid version is written |
| CommonMixins.ExistingMetadata | src/gotenberg_client/_common/mixins.py:217-219 | no metadata field reads as empty; a readable field is the object it encodes; otherwise the unreadable-metadata error |
| CommonMixins.MetadataResult | src/gotenberg_client/_common/mixins.py:202-250 | refused exactly when validation fails or the existing field is unreadable; otherwise only the metadata field changes, holding the existing entries overlaid by the new ones, and with nothing new and writing not forced the form is unchanged |
| CommonMixins.Metadata | src/gotenberg_client/_common/mixins.py:161-252 | on success the form becomes the metadata result with writing forced; on refusal the form is unchanged and the error is returned |
| CommonMixins.PdfVersionBounds | src/gotenberg_client/_common/mixins.py:202-205 | a version alone is accepted exactly when it lies in [1.0, 2.0], both ends included |
| CommonMixins.KeywordCommaRefused | src/gotenberg_client/_common/mixins.py:210-214 | keywords alone are refused exactly when one of them holds a comma |
| CommonMixins.KeywordsJoined | tests/test_metadata.py:69-70 | the keywords "Test" and "Something" are written as "Test, Something" |
| CommonMixins.MetadataTwice | src/gotenberg_client/_common/mixins.py:216-250 | two successive metadata calls accumulate: the field holds the first call's entries overlaid by the second's |
| CommonMixins.EmptyCallStillWrites | src/gotenberg_client/_common/mixins.py:248-250 | with writing forced, a call with no arguments still writes the metadata field, keeping the existing entries |
| CommonMixins.EmptyCallWritesNothing | src/gotenberg_client/_chromium/options.py:487-489 | without forced writing, a call with no arguments leaves the form unchanged |
| ChromiumMixins.FlagKeysDistinct | src/gotenberg_client/_chromium/mixins.py:27-110 | different boolean switches write different fields |
| ChromiumMixins.SetFlag | src/gotenberg_client/_chromium/mixins.py:86-87 | a switch's field is set to the boolean's text and nothing else changes |
| ChromiumMixins.AliasesPaired | src/gotenberg_client/_chromium/mixins.py:86-110 | two fixed-value setters of the same switch set opposite values |
| ChromiumMixins.AliasesCoverBothValues | src/gotenberg_client/_chromium/mixins.py:243-267 | every switch with fixed-value setters has one for each value |
| ChromiumMixins.Alias | src/gotenberg_client/_chromium/mixins.py:243-267 | a fixed-value setter sets its switch's field to its value's text |
| ChromiumMixins.Orient | src/gotenberg_client/_chromium/mixins.py:118-122 | landscape is set to "true" exactly for landscape orientation |
| ChromiumMixins.Size | src/gotenberg_client/_chromium/mixins.py:42-43 | the page size's entries are merged into the form data |
| ChromiumMixins.Margins | src/gotenberg_client/_chromium/mixins.py:52-53 | the margins' entries are merged into the form data |
| ChromiumMixins.Scale | src/gotenberg_client/_chromium/mixins.py:131-132 | scale is set to the number's text |
| ChromiumMixins.PageRanges | src/gotenberg_client/_chromium/mixins.py:141-146 | nativePageRanges is set to the ranges as given |
| ChromiumMixins.Header | src/gotenberg_client/_chromium/mixins.py:155-157 | the header file is uploaded as header.html |
| ChromiumMixins.Footer | src/gotenberg_client/_chromium/mixins.py:159-161 | the footer file is uploaded as footer.html |
| ChromiumMixins.WaitDelayText | src/gotenberg_client/_chromium/mixins.py:169-174 | the wait delay text ends with the seconds unit "s" |
| ChromiumMixins.WaitDelayReadBack | src/gotenberg_client/_chromium/mixins.py:169-174 | for a whole number of seconds, the text before "s" is that number's digits |
| ChromiumMixins.RenderWait | src/gotenberg_client/_chromium/mixins.py:169-174 | a negative wait is refused with the form unchanged; otherwise waitDelay is set to the seconds followed by "s" (a timedelta enters as the float of its total seconds) |
| ChromiumMixins.RenderExpression | src/gotenberg_client/_chromium/mixins.py:176-178 | waitForExpression is set to the expression |
| ChromiumMixins.MediaType | src/gotenberg_client/_chromium/mixins.py:186-188 | emulatedMediaType is set to "print" or "screen" |
| ChromiumMixins.Cookies | src/gotenberg_client/_chromium/mixins.py:196-199 | cookies holds the list of the cookies' dictionaries, in order |
| ChromiumMixins.UserAgent | src/gotenberg_client/_chromium/mixins.py:207-209 | userAgent is set to the agent |
| ChromiumMixins.ExtraHeaders | src/gotenberg_client/_chromium/mixins.py:211-214 | extraHttpHeaders holds the headers as an object of strings |
| ChromiumMixins.BracketedCodes | src/gotenberg_client/_chromium/mixins.py:222-225 | the codes text is the comma-joined codes in square brackets |
| ChromiumMixins.NoCodesBracketed | src/gotenberg_client/_chromium/mixins.py:222-225 | no codes give "[]" |
| ChromiumMixins.BracketedCodesInjective | src/gotenberg_client/_chromium/mixins.py:222-225 | different code lists give different texts, so the server reads back the list given |
| ChromiumMixins.FailOnStatusCodes | src/gotenberg_client/_chromium/mixins.py:222-225 | failOnHttpStatusCodes is set to the bracketed codes |
| ChromiumMixins.ClampedQualityText | src/gotenberg_client/_chromium/mixins.py:310-328 | the written quality is digits that read back as the clamped value |
| ChromiumMixins.Quality | src/gotenberg_client/_chromium/mixins.py:310-328 | quality is set to the value clamped into [0, 100] |
| ChromiumMixins.Width | src/gotenberg_client/_chromium/mixins.py:278-279 | width is set to the integer's text |
| ChromiumMixins.Height | src/gotenberg_client/_chromium/mixins.py:282-283 | height is set to the integer's text |
| ChromiumMixins.OutputFormat | src/gotenberg_client/_chromium/mixins.py:296-307 | format is set to png, jpeg or webp |
| ChromiumOptions.MeasurementForm | src/gotenberg_client/_chromium/options.py:44-56 | a measurement contributes exactly one entry, under its field name |
| ChromiumOptions.ChromiumPageSize.ToForm | src/gotenberg_client/_chromium/options.py:44-56 | only paperWidth and paperHeight, each exactly when that side is set, holding its measurement |
| ChromiumOptions.ChromiumMargins.ToForm | src/gotenberg_client/_chromium/options.py:76-92 | only the four margin keys, each exactly when that side is set, holding its measurement |
| ChromiumOptions.SideForm | src/gotenberg_client/_chromium/options.py:76-92 | an unset side contributes nothing, a set side its one entry |
| ChromiumOptions.SameSite.Value | src/gotenberg_client/_chromium/options.py:122-145 | the same-site text is never empty |
| ChromiumOptions.CookieJar.AsDict | src/gotenberg_client/_chromium/options.py:131-145 | name, value and domain always; path only when given and non-empty; secure and httpOnly only when true, as "true"; sameSite only when set |
| ChromiumOptions.StringObject | src/gotenberg_client/_chromium/mixins.py:211-214 | a dictionary of strings becomes an object with the same keys and the same texts |
| ChromiumOptions.CookieDocs | src/gotenberg_client/_chromium/mixins.py:196-199 | one document per cookie, in order, each its dictionary |
| ChromiumOptions.CodeTexts | src/gotenberg_client/_chromium/options.py:297-302 | one text per code, in order, each the code's digits |
| ChromiumOptions.CodesTextSplits | src/gotenberg_client/_chromium/options.py:297-302 | splitting the written codes at commas gives back each code's text |
| ChromiumOptions.CodesTextInjective | src/gotenberg_client/_chromium/options.py:297-302 | different code lists give different texts |
| ChromiumOptions.FailOnCodes | src/gotenberg_client/_chromium/options.py:297-298 | failOnHttpStatusCodes is set to the comma-joined codes, without brackets |
| ChromiumOptions.FailOnResourceCodes | src/gotenberg_client/_chromium/options.py:301-302 | failOnResourceHttpStatusCodes is set to the comma-joined codes, without brackets |
| ChromiumOptions.ChromiumMetadata | src/gotenberg_client/_chromium/options.py:398-492 | on success the form becomes the metadata result without forced writing; on refusal it is unchanged and the error returned |
| ChromiumRoutes.EndpointsDistinct | src/gotenberg_client/_chromium/routes.py:233-450 | the six Chromium route families post to six different endpoints |
| ChromiumRoutes.NewChromiumRoute | src/gotenberg_client/_chromium/routes.py:224-246 | a new Chromium route posts to its family's endpoint, is a URL route exactly for the URL families, and starts empty |
| ChromiumRoutes.StoredKeys | src/gotenberg_client/_chromium/routes.py:151-166 | a batch adds exactly the names of its items |
| ChromiumRoutes.StoredCons | src/gotenberg_client/_chromium/routes.py:151-166 | storing a batch is storing its first item and then the rest |
| ChromiumRoutes.StoredLastWins | src/gotenberg_client/_chromium/routes.py:151-166 | an item with no later item of the same name is the one stored under that name |
| ChromiumRoutes.StoredKeepsOthers | src/gotenberg_client/_chromium/routes.py:151-166 | an earlier entry whose name no item has is kept |
| ChromiumRoutes.Index | src/gotenberg_client/_chromium/routes.py:88-102 | the entry point is uploaded as index.html, whatever its own name |
| ChromiumRoutes.StringIndex | src/gotenberg_client/_chromium/routes.py:104-119 | the HTML text is registered as the in-memory index.html, typed text/html |
| ChromiumRoutes.Resource | src/gotenberg_client/_chromium/routes.py:121-133 | a resource is uploaded under the given name, or its own |
| ChromiumRoutes.StringResource | src/gotenberg_client/_chromium/routes.py:135-149 | a text resource is registered under its name with its mime type |
| ChromiumRoutes.Resources | src/gotenberg_client/_chromium/routes.py:151-166 | the loop uploads each resource under its own name, in order |
| ChromiumRoutes.StringResources | src/gotenberg_client/_chromium/routes.py:168-190 | the loop registers each text resource under its name, in order |
| ChromiumRoutes.MarkdownFile | src/gotenberg_client/_chromium/routes.py:299-312 | a Markdown file is uploaded under its own name |
| ChromiumRoutes.MarkdownFiles | src/gotenberg_client/_chromium/routes.py:314-329 | the loop uploads each Markdown file under its own name, in order |
| ChromiumRoutes.ResourcesByOwnName | src/gotenberg_client/_chromium/routes.py:151-166 | after a batch, each resource not followed by one of the same name is uploaded under its own name |
| ChromiumRoutes.Url | src/gotenberg_client/_chromium/routes.py:200-212 | url is set to the page address and nothing else changes |
| ConvertChromium.LegacyChromiumRoute | src/gotenberg_client/_convert/chromium.py:307-365 | a legacy Chromium route posts to its family's endpoint and starts empty |
| ConvertChromium.LegacyIndex | src/gotenberg_client/_convert/chromium.py:28-30 | the entry point is uploaded as index.html, with no copy |
| ConvertChromium.AddedStep | src/gotenberg_client/_convert/chromium.py:38-41 | one step of a legacy batch registers the first file and either stops on an error or continues |
| ConvertChromium.LegacyAddedAsciiAgrees | src/gotenberg_client/_convert/chromium.py:38-41 | with ASCII names the legacy batch stores what the current batch stores, copies nothing and fails never |
| ConvertChromium.LegacyAddedErrors | src/gotenberg_client/_convert/chromium.py:38-41 | a legacy batch can only fail with file-not-found or is-a-directory, and only when some file name is not ASCII |
| ConvertChromium.LegacyResource | src/gotenberg_client/_convert/chromium.py:34-36 | a resource is registered under its own name as the add-file specification says |
| ConvertChromium.LegacyResources | src/gotenberg_client/_convert/chromium.py:38-41 | the loop registers each resource in order and stops at the first failure, as the batch specification says |
| ConvertChromium.LegacyMarkdownFile | src/gotenberg_client/_convert/chromium.py:122-135 | a Markdown file is registered under its own name as the add-file specification says |
| ConvertChromium.LegacyMarkdownFiles | src/gotenberg_client/_convert/chromium.py:137-149 | the loop registers each Markdown file in order and stops at the first failure |
| ConvertChromium.LegacyUrl | src/gotenberg_client/_convert/chromium.py:83-95 | url is set to the page address |
| ConvertChromium.LegacyQuality | src/gotenberg_client/_convert/chromium.py:195-214 | quality is set to the value clamped into [0, 100] |
| ConvertChromium.LegacyOutputFormat | src/gotenberg_client/_convert/chromium.py:181-193 | format is set to png, jpeg or webp |
| ConvertChromium.OptimizeSpeed | src/gotenberg_client/_convert/chromium.py:216-225 | optimizeForSpeed is set to "true" |
| ConvertChromium.OptimizeSize | src/gotenberg_client/_convert/chromium.py:227-236 | optimizeForSpeed is set to "false" |
| ConvertCommon.LegacySize | src/gotenberg_client/_convert/common.py:34-36 | the page size's entries are merged into the form data |
| ConvertCommon.LegacyMargins | src/gotenberg_client/_convert/common.py:44-46 | the margins' entries are merged into the form data |
| ConvertCommon.LegacyOrient | src/gotenberg_client/_convert/common.py:54-59 | landscape is set to "true" exactly for landscape orientation |
| ConvertCommon.LegacyPageRanges | src/gotenberg_client/_convert/common.py:67-73 | nativePageRanges is set to the ranges as given |
| ConvertCommon.LegacyScale | src/gotenberg_client/_convert/common.py:117-119 | scale is set to the number's text |
| ConvertCommon.LegacySwitchesMatchAliases | src/gotenberg_client/_convert/common.py:81-109 | each older fixed-value setter writes the same field and value as a current fixed-value setter |
| ConvertCommon.LegacySwitchSet | src/gotenberg_client/_convert/common.py:81-109 | an older fixed-value setter writes its fixed "true" or "false" |
| ConvertCommon.LegacySinglePage | src/gotenberg_client/_convert/common.py:127-129 | singlePage is set to Python's capitalised "True" or "False" |
| ConvertCommon.SinglePageTextsDiffer | src/gotenberg_client/_convert/common.py:127-129 | the older single-page text differs from the current lower-case one, and agrees with it after lower-casing |
| ConvertCommon.LegacyRenderWait | src/gotenberg_client/_convert/common.py:167-169 | waitDelay is set to the number's text, with no unit and no sign check |
| ConvertCommon.LegacyWaitOf500 | tests/test_convert_chromium_url.py:180-195 | a wait of 500 is written as "500" |
| ConvertCommon.LegacyRenderExpression | src/gotenberg_client/_convert/common.py:171-173 | waitForExpression is set to the expression |
| ConvertCommon.LegacyMediaType | src/gotenberg_client/_convert/common.py:181-183 | the media type's entry is merged into the form data |
| ConvertCommon.LegacyUserAgent | src/gotenberg_client/_convert/common.py:191-194 | userAgent is set to the agent |
| ConvertCommon.LegacyExtraHeaders | src/gotenberg_client/_convert/common.py:196-199 | extraHttpHeaders holds the headers as an object of strings |
| ConvertCommon.LegacyHeader | src/gotenberg_client/_convert/common.py:153-155 | the header file is uploaded as header.html, with no copy |
| ConvertCommon.LegacyFooter | src/gotenberg_client/_convert/common.py:157-159 | the footer file is uploaded as footer.html, with no copy |
| ConvertCommon.LegacyFailOnStatusCodes | src/gotenberg_client/_convert/common.py:207-213 | no codes leave the form unchanged; otherwise failOnHttpStatusCodes is set to the bracketed codes |
| ConvertCommon.LegacyCodesNeverEmpty | src/gotenberg_client/_convert/common.py:207-213 | a non-empty code list is never written as "[]" |
| ConvertCommon.LegacyMetadata | src/gotenberg_client/_convert/common.py:289-381 | on success the form becomes the metadata result without forced writing; on refusal it is unchanged and the error returned |
| ConvertCommon.SkipNetworkIdle | src/gotenberg_client/_convert/common.py:235-237 | as written: skipNetworkIdleEvent is set to "false" |
| ConvertCommon.UseNetworkIdle | src/gotenberg_client/_convert/common.py:239-241 | skipNetworkIdleEvent is set to "false" |
| ConvertCommon.SkipNetworkIdleScenario | src/gotenberg_client/_convert/common.py:235-237 | as written: asking to skip the network-idle event writes the same "false" as asking to wait for it |
| ConvertCommon.SkipNetworkIdleCorrected | src/gotenberg_client/_convert/common.py:235-237 | corrected: skipNetworkIdleEvent is set to the value the current skip setter writes |
| ConvertCommon.CorrectedNetworkIdleScenario | src/gotenberg_client/_convert/common.py:235-241 | corrected: skip writes "true", use writes "false", so the two are distinguishable |
| LibreOfficeMixins.Password | src/gotenberg_client/_libreoffice/mixins.py:25-36 | password is set as given |
| LibreOfficeMixins.OfficeFlagKeysDistinct | src/gotenberg_client/_libreoffice/mixins.py:64-258 | different export switches write different fields, and none writes quality |
| LibreOfficeMixins.SetOfficeFlag | src/gotenberg_client/_libreoffice/mixins.py:64-258 | a switch's field is set to the boolean's text and nothing else changes |
| LibreOfficeMixins.NoMerge | src/gotenberg_client/_libreoffice/mixins.py:359-367 | merge is set to "false" |
| LibreOfficeMixins.DoMerge | src/gotenberg_client/_libreoffice/mixins.py:369-377 | merge is set to "true" |
| LibreOfficeMixins.OfficeQuality | src/gotenberg_client/_libreoffice/mixins.py:286-308 | quality is set to the value clamped into [1, 100] |
| LibreOfficeMixins.Resolution.Dpi | src/gotenberg_client/_libreoffice/mixins.py:323-334 | every allowed resolution is at least 75 DPI |
| LibreOfficeMixins.MaxImageResolution | src/gotenberg_client/_libreoffice/mixins.py:323-334 | the resolution in DPI is written into the quality field |
| LibreOfficeMixins.QualityThenResolution | src/gotenberg_client/_libreoffice/mixins.py:286-334 | setting a quality and then a maximum resolution leaves only the resolution in the quality field |
| LibreOfficeMixins.ResolutionAboveQualityRange | src/gotenberg_client/_libreoffice/mixins.py:286-334 | a resolution of 150 DPI or more is never a text any clamped quality produces |
| Options.PdfAFormat.ToForm | src/gotenberg_client/options.py:22-35 | PDF/A-1a contributes nothing; PDF/A-2b and PDF/A-3b set pdfa to their names |
| Options.PageOrientation.ToForm | src/gotenberg_client/options.py:43-49 | landscape is "true" exactly for landscape orientation |
| Options.PageSize.ToForm | src/gotenberg_client/options.py:57-60 | only paperWidth and paperHeight, each exactly when that side is given, holding its lower-cased number text |
| Options.MarginText | src/gotenberg_client/options.py:100-116 | an undefined unit gives the bare number, any other unit the number followed by its suffix |
| Options.MarginEntry | src/gotenberg_client/options.py:105-114 | an unset side contributes nothing, a set side one entry with its text |
| Options.PageMargins.ToForm | src/gotenberg_client/options.py:100-116 | only the four margin keys, each exactly when that side is set, holding its text |
| Options.MarginUnitsExample | tests/test_convert_chromium_html.py:213-235 | margins of 1 cm, 2 percent, 3 mm and 4 with no unit are written "1cm", "2pc", "3mm" and "4" |
| Options.MarginTextExamples | tests/test_convert_chromium_html.py:213-235 | the same four margin texts, one side at a time |
| Options.EmulatedMediaType.ToForm | src/gotenberg_client/options.py:124-130 | exactly the emulatedMediaType key, "print" or "screen" |
| Utils.OptionalToForm | src/gotenberg_client/_utils.py:19-27 | no value gives no entry; a value gives exactly the one entry from the name to the lower-cased `str()` text of the value, with no upper-case letter |
| Utils.BoolText | src/gotenberg_client/_utils.py:19-27 | a boolean is written "true" exactly when true and "false" exactly when false |
| Utils.BoolToForm | src/gotenberg_client/_utils.py:19-27 | exactly one entry under the name with the boolean's text |
| Utils.OptionalBoolIsBoolToForm | src/gotenberg_client/_utils.py:19-27 | the optional form of a given boolean equals the boolean form |
| Utils.OptionalIntIsDecimal | src/gotenberg_client/_utils.py:19-27 | the optional form of an integer is its decimal text, unchanged by lower-casing |
| Utils.AsForm | src/gotenberg_client/_utils.py:19-27 | a dictionary of strings enters the form data with the same keys and texts |
| Utils.ForceMultipartIsEmptyButTruthy | src/gotenberg_client/_utils.py:14-16 | the multipart marker holds no parts yet counts as present |
| Utils.EmptyPlainDictIsFalsy | src/gotenberg_client/_utils.py:14-16 | an empty ordinary part table counts as absent |
| Utils.Clamp | src/gotenberg_client/_libreoffice/mixins.py:286-308 | the result lies in the bounds, equals the value when it already does, and is the nearer bound otherwise |
| Responses.IsZipIff | src/gotenberg_client/responses.py:47-55 | a response is a zip exactly when its Content-Type header reads application/zip |
| Responses.SeveralValuesAreNotZip | src/gotenberg_client/responses.py:47-55 | a Content-Type sent more than once never reads as application/zip |
| Responses.NotZipWithoutContentType | src/gotenberg_client/responses.py:47-55 | without a Content-Type header a response is not a zip |
| Responses.ToFile | src/gotenberg_client/responses.py:35-45 | a directory at the path refuses the write with is-a-directory and nothing changes; otherwise the file at the path holds exactly the response content and nothing else changes |
| Responses.ExtractTo | src/gotenberg_client/responses.py:87-101 | extraction is refused exactly when the target is not an existing directory |
| Http.HeaderValues | src/gotenberg_client/responses.py:47-55 | a header's values are found case-insensitively; an absent header has none |
| Http.GetHeader | src/gotenberg_client/responses.py:47-55 | a header sent once reads as its value |
| Paths.RFind | src/gotenberg_client/_base.py:204-215 | the last occurrence of a character, or -1 when there is none |
| Paths.Suffix | src/gotenberg_client/_base.py:204-215 | the suffix is empty or the final dot-part of the name, and empty for a name without a dot |
| Paths.FileSystem.constructor | src/gotenberg_client/_base.py:190-215 | a file system starts with the given entries |
| Strings.IntToString | src/gotenberg_client/_libreoffice/mixins.py:307 | an integer's text is non-empty ASCII with no comma or underscore |
| Strings.IntToStringInjective | src/gotenberg_client/_libreoffice/mixins.py:307 | different integers have different texts |
| Strings.NatToStringRoundTrip | src/gotenberg_client/_libreoffice/mixins.py:307 | a natural number's digits read back as that number |
| Strings.Join | src/gotenberg_client/_common/mixins.py:233 | joining nothing gives the empty text and joining one part gives that part |
| Strings.JoinShowsSeparator | src/gotenberg_client/_common/mixins.py:233 | joining two or more parts shows the separator |
| Strings.JoinAvoids | src/gotenberg_client/_common/mixins.py:233 | a character in neither the parts nor the separator is not in the joined text |
| Strings.Split | src/gotenberg_client/_chromium/options.py:297-302 | splitting gives at least one part and no part holds the separator |
| Strings.SplitJoin | src/gotenberg_client/_chromium/options.py:297-302 | splitting a join at its one-character separator gives back the parts |
| Strings.Lower | src/gotenberg_client/_utils.py:27 | lower-casing keeps the length, maps each character, and leaves no upper-case letter |
| Strings.LowerIdempotent | src/gotenberg_client/_utils.py:27 | lower-casing twice is lower-casing once |
| Strings.PadDigits | src/gotenberg_client/_health.py:141 | a zero-padded number has exactly the width asked for, all digits |
| Strings.PadDigitsRoundTrip | src/gotenberg_client/_health.py:141 | a number below 10^width reads back from its padded digits |
| Health.DaysInMonth | src/gotenberg_client/_health.py:154-163 | a month has between 28 and 31 days |
| Health.DigitRun | src/gotenberg_client/_health.py:26 | the run of digits is all digits and stops at the end or at a non-digit |
| Health.FractionLength | src/gotenberg_client/_health.py:26 | a fraction is a dot after the seconds followed by that many digits |
| Health.ParseTimestamp | src/gotenberg_client/_health.py:121-163 | a text without the date-time head is refused with a value error; any parsed value is a valid date-time |
| Health.WholeSecondsNaive | src/gotenberg_client/_health.py:141-146 | a timestamp with no fraction and no zone parses with zero microseconds and no time zone |
| Health.SeparatorIgnored | src/gotenberg_client/_health.py:18-28 | a space, "t" or "T" between date and time parse alike |
| Health.ZoneText | src/gotenberg_client/_health.py:27 | no zone is written as nothing, UTC as "Z", an offset as a signed "hh:mm" whose sign is that of the offset |
| Health.HeadText | src/gotenberg_client/_health.py:18-25 | the date-time head is 19 characters long |
| Health.FormatTimestamp | src/gotenberg_client/_health.py:18-28 | a formatted timestamp starts with the head and is at least 26 characters long |
| Health.ParseFormatRoundTrip | src/gotenberg_client/_health.py:121-163 | parsing a formatted date-time, followed by any text that cannot extend it, gives that date-time back |
| Health.ParseStatus | src/gotenberg_client/_health.py:54-57 | a status parses exactly when it is "up" or "down"; anything else is a value error |
| Health.StatusRoundTrip | src/gotenberg_client/_health.py:54-57 | a status's text parses back to it, and a parsed status writes back to its text |
| Health.ExtractStatus | src/gotenberg_client/_health.py:115-118 | a module's status is extracted exactly when its status and timestamp both parse, and then it holds both |
| Health.NewHealthStatus | src/gotenberg_client/_health.py:103-113 | the health report is accepted exactly when its overall status and each reported module parse; each module is present exactly when reported |

## Left out

- Asynchronous routes and clients: the async variants do what the sync ones do, awaited. They are not modelled.
- HTTP transport, the `httpx` client and its JSON decoding are left out. The server is a parameter, a function from attempt number to outcome.
- Real sleeping, logging, warnings and deprecation messages are left out. Sleeps are recorded as seconds.
- Context-manager entry and exit are not modelled; `close` is modelled as the reset it performs.
- File handles and the exit stack that opens uploads are left out. Parts are built from paths.
- Mime-type guessing (libmagic or the standard library) is a parameter.
- Temporary directories are a parameter of the legacy add-file.
- Zip extraction itself is not modelled. Only the directory check before it is.
- JSON encoding is not modelled. A JSON-encoded field holds the value it encodes.
- Float formatting is not modelled. A float carries its Python text next to its value.
- The health check's HTTP GET, `raise_for_status` and JSON decoding are left out. So is the `KeyError` for a missing `status`/`details` key.
- The regular expression's `\d` is taken as ASCII digits only.
- Health.ParseTimestamp: `int(float(frac) * 1e6)` is modelled as exact truncation to six digits; float rounding is not.
- Health.FormatTimestamp: a formatted timestamp always has six fraction digits. It is the partner of parsing, not a function of the source.
- Upload names containing '/' are left out.
- Responses.ToFile: a missing parent directory is not modelled. Paths are flat pairs of a parent text and a name, so `write_bytes`'s FileNotFoundError for a missing parent has no counterpart; only the directory case is refused.
- Retry waits are exact real numbers, not IEEE doubles. So `0.1 * 0.1` is exactly `0.01` here (`LegacyBase.FiveServerErrorsReraiseLast`), where Python's `retry_time * retry_scale` gives `0.010000000000000002`.
- ChromiumMixins.RenderWait: a `timedelta` wait is not a separate case. It is passed as the `Float` of `total_seconds()` together with its Python text, so `timedelta(milliseconds=500)` is `Float(0.5, "0.5")`.
- BaseRoutes.Route.PostDataWithRetry: models the evidently intended max-retries error carrying the response; the TypeError that `_base/routes.py:266` raises as written is modelled separately, by the `ResponseKeywordRefused` policy and `BaseRoutes.MaxRetriesAsWritten`.
- BaseRoutes.Route.RunWithRetry: passes that corrected max-retries error through, where `run_with_retry` as written would propagate the TypeError.
- The order in which the server merges the uploaded files is not part of this model. So the docstring's promise that list order is merge order (`_merge/routes.py:48`) is not proved. What is proved: each file's position is encoded in its upload name (`MergeRoutes.MergedStoresEach`). Under a plain character-by-character sort of the names, that order agrees with list order up to nine files (`MergeRoutes.SingleDigitKeysSorted`) and no further (`MergeRoutes.KeyOrderBreaksAtTen`).
- Which route family offers which setter is not modelled. The setters take any route, whereas the source offers `index`/`resource(s)` only on routes with `_BaseIndexFilesMixin` and `markdown_file(s)` only on the Markdown-to-PDF route (`_chromium/routes.py:81-190`, `288-329`).
- Routes that only forward to the current ones (the LibreOffice, PDF/A, PDF/UA, metadata and other routes) are not modelled. Their behaviour is in the mixins above.
- Nothing in these files sets the route's zip flag to true. It stays a field that `Run` reads.
- `bool_to_form` is not part of this model; it is taken to write "true" or "false".
- The text of a `Measurement` is not part of this model; a measurement carries its text.
- The `TrappedStatus` values are not part of this model; they are taken to be "True", "False" and "Unknown".
- The text of an `HTTPStatus` is taken as its integer's digits.
- CommonMixins.ExistingMetadata: an existing metadata field that is not an object is refused with one error. The distinct `json.loads` errors are not modelled. With nothing new to write and writing not forced (`ChromiumOptions.ChromiumMetadata`, `ConvertCommon.LegacyMetadata`), the source only calls `json.loads` and never merges. So a stored field that is valid JSON but not an object, such as "[1]", is accepted there while the model refuses it. No modelled setter stores such a field.
- The chromium fluent value classes in `_chromium/options.py` write the same fields as the mixins in `_chromium/mixins.py`. They are modelled once, by the mixin methods. The exceptions are the status-code setters and metadata, which are modelled separately in `ChromiumOptions`.

## Findings

| source | as written | input that shows it | evidently intended | confidence | as-written member | corrected member |
|---|---|---|---|---|---|---|
| src/gotenberg_client/_merge.py:61-64 | a non-ASCII upload name is replaced by "clean-filename-copy" plus the suffix, dropping the merge index | merging "ä.pdf" and "ö.pdf" | every merged file is uploaded, in order | not executed | LegacyMerge.NonAsciiMergeCollides | LegacyMerge.SafeMergeKeepsEveryFile |
| src/gotenberg_client/_base.py:58-60 | disable_universal_access writes pdfua "true" | calling disable_universal_access on a fresh route | pdfua "false" | not executed | LegacyBase.LegacyDisableUniversalAccessScenario | CommonMixins.DisableUniversalAccessScenario |
| src/gotenberg_client/_convert/common.py:235-237 | skip_network_idle writes skipNetworkIdleEvent "false" | calling skip_network_idle | skipNetworkIdleEvent "true" | not executed | ConvertCommon.SkipNetworkIdleScenario | ConvertCommon.CorrectedNetworkIdleScenario |
| src/gotenberg_client/_base/routes.py:198-207 | output_filename and trace_id write the shared client's headers, while reset removes them from the route's own headers | output_filename("a") then reset() | reset forgets the filename | not executed | BaseRoutes.OutputFilenameSurvivesReset | BaseRoutes.CorrectedHeadersClearedByReset |
| src/gotenberg_client/_base/routes.py:266 | `MaxRetriesExceededError(response=...)` is called, but the error class (`_errors.py:11-14`) accepts no keyword arguments, so a TypeError is raised and the response is lost | five 503 answers with the default five attempts | the max-retries error carrying the last response | not executed | BaseRoutes.MaxRetriesAsWritten | BaseRoutes.Route.PostDataWithRetry |
