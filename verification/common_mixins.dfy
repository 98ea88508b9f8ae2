/**
 * The option setters shared by the current routes: PDF/A format, PDF/UA,
 * splitting, flattening, and the PDF metadata with its validation and merge
 * over an earlier metadata field.
 */
module CommonMixins {
  import opened Strings
  import opened Errors
  import opened Utils
  import opened Options
  import opened BaseRoutes

  /** Adds the PDF/A fields of `format`; nothing else changes. */
  method PdfFormat(r: Route, format: PdfAFormat)
    modifies r`formData
    ensures r.formData == old(r.formData) + AsForm(format.ToForm())
  {
    r.formData := r.formData + AsForm(format.ToForm());
  }

  /** Sets `pdfua` to the boolean's text and nothing else. */
  method UniversalAccess(r: Route, universalAccess: bool)
    modifies r`formData
    ensures r.formData == old(r.formData)["pdfua" := Text(BoolText(universalAccess))]
  {
    r.formData := r.formData + AsForm(BoolToForm("pdfua", universalAccess));
  }

  method EnableUniversalAccess(r: Route)
    modifies r`formData
    ensures r.formData == old(r.formData)["pdfua" := Text("true")]
  {
    UniversalAccess(r, true);
  }

  method DisableUniversalAccess(r: Route)
    modifies r`formData
    ensures r.formData == old(r.formData)["pdfua" := Text("false")]
  {
    UniversalAccess(r, false);
  }

  /** On a fresh route, disabling PDF/UA leaves `pdfua` at "false". */
  method DisableUniversalAccessScenario() returns (pdfua: FormValue)
    ensures pdfua == Text("false")
  {
    var client := new Client();
    var r := new Route(client, "/forms/pdfengines/convert", false);
    EnableUniversalAccess(r);
    DisableUniversalAccess(r);
    pdfua := r.formData["pdfua"];
  }

  /** The two ways of splitting a document. */
  datatype SplitKind = Intervals | Pages
  {
    function Value(): (s: string)
      ensures s == "intervals" || s == "pages"
      ensures (s == "pages") <==> this == Pages
    {
      match this
      case Intervals => "intervals"
      case Pages => "pages"
    }
  }

  method SplitMode(r: Route, mode: SplitKind)
    modifies r`formData
    ensures r.formData == old(r.formData)["splitMode" := Text(mode.Value())]
  {
    r.formData := r.formData["splitMode" := Text(mode.Value())];
  }

  /** Stores the span text as it is. */
  method SplitSpan(r: Route, span: string)
    modifies r`formData
    ensures r.formData == old(r.formData)["splitSpan" := Text(span)]
  {
    r.formData := r.formData["splitSpan" := Text(span)];
  }

  method SplitUnify(r: Route, splitUnify: bool)
    modifies r`formData
    ensures r.formData == old(r.formData)["splitUnify" := Text(BoolText(splitUnify))]
  {
    r.formData := r.formData + AsForm(BoolToForm("splitUnify", splitUnify));
  }

  method Flatten(r: Route, flatten: bool)
    modifies r`formData
    ensures r.formData == old(r.formData)["flatten" := Text(BoolText(flatten))]
  {
    r.formData := r.formData + AsForm(BoolToForm("flatten", flatten));
  }

  // ---------------------------------------------------------------- metadata

  const MIN_PDF_VERSION: real := 1.0
  const MAX_PDF_VERSION: real := 2.0

  /** The trapping states a document can declare. */
  datatype TrappedStatus = TrappedTrue | TrappedFalse | TrappedUnknown
  {
    function Value(): string
    {
      match this
      case TrappedTrue => "True"
      case TrappedFalse => "False"
      case TrappedUnknown => "Unknown"
    }
  }

  /** The `trapped` argument: a boolean or one of the states. */
  datatype Trapped = TrappedBool(b: bool) | TrappedState(status: TrappedStatus)

  /** The state a `trapped` argument stands for: a boolean picks True or False. */
  function TrappedValue(t: Trapped): (s: TrappedStatus)
    ensures t.TrappedBool? ==> (s == TrappedTrue <==> t.b) && (s == TrappedFalse <==> !t.b)
    ensures t.TrappedState? ==> s == t.status
  {
    match t
    case TrappedBool(b) => if b then TrappedTrue else TrappedFalse
    case TrappedState(status) => status
  }

  /**
   * The arguments of a metadata call. The dates are the ISO 8601 text of the
   * datetime given; a datetime is always truthy, so a given date is always
   * written.
   */
  datatype MetadataArgs = MetadataArgs(
    author: Option<string>,
    pdfCopyright: Option<string>,
    creationDate: Option<string>,
    creator: Option<string>,
    keywords: Option<seq<string>>,
    marked: Option<bool>,
    modificationDate: Option<string>,
    pdfVersion: Option<real>,
    producer: Option<string>,
    subject: Option<string>,
    title: Option<string>,
    trapped: Option<Trapped>)

  /** A call with no argument at all. */
  const NO_METADATA: MetadataArgs := MetadataArgs(None, None, None, None, None, None, None, None, None, None, None, None)

  /** The metadata keys a call can write. */
  const METADATA_KEYS: set<string> := {"Author", "Copyright", "CreationDate", "Creator", "Keywords", "Marked",
                                       "ModDate", "PDFVersion", "Producer", "Subject", "Title", "Trapped"}

  /** Python truthiness of an optional string: given and not empty. */
  predicate Given(o: Option<string>)
  {
    o.Some? && o.value != ""
  }

  predicate VersionInRange(v: real)
  {
    MIN_PDF_VERSION <= v <= MAX_PDF_VERSION
  }

  predicate HasCommaKeyword(keywords: seq<string>)
  {
    exists i :: 0 <= i < |keywords| && ',' in keywords[i]
  }

  /**
   * The checks made before anything is written: the PDF version first, then
   * the keywords.
   */
  function ValidateMetadata(a: MetadataArgs): (e: Option<Error>)
    ensures e == Some(InvalidPdfRevision) <==> a.pdfVersion.Some? && !VersionInRange(a.pdfVersion.value)
    ensures e == Some(InvalidKeyword) <==>
      (a.pdfVersion.None? || VersionInRange(a.pdfVersion.value)) && a.keywords.Some? && HasCommaKeyword(a.keywords.value)
    ensures e.None? || e == Some(InvalidPdfRevision) || e == Some(InvalidKeyword)
  {
    if a.pdfVersion.Some? && !VersionInRange(a.pdfVersion.value) then Some(InvalidPdfRevision)
    else if a.keywords.Some? && HasCommaKeyword(a.keywords.value) then Some(InvalidKeyword)
    else None
  }

  /** `m` holds `key` exactly when the string argument is truthy, and then holds that string. */
  predicate StrEntry(m: map<string, Json>, key: string, o: Option<string>)
  {
    (key in m <==> Given(o)) && (key in m ==> m[key] == JStr(o.value))
  }

  /**
   * The entry a call makes under `key`, if any: a string argument when it is
   * truthy, a date whenever given (as its ISO text), the keywords joined with
   * ", " when the list is not empty, `marked` and `trapped` whenever given,
   * the version when it is not zero.
   */
  function MetadataValue(a: MetadataArgs, key: string): Option<Json>
  {
    if key == "Author" then (if Given(a.author) then Some(JStr(a.author.value)) else None)
    else if key == "Copyright" then (if Given(a.pdfCopyright) then Some(JStr(a.pdfCopyright.value)) else None)
    else if key == "CreationDate" then (if a.creationDate.Some? then Some(JStr(a.creationDate.value)) else None)
    else if key == "Creator" then (if Given(a.creator) then Some(JStr(a.creator.value)) else None)
    else if key == "Keywords" then
      (if a.keywords.Some? && a.keywords.value != [] then Some(JStr(Join(a.keywords.value, ", "))) else None)
    else if key == "Marked" then (if a.marked.Some? then Some(JBool(a.marked.value)) else None)
    else if key == "ModDate" then (if a.modificationDate.Some? then Some(JStr(a.modificationDate.value)) else None)
    else if key == "PDFVersion" then
      (if a.pdfVersion.Some? && a.pdfVersion.value != 0.0 then Some(JNum(a.pdfVersion.value)) else None)
    else if key == "Producer" then (if Given(a.producer) then Some(JStr(a.producer.value)) else None)
    else if key == "Subject" then (if Given(a.subject) then Some(JStr(a.subject.value)) else None)
    else if key == "Title" then (if Given(a.title) then Some(JStr(a.title.value)) else None)
    else if key == "Trapped" then (if a.trapped.Some? then Some(JStr(TrappedValue(a.trapped.value).Value())) else None)
    else None
  }

  /** The new metadata entries of a call: one per key that has an entry. */
  function CollectMetadata(a: MetadataArgs): (m: map<string, Json>)
    ensures m.Keys <= METADATA_KEYS
    ensures forall key :: key in m <==> key in METADATA_KEYS && MetadataValue(a, key).Some?
  {
    map key | key in METADATA_KEYS && MetadataValue(a, key).Some? :: MetadataValue(a, key).value
  }

  /** Each string argument is written exactly when it is truthy, as it is. */
  lemma CollectedStrings(a: MetadataArgs)
    ensures var m := CollectMetadata(a);
      StrEntry(m, "Author", a.author) && StrEntry(m, "Copyright", a.pdfCopyright) &&
      StrEntry(m, "Creator", a.creator) && StrEntry(m, "Producer", a.producer) &&
      StrEntry(m, "Subject", a.subject) && StrEntry(m, "Title", a.title)
  {
  }

  /**
   * A given date is always written, as its ISO text; keywords are written
   * joined with ", " exactly when the list is not empty.
   */
  lemma CollectedDatesAndKeywords(a: MetadataArgs)
    ensures var m := CollectMetadata(a);
      ("CreationDate" in m <==> a.creationDate.Some?) && ("CreationDate" in m ==> m["CreationDate"] == JStr(a.creationDate.value)) &&
      ("ModDate" in m <==> a.modificationDate.Some?) && ("ModDate" in m ==> m["ModDate"] == JStr(a.modificationDate.value)) &&
      ("Keywords" in m <==> a.keywords.Some? && a.keywords.value != []) &&
      ("Keywords" in m ==> m["Keywords"] == JStr(Join(a.keywords.value, ", ")))
  {
  }

  /**
   * `marked` and `trapped` are written whenever given, even when false; a
   * boolean `trapped` is written as the True or False state. An accepted
   * version is written whenever given.
   */
  lemma CollectedFlagsAndVersion(a: MetadataArgs)
    ensures var m := CollectMetadata(a);
      ("Marked" in m <==> a.marked.Some?) && ("Marked" in m ==> m["Marked"] == JBool(a.marked.value)) &&
      ("Trapped" in m <==> a.trapped.Some?) && ("Trapped" in m ==> m["Trapped"] == JStr(TrappedValue(a.trapped.value).Value())) &&
      ("PDFVersion" in m <==> a.pdfVersion.Some? && a.pdfVersion.value != 0.0) &&
      ("PDFVersion" in m ==> m["PDFVersion"] == JNum(a.pdfVersion.value))
    ensures ValidateMetadata(a).None? && a.pdfVersion.Some? ==> "PDFVersion" in CollectMetadata(a)
  {
  }

  /** The metadata already on the form: none, the stored object, or a field that cannot be merged into. */
  function ExistingMetadata(form: map<string, FormValue>): (r: Result<map<string, Json>>)
    ensures "metadata" !in form ==> r == Ok(map[])
    ensures r.Err? ==> r.error == UnreadableMetadata
    ensures r.Ok? && "metadata" in form ==> form["metadata"] == JsonText(JObj(r.value))
  {
    if "metadata" !in form then Ok(map[])
    else match form["metadata"]
      case JsonText(JObj(fields)) => Ok(fields)
      case _ => Err(UnreadableMetadata)
  }

  /**
   * The form after a metadata call: the new entries merged over the stored
   * ones under `metadata`, new values winning. With `always` the field is
   * written even when no entry is new; otherwise only when one is.
   */
  function MetadataResult(form: map<string, FormValue>, a: MetadataArgs, always: bool): (r: Result<map<string, FormValue>>)
    ensures r.Err? <==> ValidateMetadata(a).Some? || ExistingMetadata(form).Err?
    ensures r.Err? ==> r.error == (if ValidateMetadata(a).Some? then ValidateMetadata(a).value else UnreadableMetadata)
    ensures r.Ok? ==> r.value - {"metadata"} == form - {"metadata"}
    ensures r.Ok? && (always || CollectMetadata(a) != map[]) ==>
      "metadata" in r.value && r.value["metadata"] == JsonText(JObj(ExistingMetadata(form).value + CollectMetadata(a)))
    ensures r.Ok? && !always && CollectMetadata(a) == map[] ==> r.value == form
  {
    if ValidateMetadata(a).Some? then Err(ValidateMetadata(a).value)
    else match ExistingMetadata(form)
      case Err(e) => Err(e)
      case Ok(existing) =>
        var m := CollectMetadata(a);
        if always || m != map[] then
          assert form["metadata" := JsonText(JObj(existing + m))] - {"metadata"} == form - {"metadata"};
          Ok(form["metadata" := JsonText(JObj(existing + m))])
        else Ok(form)
  }

  /** Proof helper for the metadata lemmas: merging nothing over a map, or a map over nothing, gives that map. */
  lemma UnionEmpty<K, V>(m: map<K, V>)
    ensures m + map[] == m && map[] + m == m
  {
  }

  /** A call with no argument has no entry to write. */
  lemma NothingCollected()
    ensures CollectMetadata(NO_METADATA) == map[]
  {
    var m := CollectMetadata(NO_METADATA);
    forall key | key in m
      ensures false
    {
      NoArgumentNoValue(key);
    }
    assert m.Keys == {};
  }

  /** No argument gives no entry, whatever the key. */
  lemma NoArgumentNoValue(key: string)
    ensures MetadataValue(NO_METADATA, key).None?
  {
  }

  /**
   * Validates the arguments, then writes `metadata`: the stored entries with
   * the new ones merged over them. The field is written on every successful
   * call; on an error the form is left as it was.
   */
  method Metadata(r: Route, a: MetadataArgs) returns (err: Option<Error>)
    modifies r`formData
    ensures var res := MetadataResult(old(r.formData), a, true);
      (res.Ok? ==> err.None? && r.formData == res.value) &&
      (res.Err? ==> err == Some(res.error) && r.formData == old(r.formData))
  {
    if a.pdfVersion.Some? && !(MIN_PDF_VERSION <= a.pdfVersion.value <= MAX_PDF_VERSION) {
      return Some(InvalidPdfRevision);
    }
    if a.keywords.Some? && HasCommaKeyword(a.keywords.value) {
      return Some(InvalidKeyword);
    }
    var existing: map<string, Json> := map[];
    if "metadata" in r.formData {
      if !(r.formData["metadata"].JsonText? && r.formData["metadata"].doc.JObj?) {
        return Some(UnreadableMetadata);
      }
      existing := r.formData["metadata"].doc.fields;
    }
    var metadata := CollectMetadata(a);
    r.formData := r.formData["metadata" := JsonText(JObj(existing + metadata))];
    err := None;
  }

  /** The version bounds are inclusive: exactly the versions in [1.0, 2.0] pass. */
  lemma PdfVersionBounds(v: real)
    ensures ValidateMetadata(NO_METADATA.(pdfVersion := Some(v))).None? <==> 1.0 <= v <= 2.0
    ensures ValidateMetadata(NO_METADATA.(pdfVersion := Some(1.0))).None?
    ensures ValidateMetadata(NO_METADATA.(pdfVersion := Some(2.0))).None?
  {
  }

  /** A keyword list is refused exactly when one keyword holds a comma. */
  lemma KeywordCommaRefused(keywords: seq<string>)
    ensures ValidateMetadata(NO_METADATA.(keywords := Some(keywords))) == Some(InvalidKeyword) <==> HasCommaKeyword(keywords)
  {
  }

  /** Accepted keywords are stored joined with ", ": ["Test", "Something"] gives "Test, Something". */
  lemma KeywordsJoined()
    ensures var m := CollectMetadata(NO_METADATA.(keywords := Some(["Test", "Something"])));
      "Keywords" in m && m["Keywords"] == JStr("Test, Something")
  {
    var a := NO_METADATA.(keywords := Some(["Test", "Something"]));
    var ks := ["Test", "Something"];
    assert ks[1..] == ["Something"];
    assert Join(ks, ", ") == "Test" + ", " + "Something";
    assert "Test" + ", " + "Something" == "Test, Something";
    assert MetadataValue(a, "Keywords") == Some(JStr("Test, Something"));
  }

  /**
   * Two successful calls on a form with no metadata yet: the field holds the
   * first call's entries with the second's merged over them, so a key only the
   * first call set survives, and a key both set has the second value.
   */
  lemma {:induction false} MetadataTwice(form: map<string, FormValue>, a1: MetadataArgs, a2: MetadataArgs, always: bool)
    requires "metadata" !in form
    requires ValidateMetadata(a1).None? && ValidateMetadata(a2).None?
    requires always || CollectMetadata(a2) != map[]
    ensures MetadataResult(form, a1, always).Ok?
    ensures var f1 := MetadataResult(form, a1, always).value;
      MetadataResult(f1, a2, always).Ok? &&
      MetadataResult(f1, a2, always).value["metadata"] == JsonText(JObj(CollectMetadata(a1) + CollectMetadata(a2)))
  {
    var f1 := MetadataResult(form, a1, always).value;
    var m1, m2 := CollectMetadata(a1), CollectMetadata(a2);
    assert ExistingMetadata(form) == Ok(map[]);
    UnionEmpty(m1);
    UnionEmpty(m2);
    if always || m1 != map[] {
      assert f1["metadata"] == JsonText(JObj(m1));
      assert ExistingMetadata(f1) == Ok(m1);
    } else {
      assert f1 == form;
    }
  }

  /** With `always`, even a call with no argument writes the field, as the stored entries unchanged. */
  lemma EmptyCallStillWrites(form: map<string, FormValue>)
    requires ExistingMetadata(form).Ok?
    ensures MetadataResult(form, NO_METADATA, true).Ok?
    ensures MetadataResult(form, NO_METADATA, true).value
      == form["metadata" := JsonText(JObj(ExistingMetadata(form).value))]
  {
    NothingCollected();
    UnionEmpty(ExistingMetadata(form).value);
  }

  /** Without `always`, a call with no argument leaves the form as it was. */
  lemma EmptyCallWritesNothing(form: map<string, FormValue>)
    requires ExistingMetadata(form).Ok?
    ensures MetadataResult(form, NO_METADATA, false) == Ok(form)
  {
    NothingCollected();
  }
}
