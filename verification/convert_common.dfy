/**
 * The option setters of the older Chromium routes, which work on
 * `LegacyBase.LegacyRoute`: fixed-value switches, `str()` renderings of
 * booleans and waits, status codes that are skipped when none are given,
 * metadata written only when there is something new, and the network-idle
 * pair that writes the same value for both choices.
 */
module ConvertCommon {
  import opened Strings
  import opened Errors
  import opened Paths
  import opened Utils
  import opened Options
  import opened LegacyBase
  import opened CommonMixins
  import opened ChromiumOptions
  import ChromiumMixins

  /** Adds one field per given dimension. */
  method LegacySize(r: LegacyRoute, size: PageSize)
    modifies r`formData
    ensures r.formData == old(r.formData) + AsForm(size.ToForm())
  {
    r.formData := r.formData + AsForm(size.ToForm());
  }

  /** Adds one field per given side. */
  method LegacyMargins(r: LegacyRoute, margins: PageMargins)
    modifies r`formData
    ensures r.formData == old(r.formData) + AsForm(margins.ToForm())
  {
    r.formData := r.formData + AsForm(margins.ToForm());
  }

  method LegacyOrient(r: LegacyRoute, orient: PageOrientation)
    modifies r`formData
    ensures r.formData == old(r.formData)["landscape" := Text(BoolText(orient == Landscape))]
  {
    r.formData := r.formData + AsForm(orient.ToForm());
  }

  method LegacyPageRanges(r: LegacyRoute, ranges: string)
    modifies r`formData
    ensures r.formData == old(r.formData)["nativePageRanges" := Text(ranges)]
  {
    r.formData := r.formData["nativePageRanges" := Text(ranges)];
  }

  /** Stores `str()` of the scale. */
  method LegacyScale(r: LegacyRoute, scale: Number)
    modifies r`formData
    ensures r.formData == old(r.formData)["scale" := Text(FieldText(Num(scale)))]
  {
    r.formData := r.formData["scale" := Text(FieldText(Num(scale)))];
  }

  /**
   * The older setters that take no argument and write a fixed text. The
   * network-idle pair is not among them: both its members write "false".
   */
  datatype LegacySwitch =
      PreferCssPageSize | PreferSetPageSize
    | BackgroundGraphics | NoBackgroundGraphics
    | HideBackground | ShowBackground
    | FailOnExceptions | DontFailOnExceptions
  {
    /** The form field the setter writes. */
    function Key(): string
    {
      match this
      case PreferCssPageSize | PreferSetPageSize => "preferCssPageSize"
      case BackgroundGraphics | NoBackgroundGraphics => "printBackground"
      case HideBackground | ShowBackground => "omitBackground"
      case FailOnExceptions | DontFailOnExceptions => "failOnConsoleExceptions"
    }

    /** Whether the setter switches its option on. */
    predicate On()
    {
      this in {PreferCssPageSize, BackgroundGraphics, HideBackground, FailOnExceptions}
    }
  }

  /**
   * The older fixed setters write what the current aliases write: each
   * corresponds to an alias with the same field and the same value.
   */
  lemma LegacySwitchesMatchAliases(s: LegacySwitch)
    ensures exists a: ChromiumMixins.FlagAlias :: a.Flag().Key() == s.Key() && a.On() == s.On()
  {
    var a := match s
      case PreferCssPageSize => ChromiumMixins.FlagAlias.PreferCss
      case PreferSetPageSize => ChromiumMixins.FlagAlias.PreferSetSize
      case BackgroundGraphics => ChromiumMixins.FlagAlias.BackgroundGraphics
      case NoBackgroundGraphics => ChromiumMixins.FlagAlias.NoBackgroundGraphics
      case HideBackground => ChromiumMixins.FlagAlias.HideBackground
      case ShowBackground => ChromiumMixins.FlagAlias.ShowBackground
      case FailOnExceptions => ChromiumMixins.FlagAlias.FailOnExceptions
      case DontFailOnExceptions => ChromiumMixins.FlagAlias.DontFailOnExceptions;
    assert a.Flag().Key() == s.Key() && a.On() == s.On();
  }

  /** Writes the setter's fixed "true" or "false"; nothing else changes. */
  method LegacySwitchSet(r: LegacyRoute, s: LegacySwitch)
    modifies r`formData
    ensures r.formData == old(r.formData)[s.Key() := Text(BoolText(s.On()))]
  {
    r.formData := r.formData[s.Key() := Text(if s.On() then "true" else "false")];
  }

  /** Stores `str()` of the boolean: "True" or "False", capitalised. */
  method LegacySinglePage(r: LegacyRoute, useSinglePage: bool)
    modifies r`formData
    ensures r.formData == old(r.formData)["singlePage" := Text(FieldText(Bool(useSinglePage)))]
  {
    r.formData := r.formData["singlePage" := Text(if useSinglePage then "True" else "False")];
  }

  /** The older single-page text differs from the current one only in the case of its first letter. */
  lemma SinglePageTextsDiffer(b: bool)
    ensures FieldText(Bool(b)) != BoolText(b)
    ensures Lower(FieldText(Bool(b))) == BoolText(b)
  {
    if b {
      assert Lower("True") == "true";
    } else {
      assert Lower("False") == "false";
    }
  }

  /** Stores `str()` of the wait, with no unit and no sign check. */
  method LegacyRenderWait(r: LegacyRoute, wait: Number)
    modifies r`formData
    ensures r.formData == old(r.formData)["waitDelay" := Text(FieldText(Num(wait)))]
  {
    r.formData := r.formData["waitDelay" := Text(FieldText(Num(wait)))];
  }

  /** A whole wait of 500 is stored as "500". */
  lemma LegacyWaitOf500()
    ensures FieldText(Num(Int(500))) == "500"
  {
    assert NatToString(500) == NatToString(50) + [DigitChar(0)];
    assert NatToString(50) == NatToString(5) + [DigitChar(0)];
  }

  method LegacyRenderExpression(r: LegacyRoute, expr: string)
    modifies r`formData
    ensures r.formData == old(r.formData)["waitForExpression" := Text(expr)]
  {
    r.formData := r.formData["waitForExpression" := Text(expr)];
  }

  method LegacyMediaType(r: LegacyRoute, mediaType: EmulatedMediaType)
    modifies r`formData
    ensures r.formData == old(r.formData) + AsForm(mediaType.ToForm())
  {
    r.formData := r.formData + AsForm(mediaType.ToForm());
  }

  /** Sets `userAgent`; the deprecation warning is not modelled. */
  method LegacyUserAgent(r: LegacyRoute, agent: string)
    modifies r`formData
    ensures r.formData == old(r.formData)["userAgent" := Text(agent)]
  {
    r.formData := r.formData["userAgent" := Text(agent)];
  }

  method LegacyExtraHeaders(r: LegacyRoute, headers: map<string, string>)
    modifies r`formData
    ensures r.formData == old(r.formData)["extraHttpHeaders" := JsonText(StringObject(headers))]
  {
    r.formData := r.formData["extraHttpHeaders" := JsonText(StringObject(headers))];
  }

  /** Uploads `header` as `header.html`; the name is ASCII, so no copy is made. */
  method LegacyHeader(r: LegacyRoute, fs: FileSystem, header: Path, tmpDir: string)
    modifies r`fileMap, fs
    ensures r.fileMap == old(r.fileMap)["header.html" := header]
    ensures fs.entries == old(fs.entries)
  {
    assert IsAscii("header.html");
    var _, _ := r.AddFileMap(fs, header, Some("header.html"), tmpDir);
  }

  /** Uploads `footer` as `footer.html`; the name is ASCII, so no copy is made. */
  method LegacyFooter(r: LegacyRoute, fs: FileSystem, footer: Path, tmpDir: string)
    modifies r`fileMap, fs
    ensures r.fileMap == old(r.fileMap)["footer.html" := footer]
    ensures fs.entries == old(fs.entries)
  {
    assert IsAscii("footer.html");
    var _, _ := r.AddFileMap(fs, footer, Some("footer.html"), tmpDir);
  }

  // ------------------------------------------------------------ status codes

  /** No codes leave the form as it was; otherwise the codes are written in brackets. */
  method LegacyFailOnStatusCodes(r: LegacyRoute, codes: seq<int>)
    modifies r`formData
    ensures codes == [] ==> r.formData == old(r.formData)
    ensures codes != [] ==> r.formData == old(r.formData)["failOnHttpStatusCodes" := Text(ChromiumMixins.BracketedCodes(codes))]
  {
    if codes == [] {
      return;
    }
    r.formData := r.formData["failOnHttpStatusCodes" := Text("[" + Join(CodeTexts(codes), ",") + "]")];
  }

  /** The older setter never writes "[]": whatever it writes names at least one code. */
  lemma LegacyCodesNeverEmpty(codes: seq<int>)
    requires codes != []
    ensures ChromiumMixins.BracketedCodes(codes) != "[]"
  {
    if ChromiumMixins.BracketedCodes(codes) == "[]" {
      ChromiumMixins.NoCodesBracketed();
      ChromiumMixins.BracketedCodesInjective(codes, []);
    }
  }

  // ------------------------------------------------------------ metadata

  /**
   * The older metadata setter: the same checks and merge as the current one,
   * but `metadata` is written only when the call has a new entry.
   */
  method LegacyMetadata(r: LegacyRoute, a: MetadataArgs) returns (err: Option<Error>)
    modifies r`formData
    ensures var res := MetadataResult(old(r.formData), a, false);
      (res.Ok? ==> err.None? && r.formData == res.value) &&
      (res.Err? ==> err == Some(res.error) && r.formData == old(r.formData))
  {
    if a.pdfVersion.Some? && !(MIN_PDF_VERSION <= a.pdfVersion.value <= MAX_PDF_VERSION) {
      return Some(InvalidPdfRevision);
    }
    if a.keywords.Some? && HasCommaKeyword(a.keywords.value) {
      return Some(InvalidKeyword);
    }
    var existing: map<string, Json> := map[];
    if "metadata" in r.formData {
      if !(r.formData["metadata"].JsonText? && r.formData["metadata"].doc.JObj?) {
        return Some(UnreadableMetadata);
      }
      existing := r.formData["metadata"].doc.fields;
    }
    var metadata := CollectMetadata(a);
    if metadata != map[] {
      r.formData := r.formData["metadata" := JsonText(JObj(existing + metadata))];
    }
    err := None;
  }

  // ------------------------------------------------------------ network idle

  /** As written: asking to skip the network-idle event writes "false", the same as asking to wait for it. */
  method SkipNetworkIdle(r: LegacyRoute)
    modifies r`formData
    ensures r.formData == old(r.formData)["skipNetworkIdleEvent" := Text("false")]
  {
    r.formData := r.formData["skipNetworkIdleEvent" := Text("false")];
  }

  method UseNetworkIdle(r: LegacyRoute)
    modifies r`formData
    ensures r.formData == old(r.formData)["skipNetworkIdleEvent" := Text("false")]
  {
    r.formData := r.formData["skipNetworkIdleEvent" := Text("false")];
  }

  /** On a fresh route, skipping the network-idle event leaves `skipNetworkIdleEvent` at "false". */
  method SkipNetworkIdleScenario() returns (skip: FormValue)
    ensures skip == Text("false")
  {
    var r := new LegacyRoute("/forms/chromium/convert/url", true);
    SkipNetworkIdle(r);
    skip := r.formData["skipNetworkIdleEvent"];
  }

  /** Corrected: skipping writes "true", as the current `skip_network_idle` alias does. */
  method SkipNetworkIdleCorrected(r: LegacyRoute)
    modifies r`formData
    ensures r.formData == old(r.formData)["skipNetworkIdleEvent" := Text(BoolText(ChromiumMixins.FlagAlias.SkipNetworkIdleAlias.On()))]
  {
    r.formData := r.formData["skipNetworkIdleEvent" := Text("true")];
  }

  /** With the correction, skipping and waiting write different values. */
  method CorrectedNetworkIdleScenario() returns (skip: FormValue, use: FormValue)
    ensures skip == Text("true") && use == Text("false") && skip != use
  {
    var r := new LegacyRoute("/forms/chromium/convert/url", true);
    SkipNetworkIdleCorrected(r);
    skip := r.formData["skipNetworkIdleEvent"];
    UseNetworkIdle(r);
    use := r.formData["skipNetworkIdleEvent"];
  }
}
