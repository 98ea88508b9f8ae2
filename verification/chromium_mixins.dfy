/**
 * The option setters of the current Chromium routes: page properties,
 * boolean switches and their fixed-value aliases, the screenshot quality
 * clamp, the render wait with its sign check, status codes, cookies, extra
 * headers and the fixed header/footer upload names.
 */
module ChromiumMixins {
  import opened Strings
  import opened Errors
  import opened Paths
  import opened Utils
  import opened Options
  import opened BaseRoutes
  import opened ChromiumOptions

  // ------------------------------------------------------------ boolean switches

  /** The Chromium options that are a single boolean form field. */
  datatype ChromiumFlag =
      SinglePage | PreferCssPageSize | DocumentOutline | PrintBackground | OmitBackground
    | FailOnResourceLoadingFailed | FailOnConsoleExceptions | SkipNetworkIdle | Clip | OptimizeForSpeed
  {
    /** The form field the switch writes. */
    function Key(): string
    {
      match this
      case SinglePage => "singlePage"
      case PreferCssPageSize => "preferCssPageSize"
      case DocumentOutline => "generateDocumentOutline"
      case PrintBackground => "printBackground"
      case OmitBackground => "omitBackground"
      case FailOnResourceLoadingFailed => "failOnResourceLoadingFailed"
      case FailOnConsoleExceptions => "failOnConsoleExceptions"
      case SkipNetworkIdle => "skipNetworkIdleEvent"
      case Clip => "clip"
      case OptimizeForSpeed => "optimizeForSpeed"
    }
  }

  /** Different switches write different fields, so no switch disturbs another. */
  lemma FlagKeysDistinct(f: ChromiumFlag, g: ChromiumFlag)
    requires f != g
    ensures f.Key() != g.Key()
  {
  }

  /** Sets one switch to the boolean's text; nothing else changes. */
  method SetFlag(r: Route, flag: ChromiumFlag, on: bool)
    modifies r`formData
    ensures r.formData == old(r.formData)[flag.Key() := Text(BoolText(on))]
  {
    r.formData := r.formData + AsForm(BoolToForm(flag.Key(), on));
  }

  /** The setters that take no argument and set a switch to a fixed value. */
  datatype FlagAlias =
      PreferCss | PreferSetSize
    | BackgroundGraphics | NoBackgroundGraphics
    | HideBackground | ShowBackground
    | FailOnExceptions | DontFailOnExceptions
    | SkipNetworkIdleAlias | UseNetworkIdle
    | ClipToDimensions | NoClipToDimensions
    | ImageOptimizeForSpeed | ImageOptimizeForQuality
  {
    /** The switch the alias sets. */
    function Flag(): ChromiumFlag
    {
      match this
      case PreferCss | PreferSetSize => PreferCssPageSize
      case BackgroundGraphics | NoBackgroundGraphics => PrintBackground
      case HideBackground | ShowBackground => OmitBackground
      case FailOnExceptions | DontFailOnExceptions => FailOnConsoleExceptions
      case SkipNetworkIdleAlias | UseNetworkIdle => SkipNetworkIdle
      case ClipToDimensions | NoClipToDimensions => Clip
      case ImageOptimizeForSpeed | ImageOptimizeForQuality => OptimizeForSpeed
    }

    /** The value the alias sets it to. */
    function On(): bool
    {
      this in {PreferCss, BackgroundGraphics, HideBackground, FailOnExceptions,
               SkipNetworkIdleAlias, ClipToDimensions, ImageOptimizeForSpeed}
    }
  }

  /**
   * The aliases come in pairs: two aliases of the same switch set opposite
   * values, so each switch has exactly one alias per value.
   */
  lemma AliasesPaired(a: FlagAlias, b: FlagAlias)
    requires a != b && a.Flag() == b.Flag()
    ensures a.On() != b.On()
  {
  }

  /** Every switch that has aliases has one for each value. */
  lemma AliasesCoverBothValues(a: FlagAlias)
    ensures exists b: FlagAlias :: b.Flag() == a.Flag() && b.On() == !a.On()
  {
    var b := match a
      case PreferCss => PreferSetSize
      case PreferSetSize => PreferCss
      case BackgroundGraphics => NoBackgroundGraphics
      case NoBackgroundGraphics => BackgroundGraphics
      case HideBackground => ShowBackground
      case ShowBackground => HideBackground
      case FailOnExceptions => DontFailOnExceptions
      case DontFailOnExceptions => FailOnExceptions
      case SkipNetworkIdleAlias => UseNetworkIdle
      case UseNetworkIdle => SkipNetworkIdleAlias
      case ClipToDimensions => NoClipToDimensions
      case NoClipToDimensions => ClipToDimensions
      case ImageOptimizeForSpeed => ImageOptimizeForQuality
      case ImageOptimizeForQuality => ImageOptimizeForSpeed;
    assert b.Flag() == a.Flag() && b.On() == !a.On();
  }

  /** An alias is its switch's setter with a fixed value. */
  method Alias(r: Route, alias: FlagAlias)
    modifies r`formData
    ensures r.formData == old(r.formData)[alias.Flag().Key() := Text(BoolText(alias.On()))]
  {
    SetFlag(r, alias.Flag(), alias.On());
  }

  // ------------------------------------------------------------ page properties

  method Orient(r: Route, orient: PageOrientation)
    modifies r`formData
    ensures r.formData == old(r.formData)["landscape" := Text(BoolText(orient == Landscape))]
  {
    r.formData := r.formData + AsForm(orient.ToForm());
  }

  /** Adds one field per given dimension. */
  method Size(r: Route, size: PageSize)
    modifies r`formData
    ensures r.formData == old(r.formData) + AsForm(size.ToForm())
  {
    r.formData := r.formData + AsForm(size.ToForm());
  }

  /** Adds one field per given side. */
  method Margins(r: Route, margins: PageMargins)
    modifies r`formData
    ensures r.formData == old(r.formData) + AsForm(margins.ToForm())
  {
    r.formData := r.formData + AsForm(margins.ToForm());
  }

  /** Stores `str()` of the scale. */
  method Scale(r: Route, scale: Number)
    modifies r`formData
    ensures r.formData == old(r.formData)["scale" := Text(FieldText(Num(scale)))]
  {
    r.formData := r.formData["scale" := Text(FieldText(Num(scale)))];
  }

  /** Stores the page ranges text as it is. */
  method PageRanges(r: Route, ranges: string)
    modifies r`formData
    ensures r.formData == old(r.formData)["nativePageRanges" := Text(ranges)]
  {
    r.formData := r.formData["nativePageRanges" := Text(ranges)];
  }

  // ------------------------------------------------------------ header and footer

  /** Uploads `header` as `header.html`, whatever its own name. */
  method Header(r: Route, header: Path)
    modifies r`fileMap
    ensures r.fileMap == old(r.fileMap)["header.html" := header]
  {
    var _ := r.AddFileMap(header, Some("header.html"));
  }

  /** Uploads `footer` as `footer.html`, whatever its own name. */
  method Footer(r: Route, footer: Path)
    modifies r`fileMap
    ensures r.fileMap == old(r.fileMap)["footer.html" := footer]
  {
    var _ := r.AddFileMap(footer, Some("footer.html"));
  }

  // ------------------------------------------------------------ render wait

  /** The value of a number. */
  function NumberValue(n: Number): real
  {
    match n
    case Int(i) => i as real
    case Float(v, _) => v
  }

  /** The `waitDelay` text: the seconds as `str()` gives them, then "s". */
  function WaitDelayText(wait: Number): (t: string)
    ensures |t| >= 1 && t[|t| - 1] == 's'
  {
    FieldText(Num(wait)) + "s"
  }

  /** A whole number of seconds is read back from its `waitDelay` text. */
  lemma WaitDelayReadBack(seconds: nat)
    ensures var t := WaitDelayText(Int(seconds));
      IsDigits(t[..|t| - 1]) && DigitsValue(t[..|t| - 1]) == seconds
  {
    var t := WaitDelayText(Int(seconds));
    assert t[..|t| - 1] == NatToString(seconds);
    NatToStringRoundTrip(seconds);
  }

  /**
   * Waits the given number of seconds before rendering. A negative wait is
   * refused and the form is left as it was. A `timedelta` is given as the
   * `Float` of its `total_seconds()`, so half a second reads "0.5s".
   */
  method RenderWait(r: Route, wait: Number) returns (err: Option<Error>)
    modifies r`formData
    ensures NumberValue(wait) < 0.0 ==> err == Some(NegativeWaitDuration) && r.formData == old(r.formData)
    ensures NumberValue(wait) >= 0.0 ==> err.None? && r.formData == old(r.formData)["waitDelay" := Text(WaitDelayText(wait))]
  {
    var seconds := match wait case Int(i) => i as real case Float(v, _) => v;
    if seconds < 0.0 {
      return Some(NegativeWaitDuration);
    }
    r.formData := r.formData["waitDelay" := Text(FieldText(Num(wait)) + "s")];
    err := None;
  }

  method RenderExpression(r: Route, expr: string)
    modifies r`formData
    ensures r.formData == old(r.formData)["waitForExpression" := Text(expr)]
  {
    r.formData := r.formData["waitForExpression" := Text(expr)];
  }

  /** Stores "print" or "screen". */
  method MediaType(r: Route, mediaType: EmulatedMediaType)
    modifies r`formData
    ensures r.formData == old(r.formData) + AsForm(mediaType.ToForm())
  {
    var text := if mediaType == Print then "print" else "screen";
    r.formData := r.formData["emulatedMediaType" := Text(text)];
  }

  // ------------------------------------------------------------ cookies and headers

  /** Sends the cookies as one JSON list of their dictionaries, in the order given. */
  method Cookies(r: Route, cookies: seq<CookieJar>)
    modifies r`formData
    ensures r.formData == old(r.formData)["cookies" := JsonText(JArr(CookieDocs(cookies)))]
  {
    var docs := CookieDocs(cookies);
    r.formData := r.formData["cookies" := JsonText(JArr(docs))];
  }

  method UserAgent(r: Route, agent: string)
    modifies r`formData
    ensures r.formData == old(r.formData)["userAgent" := Text(agent)]
  {
    r.formData := r.formData["userAgent" := Text(agent)];
  }

  /** Sends the extra HTTP headers as one JSON object. */
  method ExtraHeaders(r: Route, headers: map<string, string>)
    modifies r`formData
    ensures r.formData == old(r.formData)["extraHttpHeaders" := JsonText(StringObject(headers))]
  {
    r.formData := r.formData["extraHttpHeaders" := JsonText(StringObject(headers))];
  }

  // ------------------------------------------------------------ status codes

  /** The codes joined with "," inside brackets. */
  function BracketedCodes(codes: seq<int>): (t: string)
    ensures |t| >= 2 && t[0] == '[' && t[|t| - 1] == ']'
    ensures t[1..|t| - 1] == CodesText(codes)
  {
    "[" + CodesText(codes) + "]"
  }

  /** No codes give "[]". */
  lemma NoCodesBracketed()
    ensures BracketedCodes([]) == "[]"
  {
    assert CodesText([]) == "";
  }

  /** Different code lists give different bracketed texts. */
  lemma BracketedCodesInjective(a: seq<int>, b: seq<int>)
    requires BracketedCodes(a) == BracketedCodes(b)
    ensures a == b
  {
    var ta := BracketedCodes(a);
    assert CodesText(a) == ta[1..|ta| - 1] == CodesText(b);
    CodesTextInjective(a, b);
  }

  method FailOnStatusCodes(r: Route, codes: seq<int>)
    modifies r`formData
    ensures r.formData == old(r.formData)["failOnHttpStatusCodes" := Text(BracketedCodes(codes))]
  {
    r.formData := r.formData["failOnHttpStatusCodes" := Text("[" + Join(CodeTexts(codes), ",") + "]")];
  }

  // ------------------------------------------------------------ screenshots

  const QUALITY_MIN: int := 0
  const QUALITY_MAX: int := 100

  /** The quality text a clamp into [lo, hi] writes reads back as the clamped value. */
  lemma ClampedQualityText(q: int, lo: int, hi: int)
    requires 0 <= lo <= hi
    ensures IsDigits(IntToString(Clamp(q, lo, hi)))
    ensures DigitsValue(IntToString(Clamp(q, lo, hi))) == Clamp(q, lo, hi)
  {
    NatToStringRoundTrip(Clamp(q, lo, hi));
  }

  /** Stores the quality moved into [0, 100]. */
  method Quality(r: Route, quality: int)
    modifies r`formData
    ensures r.formData == old(r.formData)["quality" := Text(IntToString(Clamp(quality, QUALITY_MIN, QUALITY_MAX)))]
  {
    var q := quality;
    if q > QUALITY_MAX {
      q := QUALITY_MAX;
    } else if q < QUALITY_MIN {
      q := QUALITY_MIN;
    }
    r.formData := r.formData["quality" := Text(IntToString(q))];
  }

  method Width(r: Route, width: int)
    modifies r`formData
    ensures r.formData == old(r.formData)["width" := Text(IntToString(width))]
  {
    r.formData := r.formData["width" := Text(IntToString(width))];
  }

  method Height(r: Route, height: int)
    modifies r`formData
    ensures r.formData == old(r.formData)["height" := Text(IntToString(height))]
  {
    r.formData := r.formData["height" := Text(IntToString(height))];
  }

  /** The screenshot formats. */
  datatype ImageFormat = Png | Jpeg | Webp
  {
    function Value(): string
    {
      match this
      case Png => "png"
      case Jpeg => "jpeg"
      case Webp => "webp"
    }
  }

  method OutputFormat(r: Route, format: ImageFormat)
    modifies r`formData
    ensures r.formData == old(r.formData)["format" := Text(format.Value())]
  {
    r.formData := r.formData["format" := Text(format.Value())];
  }
}
