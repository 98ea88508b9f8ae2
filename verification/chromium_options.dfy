/**
 * The value objects of the Chromium routes (page size and margins given as
 * measurements, cookies) and the Chromium option setters that differ from the
 * shared mixins: status codes without brackets and metadata written only
 * when there is something new.
 */
module ChromiumOptions {
  import opened Strings
  import opened Errors
  import opened Utils
  import opened BaseRoutes
  import opened CommonMixins

  /**
   * A length with its unit. Only the text it renders to under a field name
   * is used here; how that text is formed is not part of this model.
   */
  datatype Measurement = Measurement(text: string)

  /** The single entry a measurement contributes under `name`. */
  function MeasurementForm(m: Measurement, name: string): (f: map<string, string>)
    ensures f.Keys == {name} && f[name] == m.text
  {
    map[name := m.text]
  }

  /** A page size given as measurements; either side may be unset. */
  datatype ChromiumPageSize = ChromiumPageSize(width: Option<Measurement>, height: Option<Measurement>)
  {
    /** One entry per set side, under `paperWidth` / `paperHeight` only. */
    function ToForm(): (m: map<string, string>)
      ensures m.Keys <= {"paperWidth", "paperHeight"}
      ensures ("paperWidth" in m <==> width.Some?) && (width.Some? ==> m["paperWidth"] == width.value.text)
      ensures ("paperHeight" in m <==> height.Some?) && (height.Some? ==> m["paperHeight"] == height.value.text)
    {
      var m: map<string, string> := if width.Some? then MeasurementForm(width.value, "paperWidth") else map[];
      if height.Some? then m + MeasurementForm(height.value, "paperHeight") else m
    }
  }

  /** Page margins given as measurements; each side may be unset. */
  datatype ChromiumMargins = ChromiumMargins(top: Option<Measurement>, bottom: Option<Measurement>,
                                             left: Option<Measurement>, right: Option<Measurement>)
  {
    /** One entry per set side, under `marginTop`, `marginBottom`, `marginLeft`, `marginRight` only. */
    function ToForm(): (m: map<string, string>)
      ensures m.Keys <= {"marginTop", "marginBottom", "marginLeft", "marginRight"}
      ensures ("marginTop" in m <==> top.Some?) && (top.Some? ==> m["marginTop"] == top.value.text)
      ensures ("marginBottom" in m <==> bottom.Some?) && (bottom.Some? ==> m["marginBottom"] == bottom.value.text)
      ensures ("marginLeft" in m <==> left.Some?) && (left.Some? ==> m["marginLeft"] == left.value.text)
      ensures ("marginRight" in m <==> right.Some?) && (right.Some? ==> m["marginRight"] == right.value.text)
    {
      SideForm(top, "marginTop") + SideForm(bottom, "marginBottom") + SideForm(left, "marginLeft") + SideForm(right, "marginRight")
    }
  }

  /** The entry of one optional side. */
  function SideForm(side: Option<Measurement>, name: string): (m: map<string, string>)
    ensures side.None? ==> m == map[]
    ensures side.Some? ==> m == map[name := side.value.text]
  {
    if side.Some? then MeasurementForm(side.value, name) else map[]
  }

  /** The `SameSite` attribute values a cookie may carry. */
  datatype SameSite = Strict | Lax | NoRestriction
  {
    function Value(): (s: string)
      ensures s != ""
    {
      match this
      case Strict => "Strict"
      case Lax => "Lax"
      case NoRestriction => "None"
    }
  }

  /** One cookie for Chromium to send. */
  datatype CookieJar = CookieJar(name: string, value: string, domain: string, path: Option<string>,
                                 secure: Option<bool>, httpOnly: Option<bool>, sameSite: Option<SameSite>)
  {
    /**
     * The cookie as a dictionary: name, value and domain always; the path
     * when it is truthy; `secure` and `httpOnly` only when true (and then as
     * "true"); `sameSite` whenever given.
     */
    function AsDict(): (d: map<string, string>)
      ensures d.Keys <= COOKIE_KEYS
      ensures "name" in d && d["name"] == name
      ensures "value" in d && d["value"] == value
      ensures "domain" in d && d["domain"] == domain
      ensures ("path" in d <==> Given(path)) && ("path" in d ==> d["path"] == path.value)
      ensures ("secure" in d <==> secure == Some(true)) && ("secure" in d ==> d["secure"] == "true")
      ensures ("httpOnly" in d <==> httpOnly == Some(true)) && ("httpOnly" in d ==> d["httpOnly"] == "true")
      ensures ("sameSite" in d <==> sameSite.Some?) && ("sameSite" in d ==> d["sameSite"] == sameSite.value.Value())
    {
      map key | key in COOKIE_KEYS && Field(key).Some? :: Field(key).value
    }

    /** The value of one dictionary key, if the cookie has it. */
    function Field(key: string): Option<string>
    {
      if key == "name" then Some(name)
      else if key == "value" then Some(value)
      else if key == "domain" then Some(domain)
      else if key == "path" then (if Given(path) then Some(path.value) else None)
      else if key == "secure" then (if secure == Some(true) then Some(BoolText(true)) else None)
      else if key == "httpOnly" then (if httpOnly == Some(true) then Some(BoolText(true)) else None)
      else if key == "sameSite" then (if sameSite.Some? then Some(sameSite.value.Value()) else None)
      else None
    }
  }

  /** The keys a cookie dictionary may have. */
  const COOKIE_KEYS: set<string> := {"name", "value", "domain", "path", "secure", "httpOnly", "sameSite"}

  /** A string dictionary as a JSON object of strings. */
  function StringObject(d: map<string, string>): (j: Json)
    ensures j.JObj? && j.fields.Keys == d.Keys
    ensures forall k :: k in d ==> j.fields[k] == JStr(d[k])
  {
    JObj(map k | k in d :: JStr(d[k]))
  }

  /** The cookies field: the dictionaries of the jars, in the order given. */
  function CookieDocs(cookies: seq<CookieJar>): (docs: seq<Json>)
    ensures |docs| == |cookies|
    ensures forall i :: 0 <= i < |cookies| ==> docs[i] == StringObject(cookies[i].AsDict())
  {
    seq(|cookies|, i requires 0 <= i < |cookies| => StringObject(cookies[i].AsDict()))
  }

  /** The texts of status codes, as `str()` of an integer enum gives them. */
  function CodeTexts(codes: seq<int>): (ts: seq<string>)
    ensures |ts| == |codes|
    ensures forall i :: 0 <= i < |codes| ==> ts[i] == IntToString(codes[i])
  {
    seq(|codes|, i requires 0 <= i < |codes| => IntToString(codes[i]))
  }

  /** Status codes joined with "," and no brackets. */
  function CodesText(codes: seq<int>): string
  {
    Join(CodeTexts(codes), ",")
  }

  /** The codes can be read back from their text: splitting it at the commas gives each code's text. */
  lemma CodesTextSplits(codes: seq<int>)
    requires |codes| >= 1
    ensures Split(CodesText(codes), ',') == CodeTexts(codes)
  {
    SplitJoin(CodeTexts(codes), ',');
  }

  /** Different code lists give different texts. */
  lemma {:induction false} CodesTextInjective(a: seq<int>, b: seq<int>)
    requires CodesText(a) == CodesText(b)
    ensures a == b
  {
    if |a| == 0 && |b| == 0 {
    } else if |a| == 0 || |b| == 0 {
      // one text is empty, while a non-empty list's text starts with a digit or a sign
      assert false;
    } else {
      CodesTextSplits(a);
      CodesTextSplits(b);
      assert CodeTexts(a) == CodeTexts(b);
      forall i | 0 <= i < |a|
        ensures a[i] == b[i]
      {
        IntToStringInjective(a[i], b[i]);
      }
    }
  }

  /** Sets the status codes that fail the conversion, joined with ",". */
  method FailOnCodes(r: Route, codes: seq<int>)
    modifies r`formData
    ensures r.formData == old(r.formData)["failOnHttpStatusCodes" := Text(CodesText(codes))]
  {
    r.formData := r.formData["failOnHttpStatusCodes" := Text(Join(CodeTexts(codes), ","))];
  }

  /** Sets the resource status codes that fail the conversion, joined with ",". */
  method FailOnResourceCodes(r: Route, codes: seq<int>)
    modifies r`formData
    ensures r.formData == old(r.formData)["failOnResourceHttpStatusCodes" := Text(CodesText(codes))]
  {
    r.formData := r.formData["failOnResourceHttpStatusCodes" := Text(Join(CodeTexts(codes), ","))];
  }

  /**
   * The Chromium metadata setter: the same checks and merge as the shared
   * one, but `metadata` is written only when the call has a new entry.
   */
  method ChromiumMetadata(r: Route, a: MetadataArgs) returns (err: Option<Error>)
    modifies r`formData
    ensures var res := MetadataResult(old(r.formData), a, false);
      (res.Ok? ==> err.None? && r.formData == res.value) &&
      (res.Err? ==> err == Some(res.error) && r.formData == old(r.formData))
  {
    if a.pdfVersion.Some? && !(MIN_PDF_VERSION <= a.pdfVersion.value <= MAX_PDF_VERSION) {
      return Some(InvalidPdfRevision);
    }
    if a.keywords.Some? && HasCommaKeyword(a.keywords.value) {
      return Some(InvalidKeyword);
    }
    var existing: map<string, Json> := map[];
    if "metadata" in r.formData {
      if !(r.formData["metadata"].JsonText? && r.formData["metadata"].doc.JObj?) {
        return Some(UnreadableMetadata);
      }
      existing := r.formData["metadata"].doc.fields;
    }
    var metadata := CollectMetadata(a);
    if metadata != map[] {
      r.formData := r.formData["metadata" := JsonText(JObj(existing + metadata))];
    }
    err := None;
  }
}
