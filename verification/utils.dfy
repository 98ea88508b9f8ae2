/**
 * Form-value rendering helpers, the multipart part list and the marker that
 * forces a multipart body.
 */
module Utils {
  import opened Strings
  import opened Errors
  import opened Paths

  /**
   * A Python number as given to a setter: an integer, or a float carried
   * together with the text `str()` gives for it.
   */
  datatype Number = Int(i: int) | Float(value: real, repr: string)

  /** The values `optional_to_form` is given. */
  datatype FormField = Bool(b: bool) | Num(n: Number) | Str(s: string)

  /** Python's `str()` of a form field. */
  function FieldText(v: FormField): string
  {
    match v
    case Bool(b) => if b then "True" else "False"
    case Num(Int(i)) => IntToString(i)
    case Num(Float(_, repr)) => repr
    case Str(s) => s
  }

  /**
   * `{}` for a missing value, otherwise the single entry from `name` to the
   * lower-cased text of the value.
   */
  function OptionalToForm(value: Option<FormField>, name: string): (m: map<string, string>)
    ensures value.None? <==> m == map[]
    ensures value.Some? ==> m == map[name := Lower(FieldText(value.value))]
    ensures forall k :: k in m ==> forall i :: 0 <= i < |m[k]| ==> !('A' <= m[k][i] <= 'Z')
  {
    match value
    case None => map[]
    case Some(v) =>
      var m := map[name := Lower(FieldText(v))];
      assert name in m;
      m
  }

  /** An integer is written as its decimal text: lower-casing leaves the digits and the sign alone. */
  lemma OptionalIntIsDecimal(name: string, i: int)
    ensures OptionalToForm(Some(Num(Int(i))), name) == map[name := IntToString(i)]
  {
    var t := IntToString(i);
    forall k | 0 <= k < |t|
      ensures LowerChar(t[k]) == t[k]
    {
      if i < 0 {
        assert t == "-" + NatToString(-i);
        if k > 0 {
          assert t[k] == NatToString(-i)[k - 1];
        }
      }
    }
    assert Lower(t) == t;
  }

  /** The text every form field uses for a boolean. */
  function BoolText(b: bool): (t: string)
    ensures (t == "true") <==> b
    ensures (t == "false") <==> !b
  {
    if b then "true" else "false"
  }

  /** The one-entry map a boolean option contributes. */
  function BoolToForm(name: string, b: bool): (m: map<string, string>)
    ensures m.Keys == {name} && m[name] == BoolText(b)
  {
    map[name := BoolText(b)]
  }

  /** Rendering a boolean through `optional_to_form` gives the same text as `BoolToForm`. */
  lemma OptionalBoolIsBoolToForm(name: string, b: bool)
    ensures OptionalToForm(Some(Bool(b)), name) == BoolToForm(name, b)
  {
    if b {
      assert Lower("True") == "true";
    } else {
      assert Lower("False") == "false";
    }
  }

  /** A decoded JSON document; the encoder itself is not modelled. */
  datatype Json =
      JStr(s: string)
    | JBool(b: bool)
    | JNum(n: real)
    | JArr(items: seq<Json>)
    | JObj(fields: map<string, Json>)

  /** A form field value: plain text, or a JSON document sent as its encoding. */
  datatype FormValue = Text(t: string) | JsonText(doc: Json)

  /** The string map `update` receives, as form values. */
  function AsForm(m: map<string, string>): (f: map<string, FormValue>)
    ensures f.Keys == m.Keys
    ensures forall k :: k in f ==> f[k] == Text(m[k])
  {
    map k | k in m :: Text(m[k])
  }

  /** One multipart part: a file read from disk, or text held in memory. */
  datatype Part =
      FilePart(filename: string, path: Path, mime: Option<string>)
    | MemoryPart(filename: string, data: string, mime: Option<string>)

  /**
   * The files argument of the POST. `forceMultipart` marks the dictionary
   * subclass whose truth value is always true, so the body is sent as
   * multipart/form-data even without parts.
   */
  datatype RequestFiles = RequestFiles(parts: map<string, Part>, forceMultipart: bool)

  /** Python truthiness of the files argument, which picks a multipart body. */
  predicate Truthy(f: RequestFiles)
  {
    f.forceMultipart || |f.parts| > 0
  }

  /** The shared empty dictionary that still forces a multipart body. */
  const FORCE_MULTIPART: RequestFiles := RequestFiles(map[], true)

  lemma ForceMultipartIsEmptyButTruthy()
    ensures FORCE_MULTIPART.parts == map[] && Truthy(FORCE_MULTIPART)
  {
  }

  /** A plain, empty dictionary is falsy. */
  lemma EmptyPlainDictIsFalsy()
    ensures !Truthy(RequestFiles(map[], false))
  {
  }

  /** The clamp the quality setters apply before writing: `q` moved into [lo, hi]. */
  function Clamp(q: int, lo: int, hi: int): (r: int)
    requires lo <= hi
    ensures lo <= r <= hi
    ensures lo <= q <= hi ==> r == q
    ensures q > hi ==> r == hi
    ensures q < lo ==> r == lo
  {
    if q > hi then hi else if q < lo then lo else q
  }
}
