/**
 * The option value objects of the first API generation and the form fields
 * each renders to.
 */
module Options {
  import opened Strings
  import opened Errors
  import opened Utils

  /** PDF/A conformance levels (ISO 19005-1 level a, ISO 19005-2 and 19005-3 level b). */
  datatype PdfAFormat = A1a | A2b | A3b
  {
    /** A2b and A3b name their level under `pdfa`; the deprecated A1a sends nothing. */
    function ToForm(): (m: map<string, string>)
      ensures this.A1a? ==> m == map[]
      ensures "pdfa" in m <==> !this.A1a?
      ensures this.A2b? ==> m == map["pdfa" := "PDF/A-2b"]
      ensures this.A3b? ==> m == map["pdfa" := "PDF/A-3b"]
    {
      match this
      case A1a => map[]
      case A2b => map["pdfa" := "PDF/A-2b"]
      case A3b => map["pdfa" := "PDF/A-3b"]
    }
  }

  datatype PageOrientation = Landscape | Portrait
  {
    /** The single `landscape` flag: true for Landscape, false for Portrait. */
    function ToForm(): (m: map<string, string>)
      ensures m == BoolToForm("landscape", this == Landscape)
    {
      match this
      case Landscape => map["landscape" := "true"]
      case Portrait => map["landscape" := "false"]
    }
  }

  /** A paper size in inches; either side may be left unset. */
  datatype PageSize = PageSize(width: Option<Number>, height: Option<Number>)
  {
    /** One entry per set side, under `paperWidth` / `paperHeight`, rendered as its lower-cased text. */
    function ToForm(): (m: map<string, string>)
      ensures m.Keys <= {"paperWidth", "paperHeight"}
      ensures "paperWidth" in m <==> width.Some?
      ensures "paperHeight" in m <==> height.Some?
      ensures width.Some? ==> m["paperWidth"] == Lower(FieldText(Num(width.value)))
      ensures height.Some? ==> m["paperHeight"] == Lower(FieldText(Num(height.value)))
    {
      var w := if width.Some? then Some(Num(width.value)) else None;
      var h := if height.Some? then Some(Num(height.value)) else None;
      OptionalToForm(w, "paperWidth") + OptionalToForm(h, "paperHeight")
    }
  }

  datatype MarginUnit = Undefined | Points | Pixels | Inches | Millimeters | Centimeters | Percent
  {
    /** The unit's text; `none` for Undefined, which is never written. */
    function Value(): string
    {
      match this
      case Undefined => "none"
      case Points => "pt"
      case Pixels => "px"
      case Inches => "in"
      case Millimeters => "mm"
      case Centimeters => "cm"
      case Percent => "pc"
    }
  }

  datatype Margin = Margin(value: Number, unit: MarginUnit)

  /** A margin's form text: the bare value when the unit is Undefined, else the value followed by the unit. */
  function MarginText(m: Margin): (t: string)
    ensures m.unit.Undefined? ==> t == Lower(FieldText(Num(m.value)))
    ensures !m.unit.Undefined? ==> t == Lower(FieldText(Num(m.value)) + m.unit.Value())
  {
    if m.unit.Undefined? then Lower(FieldText(Num(m.value)))
    else Lower(FieldText(Num(m.value)) + m.unit.Value())
  }

  /** The entry one margin side contributes: nothing when unset. */
  function MarginEntry(side: Option<Margin>, name: string): (m: map<string, string>)
    ensures side.None? ==> m == map[]
    ensures side.Some? ==> m == map[name := MarginText(side.value)]
  {
    match side
    case None => map[]
    case Some(margin) =>
      if margin.unit.Undefined? then OptionalToForm(Some(Num(margin.value)), name)
      else OptionalToForm(Some(Str(FieldText(Num(margin.value)) + margin.unit.Value())), name)
  }

  datatype PageMargins = PageMargins(top: Option<Margin>, bottom: Option<Margin>, left: Option<Margin>, right: Option<Margin>)
  {
    /** One entry per set side, under `marginTop`, `marginBottom`, `marginLeft`, `marginRight`. */
    function ToForm(): (m: map<string, string>)
      ensures m.Keys <= {"marginTop", "marginBottom", "marginLeft", "marginRight"}
      ensures ("marginTop" in m <==> top.Some?) && (top.Some? ==> m["marginTop"] == MarginText(top.value))
      ensures ("marginBottom" in m <==> bottom.Some?) && (bottom.Some? ==> m["marginBottom"] == MarginText(bottom.value))
      ensures ("marginLeft" in m <==> left.Some?) && (left.Some? ==> m["marginLeft"] == MarginText(left.value))
      ensures ("marginRight" in m <==> right.Some?) && (right.Some? ==> m["marginRight"] == MarginText(right.value))
    {
      var t := MarginEntry(top, "marginTop");
      var b := MarginEntry(bottom, "marginBottom");
      var l := MarginEntry(left, "marginLeft");
      var r := MarginEntry(right, "marginRight");
      FourSides(t, b, l, r, "marginTop", "marginBottom", "marginLeft", "marginRight");
      t + b + l + r
    }
  }

  /** Four maps of at most one distinct key each: their union holds each key with its own map's value. */
  lemma FourSides<V>(a: map<string, V>, b: map<string, V>, c: map<string, V>, d: map<string, V>,
                     ka: string, kb: string, kc: string, kd: string)
    requires a.Keys <= {ka} && b.Keys <= {kb} && c.Keys <= {kc} && d.Keys <= {kd}
    requires ka != kb && ka != kc && ka != kd && kb != kc && kb != kd && kc != kd
    ensures var u := a + b + c + d;
      u.Keys <= {ka, kb, kc, kd} &&
      (ka in u <==> ka in a) && (ka in a ==> u[ka] == a[ka]) &&
      (kb in u <==> kb in b) && (kb in b ==> u[kb] == b[kb]) &&
      (kc in u <==> kc in c) && (kc in c ==> u[kc] == c[kc]) &&
      (kd in u <==> kd in d) && (kd in d ==> u[kd] == d[kd])
  {
  }

  /** Margins of 1 cm, 2 pc, 3 mm and a bare 4 render as "1cm", "2pc", "3mm" and "4". */
  lemma MarginUnitsExample()
    ensures var m := PageMargins(Some(Margin(Int(1), Centimeters)), Some(Margin(Int(2), Percent)),
                                 Some(Margin(Int(3), Millimeters)), Some(Margin(Int(4), Undefined))).ToForm();
      m["marginTop"] == "1cm" && m["marginBottom"] == "2pc" && m["marginLeft"] == "3mm" && m["marginRight"] == "4"
  {
    MarginTextExamples();
  }

  /** The texts of the four margins of `MarginUnitsExample`. */
  lemma MarginTextExamples()
    ensures MarginText(Margin(Int(1), Centimeters)) == "1cm" && MarginText(Margin(Int(2), Percent)) == "2pc"
    ensures MarginText(Margin(Int(3), Millimeters)) == "3mm" && MarginText(Margin(Int(4), Undefined)) == "4"
  {
    assert IntToString(1) == "1" && IntToString(2) == "2" && IntToString(3) == "3" && IntToString(4) == "4";
    assert Lower("1cm") == "1cm" && Lower("2pc") == "2pc" && Lower("3mm") == "3mm" && Lower("4") == "4";
  }

  datatype EmulatedMediaType = Print | Screen
  {
    /** The media type Chromium emulates, under `emulatedMediaType`. */
    function ToForm(): (m: map<string, string>)
      ensures m.Keys == {"emulatedMediaType"}
      ensures m["emulatedMediaType"] == (if this == Print then "print" else "screen")
    {
      match this
      case Print => map["emulatedMediaType" := "print"]
      case Screen => map["emulatedMediaType" := "screen"]
    }
  }
}
