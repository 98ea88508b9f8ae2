/**
 * The option setters of the LibreOffice routes: the document password, page
 * ranges, the boolean export switches, image compression with its quality
 * clamp into [1, 100], and merging. Orientation and page ranges are written
 * exactly as the Chromium setters `ChromiumMixins.Orient` and
 * `ChromiumMixins.PageRanges` write them.
 */
module LibreOfficeMixins {
  import opened Strings
  import opened Utils
  import opened BaseRoutes

  /** Stores the document password as it is. */
  method Password(r: Route, password: string)
    modifies r`formData
    ensures r.formData == old(r.formData)["password" := Text(password)]
  {
    r.formData := r.formData["password" := Text(password)];
  }

  /** The LibreOffice options that are a single boolean form field. */
  datatype OfficeFlag =
      UpdateIndexes | ExportFormFields | AllowDuplicateFieldNames | ExportBookmarks
    | ExportBookmarksToPdfDestination | ExportNotes | ExportNotesPages | ExportOnlyNotesPages
    | ExportNotesInMargin | ConvertOooTargetToPdfTarget | ExportLinksRelativeFsys | ExportHiddenSlides
    | SkipEmptyPages | AddOriginalDocumentAsStream | SinglePageSheets
    | LosslessImageCompression | ReduceImageResolution | Merge
  {
    /** The form field the switch writes. */
    function Key(): string
    {
      match this
      case UpdateIndexes => "updateIndexes"
      case ExportFormFields => "exportFormFields"
      case AllowDuplicateFieldNames => "allowDuplicateFieldNames"
      case ExportBookmarks => "exportBookmarks"
      case ExportBookmarksToPdfDestination => "exportBookmarksToPdfDestination"
      case ExportNotes => "exportNotes"
      case ExportNotesPages => "exportNotesPages"
      case ExportOnlyNotesPages => "exportOnlyNotesPages"
      case ExportNotesInMargin => "exportNotesInMargin"
      case ConvertOooTargetToPdfTarget => "convertOooTargetToPdfTarget"
      case ExportLinksRelativeFsys => "exportLinksRelativeFsys"
      case ExportHiddenSlides => "exportHiddenSlides"
      case SkipEmptyPages => "skipEmptyPages"
      case AddOriginalDocumentAsStream => "addOriginalDocumentAsStream"
      case SinglePageSheets => "singlePageSheets"
      case LosslessImageCompression => "losslessImageCompression"
      case ReduceImageResolution => "reduceImageResolution"
      case Merge => "merge"
    }
  }

  /** Different switches write different fields, and none of them writes `quality`. */
  lemma OfficeFlagKeysDistinct(f: OfficeFlag, g: OfficeFlag)
    requires f != g
    ensures f.Key() != g.Key()
    ensures f.Key() != "quality"
  {
  }

  /** Sets one switch to the boolean's text; nothing else changes. */
  method SetOfficeFlag(r: Route, flag: OfficeFlag, on: bool)
    modifies r`formData
    ensures r.formData == old(r.formData)[flag.Key() := Text(BoolText(on))]
  {
    r.formData := r.formData + AsForm(BoolToForm(flag.Key(), on));
  }

  /** Turns merging off: the merge switch with false. */
  method NoMerge(r: Route)
    modifies r`formData
    ensures r.formData == old(r.formData)["merge" := Text("false")]
  {
    SetOfficeFlag(r, Merge, false);
  }

  /** Turns merging on: the merge switch with true. */
  method DoMerge(r: Route)
    modifies r`formData
    ensures r.formData == old(r.formData)["merge" := Text("true")]
  {
    SetOfficeFlag(r, Merge, true);
  }

  const OFFICE_QUALITY_MIN: int := 1
  const OFFICE_QUALITY_MAX: int := 100

  /** Stores the image quality moved into [1, 100]: 0 and below become 1. */
  method OfficeQuality(r: Route, quality: int)
    modifies r`formData
    ensures r.formData == old(r.formData)["quality" := Text(IntToString(Clamp(quality, OFFICE_QUALITY_MIN, OFFICE_QUALITY_MAX)))]
  {
    var q := quality;
    if q > OFFICE_QUALITY_MAX {
      q := OFFICE_QUALITY_MAX;
    } else if q < OFFICE_QUALITY_MIN {
      q := OFFICE_QUALITY_MIN;
    }
    r.formData := r.formData["quality" := Text(IntToString(q))];
  }

  /** The image resolutions LibreOffice can cap images at, in DPI. */
  datatype Resolution = Dpi75 | Dpi150 | Dpi300 | Dpi600 | Dpi1200
  {
    function Dpi(): (d: nat)
      ensures d >= 75
    {
      match this
      case Dpi75 => 75
      case Dpi150 => 150
      case Dpi300 => 300
      case Dpi600 => 600
      case Dpi1200 => 1200
    }
  }

  /** Writes the resolution into the `quality` field. */
  method MaxImageResolution(r: Route, maxResolution: Resolution)
    modifies r`formData
    ensures r.formData == old(r.formData)["quality" := Text(IntToString(maxResolution.Dpi()))]
  {
    r.formData := r.formData["quality" := Text(IntToString(maxResolution.Dpi()))];
  }

  /**
   * Setting a quality and then a maximum resolution leaves only the
   * resolution: the quality is overwritten.
   */
  method QualityThenResolution(r: Route, quality: int, maxResolution: Resolution)
    modifies r`formData
    ensures "quality" in r.formData && r.formData["quality"] == Text(IntToString(maxResolution.Dpi()))
  {
    OfficeQuality(r, quality);
    MaxImageResolution(r, maxResolution);
  }

  /** A resolution of 150 DPI or more is stored as a number no quality can reach. */
  lemma ResolutionAboveQualityRange(q: int, res: Resolution)
    requires res != Dpi75
    ensures IntToString(res.Dpi()) != IntToString(Clamp(q, OFFICE_QUALITY_MIN, OFFICE_QUALITY_MAX))
  {
    if IntToString(res.Dpi()) == IntToString(Clamp(q, OFFICE_QUALITY_MIN, OFFICE_QUALITY_MAX)) {
      IntToStringInjective(res.Dpi(), Clamp(q, OFFICE_QUALITY_MIN, OFFICE_QUALITY_MAX));
    }
  }
}
