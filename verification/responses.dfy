/** The two kinds of API response and what can be done with them. */
module Responses {
  import opened Strings
  import opened Http
  import opened Errors
  import opened Paths

  /** A single output file, or a zip archive holding several. */
  datatype ApiResponse =
      SingleFileResponse(statusCode: int, headers: Headers, content: Bytes)
    | ZipFileResponse(statusCode: int, headers: Headers, content: Bytes)
  {
    /** The Content-Type header is present and reads `application/zip`. */
    predicate IsZip()
    {
      HasHeader(headers, "Content-Type") && GetHeader(headers, "Content-Type") == "application/zip"
    }
  }

  /**
   * A response is a zip exactly when one Content-Type field is present and
   * its value is `application/zip`: a repeated field joins its values with
   * ", " and so never reads as that single value.
   */
  lemma IsZipIff(r: ApiResponse)
    ensures r.IsZip() <==> HeaderValues(r.headers, "Content-Type") == ["application/zip"]
  {
    var vs := HeaderValues(r.headers, "Content-Type");
    if |vs| >= 2 {
      SeveralValuesAreNotZip(vs);
    }
  }

  lemma SeveralValuesAreNotZip(vs: seq<string>)
    requires |vs| >= 2
    ensures Join(vs, ", ") != "application/zip"
  {
    JoinShowsSeparator(vs, ", ", ',');
    assert ',' !in "application/zip";
  }

  /** Without any Content-Type field the response is not a zip. */
  lemma NotZipWithoutContentType(r: ApiResponse)
    requires forall i :: 0 <= i < |r.headers| ==> Lower(r.headers[i].0) != "content-type"
    ensures !r.IsZip()
  {
    assert Lower("Content-Type") == "content-type";
    assert HeaderValues(r.headers, "Content-Type") == [];
  }

  /**
   * Writes the body to `path`, so reading `path` back yields the body. A
   * directory at `path` cannot be written over: the write is refused and
   * the file system is left as it was.
   */
  method ToFile(r: ApiResponse, fs: FileSystem, path: Path) returns (err: Option<Error>)
    modifies fs
    ensures err.Some? <==> path in old(fs.entries) && old(fs.entries)[path].Directory?
    ensures err.Some? ==> err == Some(IsADirectory) && fs.entries == old(fs.entries)
    ensures err.None? ==> fs.entries == old(fs.entries)[path := File(r.content)] && fs.entries[path].content == r.content
  {
    if path in fs.entries && fs.entries[path].Directory? {
      return Some(IsADirectory);
    }
    fs.entries := fs.entries[path := File(r.content)];
    err := None;
  }

  /**
   * The check made before unpacking an archive: the target must exist and be
   * a directory. Unpacking itself is not modelled.
   */
  method ExtractTo(r: ApiResponse, fs: FileSystem, directory: Path) returns (err: Option<Error>)
    requires r.ZipFileResponse?
    ensures err == Some(CannotExtractHere) <==> !(directory in fs.entries && fs.entries[directory].Directory?)
    ensures err.Some? ==> err == Some(CannotExtractHere)
  {
    if !(directory in fs.entries) || !fs.entries[directory].Directory? {
      return Some(CannotExtractHere);
    }
    return None;
  }
}
