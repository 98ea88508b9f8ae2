/** File-system paths and an in-memory file system of byte files and directories. */
module Paths {
  import opened Http

  /** A path, split into its directory part and its final component. */
  datatype Path = Path(parent: string, name: string)

  /** Index of the last occurrence of `c` in `s`, or -1. */
  function RFind(s: string, c: char): (i: int)
    ensures -1 <= i < |s|
    ensures i >= 0 ==> s[i] == c
    ensures forall j :: i < j < |s| ==> s[j] != c
  {
    if |s| == 0 then -1
    else if s[|s| - 1] == c then |s| - 1
    else RFind(s[..|s| - 1], c)
  }

  /**
   * The final extension of a file name: from its last dot to the end, unless
   * that dot is the first or the last character, in which case it is empty.
   */
  function Suffix(name: string): (s: string)
    ensures s == "" || (|s| >= 2 && s[0] == '.' && '.' !in s[1..] && |s| < |name| && s == name[|name| - |s|..])
    ensures '.' !in name ==> s == ""
  {
    var i := RFind(name, '.');
    if 0 < i < |name| - 1 then name[i..] else ""
  }

  datatype Entry = File(content: Bytes) | Directory

  /** The file system as a map from paths to what is stored there. */
  class FileSystem {
    var entries: map<Path, Entry>

    constructor(entries: map<Path, Entry>)
      ensures this.entries == entries
    {
      this.entries := entries;
    }
  }
}
