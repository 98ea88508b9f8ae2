/**
 * The merge route: PDFs are uploaded under names prefixed with a running
 * counter, so each file's place in the list can be read back from its
 * upload name.
 */
module MergeRoutes {
  import opened Strings
  import opened Errors
  import opened Paths
  import opened BaseRoutes

  const MERGE_ENDPOINT: string := "/forms/pdfengines/merge"

  /** The upload name of a merged file: its number, an underscore, its own name. */
  function MergeKey(index: int, name: string): string
  {
    IntToString(index) + "_" + name
  }

  /** The text before the first underscore. */
  function UpToUnderscore(s: string): (p: string)
    ensures '_' !in p
  {
    if |s| == 0 || s[0] == '_' then "" else [s[0]] + UpToUnderscore(s[1..])
  }

  /** The number of a merged file can be read back from its upload name. */
  lemma {:induction false} UpToUnderscoreOfKey(p: string, x: string)
    requires '_' !in p
    ensures UpToUnderscore(p + "_" + x) == p
  {
    var s := p + "_" + x;
    if |p| == 0 {
      assert s[0] == '_';
    } else {
      assert s[0] == p[0] && s[1..] == p[1..] + "_" + x;
      UpToUnderscoreOfKey(p[1..], x);
      assert [p[0]] + p[1..] == p;
    }
  }

  /** Different numbers give different upload names, whatever the file names. */
  lemma MergeKeysDistinct(a: int, b: int, x: string, y: string)
    requires a != b
    ensures MergeKey(a, x) != MergeKey(b, y)
  {
    if MergeKey(a, x) == MergeKey(b, y) {
      UpToUnderscoreOfKey(IntToString(a), x);
      UpToUnderscoreOfKey(IntToString(b), y);
      IntToStringInjective(a, b);
    }
  }

  /** Strict character-by-character order on texts, the order a plain sort of upload names gives. */
  predicate TextBefore(a: string, b: string)
  {
    |b| > 0 && (|a| == 0 || a[0] < b[0] || (a[0] == b[0] && TextBefore(a[1..], b[1..])))
  }

  /**
   * For counters 1 to 9 the upload names sort in list order, whatever the
   * file names: the single digit in front decides.
   */
  lemma SingleDigitKeysSorted(i: int, j: int, x: string, y: string)
    requires 1 <= i < j <= 9
    ensures TextBefore(MergeKey(i, x), MergeKey(j, y))
    ensures !TextBefore(MergeKey(j, y), MergeKey(i, x))
  {
    assert MergeKey(i, x)[0] == DigitChar(i);
    assert MergeKey(j, y)[0] == DigitChar(j);
  }

  /**
   * From the tenth file on, name order and list order part: the tenth
   * file's name sorts before the second's.
   */
  lemma KeyOrderBreaksAtTen(x: string, y: string)
    ensures TextBefore(MergeKey(10, x), MergeKey(2, y))
    ensures !TextBefore(MergeKey(2, y), MergeKey(10, x))
  {
    assert IntToString(10) == "10";
    assert MergeKey(10, x)[0] == '1';
    assert MergeKey(2, y)[0] == '2';
  }

  /** The naming that uses a file's own name unchanged. */
  function AsIs(name: string): string
  {
    name
  }

  /**
   * The file map after registering `files` in order, numbered from `start`,
   * each under its number and `rename` of its own name.
   */
  function Merged(fileMap: map<string, Path>, start: int, files: seq<Path>, rename: string -> string): map<string, Path>
    decreases |files|
  {
    if files == [] then fileMap
    else Merged(fileMap[MergeKey(start, rename(files[0].name)) := files[0]], start + 1, files[1..], rename)
  }

  /** A merge is the first file stored under `start`, then the rest merged from `start + 1`. */
  lemma MergedCons(fileMap: map<string, Path>, start: int, files: seq<Path>, rename: string -> string)
    requires files != []
    ensures Merged(fileMap, start, files, rename)
      == Merged(fileMap[MergeKey(start, rename(files[0].name)) := files[0]], start + 1, files[1..], rename)
  {
  }

  /** After a merge, the first file is stored under the number `start`. */
  lemma {:induction false} MergedStoresFirst(fileMap: map<string, Path>, start: int, files: seq<Path>, rename: string -> string)
    requires files != []
    ensures var out := Merged(fileMap, start, files, rename);
      MergeKey(start, rename(files[0].name)) in out && out[MergeKey(start, rename(files[0].name))] == files[0]
  {
    var first := MergeKey(start, rename(files[0].name));
    var rest := files[1..];
    LaterKeysDiffer(start, rename(files[0].name), start + 1, rest, rename);
    MergedKeepsOne(fileMap[first := files[0]], start + 1, rest, rename, first);
  }

  /** A key numbered below `start` is none of the keys a merge from `start` writes. */
  lemma LaterKeysDiffer(n: int, name: string, start: int, files: seq<Path>, rename: string -> string)
    requires n < start
    ensures forall j :: 0 <= j < |files| ==> MergeKey(n, name) != MergeKey(start + j, rename(files[j].name))
  {
    forall j | 0 <= j < |files|
      ensures MergeKey(n, name) != MergeKey(start + j, rename(files[j].name))
    {
      MergeKeysDistinct(n, start + j, name, rename(files[j].name));
    }
  }

  /** After a merge, file i is stored under the number `start + i`. */
  lemma {:induction false} MergedStoresEach(fileMap: map<string, Path>, start: int, files: seq<Path>, rename: string -> string)
    ensures var out := Merged(fileMap, start, files, rename);
      forall i :: 0 <= i < |files| ==>
        MergeKey(start + i, rename(files[i].name)) in out && out[MergeKey(start + i, rename(files[i].name))] == files[i]
    decreases |files|
  {
    if files != [] {
      var m1 := fileMap[MergeKey(start, rename(files[0].name)) := files[0]];
      var rest := files[1..];
      MergedStoresEach(m1, start + 1, rest, rename);
      MergedStoresFirst(fileMap, start, files, rename);
      var out := Merged(fileMap, start, files, rename);
      assert out == Merged(m1, start + 1, rest, rename);
      forall i | 1 <= i < |files|
        ensures MergeKey(start + i, rename(files[i].name)) in out && out[MergeKey(start + i, rename(files[i].name))] == files[i]
      {
        assert files[i] == rest[i - 1];
        assert MergeKey(start + i, rename(files[i].name)) == MergeKey(start + 1 + (i - 1), rename(rest[i - 1].name));
      }
    }
  }

  /** One old entry whose key is none of the new ones keeps its file. */
  lemma {:induction false} MergedKeepsOne(fileMap: map<string, Path>, start: int, files: seq<Path>,
                                          rename: string -> string, k: string)
    requires k in fileMap
    requires forall i :: 0 <= i < |files| ==> k != MergeKey(start + i, rename(files[i].name))
    ensures k in Merged(fileMap, start, files, rename) && Merged(fileMap, start, files, rename)[k] == fileMap[k]
    decreases |files|
  {
    if files != [] {
      var m1 := fileMap[MergeKey(start, rename(files[0].name)) := files[0]];
      var rest := files[1..];
      assert k != MergeKey(start + 0, rename(files[0].name));
      forall j | 0 <= j < |rest|
        ensures k != MergeKey(start + 1 + j, rename(rest[j].name))
      {
        assert rest[j] == files[j + 1] && start + 1 + j == start + (j + 1);
      }
      MergedKeepsOne(m1, start + 1, rest, rename, k);
    }
  }

  /** Every old entry whose key is none of the new ones keeps its file. */
  lemma MergedKeeps(fileMap: map<string, Path>, start: int, files: seq<Path>, rename: string -> string)
    ensures var out := Merged(fileMap, start, files, rename);
      forall k :: k in fileMap && (forall i :: 0 <= i < |files| ==> k != MergeKey(start + i, rename(files[i].name))) ==>
        k in out && out[k] == fileMap[k]
  {
    forall k | k in fileMap && (forall i :: 0 <= i < |files| ==> k != MergeKey(start + i, rename(files[i].name)))
      ensures k in Merged(fileMap, start, files, rename) && Merged(fileMap, start, files, rename)[k] == fileMap[k]
    {
      MergedKeepsOne(fileMap, start, files, rename, k);
    }
  }

  /** The upload names a merge of `files` numbered from `start` adds. */
  function NewKeys(start: int, files: seq<Path>, rename: string -> string): set<string>
    decreases |files|
  {
    if files == [] then {} else {MergeKey(start, rename(files[0].name))} + NewKeys(start + 1, files[1..], rename)
  }

  /** Each added name carries the number of one of the files. */
  lemma {:induction false} NewKeysMembers(start: int, files: seq<Path>, rename: string -> string)
    ensures forall k :: k in NewKeys(start, files, rename) ==>
      exists i :: 0 <= i < |files| && k == MergeKey(start + i, rename(files[i].name))
    decreases |files|
  {
    if files != [] {
      var rest := files[1..];
      var later := start + 1;
      NewKeysMembers(later, rest, rename);
      forall k | k in NewKeys(later, rest, rename)
        ensures exists i :: 0 <= i < |files| && k == MergeKey(start + i, rename(files[i].name))
      {
        var j :| 0 <= j < |rest| && k == MergeKey(later + j, rename(rest[j].name));
        assert files[j + 1] == rest[j] && start + (j + 1) == later + j;
      }
      assert MergeKey(start, rename(files[0].name)) == MergeKey(start + 0, rename(files[0].name));
    }
  }

  /** A name numbered below `start` is not among the names a merge from `start` adds. */
  lemma {:induction false} NewKeysAbove(start: int, files: seq<Path>, rename: string -> string, a: int, x: string)
    requires a < start
    ensures MergeKey(a, x) !in NewKeys(start, files, rename)
    decreases |files|
  {
    if files != [] {
      MergeKeysDistinct(a, start, x, rename(files[0].name));
      NewKeysAbove(start + 1, files[1..], rename, a, x);
    }
  }

  /**
   * The names added by one merge are pairwise distinct, even when file names
   * repeat: a merge of n files adds n names.
   */
  lemma {:induction false} NewKeysCount(start: int, files: seq<Path>, rename: string -> string)
    ensures |NewKeys(start, files, rename)| == |files|
    decreases |files|
  {
    if files != [] {
      var first := MergeKey(start, rename(files[0].name));
      var later := NewKeys(start + 1, files[1..], rename);
      NewKeysCount(start + 1, files[1..], rename);
      NewKeysAbove(start + 1, files[1..], rename, start, rename(files[0].name));
      assert NewKeys(start, files, rename) == {first} + later;
      assert first !in later;
    }
  }

  /** A merge adds exactly the numbered names to the old keys. */
  lemma {:induction false} MergedKeys(fileMap: map<string, Path>, start: int, files: seq<Path>, rename: string -> string)
    ensures Merged(fileMap, start, files, rename).Keys == fileMap.Keys + NewKeys(start, files, rename)
    decreases |files|
  {
    if files != [] {
      MergedKeys(fileMap[MergeKey(start, rename(files[0].name)) := files[0]], start + 1, files[1..], rename);
    }
  }

  /**
   * Registers each file under `<counter>_<file name>` in list order, the
   * counter advancing once per file; nothing but the file map and the counter
   * changes.
   */
  method Merge(r: Route, files: seq<Path>)
    modifies r`fileMap, r`next
    ensures r.fileMap == Merged(old(r.fileMap), old(r.next), files, AsIs)
    ensures r.next == old(r.next) + |files|
  {
    for i := 0 to |files|
      invariant r.next == old(r.next) + i
      invariant Merged(old(r.fileMap), old(r.next), files, AsIs) == Merged(r.fileMap, r.next, files[i..], AsIs)
    {
      assert files[i..][0] == files[i] && files[i..][1..] == files[i + 1..];
      var _ := r.AddFileMap(files[i], Some(IntToString(r.next) + "_" + files[i].name));
      r.next := r.next + 1;
    }
    assert files[|files|..] == [];
  }
}
