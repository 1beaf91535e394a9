/**
 * `getJsPath`, which the Kafka, composable and demo workers each use to find
 * the JavaScript file a Worker must be started with: Windows separators
 * become `/`, and a TypeScript file under `/src/` maps to its compiled `.js`
 * counterpart under `/dist/`.
 */
module Paths {
  import opened JsString

  const SrcFolder: string := "/src/"

  /** A path whose `.ts` file under `/src/` is swapped for the `.js` file under `/dist/`. */
  predicate Rewritten(p: string) {
    EndsWith(p, ".ts") && LastIndexOf(p, SrcFolder) > 0
  }

  /** The last `/src/` of a path that ends in `.ts` ends before the extension starts. */
  lemma SrcBeforeExtension(p: string, sep: int)
    requires EndsWith(p, ".ts") && OccursAt(p, SrcFolder, sep)
    ensures sep + |SrcFolder| + 3 <= |p|
  {
    var n := |p|;
    assert p[n - 1] == 's' && p[n - 2] == 't' && p[n - 3] == '.' by {
      assert p[n - 3..] == ".ts";
    }
    assert p[sep + 4] == '/' by {
      assert p[sep..sep + 5] == SrcFolder;
    }
  }

  /** The Windows adjustment: backslashes become slashes, and a path without any is kept as it is. */
  function ForwardSlashes(currentFilePath: string): (r: string)
    ensures r == ReplaceChar(currentFilePath, '\\', '/')
    ensures '\\' !in r
  {
    if Includes(currentFilePath, "\\") then
      NoBackslashLeft(currentFilePath);
      ReplaceChar(currentFilePath, '\\', '/')
    else
      assert forall k :: 0 <= k < |currentFilePath| ==> !OccursAt(currentFilePath, "\\", k);
      assert forall k :: 0 <= k < |currentFilePath| ==> currentFilePath[k] != '\\' by {
        forall k | 0 <= k < |currentFilePath|
          ensures currentFilePath[k] != '\\'
        {
          assert !OccursAt(currentFilePath, "\\", k);
          assert currentFilePath[k..k + 1] == [currentFilePath[k]];
        }
      }
      currentFilePath
  }

  lemma NoBackslashLeft(s: string)
    ensures '\\' !in ReplaceChar(s, '\\', '/')
  {
    var r := ReplaceChar(s, '\\', '/');
    forall k | 0 <= k < |r|
      ensures r[k] != '\\'
    {
    }
  }

  /** The `.ts` to `.js` rewrite of a path with a `/src/` folder at index `sep > 0`. */
  function DistPath(filePath: string, sep: int): (r: string)
    requires EndsWith(filePath, ".ts") && OccursAt(filePath, SrcFolder, sep)
    ensures sep + 8 <= |filePath|
    ensures r == filePath[..sep] + "/dist/" + filePath[sep + 5..|filePath| - 3] + ".js"
    ensures '\\' !in filePath ==> '\\' !in r
  {
    SrcBeforeExtension(filePath, sep);
    assert '\\' !in filePath ==>
      '\\' !in filePath[..sep] && '\\' !in filePath[sep + 5..|filePath| - 3] && '\\' !in "/dist/" + ".js";
    var updated := Substring(filePath, 0, sep) + "/dist/" + Substring(filePath, sep + |SrcFolder|, |filePath|);
    assert updated[..|updated| - 3] == filePath[..sep] + "/dist/" + filePath[sep + 5..|filePath| - 3];
    Substring(updated, 0, |updated| - 3) + ".js"
  }

  function GetJsPath(currentFilePath: string): (r: string)
    ensures '\\' !in r
    ensures !Rewritten(ForwardSlashes(currentFilePath)) ==> r == ForwardSlashes(currentFilePath)
    ensures Rewritten(ForwardSlashes(currentFilePath)) ==>
      r == DistPath(ForwardSlashes(currentFilePath), LastIndexOf(ForwardSlashes(currentFilePath), SrcFolder))
  {
    var filePath := ForwardSlashes(currentFilePath);
    if EndsWith(filePath, ".ts") then
      var sep := LastIndexOf(filePath, SrcFolder);
      if sep > 0 then DistPath(filePath, sep) else filePath
    else filePath
  }

  /** A path that is rewritten ends in `.js`, so a second rewrite cannot apply. */
  lemma GetJsPathEndsInJs(currentFilePath: string)
    requires Rewritten(ForwardSlashes(currentFilePath))
    ensures EndsWith(GetJsPath(currentFilePath), ".js")
  {
    var r := GetJsPath(currentFilePath);
    assert r[|r| - 3..] == ".js";
  }

  /** `getJsPath` is idempotent: the path it returns is already the one a Worker loads. */
  lemma GetJsPathIdempotent(currentFilePath: string)
    ensures GetJsPath(GetJsPath(currentFilePath)) == GetJsPath(currentFilePath)
  {
    var r := GetJsPath(currentFilePath);
    assert ReplaceChar(r, '\\', '/') == r;
    if Rewritten(ForwardSlashes(currentFilePath)) {
      GetJsPathEndsInJs(currentFilePath);
      assert r[|r| - 3..] == ".js";
      assert !EndsWith(r, ".ts");
    }
  }

  /**
   * `getCurrentFolder()` of the generators, on the folder the module was
   * loaded from: the Windows adjustment, then a drive letter (a `:` at
   * index 1) is dropped together with its colon.
   */
  function GetCurrentFolder(folder: string): (r: string)
    ensures '\\' !in r
    ensures IndexOf(ForwardSlashes(folder), ":") == 1 ==> ForwardSlashes(folder) == ForwardSlashes(folder)[..2] + r
    ensures IndexOf(ForwardSlashes(folder), ":") != 1 ==> r == ForwardSlashes(folder)
  {
    var path := ForwardSlashes(folder);
    if IndexOf(path, ":") == 1 then
      assert path[2..] == Substring(path, 2, |path|);
      assert '\\' !in path[2..] by {
        forall k | 0 <= k < |path| - 2
          ensures path[2..][k] != '\\'
        {
          assert path[2..][k] == path[k + 2];
        }
      }
      Substring(path, 2, |path|)
    else path
  }

  /** A Windows folder `d:\rest` becomes `rest` with forward slashes. */
  lemma DriveLetterDropped(d: char, rest: string)
    requires d != ':' && d != '\\'
    ensures GetCurrentFolder([d, ':'] + rest) == ForwardSlashes(rest)
  {
    var folder := [d, ':'] + rest;
    var path := ForwardSlashes(folder);
    assert path == [d, ':'] + ForwardSlashes(rest) by {
      assert |path| == |folder|;
      forall k | 0 <= k < |path|
        ensures path[k] == ([d, ':'] + ForwardSlashes(rest))[k]
      {
        if k >= 2 {
          assert folder[k] == rest[k - 2];
        }
      }
    }
    assert !OccursAt(path, ":", 0) by {
      assert path[0..1] == [d];
    }
    assert OccursAt(path, ":", 1) by {
      assert path[1..2] == [':'];
    }
    assert IndexOf(path, ":") == 1;
    assert path[2..] == ForwardSlashes(rest);
  }

  /** A POSIX folder, with no colon at index 1, is returned as it is. */
  lemma PosixFolderKept(folder: string)
    requires '\\' !in folder && (|folder| < 2 || folder[1] != ':')
    ensures GetCurrentFolder(folder) == folder
  {
    assert ReplaceChar(folder, '\\', '/') == folder;
    if |folder| >= 2 {
      assert folder[1..2] == [folder[1]];
    }
  }
}
