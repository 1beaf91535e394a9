/**
 * The post-processing step of preloader.js: when several import lines of
 * the generated file name the same scanned package, they are merged into
 * one that lists every imported name, the others are deleted, and the text
 * is formatted like the placeholder output. The line array is worked on in
 * place; a deleted entry is `None` (`undefined` in JavaScript).
 */
module ImportMerge {
  import opened Wrappers
  import opened JsString
  import opened Dict
  import opened Templates

  /** What Node.js throws when a deleted line is read again. */
  const UndefinedLine: string := "Cannot read properties of undefined (reading 'indexOf')"

  /** A line that `findMultipleImport` counts as an import from `pkg`. */
  predicate IsImportOf(line: string, pkg: string) {
    StartsWith(Trim(line), "import {") && EndsWith(Trim(line), "'" + pkg + "';")
  }

  /** The indices of the import lines of `pkg`, in order. */
  function ImportIndices(lines: seq<string>, pkg: string): seq<nat> {
    if lines == [] then []
    else ImportIndices(lines[..|lines| - 1], pkg) + (if IsImportOf(lines[|lines| - 1], pkg) then [|lines| - 1] else [])
  }

  /** Every index `ImportIndices` lists is a line of the text that imports from `pkg`. */
  lemma {:induction false} ImportIndicesSound(lines: seq<string>, pkg: string)
    ensures forall k :: 0 <= k < |ImportIndices(lines, pkg)| ==>
      ImportIndices(lines, pkg)[k] < |lines| && IsImportOf(lines[ImportIndices(lines, pkg)[k]], pkg)
  {
    if lines != [] {
      var init := lines[..|lines| - 1];
      ImportIndicesSound(init, pkg);
      var r := ImportIndices(lines, pkg);
      forall k | 0 <= k < |r|
        ensures r[k] < |lines| && IsImportOf(lines[r[k]], pkg)
      {
        if k < |ImportIndices(init, pkg)| {
          assert r[k] == ImportIndices(init, pkg)[k];
          assert lines[r[k]] == init[r[k]];
        }
      }
    }
  }

  /** The indices `ImportIndices` lists are strictly ascending. */
  lemma {:induction false} ImportIndicesAscending(lines: seq<string>, pkg: string)
    ensures forall a, b :: 0 <= a < b < |ImportIndices(lines, pkg)| ==> ImportIndices(lines, pkg)[a] < ImportIndices(lines, pkg)[b]
    ensures forall k :: 0 <= k < |ImportIndices(lines, pkg)| ==> ImportIndices(lines, pkg)[k] < |lines|
  {
    if lines != [] {
      ImportIndicesAscending(lines[..|lines| - 1], pkg);
    }
  }

  /** Every import line of `pkg` is listed by `ImportIndices`. */
  lemma {:induction false} ImportIndicesComplete(lines: seq<string>, pkg: string, n: nat)
    requires n < |lines| && IsImportOf(lines[n], pkg)
    ensures n in ImportIndices(lines, pkg)
  {
    if n < |lines| - 1 {
      var init := lines[..|lines| - 1];
      assert init[n] == lines[n];
      ImportIndicesComplete(init, pkg, n);
    }
  }

  /** `findMultipleImport(packageName, lines)`. */
  method FindMultipleImport(pkg: string, lines: seq<string>) returns (result: seq<nat>)
    ensures result == ImportIndices(lines, pkg)
  {
    result := [];
    for n := 0 to |lines|
      invariant result == ImportIndices(lines[..n], pkg)
    {
      assert lines[..n + 1][..n] == lines[..n];
      var text := Trim(lines[n]);
      if StartsWith(text, "import {") && EndsWith(text, "'" + pkg + "';") {
        result := result + [n];
      }
    }
    assert lines[..|lines|] == lines;
  }

  /** Every index in `idx` is a position of `ls`. */
  predicate InRange<T>(ls: seq<T>, idx: seq<nat>) {
    forall k :: 0 <= k < |idx| ==> idx[k] < |ls|
  }

  /** No line at an index in `idx` has been deleted. */
  predicate Present(ls: seq<Option<string>>, idx: seq<nat>)
    requires InRange(ls, idx)
  {
    forall k :: 0 <= k < |idx| ==> ls[idx[k]].Some?
  }

  /** The first index of the character `c` in `s`, or -1. */
  function CharIndex(s: string, c: char): (r: int)
    ensures -1 <= r < |s|
    ensures r >= 0 ==> s[r] == c
    ensures forall j :: 0 <= j < |s| && (r < 0 || j < r) ==> s[j] != c
  {
    if s == [] then -1
    else if s[0] == c then 0
    else var i := CharIndex(s[1..], c); if i < 0 then -1 else i + 1
  }

  /** `s.indexOf(c)` for a one-character `c` is the first index of that character. */
  lemma IndexOfChar(s: string, c: char)
    ensures IndexOf(s, [c]) == CharIndex(s, c)
  {
    forall j | 0 <= j
      ensures OccursAt(s, [c], j) <==> j < |s| && s[j] == c
    {
      if j < |s| {
        assert s[j..j + 1] == [s[j]];
      }
    }
  }

  /** The names between the braces of an import line: `util.split(line.substring(start + 1, end), ', ')`. */
  function NamesOf(line: string): seq<string> {
    Split(Substring(line, CharIndex(line, '{') + 1, CharIndex(line, '}')), ", ")
  }

  /** The names of the first `n` import lines at `idx` that are still there, in order. */
  function NamesAt(ls: seq<Option<string>>, idx: seq<nat>, n: nat): seq<string>
    requires n <= |idx|
  {
    if n == 0 then []
    else
      var i := idx[n - 1];
      NamesAt(ls, idx, n - 1) + (if i < |ls| && ls[i].Some? then NamesOf(ls[i].value) else [])
  }

  /** Each name followed by `, `. */
  function Listed(names: seq<string>): string {
    if names == [] then "" else Listed(names[..|names| - 1]) + names[|names| - 1] + ", "
  }

  /** The merged import line: the `sb` of the names with its last two characters dropped. */
  function ConsolidatedLine(names: seq<string>, pkg: string): string {
    var sb := "import { " + Listed(names);
    Substring(sb, 0, |sb| - 2) + " } from '" + pkg + "';"
  }

  /** The lines with the entries at `idx` deleted. */
  function Deleted(ls: seq<Option<string>>, idx: seq<nat>): (r: seq<Option<string>>)
    requires InRange(ls, idx)
    ensures |r| == |ls|
  {
    if idx == [] then ls else Deleted(ls, idx[..|idx| - 1])[idx[|idx| - 1] := None]
  }

  /** `consolidateImportStatements` on lines whose indexed entries are all present. */
  function Consolidate(ls: seq<Option<string>>, pkg: string, idx: seq<nat>): (r: seq<Option<string>>)
    requires |idx| >= 1 && InRange(ls, idx) && Present(ls, idx)
    ensures |r| == |ls|
  {
    Deleted(ls[idx[0] := Some(ConsolidatedLine(NamesAt(ls, idx, |idx|), pkg))], idx[1..])
  }

  lemma {:induction false} ListedAsJoin(names: seq<string>)
    requires names != []
    ensures Listed(names) == Join(names, ", ") + ", "
  {
    if |names| > 1 {
      var init := names[..|names| - 1];
      ListedAsJoin(init);
      assert Listed(names) == Join(init, ", ") + ", " + names[|names| - 1] + ", ";
    } else {
      assert names[..0] == [];
    }
  }

  /** The merged line lists all the names, in order, separated by `, `, from the package. */
  lemma ConsolidatedLineLists(names: seq<string>, pkg: string)
    requires names != []
    ensures ConsolidatedLine(names, pkg) == "import { " + Join(names, ", ") + " } from '" + pkg + "';"
  {
    ListedAsJoin(names);
    var sb := "import { " + Listed(names);
    assert sb == ("import { " + Join(names, ", ")) + ", ";
    assert Substring(sb, 0, |sb| - 2) == "import { " + Join(names, ", ");
  }

  /** Deleting entries removes exactly the indexed ones and leaves every other line as it is. */
  lemma {:induction false} DeletedShape(ls: seq<Option<string>>, idx: seq<nat>)
    requires InRange(ls, idx)
    ensures forall n :: 0 <= n < |ls| && n in idx ==> Deleted(ls, idx)[n].None?
    ensures forall n :: 0 <= n < |ls| && n !in idx ==> Deleted(ls, idx)[n] == ls[n]
  {
    if idx != [] {
      var init := idx[..|idx| - 1];
      DeletedShape(ls, init);
      assert forall n :: n in idx <==> n in init || n == idx[|idx| - 1];
    }
  }

  /**
   * After merging, the first import line of the package holds the merged
   * line, the later ones are deleted, and every other line is unchanged.
   */
  lemma ConsolidateShape(ls: seq<Option<string>>, pkg: string, idx: seq<nat>)
    requires |idx| >= 1 && InRange(ls, idx) && Present(ls, idx)
    requires forall a, b :: 0 <= a < b < |idx| ==> idx[a] < idx[b]
    ensures var r := Consolidate(ls, pkg, idx);
      && r[idx[0]] == Some(ConsolidatedLine(NamesAt(ls, idx, |idx|), pkg))
      && (forall k :: 1 <= k < |idx| ==> r[idx[k]].None?)
      && (forall n :: 0 <= n < |ls| && n !in idx ==> r[n] == ls[n])
  {
    var first := ls[idx[0] := Some(ConsolidatedLine(NamesAt(ls, idx, |idx|), pkg))];
    DeletedShape(first, idx[1..]);
    TailFacts(idx);
  }

  /** The indices after the first of a strictly increasing `idx`. */
  lemma TailFacts(idx: seq<nat>)
    requires |idx| >= 1
    requires forall a, b :: 0 <= a < b < |idx| ==> idx[a] < idx[b]
    ensures idx[0] !in idx[1..]
    ensures forall k :: 1 <= k < |idx| ==> idx[k] in idx[1..]
    ensures forall n :: n in idx[1..] ==> n in idx
  {
    var tail := idx[1..];
    assert forall k :: 0 <= k < |tail| ==> tail[k] == idx[k + 1];
    forall k | 1 <= k < |idx|
      ensures idx[k] in tail
    {
      assert tail[k - 1] == idx[k];
    }
  }

  /** The first loop of `consolidateImportStatements`: the names of the indexed import lines, or `false` where one was deleted. */
  method ImportedNames(lines: seq<Option<string>>, indexes: seq<nat>) returns (present: bool, clsList: seq<string>)
    requires InRange(lines, indexes)
    ensures present == Present(lines, indexes)
    ensures present ==> clsList == NamesAt(lines, indexes, |indexes|)
  {
    clsList := [];
    for n := 0 to |indexes|
      invariant forall k :: 0 <= k < n ==> lines[indexes[k]].Some?
      invariant clsList == NamesAt(lines, indexes, n)
    {
      var line := lines[indexes[n]];
      if line.None? {
        assert !Present(lines, indexes);
        return false, clsList;
      }
      assert forall k :: 0 <= k < n + 1 ==> lines[indexes[k]].Some?;
      clsList := AddNames(clsList, lines, indexes, n);
    }
    present := true;
  }

  /** One round of the first loop: the names between the braces of the line at `idx[n]`, pushed one by one. */
  method AddNames(clsList: seq<string>, lines: seq<Option<string>>, idx: seq<nat>, n: nat) returns (r: seq<string>)
    requires n < |idx| && InRange(lines, idx) && lines[idx[n]].Some?
    requires clsList == NamesAt(lines, idx, n)
    ensures r == NamesAt(lines, idx, n + 1)
  {
    var line := lines[idx[n]].value;
    var start := IndexOf(line, "{");
    var end := IndexOf(line, "}");
    IndexOfChar(line, '{');
    IndexOfChar(line, '}');
    var items := Split(Substring(line, start + 1, end), ", ");
    r := Appended(clsList, items);
  }

  /** `for (const item of items) clsList.push(item)`. */
  method Appended(xs: seq<string>, items: seq<string>) returns (r: seq<string>)
    ensures r == xs + items
  {
    r := xs;
    for m := 0 to |items|
      invariant r == xs + items[..m]
    {
      assert items[..m + 1] == items[..m] + [items[m]];
      r := r + [items[m]];
    }
    assert items[..|items|] == items;
  }

  /** The second loop of `consolidateImportStatements`: each name followed by `, `. */
  method ListNames(clsList: seq<string>) returns (sb: string)
    ensures sb == "import { " + Listed(clsList)
  {
    sb := "import { ";
    for n := 0 to |clsList|
      invariant sb == "import { " + Listed(clsList[..n])
    {
      assert clsList[..n + 1][..n] == clsList[..n];
      sb := sb + clsList[n] + ", ";
    }
    assert clsList[..|clsList|] == clsList;
  }

  /** The last loop of `consolidateImportStatements`: `delete lines[indexes[i]]`. */
  method DeleteLines(lines: array<Option<string>>, idx: seq<nat>)
    requires InRange(lines[..], idx)
    modifies lines
    ensures lines[..] == Deleted(old(lines[..]), idx)
  {
    for n := 0 to |idx|
      invariant lines[..] == Deleted(old(lines[..]), idx[..n])
    {
      assert idx[..n + 1][..n] == idx[..n];
      lines[idx[n]] := None;
    }
    assert idx[..|idx|] == idx;
  }

  /** `consolidateImportStatements(lines, packageName, indexes)`, in place; `false` where it would throw. */
  method ConsolidateImportStatements(lines: array<Option<string>>, pkg: string, indexes: seq<nat>) returns (ok: bool)
    requires |indexes| >= 1 && InRange(lines[..], indexes)
    modifies lines
    ensures ok == Present(old(lines[..]), indexes)
    ensures ok ==> lines[..] == Consolidate(old(lines[..]), pkg, indexes)
    ensures !ok ==> lines[..] == old(lines[..])
  {
    var present, clsList := ImportedNames(lines[..], indexes);
    if !present {
      return false;
    }
    var sb := ListNames(clsList);
    var consolidated := Substring(sb, 0, |sb| - 2) + " } from '" + pkg + "';";
    assert consolidated == ConsolidatedLine(NamesAt(lines[..], indexes, |indexes|), pkg);
    lines[indexes[0]] := Some(consolidated);
    DeleteLines(lines, indexes[1..]);
    ok := true;
  }

  /** Valid index lists: more than one index, all in range. */
  predicate Frequent(idx: seq<nat>, n: nat) {
    |idx| > 1 && forall k :: 0 <= k < |idx| ==> idx[k] < n
  }

  /** Every package of the map has more than one import line, all within a text of `len` lines. */
  predicate Indexed(pm: Dict<seq<nat>>, len: nat) {
    forall k :: k in pm.vals ==> Frequent(pm.vals[k], len)
  }

  /** The `packageMap`: each listed package with more than one import line, and where they are. */
  function PackageMap(lines: seq<string>, pkgs: seq<string>): (d: Dict<seq<nat>>)
    ensures Indexed(d, |lines|)
  {
    if pkgs == [] then Empty()
    else
      var d := PackageMap(lines, pkgs[..|pkgs| - 1]);
      var p := pkgs[|pkgs| - 1];
      var idx := ImportIndices(lines, p);
      ImportIndicesAscending(lines, p);
      if |idx| > 1 then Put(d, p, idx) else d
  }

  /** The package map records, for each of its packages, the indices of that package's import lines. */
  lemma {:induction false} PackageMapRecords(lines: seq<string>, pkgs: seq<string>, p: string)
    requires p in PackageMap(lines, pkgs).vals
    ensures PackageMap(lines, pkgs).vals[p] == ImportIndices(lines, p)
  {
    var init := pkgs[..|pkgs| - 1];
    if p != pkgs[|pkgs| - 1] || |ImportIndices(lines, p)| <= 1 {
      PackageMapRecords(lines, init, p);
    }
  }

  /** The package map holds exactly the listed packages with more than one import line. */
  lemma {:induction false} PackageMapKeys(lines: seq<string>, pkgs: seq<string>, p: string)
    ensures p in PackageMap(lines, pkgs).vals <==> p in pkgs && |ImportIndices(lines, p)| > 1
  {
    if pkgs != [] {
      PackageMapKeys(lines, pkgs[..|pkgs| - 1], p);
      assert p in pkgs <==> p in pkgs[..|pkgs| - 1] || p == pkgs[|pkgs| - 1];
    }
  }

  /** The merges of the first `n` packages of the map, in order; `None` once a merge reads a deleted line and throws. */
  function ConsolidateAll(ls: seq<Option<string>>, pm: Dict<seq<nat>>, n: nat): (r: Option<seq<Option<string>>>)
    requires Indexed(pm, |ls|) && n <= |pm.keys|
    ensures r.Some? ==> |r.value| == |ls|
  {
    if n == 0 then Some(ls)
    else
      var prev := ConsolidateAll(ls, pm, n - 1);
      if prev.None? then None
      else
        var key := pm.keys[n - 1];
        KeysHaveValues(pm, n - 1);
        var idx := pm.vals[key];
        if Present(prev.value, idx) then Some(Consolidate(prev.value, key, idx)) else None
  }

  /** The lines that are still there, in order. */
  function PresentLines(ls: seq<Option<string>>): seq<string> {
    if ls == [] then []
    else PresentLines(ls[..|ls| - 1]) + (if ls[|ls| - 1].Some? then [ls[|ls| - 1].value] else [])
  }

  /** Every line of a text, none deleted. */
  function AllPresent(lines: seq<string>): (r: seq<Option<string>>)
    ensures |r| == |lines|
  {
    seq(|lines|, i requires 0 <= i < |lines| => Some(lines[i]))
  }

  /** The packages of the `web.component.scan` property, if it is set. */
  function PackageList(packages: Option<string>): seq<string> {
    if packages.Some? && packages.value != "" then Split(packages.value, ", ") else []
  }

  /** `mergeImportStatements(content)` with the `web.component.scan` property. */
  function Merge(content: string, packages: Option<string>): (r: Result<string, string>)
    ensures r.Failure? ==> r.error == UndefinedLine
  {
    var lines := Split(content, "\r\n");
    var pm := PackageMap(lines, PackageList(packages));
    var merged := ConsolidateAll(AllPresent(lines), pm, |pm.keys|);
    if merged.None? then Failure(UndefinedLine)
    else Success(Finish(Formatted(PresentLines(merged.value))))
  }

  /** One more package merged, from lines where its import lines are all still there. */
  lemma ConsolidateAllStep(ls: seq<Option<string>>, pm: Dict<seq<nat>>, n: nat, prev: seq<Option<string>>)
    requires Indexed(pm, |ls|) && n < |pm.keys| && pm.keys[n] in pm.vals
    requires ConsolidateAll(ls, pm, n) == Some(prev) && Present(prev, pm.vals[pm.keys[n]])
    ensures ConsolidateAll(ls, pm, n + 1) == Some(Consolidate(prev, pm.keys[n], pm.vals[pm.keys[n]]))
  {
  }

  /** Once a merge has thrown, the later packages are not merged. */
  lemma {:induction false} ConsolidateAllFails(ls: seq<Option<string>>, pm: Dict<seq<nat>>, n: nat)
    requires Thrown(ls, pm, n)
    ensures Thrown(ls, pm, |pm.keys|)
    decreases |pm.keys| - n
  {
    if n < |pm.keys| {
      ConsolidateAllThrown(ls, pm, n);
      ConsolidateAllFails(ls, pm, n + 1);
    }
  }

  /** The merges of the first `n` packages have thrown. */
  predicate Thrown(ls: seq<Option<string>>, pm: Dict<seq<nat>>, n: nat) {
    Indexed(pm, |ls|) && n <= |pm.keys| && ConsolidateAll(ls, pm, n).None?
  }

  /** A merge that has thrown stays thrown for one more package. */
  lemma ConsolidateAllThrown(ls: seq<Option<string>>, pm: Dict<seq<nat>>, n: nat)
    requires Thrown(ls, pm, n) && n < |pm.keys|
    ensures Thrown(ls, pm, n + 1)
  {
  }

  /** The first loop of `mergeImportStatements`: the packages imported more than once. */
  method CollectPackages(lines: seq<string>, pkgs: seq<string>) returns (packageMap: Dict<seq<nat>>)
    ensures packageMap == PackageMap(lines, pkgs)
  {
    packageMap := Empty();
    for n := 0 to |pkgs|
      invariant packageMap == PackageMap(lines, pkgs[..n])
    {
      assert pkgs[..n + 1][..n] == pkgs[..n];
      var frequency := FindMultipleImport(pkgs[n], lines);
      if |frequency| > 1 {
        packageMap := Put(packageMap, pkgs[n], frequency);
      }
    }
    assert pkgs[..|pkgs|] == pkgs;
  }

  /** One round of the second loop of `mergeImportStatements`: the next package merged in place. */
  method MergeNext(arr: array<Option<string>>, pm: Dict<seq<nat>>, n: nat, ghost start: seq<Option<string>>) returns (ok: bool)
    requires Indexed(pm, |start|) && n < |pm.keys| && ConsolidateAll(start, pm, n) == Some(arr[..])
    modifies arr
    ensures ConsolidateAll(start, pm, n + 1) == if ok then Some(arr[..]) else None
  {
    var k := pm.keys[n];
    KeysHaveValues(pm, n);
    ghost var prev := arr[..];
    ok := ConsolidateImportStatements(arr, k, pm.vals[k]);
    if ok {
      ConsolidateAllStep(start, pm, n, prev);
    }
  }

  /** The second loop of `mergeImportStatements`: each package merged in turn, in place. */
  method ConsolidatePackages(arr: array<Option<string>>, pm: Dict<seq<nat>>) returns (ok: bool)
    requires Indexed(pm, arr.Length)
    modifies arr
    ensures ConsolidateAll(old(arr[..]), pm, |pm.keys|) == if ok then Some(arr[..]) else None
  {
    ghost var start := arr[..];
    for n := 0 to |pm.keys|
      invariant ConsolidateAll(start, pm, n) == Some(arr[..])
    {
      ok := MergeNext(arr, pm, n, start);
      if !ok {
        ConsolidateAllFails(start, pm, n + 1);
        return false;
      }
    }
    ok := true;
  }

  /** One more formatted line at the end of the text. */
  lemma FormattedAppend(a: seq<string>, x: string)
    ensures Formatted(a + [x]) == Formatted(a) + FormatLine(x)
  {
    assert (a + [x])[..|a|] == a;
  }

  /** One more entry of the line array: the line if it is still there, nothing if it was deleted. */
  lemma PresentLinesStep(ls: seq<Option<string>>, n: nat)
    requires n < |ls|
    ensures PresentLines(ls[..n + 1]) == PresentLines(ls[..n]) + if ls[n].Some? then [ls[n].value] else []
  {
    assert ls[..n + 1][..n] == ls[..n];
  }

  lemma FormatNext(a: seq<string>, b: seq<string>, x: Option<string>, result: string)
    requires b == a + (if x.Some? then [x.value] else []) && result == Formatted(a)
    ensures Formatted(b) == if x.Some? then result + FormatLine(x.value) else result
  {
    if x.Some? {
      FormattedAppend(a, x.value);
    } else {
      assert b == a;
    }
  }

  /** One more entry of the line array: its formatted line if it is still there, nothing if it was deleted. */
  lemma FormatStep(ls: seq<Option<string>>, n: nat, result: string)
    requires n < |ls| && result == Formatted(PresentLines(ls[..n]))
    ensures Formatted(PresentLines(ls[..n + 1])) == if ls[n].Some? then result + FormatLine(ls[n].value) else result
  {
    PresentLinesStep(ls, n);
    FormatNext(PresentLines(ls[..n]), PresentLines(ls[..n + 1]), ls[n], result);
  }

  /** The last loop of `mergeImportStatements`: the formatted lines that are still there, the deleted ones skipped. */
  method FormatPresent(arr: array<Option<string>>) returns (result: string)
    ensures result == Formatted(PresentLines(arr[..]))
  {
    result := "";
    for n := 0 to arr.Length
      invariant result == Formatted(PresentLines(arr[..n]))
    {
      FormatStep(arr[..], n, result);
      assert arr[..][..n] == arr[..n] && arr[..][..n + 1] == arr[..n + 1];
      if arr[n].Some? {
        result := result + FormatLine(arr[n].value);
      }
    }
    assert arr[..arr.Length] == arr[..];
  }

  /** The lines of the text as an array, none deleted. */
  method LineArray(lines: seq<string>) returns (arr: array<Option<string>>)
    ensures fresh(arr) && arr[..] == AllPresent(lines)
  {
    arr := new Option<string>[|lines|](i requires 0 <= i < |lines| => Some(lines[i]));
  }

  /** `mergeImportStatements(content)`. */
  method MergeImportStatements(content: string, packages: Option<string>) returns (r: Result<string, string>)
    ensures r == Merge(content, packages)
  {
    var lines := Split(content, "\r\n");
    var packageMap := CollectPackages(lines, PackageList(packages));
    var arr := LineArray(lines);
    var ok := ConsolidatePackages(arr, packageMap);
    if !ok {
      return Failure(UndefinedLine);
    }
    var result := FormatPresent(arr);
    r := Success(Trim(result) + "\n");
  }

  /** Before any merge, every line remains. */
  lemma {:induction false} PresentLinesAllPresent(lines: seq<string>)
    ensures PresentLines(AllPresent(lines)) == lines
  {
    if lines != [] {
      var init := lines[..|lines| - 1];
      PresentLinesAllPresent(init);
      assert AllPresent(lines)[..|lines| - 1] == AllPresent(init);
    }
  }

  /**
   * Without the `web.component.scan` property, or with no package imported
   * more than once, merging is the same formatting as the placeholder
   * generators' `formatOutput`.
   */
  lemma NothingToMerge(content: string, packages: Option<string>)
    requires forall p :: p in PackageList(packages) ==> |ImportIndices(Split(content, "\r\n"), p)| <= 1
    ensures Merge(content, packages) == Success(Finish(Formatted(Split(content, "\r\n"))))
  {
    var lines := Split(content, "\r\n");
    var pm := PackageMap(lines, PackageList(packages));
    forall p | p in pm.vals
      ensures false
    {
      PackageMapKeys(lines, PackageList(packages), p);
    }
    assert pm.keys == [] by {
      if pm.keys != [] {
        KeysHaveValues(pm, 0);
      }
    }
    PresentLinesAllPresent(lines);
  }

  /** A quoted package name is never a proper suffix of another quote-free one. */
  lemma QuotedSuffix(t: string, p: string, q: string)
    requires |p| < |q|
    requires EndsWith(t, "'" + p + "';") && EndsWith(t, "'" + q + "';")
    ensures '\'' in q
  {
    var sp := "'" + p + "';";
    var sq := "'" + q + "';";
    var j := |q| - |p|;
    assert t[|t| - |sp|] == sp[0];
    assert t[|t| - |sq| + j] == sq[j];
    assert sq[j] == q[j - 1];
    assert q[j - 1] in q;
  }

  /** A line imports from at most one quote-free package. */
  lemma SameImportSamePackage(line: string, p: string, q: string)
    requires '\'' !in p && '\'' !in q
    requires IsImportOf(line, p) && IsImportOf(line, q)
    ensures p == q
  {
    var t := Trim(line);
    if |p| < |q| {
      QuotedSuffix(t, p, q);
    } else if |q| < |p| {
      QuotedSuffix(t, q, p);
    } else {
      var sp := "'" + p + "';";
      assert sp == "'" + q + "';";
      assert p == sp[1..|sp| - 2];
    }
  }

  /** A line is at one of the listed indices exactly when it imports from the package. */
  lemma ImportIndicesMember(lines: seq<string>, pkg: string, i: nat)
    requires i < |lines|
    ensures i in ImportIndices(lines, pkg) <==> IsImportOf(lines[i], pkg)
  {
    ImportIndicesSound(lines, pkg);
    if IsImportOf(lines[i], pkg) {
      ImportIndicesComplete(lines, pkg, i);
    }
  }

  /** The package map records every package's own import lines, and no name has a quote. */
  predicate QuoteFreeMap(lines: seq<string>, pm: Dict<seq<nat>>) {
    Indexed(pm, |lines|) && forall p :: p in pm.vals ==> pm.vals[p] == ImportIndices(lines, p) && '\'' !in p
  }

  /** A line none of the first `n` packages of the map merges. */
  predicate Untouched(pm: Dict<seq<nat>>, n: nat, i: nat)
    requires n <= |pm.keys|
  {
    forall m :: 0 <= m < n && pm.keys[m] in pm.vals ==> i !in pm.vals[pm.keys[m]]
  }

  /** The lines a merge of the first `n` packages leaves: the untouched ones are still the original lines. */
  predicate KeepsUntouched(lines: seq<string>, pm: Dict<seq<nat>>, n: nat, ls: seq<Option<string>>)
    requires n <= |pm.keys|
  {
    |ls| == |lines| && forall i :: 0 <= i < |lines| && Untouched(pm, n, i) ==> ls[i] == Some(lines[i])
  }

  /** The import lines of the next package are untouched by the earlier ones, so they are still there. */
  lemma NextPresent(lines: seq<string>, pm: Dict<seq<nat>>, n: nat, ls: seq<Option<string>>)
    requires QuoteFreeMap(lines, pm) && n < |pm.keys| && KeepsUntouched(lines, pm, n, ls)
    ensures pm.keys[n] in pm.vals && InRange(ls, pm.vals[pm.keys[n]]) && Present(ls, pm.vals[pm.keys[n]])
  {
    var key := pm.keys[n];
    KeysHaveValues(pm, n);
    var idx := pm.vals[key];
    ImportIndicesSound(lines, key);
    forall k | 0 <= k < |idx|
      ensures Untouched(pm, n, idx[k])
    {
      forall m | 0 <= m < n && pm.keys[m] in pm.vals
        ensures idx[k] !in pm.vals[pm.keys[m]]
      {
        if idx[k] in pm.vals[pm.keys[m]] {
          ImportIndicesMember(lines, pm.keys[m], idx[k]);
          SameImportSamePackage(lines[idx[k]], key, pm.keys[m]);
          assert false;
        }
      }
    }
  }

  /** Merging the next package touches only its own import lines. */
  lemma NextKeepsUntouched(lines: seq<string>, pm: Dict<seq<nat>>, n: nat, ls: seq<Option<string>>)
    requires QuoteFreeMap(lines, pm) && n < |pm.keys| && KeepsUntouched(lines, pm, n, ls)
    requires pm.keys[n] in pm.vals && Present(ls, pm.vals[pm.keys[n]])
    ensures KeepsUntouched(lines, pm, n + 1, Consolidate(ls, pm.keys[n], pm.vals[pm.keys[n]]))
  {
    var key := pm.keys[n];
    var idx := pm.vals[key];
    ImportIndicesAscending(lines, key);
    ConsolidateShape(ls, key, idx);
    forall i | 0 <= i < |lines| && Untouched(pm, n + 1, i)
      ensures Consolidate(ls, key, idx)[i] == Some(lines[i])
    {
      assert Untouched(pm, n, i);
    }
  }

  /**
   * Merging packages whose names have no quote never reads a deleted line:
   * each merge succeeds and leaves the lines of the other packages as they
   * were.
   */
  lemma {:induction false} MergeUntouched(lines: seq<string>, pm: Dict<seq<nat>>, n: nat, start: seq<Option<string>>)
    requires QuoteFreeMap(lines, pm) && n <= |pm.keys| && |start| == |lines| && KeepsUntouched(lines, pm, 0, start)
    ensures MergedKeeps(lines, pm, n, start)
  {
    if n > 0 {
      MergeUntouched(lines, pm, n - 1, start);
      MergeUntouchedStep(lines, pm, n - 1, start);
    }
  }

  /** The first `n` merges succeed and keep the untouched lines. */
  predicate MergedKeeps(lines: seq<string>, pm: Dict<seq<nat>>, n: nat, start: seq<Option<string>>) {
    && Indexed(pm, |start|) && n <= |pm.keys|
    && ConsolidateAll(start, pm, n).Some?
    && KeepsUntouched(lines, pm, n, ConsolidateAll(start, pm, n).value)
  }

  /** One more merge of a package with no quote in its name succeeds and keeps the untouched lines. */
  lemma MergeUntouchedStep(lines: seq<string>, pm: Dict<seq<nat>>, n: nat, start: seq<Option<string>>)
    requires QuoteFreeMap(lines, pm) && n < |pm.keys| && MergedKeeps(lines, pm, n, start)
    ensures MergedKeeps(lines, pm, n + 1, start)
  {
    var ls := ConsolidateAll(start, pm, n).value;
    NextPresent(lines, pm, n, ls);
    NextKeepsUntouched(lines, pm, n, ls);
    ConsolidateAllStep(start, pm, n, ls);
  }

  /** With quote-free package names in `web.component.scan`, `mergeImportStatements` never throws. */
  lemma MergeNeverFails(content: string, packages: Option<string>)
    requires forall p :: p in PackageList(packages) ==> '\'' !in p
    ensures Merge(content, packages).Success?
  {
    var lines := Split(content, "\r\n");
    var pm := PackageMap(lines, PackageList(packages));
    forall p | p in pm.vals
      ensures pm.vals[p] == ImportIndices(lines, p) && '\'' !in p
    {
      PackageMapKeys(lines, PackageList(packages), p);
      PackageMapRecords(lines, PackageList(packages), p);
    }
    assert KeepsUntouched(lines, pm, 0, AllPresent(lines));
    MergeUntouched(lines, pm, |pm.keys|, AllPresent(lines));
  }
}
