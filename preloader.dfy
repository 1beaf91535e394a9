/**
 * preloader.js of the minimalist Kafka adapter: it scans the packages named
 * by `web.component.scan` and the `src` and `tests` folders for composable
 * classes, records each class's route parameters (`clsParameters`) and the
 * file or package each group of classes is imported from (`clsMap`), and
 * writes a `preload.ts` that imports the classes and registers one instance
 * of each. The class scanners and the file system are outside the model:
 * what a scan reports is a parameter and the files written are returned.
 */
module Preloader {
  import opened Wrappers
  import opened JsString
  import opened Dict
  import opened Json
  import opened Templates
  import opened Paths
  import opened ImportMerge

  /**
   * What a class scanner reports, as `MultiLevelMap` reads it: `classes`
   * (each key lists the classes of one file, its value is the file path),
   * and per class `methods.<cls>`, `parameters.<cls>` and
   * `parents.<cls>.implements`.
   */
  datatype ScanResult = ScanResult(
    classes: Dict<string>,
    methods: map<string, Body>,
    parameters: map<string, Body>,
    implements: map<string, Body>)

  /** `map.getElement(path)`, with `None` for `undefined`. */
  function Element(m: map<string, Body>, cls: string): Option<Body> {
    if cls in m then Some(m[cls]) else None
  }

  /**
   * `'initialize' == v` under JavaScript's loose equality: a string is
   * compared as it is, an object through its string form; a number, a
   * boolean, null or undefined never equals the word.
   */
  predicate IsInitialize(v: Option<Body>) {
    match v
    case None => false
    case Some(b) =>
      match b
      case Str(s) => s == "initialize"
      case Arr(_) => ToJsString(b) == "initialize"
      case Obj(_) => ToJsString(b) == "initialize"
      case Binary(_) => ToJsString(b) == "initialize"
      case _ => false
  }

  /** The signature check of both scans: an `initialize` method and an array of parameters. */
  predicate Signed(scan: ScanResult, cls: string) {
    IsInitialize(Element(scan.methods, cls)) && cls in scan.parameters && scan.parameters[cls].Arr?
  }

  /** `findClass`'s check: the parents are an array that includes `Composable`. */
  predicate ComposableParents(parents: Option<Body>) {
    parents.Some? && parents.value.Arr? && Str("Composable") in parents.value.items
  }

  /** A class a scan keeps: signed and, for a source folder, a composable. */
  predicate Accepted(scan: ScanResult, cls: string, composable: bool) {
    Signed(scan, cls) && (composable ==> ComposableParents(Element(scan.implements, cls)))
  }

  /** The classes of one `classes` key that the scan keeps, in order. */
  function Kept(scan: ScanResult, items: seq<string>, composable: bool): (r: seq<string>)
    ensures forall c :: c in r <==> c in items && Accepted(scan, c, composable)
  {
    if items == [] then []
    else
      var init, cls := items[..|items| - 1], items[|items| - 1];
      assert forall c :: c in items <==> c in init || c == cls;
      Kept(scan, init, composable) + (if Accepted(scan, cls, composable) then [cls] else [])
  }

  /** `clsParameters` after the kept classes of `items` have their parameters recorded. */
  function Recorded(m: map<string, seq<Body>>, scan: ScanResult, items: seq<string>, composable: bool): (r: map<string, seq<Body>>)
    ensures forall c :: c in r <==> c in m || (c in items && Accepted(scan, c, composable))
    ensures forall c :: c in r ==>
      r[c] == if c in items && Accepted(scan, c, composable) then scan.parameters[c].items else m[c]
  {
    if items == [] then m
    else
      var init, cls := items[..|items| - 1], items[|items| - 1];
      assert forall c :: c in items <==> c in init || c == cls;
      var prev := Recorded(m, scan, init, composable);
      if Accepted(scan, cls, composable) then prev[cls := scan.parameters[cls].items] else prev
  }

  /** One more class of a key: kept and recorded if the scan accepts it. */
  lemma KeptStep(m: map<string, seq<Body>>, scan: ScanResult, items: seq<string>, i: nat, composable: bool)
    requires i < |items|
    ensures Kept(scan, items[..i + 1], composable)
      == if Accepted(scan, items[i], composable) then Kept(scan, items[..i], composable) + [items[i]]
         else Kept(scan, items[..i], composable)
    ensures Recorded(m, scan, items[..i + 1], composable)
      == if Accepted(scan, items[i], composable) then Recorded(m, scan, items[..i], composable)[items[i] := scan.parameters[items[i]].items]
         else Recorded(m, scan, items[..i], composable)
  {
    assert items[..i + 1][..i] == items[..i];
  }

  /** One more name appended to `clsName`. */
  lemma NamedStep(xs: seq<string>, c: string)
    ensures Named(xs + [c]) == Named(xs) + (if |Named(xs)| == 0 then c else "," + c)
  {
    assert (xs + [c])[..|xs|] == xs;
  }

  /** The `clsName` the scans build: the first class, then `,` and each further one. */
  function Named(xs: seq<string>): string {
    if xs == [] then ""
    else
      var prev := Named(xs[..|xs| - 1]);
      prev + (if |prev| == 0 then xs[|xs| - 1] else "," + xs[|xs| - 1])
  }

  /** For classes with non-empty names, `clsName` is their join by commas. */
  lemma {:induction false} NamedIsJoin(xs: seq<string>)
    requires forall k :: 0 <= k < |xs| ==> xs[k] != ""
    ensures Named(xs) == Join(xs, ",")
    ensures Named(xs) == "" <==> xs == []
  {
    if xs != [] {
      var init := xs[..|xs| - 1];
      NamedIsJoin(init);
      if init != [] {
        assert |Named(init)| >= |init[|init| - 1]| by {
          assert Join(init, ",") == (if |init| == 1 then init[0] else Join(init[..|init| - 1], ",") + "," + init[|init| - 1]);
        }
      }
    }
  }

  /** The module's two tables: `clsMap` and `clsParameters`. */
  datatype Tables = Tables(clsMap: Dict<string>, params: map<string, seq<Body>>)

  /** Every class named in a key of `clsMap` has its parameters recorded, so the registrations can be built. */
  predicate Valid(t: Tables) {
    forall k, c :: k in t.clsMap.vals && c in Split(k, ", ") ==> c in t.params
  }

  /**
   * One key of a scan's `classes`: the kept classes have their parameters
   * recorded and, if there are any, are listed together under `path`.
   */
  function ClassStep(t: Tables, scan: ScanResult, clsList: string, path: string, composable: bool): Tables {
    var items := Split(clsList, ", ");
    var name := Named(Kept(scan, items, composable));
    Tables(if name != "" then Put(t.clsMap, name, path) else t.clsMap, Recorded(t.params, scan, items, composable))
  }

  /** The classes kept from a key are what its `clsMap` key lists again. */
  lemma KeptRoundTrip(scan: ScanResult, clsList: string, composable: bool)
    ensures var kept := Kept(scan, Split(clsList, ", "), composable);
      && (Named(kept) == "" <==> kept == [])
      && Split(Named(kept), ", ") == kept
  {
    var items := Split(clsList, ", ");
    var kept := Kept(scan, items, composable);
    forall k | 0 <= k < |kept|
      ensures IsToken(kept[k], ", ")
    {
      assert kept[k] in items;
    }
    NamedIsJoin(kept);
    SplitJoin(kept, ',', ", ");
  }

  /**
   * A key of `classes` with kept classes puts them under one `clsMap` key
   * that lists exactly those classes and maps to `path`; one without leaves
   * `clsMap` as it was. Either way the tables stay valid.
   */
  lemma ClassStepLists(t: Tables, scan: ScanResult, clsList: string, path: string, composable: bool)
    ensures var kept := Kept(scan, Split(clsList, ", "), composable);
      var r := ClassStep(t, scan, clsList, path, composable);
      && (kept == [] ==> r.clsMap == t.clsMap)
      && (kept != [] ==> Named(kept) in r.clsMap.vals && r.clsMap.vals[Named(kept)] == path
                         && Split(Named(kept), ", ") == kept)
      && (Valid(t) ==> Valid(r))
  {
    var items := Split(clsList, ", ");
    var kept := Kept(scan, items, composable);
    var r := ClassStep(t, scan, clsList, path, composable);
    KeptRoundTrip(scan, clsList, composable);
    if Valid(t) {
      forall k, c | k in r.clsMap.vals && c in Split(k, ", ")
        ensures c in r.params
      {
        if k !in t.clsMap.vals || k == Named(kept) {
          assert k == Named(kept) && c in kept;
        }
      }
    }
  }

  /** The classes of the first `n` keys of a package's scan, all under the package name. */
  function PackageClasses(t: Tables, scan: ScanResult, pkg: string, n: nat): (r: Tables)
    requires n <= |scan.classes.keys|
    ensures Valid(t) ==> Valid(r)
  {
    if n == 0 then t
    else
      var prev := PackageClasses(t, scan, pkg, n - 1);
      ClassStepLists(prev, scan, scan.classes.keys[n - 1], pkg, false);
      ClassStep(prev, scan, scan.classes.keys[n - 1], pkg, false)
  }

  /** `scanPackage(packageName)`: a scan that throws (`None`) is logged and changes nothing. */
  function PackageScan(t: Tables, pkg: string, scan: Option<ScanResult>): (r: Tables)
    ensures scan.None? ==> r == t
    ensures Valid(t) ==> Valid(r)
  {
    if scan.None? then t else PackageClasses(t, scan.value, pkg, |scan.value.classes.keys|)
  }

  /** The packages of `web.component.scan`, scanned in order. */
  function PackagesScan(t: Tables, pkgs: seq<string>, scans: string -> Option<ScanResult>): (r: Tables)
    ensures Valid(t) ==> Valid(r)
  {
    if pkgs == [] then t
    else PackageScan(PackagesScan(t, pkgs[..|pkgs| - 1], scans), pkgs[|pkgs| - 1], scans(pkgs[|pkgs| - 1]))
  }

  /** `getRelativePath`: a path inside `folder` is made relative to `prefix`, any other is kept. */
  function GetRelativePath(filePath: string, folder: string, prefix: string): (r: string)
    ensures StartsWith(filePath, folder) ==> StartsWith(r, prefix) && folder + r[|prefix|..] == filePath
    ensures !StartsWith(filePath, folder) ==> r == filePath
  {
    if StartsWith(filePath, folder) then prefix + filePath[|folder|..] else filePath
  }

  /** The import path of the `n`-th key of a source folder's scan. */
  function FilePath(scan: ScanResult, n: nat, folder: string, prefix: string, extension: string): string
    requires n < |scan.classes.keys|
  {
    KeysHaveValues(scan.classes, n);
    GetRelativePath(scan.classes.vals[scan.classes.keys[n]], folder, prefix) + extension
  }

  /** The composable classes of the first `n` keys of a source folder's scan. */
  function SourceClasses(t: Tables, scan: ScanResult, folder: string, prefix: string, extension: string, n: nat): (r: Tables)
    requires n <= |scan.classes.keys|
    ensures Valid(t) ==> Valid(r)
  {
    if n == 0 then t
    else
      var prev := SourceClasses(t, scan, folder, prefix, extension, n - 1);
      var path := FilePath(scan, n - 1, folder, prefix, extension);
      ClassStepLists(prev, scan, scan.classes.keys[n - 1], path, true);
      ClassStep(prev, scan, scan.classes.keys[n - 1], path, true)
  }

  /** `scanSourceFolder(root, folder, prefix, extension)`. */
  function SourceScan(t: Tables, scan: ScanResult, folder: string, prefix: string, extension: string): (r: Tables)
    ensures Valid(t) ==> Valid(r)
  {
    SourceClasses(t, scan, folder, prefix, extension, |scan.classes.keys|)
  }

  /**
   * The arguments of `platform.register`: `null` for a class without
   * parameters, otherwise the first parameter, the new instance and the
   * remaining parameters.
   */
  function RegistrationInput(ps: seq<Body>, cls: string): string {
    if ps == [] then "null"
    else if |ps| == 1 then ToJsString(ps[0]) + ", new " + cls + "()"
    else RegistrationInput(ps[..|ps| - 1], cls) + ", " + ToJsString(ps[|ps| - 1])
  }

  /** The statement `buildRegistrationStatement` writes, before its indentation. */
  function Registration(ps: seq<Body>, cls: string): string {
    "platform.register(" + RegistrationInput(ps, cls) + ");"
  }

  /** `String(p)` of every parameter. */
  function Strings(ps: seq<Body>): (r: seq<string>)
    ensures |r| == |ps| && forall i :: 0 <= i < |ps| ==> r[i] == ToJsString(ps[i])
  {
    seq(|ps|, i requires 0 <= i < |ps| => ToJsString(ps[i]))
  }

  /** The arguments are the first parameter, `new Cls()` and the other parameters, separated by `, `. */
  lemma {:induction false} RegistrationArguments(ps: seq<Body>, cls: string)
    requires ps != []
    ensures RegistrationInput(ps, cls) == Join([ToJsString(ps[0]), "new " + cls + "()"] + Strings(ps[1..]), ", ")
  {
    var args := [ToJsString(ps[0]), "new " + cls + "()"] + Strings(ps[1..]);
    if |ps| == 1 {
      assert args == [ToJsString(ps[0]), "new " + cls + "()"];
      assert args[..1] == [ToJsString(ps[0])];
    } else {
      var init := ps[..|ps| - 1];
      RegistrationArguments(init, cls);
      var prev := [ToJsString(init[0]), "new " + cls + "()"] + Strings(init[1..]);
      assert args[..|args| - 1] == prev;
      assert args[|args| - 1] == ToJsString(ps[|ps| - 1]);
    }
  }

  /** `buildRegistrationStatement(c, cls)`: the loop over the parameters of `c`, with `cls` as the class constructed. */
  method BuildRegistration(parameters: seq<Body>, cls: string) returns (stmt: string)
    ensures stmt == Registration(parameters, cls)
  {
    var input: Option<string> := None;
    for i := 0 to |parameters|
      invariant input == if i == 0 then None else Some(RegistrationInput(parameters[..i], cls))
    {
      assert parameters[..i + 1][..i] == parameters[..i];
      var p := ToJsString(parameters[i]);
      if input.Some? {
        input := Some(input.value + ", " + p);
      } else {
        input := Some(p + ", new " + cls + "()");
      }
    }
    assert parameters[..|parameters|] == parameters;
    stmt := "platform.register(" + (if input.Some? then input.value else "null") + ");";
  }

  /**
   * The statements for the classes `cs` of the `clsMap` key `key`: each
   * class's parameters, with the class constructed being `key` as the
   * source writes it, or the class itself.
   */
  function ClassRegistrations(params: map<string, seq<Body>>, cs: seq<string>, key: string, asWritten: bool): (r: seq<string>)
    requires forall c :: c in cs ==> c in params
    ensures |r| == |cs|
    ensures forall k :: 0 <= k < |cs| ==> r[k] == Registration(params[cs[k]], if asWritten then key else cs[k])
  {
    if cs == [] then []
    else
      var c := cs[|cs| - 1];
      assert forall x :: x in cs[..|cs| - 1] ==> x in cs;
      ClassRegistrations(params, cs[..|cs| - 1], key, asWritten) + [Registration(params[c], if asWritten then key else c)]
  }

  /** The registrations for the first `n` keys of `clsMap`. */
  function RegistrationsUpTo(t: Tables, n: nat, asWritten: bool): seq<string>
    requires Valid(t) && n <= |t.clsMap.keys|
  {
    if n == 0 then []
    else
      var key := t.clsMap.keys[n - 1];
      KeysHaveValues(t.clsMap, n - 1);
      RegistrationsUpTo(t, n - 1, asWritten) + ClassRegistrations(t.params, Split(key, ", "), key, asWritten)
  }

  /** The service list as `handleServiceEntry` writes it: `new ${cls}()` with the whole `clsMap` key. */
  function RegistrationsAsWritten(t: Tables): seq<string>
    requires Valid(t)
  {
    RegistrationsUpTo(t, |t.clsMap.keys|, true)
  }

  /** The service list with each class constructing itself. */
  function Registrations(t: Tables): seq<string>
    requires Valid(t)
  {
    RegistrationsUpTo(t, |t.clsMap.keys|, false)
  }

  /**
   * Every corrected registration passes a class's own parameters and
   * constructs that class, whose name is a single identifier-like token.
   */
  lemma {:induction false} RegistrationsConstructTheirClass(t: Tables, n: nat, s: string)
    requires Valid(t) && n <= |t.clsMap.keys| && s in RegistrationsUpTo(t, n, false)
    ensures exists c :: c in t.params && IsToken(c, ", ") && s == Registration(t.params[c], c)
  {
    var key := t.clsMap.keys[n - 1];
    KeysHaveValues(t.clsMap, n - 1);
    var cs := Split(key, ", ");
    var prev := RegistrationsUpTo(t, n - 1, false);
    var last := ClassRegistrations(t.params, cs, key, false);
    if s in prev {
      RegistrationsConstructTheirClass(t, n - 1, s);
    } else {
      assert s in last;
      var k :| 0 <= k < |last| && last[k] == s;
      assert cs[k] in t.params && IsToken(cs[k], ", ");
    }
  }

  /** When every key of `clsMap` names a single class, the registrations as written are the corrected ones. */
  lemma {:induction false} SingleClassKeysAgree(t: Tables, n: nat)
    requires Valid(t) && n <= |t.clsMap.keys|
    requires forall k :: 0 <= k < |t.clsMap.keys| ==> IsToken(t.clsMap.keys[k], ", ")
    ensures RegistrationsUpTo(t, n, true) == RegistrationsUpTo(t, n, false)
  {
    if n > 0 {
      SingleClassKeysAgree(t, n - 1);
      var key := t.clsMap.keys[n - 1];
      KeysHaveValues(t.clsMap, n - 1);
      SplitToken(key);
      var a := ClassRegistrations(t.params, Split(key, ", "), key, true);
      var b := ClassRegistrations(t.params, Split(key, ", "), key, false);
      assert a == b;
    }
  }

  /** When every key of `clsMap` names a single class, the file saved as written is the corrected one. */
  lemma SavedAgreesOnSingleClassKeys(t: Tables, parent: string, folder: string, lines: seq<string>, packages: Option<string>)
    requires Valid(t)
    requires forall k :: 0 <= k < |t.clsMap.keys| ==> IsToken(t.clsMap.keys[k], ", ")
    ensures Saved(t, true, parent, folder, lines, packages) == Saved(t, false, parent, folder, lines, packages)
  {
    SingleClassKeysAgree(t, |t.clsMap.keys|);
  }

  /** A single class name splits into itself. */
  lemma SplitToken(key: string)
    requires IsToken(key, ", ")
    ensures Split(key, ", ") == [key]
  {
    SplitJoin([key], ',', ", ");
  }

  /** Two classes from one file, `A` with parameter `"a"`, listed under the key `A,B`. */
  function CompositeTables(): Tables {
    var clsMap: Dict<string> := Put(Empty(), "A,B", "../src/services/ab.js");
    Tables(clsMap, map["A" := [Str("a")], "B" := [Str("b")]])
  }

  /**
   * As written, the first registration for the key `A,B` reads
   * `new A,B()`, which constructs `A` without arguments inside the
   * argument list and calls `B` as a function; the corrected statement
   * constructs `A`.
   */
  lemma CompositeKeyConstructed()
    ensures Valid(CompositeTables())
    ensures RegistrationsAsWritten(CompositeTables())[0] == "platform.register(a, new A,B());"
    ensures Registrations(CompositeTables())[0] == "platform.register(a, new A());"
  {
    CompositeValid();
    var t := CompositeTables();
    FirstRegistration(t, true);
    FirstRegistration(t, false);
    CompositeStatements();
  }

  /** The two statements for `A`, constructing `A,B` and `A`. */
  lemma CompositeStatements()
    ensures Registration([Str("a")], "A,B") == "platform.register(a, new A,B());"
    ensures Registration([Str("a")], "A") == "platform.register(a, new A());"
  {
    SingleParameter("a", "A,B");
    SingleParameter("a", "A");
  }

  /** The key `A,B` lists the classes `A` and `B`. */
  lemma SplitComposite()
    ensures Split("A,B", ", ") == ["A", "B"]
  {
    assert "A,B" == "A" + [','] + "B";
    SplitAccCut("A", ',', "B", ", ", []);
    SplitAccToken("A", ", ", []);
    SplitAccToken("B", ", ", []);
    assert [] + "A" == "A" && [] + "B" == "B";
    assert SplitAcc("A", ", ", []) == ["A"];
    assert SplitAcc("B", ", ", []) == ["B"];
  }

  /** Both classes of `A,B` have parameters. */
  lemma CompositeValid()
    ensures Valid(CompositeTables())
    ensures CompositeTables().clsMap.keys == ["A,B"]
  {
    SplitComposite();
    var t := CompositeTables();
    assert t.clsMap.vals.Keys == {"A,B"};
  }

  /** The first registration of the composite tables is that of `A`. */
  lemma FirstRegistration(t: Tables, asWritten: bool)
    requires t == CompositeTables() && Valid(t) && t.clsMap.keys == ["A,B"]
    ensures RegistrationsUpTo(t, |t.clsMap.keys|, asWritten)[0] == Registration([Str("a")], if asWritten then "A,B" else "A")
  {
    SplitComposite();
    assert RegistrationsUpTo(t, 1, asWritten) == ClassRegistrations(t.params, ["A", "B"], "A,B", asWritten);
  }

  /** The statement for a class with one string parameter. */
  lemma SingleParameter(p: string, cls: string)
    ensures Registration([Str(p)], cls) == "platform.register(" + p + ", new " + cls + "());"
  {
  }

  /** An import line of the preload file. */
  function ImportLine(cls: string, path: string): string {
    "import { " + cls + " } from '" + path + "';"
  }

  /** The import line of the `i`-th key of `clsMap`. */
  function ImportLineAt(clsMap: Dict<string>, i: nat): string
    requires i < |clsMap.keys|
  {
    KeysHaveValues(clsMap, i);
    ImportLine(clsMap.keys[i], clsMap.vals[clsMap.keys[i]])
  }

  /** The import lines for all keys of `clsMap`, in order. */
  function ImportLines(clsMap: Dict<string>): (r: seq<string>)
    ensures |r| == |clsMap.keys| && forall i :: 0 <= i < |r| ==> r[i] == ImportLineAt(clsMap, i)
  {
    seq(|clsMap.keys|, i requires 0 <= i < |clsMap.keys| => ImportLineAt(clsMap, i))
  }

  /** A line that starts and ends with a character other than white space is its own trim. */
  lemma TrimUnchanged(s: string)
    requires s != [] && !IsSpace(s[0]) && !IsSpace(s[|s| - 1])
    ensures Trim(s) == s
  {
  }

  /** Every import line the preloader writes is one that the merge step counts as an import from its path. */
  lemma ImportLineRecognised(cls: string, path: string)
    ensures IsImportOf(ImportLine(cls, path), path)
  {
    var line := ImportLine(cls, path);
    assert line[0] == 'i' && line[|line| - 1] == ';';
    TrimUnchanged(line);
    assert line == "import {" + (" " + cls + " } from ") + ("'" + path + "';");
  }

  /** `handleImportEntry`'s loop over the keys of `clsMap`. */
  method BuildImports(clsMap: Dict<string>) returns (imports: seq<string>)
    ensures imports == ImportLines(clsMap)
  {
    imports := [];
    for i := 0 to |clsMap.keys|
      invariant imports == ImportLines(clsMap)[..i]
    {
      var cls := clsMap.keys[i];
      KeysHaveValues(clsMap, i);
      var filePath := clsMap.vals[cls];
      imports := imports + [ImportLine(cls, filePath)];
      assert ImportLines(clsMap)[..i + 1] == ImportLines(clsMap)[..i] + [ImportLines(clsMap)[i]];
    }
    assert ImportLines(clsMap)[..|clsMap.keys|] == ImportLines(clsMap);
  }

  /**
   * `handleServiceEntry`'s inner loop, for the classes of one key: with
   * `asWritten` the class constructed is the whole key `cls`, as the code
   * passes it; without, it is the class `c` itself.
   */
  method BuildClassRegistrations(params: map<string, seq<Body>>, cls: string, asWritten: bool) returns (stmts: seq<string>)
    requires forall c :: c in Split(cls, ", ") ==> c in params
    ensures stmts == ClassRegistrations(params, Split(cls, ", "), cls, asWritten)
  {
    var composite := Split(cls, ", ");
    stmts := [];
    for i := 0 to |composite|
      invariant |stmts| == i
      invariant forall k :: 0 <= k < i ==> stmts[k] == Registration(params[composite[k]], if asWritten then cls else composite[k])
    {
      var c := composite[i];
      var stmt := BuildRegistration(params[c], if asWritten then cls else c);
      stmts := stmts + [stmt];
    }
  }

  /**
   * What the two handlers put in place of the tags: the service list as the
   * code writes it when `asWritten` holds, the corrected one otherwise.
   */
  function PreloadExpansion(t: Tables, asWritten: bool): Expansion
    requires Valid(t)
  {
    Expansion(ImportLines(t.clsMap), if asWritten then RegistrationsAsWritten(t) else Registrations(t))
  }

  /**
   * `savePreloader(parent, folder, lines)`: the expanded template, its imports
   * merged, written to `preload/preload.ts`; `asWritten` chooses between the
   * service list the code writes and the corrected one.
   */
  function Saved(t: Tables, asWritten: bool, parent: string, folder: string, lines: seq<string>, packages: Option<string>): (r: Result<Generated, string>)
    requires Valid(t)
    ensures r.Failure? ==> r.error == UndefinedLine
  {
    var merged := Merge(Expand(lines, PreloadExpansion(t, asWritten)).sb, packages);
    if merged.Failure? then Failure(merged.error)
    else Success(Generated(parent + folder + "/preload/preload.ts", merged.value))
  }

  /** With quote-free package names, saving succeeds, and it writes `preload/preload.ts` under the folder. */
  lemma SavedSucceeds(t: Tables, asWritten: bool, parent: string, folder: string, lines: seq<string>, packages: Option<string>)
    requires Valid(t) && forall p :: p in PackageList(packages) ==> '\'' !in p
    ensures Saved(t, asWritten, parent, folder, lines, packages).Success?
    ensures Saved(t, asWritten, parent, folder, lines, packages).value.file == parent + folder + "/preload/preload.ts"
  {
    MergeNeverFails(Expand(lines, PreloadExpansion(t, asWritten)).sb, packages);
  }

  /** Without `web.component.scan`, the saved file is the expanded template, formatted and with no line merged. */
  lemma SavedUnmerged(t: Tables, asWritten: bool, parent: string, folder: string, lines: seq<string>)
    requires Valid(t)
    ensures Saved(t, asWritten, parent, folder, lines, None)
      == Success(Generated(parent + folder + "/preload/preload.ts",
                           Finish(Formatted(Split(Expand(lines, PreloadExpansion(t, asWritten)).sb, "\r\n")))))
  {
    NothingToMerge(Expand(lines, PreloadExpansion(t, asWritten)).sb, None);
  }

  /** The outcome of `main` and the tables it leaves. */
  datatype Run = Run(result: Result<seq<Generated>, string>, tables: Tables)

  /**
   * `main()`: the packages, then `src` for the JavaScript build; a valid
   * template is saved under `src`, then `src` is scanned again for the
   * TypeScript sources, `tests` is scanned, and the template is saved under
   * `tests`. A throw ends the run with the tables as they are then.
   */
  function PreloadRun(t: Tables, asWritten: bool, folder: string, packages: Option<string>, packageScans: string -> Option<ScanResult>,
                      jsScan: ScanResult, tsScan: ScanResult, testScan: ScanResult, template: Option<string>): (r: Run)
    requires Valid(t)
    ensures Valid(r.tables)
  {
    var root := GetCurrentFolder(folder);
    var first := SourceScan(PackagesScan(t, PackageList(packages), packageScans), jsScan, "src", "..", ".js");
    var checked := CheckTemplate(template);
    if checked.Failure? then Run(Failure(checked.error), first)
    else
      var lines := Split(checked.value, "\r\n");
      var src := Saved(first, asWritten, root, "src", lines, packages);
      if src.Failure? then Run(Failure(src.error), first)
      else
        var second := SourceScan(SourceScan(first, tsScan, "src", "../../src", ".ts"), testScan, "tests", "..", ".ts");
        var tests := Saved(second, asWritten, root, "tests", lines, packages);
        if tests.Failure? then Run(Failure(tests.error), second)
        else Run(Success([src.value, tests.value]), second)
  }

  /** `main` throws the template error exactly when the template lacks a tag. */
  lemma PreloadRunTemplateCheck(t: Tables, asWritten: bool, folder: string, packages: Option<string>, packageScans: string -> Option<ScanResult>,
                                jsScan: ScanResult, tsScan: ScanResult, testScan: ScanResult, template: Option<string>)
    requires Valid(t)
    ensures CheckTemplate(template).Failure?
      <==> PreloadRun(t, asWritten, folder, packages, packageScans, jsScan, tsScan, testScan, template).result == Failure(InvalidTemplate)
  {
    DistinctErrors();
  }

  /** The template error and the merge's error are different messages. */
  lemma DistinctErrors()
    ensures InvalidTemplate != UndefinedLine
  {
    assert |InvalidTemplate| == 80;
    assert |UndefinedLine| == 55;
  }

  /** With a valid template and quote-free package names, `main` writes the two preload files. */
  lemma PreloadRunWrites(t: Tables, asWritten: bool, folder: string, packages: Option<string>, packageScans: string -> Option<ScanResult>,
                         jsScan: ScanResult, tsScan: ScanResult, testScan: ScanResult, template: Option<string>)
    requires Valid(t) && CheckTemplate(template).Success?
    requires forall p :: p in PackageList(packages) ==> '\'' !in p
    ensures var r := PreloadRun(t, asWritten, folder, packages, packageScans, jsScan, tsScan, testScan, template).result;
      var root := GetCurrentFolder(folder);
      && r.Success? && |r.value| == 2
      && r.value[0].file == root + "src" + "/preload/preload.ts"
      && r.value[1].file == root + "tests" + "/preload/preload.ts"
  {
    var root := GetCurrentFolder(folder);
    var first := SourceScan(PackagesScan(t, PackageList(packages), packageScans), jsScan, "src", "..", ".js");
    var lines := Split(template.value, "\r\n");
    SavedSucceeds(first, asWritten, root, "src", lines, packages);
    var second := SourceScan(SourceScan(first, tsScan, "src", "../../src", ".ts"), testScan, "tests", "..", ".ts");
    SavedSucceeds(second, asWritten, root, "tests", lines, packages);
  }

  /** The module-level `clsMap` and `clsParameters` of preloader.js. */
  class ClassRegistry {
    var clsMap: Dict<string>
    var clsParameters: map<string, seq<Body>>

    constructor ()
      ensures clsMap == Empty() && clsParameters == map[]
    {
      clsMap, clsParameters := Empty(), map[];
    }

    /** The two tables as a value. */
    function Current(): Tables
      reads this
    {
      Tables(clsMap, clsParameters)
    }

    /** `scanClassSignature(clsList, map, packageName)`. */
    method ScanClassSignature(clsList: string, scan: ScanResult, packageName: string)
      modifies this
      ensures Current() == ClassStep(old(Current()), scan, clsList, packageName, false)
    {
      var items := Split(clsList, ", ");
      var clsName := "";
      for i := 0 to |items|
        invariant clsName == Named(Kept(scan, items[..i], false))
        invariant clsParameters == Recorded(old(clsParameters), scan, items[..i], false)
        invariant clsMap == old(clsMap)
      {
        KeptStep(old(clsParameters), scan, items, i, false);
        NamedStep(Kept(scan, items[..i], false), items[i]);
        var cls := items[i];
        if IsInitialize(Element(scan.methods, cls)) && cls in scan.parameters {
          var params := scan.parameters[cls];
          if params.Arr? {
            clsParameters := clsParameters[cls := params.items];
            clsName := clsName + (if |clsName| == 0 then cls else "," + cls);
          }
        }
      }
      assert items[..|items|] == items;
      if clsName != "" {
        clsMap := Put(clsMap, clsName, packageName);
      }
    }

    /** `scanPackage(packageName)`, given what the scan returns or `None` where it throws. */
    method ScanPackage(packageName: string, result: Option<ScanResult>)
      modifies this
      ensures Current() == PackageScan(old(Current()), packageName, result)
    {
      if result.Some? {
        var scan := result.value;
        for n := 0 to |scan.classes.keys|
          invariant Current() == PackageClasses(old(Current()), scan, packageName, n)
        {
          ScanClassSignature(scan.classes.keys[n], scan, packageName);
        }
      }
    }

    /** `findClass(parents, params, cls, clsName)`: `None` for `null`. */
    method FindClass(parents: Option<Body>, params: seq<Body>, cls: string, clsName: string) returns (v: Option<string>)
      modifies this
      ensures clsMap == old(clsMap)
      ensures ComposableParents(parents) ==>
        clsParameters == old(clsParameters)[cls := params] && v == Some(if |clsName| == 0 then cls else "," + cls)
      ensures !ComposableParents(parents) ==> clsParameters == old(clsParameters) && v == None
    {
      if parents.Some? && parents.value.Arr? && Str("Composable") in parents.value.items {
        clsParameters := clsParameters[cls := params];
        return Some(if |clsName| == 0 then cls else "," + cls);
      }
      return None;
    }

    /** `getClass(map, items)`: the composable classes of `items`, with their parameters recorded. */
    method GetClass(scan: ScanResult, items: seq<string>) returns (clsName: string)
      modifies this
      ensures clsName == Named(Kept(scan, items, true))
      ensures clsParameters == Recorded(old(clsParameters), scan, items, true)
      ensures clsMap == old(clsMap)
    {
      clsName := "";
      for i := 0 to |items|
        invariant clsName == Named(Kept(scan, items[..i], true))
        invariant clsParameters == Recorded(old(clsParameters), scan, items[..i], true)
        invariant clsMap == old(clsMap)
      {
        KeptStep(old(clsParameters), scan, items, i, true);
        NamedStep(Kept(scan, items[..i], true), items[i]);
        var cls := items[i];
        if IsInitialize(Element(scan.methods, cls)) && cls in scan.parameters {
          var params := scan.parameters[cls];
          if params.Arr? {
            var parents := Element(scan.implements, cls);
            var v := FindClass(parents, params.items, cls, clsName);
            if v.Some? {
              clsName := clsName + v.value;
            }
          }
        }
      }
      assert items[..|items|] == items;
    }

    /** `scanSourceFolder(root, folder, prefix, extension)`, given what the scan returns. */
    method ScanSourceFolder(folder: string, prefix: string, extension: string, scan: ScanResult)
      modifies this
      ensures Current() == SourceScan(old(Current()), scan, folder, prefix, extension)
    {
      for n := 0 to |scan.classes.keys|
        invariant Current() == SourceClasses(old(Current()), scan, folder, prefix, extension, n)
      {
        ScanSourceClass(folder, prefix, extension, scan, n);
      }
    }

    /** The body of `scanSourceFolder`'s loop, for the `n`-th key of the scan's `classes`. */
    method ScanSourceClass(folder: string, prefix: string, extension: string, scan: ScanResult, n: nat)
      requires n < |scan.classes.keys|
      modifies this
      ensures Current() == ClassStep(old(Current()), scan, scan.classes.keys[n], FilePath(scan, n, folder, prefix, extension), true)
    {
      var cls := scan.classes.keys[n];
      KeysHaveValues(scan.classes, n);
      var filePath := GetRelativePath(scan.classes.vals[cls], folder, prefix) + extension;
      var items := Split(cls, ", ");
      var clsName := GetClass(scan, items);
      if clsName != "" {
        clsMap := Put(clsMap, clsName, filePath);
      }
    }

    /** `handleServiceEntry`'s loops: the registrations of every key of `clsMap`, as written or corrected. */
    method BuildServices(asWritten: bool) returns (stmts: seq<string>)
      requires Valid(Current())
      ensures stmts == if asWritten then RegistrationsAsWritten(Current()) else Registrations(Current())
    {
      stmts := [];
      for n := 0 to |clsMap.keys|
        invariant stmts == RegistrationsUpTo(Current(), n, asWritten)
      {
        var cls := clsMap.keys[n];
        KeysHaveValues(clsMap, n);
        var more := BuildClassRegistrations(clsParameters, cls, asWritten);
        stmts := stmts + more;
      }
    }

    /** `savePreloader(parent, folder, lines)`, with the merge's throw as a failure. */
    method SavePreloader(asWritten: bool, parent: string, folder: string, lines: seq<string>, packages: Option<string>) returns (r: Result<Generated, string>)
      requires Valid(Current())
      ensures r == Saved(Current(), asWritten, parent, folder, lines, packages)
    {
      var imports := BuildImports(clsMap);
      var services := BuildServices(asWritten);
      var sb := ExpandTemplate(lines, Expansion(imports, services));
      var merged := MergeImportStatements(sb, packages);
      if merged.Failure? {
        return Failure(merged.error);
      }
      r := Success(Generated(parent + folder + "/preload/preload.ts", merged.value));
    }

    /**
     * `main()`, given the folder the script runs from, the
     * `web.component.scan` property, what each scan returns and the
     * template the loader finds.
     */
    method Generate(asWritten: bool, folder: string, packages: Option<string>, packageScans: string -> Option<ScanResult>,
                    jsScan: ScanResult, tsScan: ScanResult, testScan: ScanResult, template: Option<string>)
      returns (r: Result<seq<Generated>, string>)
      requires Valid(Current())
      modifies this
      ensures Run(r, Current()) == PreloadRun(old(Current()), asWritten, folder, packages, packageScans, jsScan, tsScan, testScan, template)
    {
      var root := GetCurrentFolder(folder);
      var packageList := PackageList(packages);
      for i := 0 to |packageList|
        invariant Current() == PackagesScan(old(Current()), packageList[..i], packageScans)
      {
        assert packageList[..i + 1][..i] == packageList[..i];
        ScanPackage(packageList[i], packageScans(packageList[i]));
      }
      assert packageList[..|packageList|] == packageList;
      ScanSourceFolder("src", "..", ".js", jsScan);
      var checked := CheckTemplate(template);
      if checked.Failure? {
        return Failure(checked.error);
      }
      var lines := Split(checked.value, "\r\n");
      var src := SavePreloader(asWritten, root, "src", lines, packages);
      if src.Failure? {
        return Failure(src.error);
      }
      ScanSourceFolder("src", "../../src", ".ts", tsScan);
      ScanSourceFolder("tests", "..", ".ts", testScan);
      var tests := SavePreloader(asWritten, root, "tests", lines, packages);
      if tests.Failure? {
        return Failure(tests.error);
      }
      r := Success([src.value, tests.value]);
    }
  }
}
