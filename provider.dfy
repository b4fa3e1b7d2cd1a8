/** `ApiEndpointProvider`, the older Spring-only pipeline: it keeps its own
    endpoint list of the record in `models/ApiEndpoint.ts` (a `path` and no
    verb), fills it by scanning every workspace folder whose workspace has a
    Spring Boot pom, reads files through its own bounded content cache, and
    filters the list by a query.

    `parseJavaFile` runs the very pass of `SpringBootScanner.parseFile`, line
    for line, and differs only in the record it pushes; the model runs
    `SpringBoot.ParseFile` and converts. */
module Provider {
  import opened Optional
  import opened Strings
  import opened Types
  import opened Sequences
  import SpringBoot
  import FileCache
  import CheckProject

  /** The record of `models/ApiEndpoint.ts`. */
  datatype LegacyEndpoint = LegacyEndpoint(path: string, className: string, methodName: string, filePath: string,
                                           lineNumber: nat, language: string)

  function Legacy(e: ApiEndpoint): LegacyEndpoint {
    LegacyEndpoint(e.apiPath, e.className, e.methodName, e.filePath, e.lineNumber, e.language)
  }

  function Legacies(es: seq<ApiEndpoint>): (r: seq<LegacyEndpoint>)
    ensures |r| == |es|
  {
    seq(|es|, k requires 0 <= k < |es| => Legacy(es[k]))
  }

  /** `isControllerFile`. */
  predicate IsControllerFile(content: string) {
    Contains(content, "@RestController") || Contains(content, "@Controller") || Contains(content, "@RequestMapping")
  }

  /** `detectProjectType`, given the first `pom.xml` of the workspace. */
  function DetectProjectType(pom: CheckProject.Manifest): string {
    if pom.Text? && Contains(pom.content, "spring-boot") then "spring-boot" else "unknown"
  }

  /** What the read of a file gives: its text, or nothing when it fails. */
  function DiskRead(disk: map<string, string>, path: string): Option<string> {
    if path in disk then Some(disk[path]) else None
  }

  /** The endpoints of one file whose read gave `read`: none when the read
      failed or the file is no controller file. */
  function FileEndpoints(read: Option<string>, filePath: string): seq<LegacyEndpoint> {
    match read
    case Some(text) => if IsControllerFile(text) then Legacies(SpringBoot.Parse(text, filePath)) else []
    case None => []
  }

  /** `scanSpringBootProject` over `files`, read in order through the cache
      `c`: the endpoints found, and the cache after. */
  function ScanFiles(c: FileCache.Snapshot, files: seq<string>, disk: map<string, string>): (r: (seq<LegacyEndpoint>, FileCache.Snapshot))
    requires FileCache.WellFormed(c)
    ensures FileCache.WellFormed(r.1)
  {
    if |files| == 0 then ([], c)
    else
      var prev := ScanFiles(c, files[..|files| - 1], disk);
      var f := files[|files| - 1];
      var outcome := FileCache.Read(prev.1, f, DiskRead(disk, f));
      (prev.0 + FileEndpoints(outcome.content, f), outcome.cache)
  }

  /** The loop of `scanWorkspace` over `folders`, each given by its Java
      files; every folder is judged by the same workspace-wide pom. */
  function ScanFolders(c: FileCache.Snapshot, folders: seq<seq<string>>, pom: CheckProject.Manifest, disk: map<string, string>)
    : (r: (seq<LegacyEndpoint>, FileCache.Snapshot))
    requires FileCache.WellFormed(c)
    ensures FileCache.WellFormed(r.1)
  {
    if |folders| == 0 then ([], c)
    else
      var prev := ScanFolders(c, folders[..|folders| - 1], pom, disk);
      if DetectProjectType(pom) == "spring-boot" then
        var next := ScanFiles(prev.1, folders[|folders| - 1], disk);
        (prev.0 + next.0, next.1)
      else prev
  }

  /** Whether one of the three texts holds the lowercased query. */
  predicate Matches(e: LegacyEndpoint, lowerQuery: string) {
    Contains(Lower(e.path), lowerQuery) || Contains(Lower(e.className), lowerQuery) || Contains(Lower(e.methodName), lowerQuery)
  }

  /** `endpoints.filter(...)` against an already lowercased query. */
  function Filter(es: seq<LegacyEndpoint>, lowerQuery: string): seq<LegacyEndpoint> {
    if |es| == 0 then []
    else Filter(es[..|es| - 1], lowerQuery) + if Matches(es[|es| - 1], lowerQuery) then [es[|es| - 1]] else []
  }

  // ---------------------------------------------------------------- the provider itself

  class ApiEndpointProvider {
    var endpoints: seq<LegacyEndpoint>
    const fileContentCache: FileCache.ContentCache

    ghost predicate Valid()
      reads this, fileContentCache
    {
      fileContentCache.Valid()
    }

    constructor ()
      ensures Valid() && endpoints == [] && fileContentCache.Snap() == FileCache.Empty
      ensures fresh(fileContentCache)
    {
      endpoints := [];
      fileContentCache := new FileCache.ContentCache();
    }

    /** `readFileContent`: the same cache discipline as `FileUtils.readFile`. */
    method ReadFileContent(filePath: string, disk: map<string, string>) returns (content: Option<string>)
      requires Valid()
      modifies fileContentCache
      ensures Valid()
      ensures FileCache.Outcome(content, fileContentCache.Snap()) ==
        FileCache.Read(old(fileContentCache.Snap()), filePath, DiskRead(disk, filePath))
    {
      content := fileContentCache.ReadFile(filePath, DiskRead(disk, filePath));
    }

    /** `parseJavaFile`: push the legacy record of every endpoint the Spring
        pass finds. */
    method ParseJavaFile(content: string, filePath: string)
      modifies this
      ensures endpoints == old(endpoints) + Legacies(SpringBoot.Parse(content, filePath))
    {
      var found := SpringBoot.ParseFile(content, filePath);
      var k := 0;
      while k < |found|
        invariant 0 <= k <= |found|
        invariant endpoints == old(endpoints) + Legacies(found[..k])
      {
        assert Legacies(found[..k + 1]) == Legacies(found[..k]) + [Legacy(found[k])];
        endpoints := endpoints + [Legacy(found[k])];
        k := k + 1;
      }
      assert found[..|found|] == found;
    }

    /** One turn of the loop of `scanSpringBootProject`: read the file
        through the cache and parse it when it is a controller file. */
    method ScanFile(filePath: string, disk: map<string, string>)
      requires Valid()
      modifies this, fileContentCache
      ensures Valid()
      ensures var outcome := FileCache.Read(old(fileContentCache.Snap()), filePath, DiskRead(disk, filePath));
        endpoints == old(endpoints) + FileEndpoints(outcome.content, filePath) && fileContentCache.Snap() == outcome.cache
    {
      var content := ReadFileContent(filePath, disk);
      if content.Some? && IsControllerFile(content.value) {
        ParseJavaFile(content.value, filePath);
      }
    }

    /** `scanSpringBootProject`, the files taken in order. */
    method ScanSpringBootProject(files: seq<string>, disk: map<string, string>)
      requires Valid()
      modifies this, fileContentCache
      ensures Valid()
      ensures var r := ScanFiles(old(fileContentCache.Snap()), files, disk);
        endpoints == old(endpoints) + r.0 && fileContentCache.Snap() == r.1
    {
      ghost var c0 := fileContentCache.Snap();
      ghost var start := endpoints;
      var i := 0;
      while i < |files|
        invariant 0 <= i <= |files| && Valid()
        invariant endpoints == start + ScanFiles(c0, files[..i], disk).0
        invariant fileContentCache.Snap() == ScanFiles(c0, files[..i], disk).1
      {
        ghost var prev := ScanFiles(c0, files[..i], disk);
        ghost var outcome := FileCache.Read(prev.1, files[i], DiskRead(disk, files[i]));
        ScanFilesStep(c0, files, i, disk);
        ScanFile(files[i], disk);
        AppendRegroup(start, prev.0, FileEndpoints(outcome.content, files[i]));
        assert fileContentCache.Snap() == outcome.cache;
        i := i + 1;
      }
      assert files[..|files|] == files;
    }

    /** `scanWorkspace`: the list is emptied first, and stays empty without
        workspace folders. */
    method ScanWorkspace(folders: Option<seq<seq<string>>>, pom: CheckProject.Manifest, disk: map<string, string>)
      requires Valid()
      modifies this, fileContentCache
      ensures Valid()
      ensures folders.None? ==> endpoints == [] && fileContentCache.Snap() == old(fileContentCache.Snap())
      ensures folders.Some? ==> var r := ScanFolders(old(fileContentCache.Snap()), folders.value, pom, disk);
        endpoints == r.0 && fileContentCache.Snap() == r.1
    {
      endpoints := [];
      if folders.None? {
        return;
      }
      var fs := folders.value;
      ghost var c0 := fileContentCache.Snap();
      var i := 0;
      while i < |fs|
        invariant 0 <= i <= |fs| && Valid()
        invariant endpoints == ScanFolders(c0, fs[..i], pom, disk).0
        invariant fileContentCache.Snap() == ScanFolders(c0, fs[..i], pom, disk).1
      {
        assert fs[..i + 1][..i] == fs[..i];
        var projectType := DetectProjectType(pom);
        if projectType == "spring-boot" {
          ScanSpringBootProject(fs[i], disk);
        }
        i := i + 1;
      }
      assert fs[..|fs|] == fs;
    }

    /** `searchEndpoints`: the endpoints any of whose path, class or method
        name holds the query, ignoring case. */
    function SearchEndpoints(query: string): (r: seq<LegacyEndpoint>)
      reads this
      ensures forall e :: e in r <==> e in endpoints && Matches(e, Lower(query))
      ensures exists positions :: KeptAt(endpoints, Lower(query), r, positions)
    {
      FilterExactly(endpoints, Lower(query));
      FilterKept(endpoints, Lower(query));
      Filter(endpoints, Lower(query))
    }
  }

  // ---------------------------------------------------------------- properties

  /** The filter keeps exactly the matching endpoints. */
  lemma {:induction false} FilterExactly(es: seq<LegacyEndpoint>, lowerQuery: string)
    ensures forall e :: e in Filter(es, lowerQuery) <==> e in es && Matches(e, lowerQuery)
    decreases |es|
  {
    if |es| > 0 {
      FilterExactly(es[..|es| - 1], lowerQuery);
      assert es == es[..|es| - 1] + [es[|es| - 1]];
    }
  }

  /** `r` is the sublist of `es` at `positions`: strictly increasing
      positions of `es`, exactly those whose endpoint matches. So `r` keeps
      every matching endpoint, duplicates included, in the order of `es`. */
  predicate KeptAt(es: seq<LegacyEndpoint>, lowerQuery: string, r: seq<LegacyEndpoint>, positions: seq<nat>) {
    && |positions| == |r|
    && (forall k :: 0 <= k < |positions| ==> positions[k] < |es| && es[positions[k]] == r[k])
    && (forall k, l :: 0 <= k < l < |positions| ==> positions[k] < positions[l])
    && (forall j :: 0 <= j < |es| ==> (j in positions <==> Matches(es[j], lowerQuery)))
  }

  /** The filter keeps the matching endpoints at strictly increasing
      positions, and every matching position: an order-preserving sublist
      that drops no match, not even a repeated one. */
  lemma {:induction false} FilterSublist(es: seq<LegacyEndpoint>, lowerQuery: string) returns (positions: seq<nat>)
    ensures |positions| == |Filter(es, lowerQuery)|
    ensures forall k :: 0 <= k < |positions| ==> positions[k] < |es| && es[positions[k]] == Filter(es, lowerQuery)[k]
    ensures forall k, l :: 0 <= k < l < |positions| ==> positions[k] < positions[l]
    ensures forall j :: 0 <= j < |es| ==> (j in positions <==> Matches(es[j], lowerQuery))
    decreases |es|
  {
    if |es| == 0 {
      positions := [];
    } else {
      var n := |es| - 1;
      var front := es[..n];
      positions := FilterSublist(front, lowerQuery);
      assert forall k :: 0 <= k < |positions| ==> positions[k] < n;
      assert forall j :: 0 <= j < n ==> front[j] == es[j];
      assert Filter(es, lowerQuery) == Filter(front, lowerQuery) + (if Matches(es[n], lowerQuery) then [es[n]] else []);
      if Matches(es[n], lowerQuery) {
        positions := positions + [n];
      }
    }
  }

  /** The filter's result is the sublist of `es` at some positions, as
      `KeptAt` says. */
  lemma FilterKept(es: seq<LegacyEndpoint>, lowerQuery: string)
    ensures exists positions :: KeptAt(es, lowerQuery, Filter(es, lowerQuery), positions)
  {
    var positions := FilterSublist(es, lowerQuery);
    assert KeptAt(es, lowerQuery, Filter(es, lowerQuery), positions);
  }

  /** The empty query keeps every endpoint, in order: the empty text occurs
      in every path. */
  lemma {:induction false} EmptyQueryKeepsAll(es: seq<LegacyEndpoint>)
    ensures Filter(es, Lower("")) == es
    decreases |es|
  {
    if |es| > 0 {
      EmptyQueryKeepsAll(es[..|es| - 1]);
      assert StartsAt(Lower(es[|es| - 1].path), 0, "");
    }
  }

  /** The module-wide gate of the provider is the Spring scanner's. */
  lemma ControllerFileIsSpringGate(content: string)
    ensures IsControllerFile(content) <==> SpringBoot.IsValidFile(content)
  {
  }

  /** Every legacy record of a Java file comes from an annotation line at or
      below a controller annotation, is numbered after it, names the method
      the lookahead found, and is marked `java`. */
  lemma JavaFileRecords(content: string, filePath: string, e: LegacyEndpoint)
    requires e in Legacies(SpringBoot.Parse(content, filePath))
    ensures var lines := Split(content, '\n');
      && 1 <= e.lineNumber <= |lines| && e.filePath == filePath && e.language == "java" && e.methodName != ""
      && e.methodName == SpringBoot.LookaheadName(lines, e.lineNumber)
      && exists j :: 0 <= j < e.lineNumber && SpringBoot.ControllerLine(Trim(lines[j]))
  {
    var lines := Split(content, '\n');
    var es := SpringBoot.Parse(content, filePath);
    var k :| 0 <= k < |es| && e == Legacy(es[k]);
    SpringBoot.Provenance(content, filePath, es[k]);
    var i :| 0 <= i < |lines| && SpringBoot.Emitted(lines, filePath, i, es[k]);
    EmittedRecord(lines, filePath, i, es[k]);
  }

  /** The legacy record of an endpoint emitted for line `i`. */
  lemma EmittedRecord(lines: seq<string>, filePath: string, i: nat, a: ApiEndpoint)
    requires i < |lines| && SpringBoot.Emitted(lines, filePath, i, a)
    ensures var e := Legacy(a);
      && 1 <= e.lineNumber <= |lines| && e.filePath == filePath && e.language == "java" && e.methodName != ""
      && e.methodName == SpringBoot.LookaheadName(lines, e.lineNumber)
      && exists j :: 0 <= j < e.lineNumber && SpringBoot.ControllerLine(Trim(lines[j]))
  {
    SpringBoot.ControllerAt(lines, i + 1);
  }

  /** One more file of a scan. */
  lemma ScanFilesStep(c: FileCache.Snapshot, files: seq<string>, i: nat, disk: map<string, string>)
    requires FileCache.WellFormed(c) && i < |files|
    ensures var prev := ScanFiles(c, files[..i], disk);
      var outcome := FileCache.Read(prev.1, files[i], DiskRead(disk, files[i]));
      ScanFiles(c, files[..i + 1], disk) == (prev.0 + FileEndpoints(outcome.content, files[i]), outcome.cache)
  {
    assert files[..i + 1][..i] == files[..i];
  }

  /** Every record a file scan finds comes from one of the files, names it,
      and is marked `java`. */
  lemma {:induction false} ScanFilesRecords(c: FileCache.Snapshot, files: seq<string>, disk: map<string, string>, e: LegacyEndpoint)
    requires FileCache.WellFormed(c) && e in ScanFiles(c, files, disk).0
    ensures e.filePath in files && e.language == "java"
    decreases |files|
  {
    var init := files[..|files| - 1];
    var f := files[|files| - 1];
    var prev := ScanFiles(c, init, disk);
    if e in prev.0 {
      ScanFilesRecords(c, init, disk, e);
    } else {
      var outcome := FileCache.Read(prev.1, f, DiskRead(disk, f));
      JavaFileRecords(outcome.content.value, f, e);
    }
  }

  /** A workspace whose pom does not mention Spring Boot yields no endpoints
      and leaves the cache alone. */
  lemma {:induction false} NotSpringScansNothing(c: FileCache.Snapshot, folders: seq<seq<string>>, pom: CheckProject.Manifest,
                                                 disk: map<string, string>)
    requires FileCache.WellFormed(c) && !(pom.Text? && Contains(pom.content, "spring-boot"))
    ensures ScanFolders(c, folders, pom, disk) == ([], c)
    decreases |folders|
  {
    if |folders| > 0 {
      NotSpringScansNothing(c, folders[..|folders| - 1], pom, disk);
    }
  }
}
