/** `FastAPIScanner`: a forward pass over the trimmed lines of a Python file.
    A line holding `APIRouter(prefix="p")` sets the path prefix and yields
    nothing; a line holding `tags=[...]` replaces the tag list; then the four
    decorator patterns are tried in order and the first that matches yields
    the line's one endpoint, named after a `def` on the very next line.

    Unlike the other scanners this one joins the prefix and the literal by
    plain concatenation, without `combinePath`. */
module FastApi {
  import opened Optional
  import opened Strings
  import opened Patterns
  import opened Types
  import opened Sequences
  import Base

  /** The verbs of the decorator patterns, matched in any case. */
  const Verbs: seq<string> := ["get", "post", "put", "delete", "patch", "head", "options", "trace"]

  /** `@app.`, `router.`, `app.` and `^router.`, each followed by a verb and
      a quoted literal, tried in this order. */
  const DecoratorPatterns: seq<Matcher> := [
    Decorator("@app.", false, Verbs),
    Decorator("router.", false, Verbs),
    Decorator("app.", false, Verbs),
    Decorator("router.", true, Verbs)]

  /** `/prefix=["']([^"']+)["']/` */
  const PrefixArgument: Matcher := QuotedAfter("prefix=")

  /** `/tags=\[([^\]]+)\]/` */
  const TagsList: Matcher := Quoted("tags=", {'['}, {']'}, false, Anything)

  /** `/(?:async\s+)?def\s+(\w+)/` */
  const FunctionDef: Matcher := Keywords(["def"])

  /** The configuration the constructor uses when it is given none. */
  const DefaultConfig: ScannerConfig := ScannerConfig(["py"], ["venv", "__pycache__", "tests", "test"], Some(1024 * 1024))

  /** The fast-reject gate: a FastAPI import, and an application, a router
      or a decorator on one of them. */
  predicate IsValidFile(content: string) {
    && (Contains(content, "from fastapi import") || Contains(content, "import fastapi"))
    && (Contains(content, "FastAPI") || Contains(content, "APIRouter") || Contains(content, "@app.") || Contains(content, "@router."))
  }

  datatype State = State(currentPath: string, currentTags: seq<string>)

  /** `match[1].split(',').map(tag => tag.trim().replace(/['"]/g, ''))` */
  function ParseTags(list: string): (r: seq<string>)
    ensures |r| == |Split(list, ',')|
  {
    var pieces := Split(list, ',');
    seq(|pieces|, k requires 0 <= k < |pieces| => Without(Trim(pieces[k]), Quotes))
  }

  /** A line that sets the prefix, and so ends the line's processing. */
  predicate SetsPrefix(line: string) {
    Contains(line, "APIRouter(prefix=") && Find(line, PrefixArgument).Some?
  }

  /** The tag list after a line that does not set the prefix. */
  function TagsAfter(line: string, currentTags: seq<string>): seq<string> {
    if Contains(line, "tags=") then
      match Find(line, TagsList)
      case Some(g) => ParseTags(g.first)
      case None => currentTags
    else currentTags
  }

  /** The state after one line. */
  function Next(line: string, st: State): State {
    if SetsPrefix(line) then State(Find(line, PrefixArgument).value.first, st.currentTags)
    else State(st.currentPath, TagsAfter(line, st.currentTags))
  }

  function StateAt(lines: seq<string>, n: nat): State
    requires n <= |lines|
  {
    if n == 0 then State("", []) else Next(Trim(lines[n - 1]), StateAt(lines, n - 1))
  }

  /** The outcome of every decorator pattern on a line. */
  function Decorators(line: string): (r: seq<Option<Groups>>)
    ensures |r| == |DecoratorPatterns|
  {
    seq(|DecoratorPatterns|, k requires 0 <= k < |DecoratorPatterns| => Find(line, DecoratorPatterns[k]))
  }

  /** The function named by a `def` on the line after line `i`, or empty. */
  function FunctionName(lines: seq<string>, i: nat): string {
    if i + 1 < |lines| then FirstGroupOr(Trim(lines[i + 1]), FunctionDef, "") else ""
  }

  /** The endpoint of a decorator match on line `i` under `st`. */
  function Endpoint(lines: seq<string>, i: nat, st: State, g: Groups, filePath: string): ApiEndpoint {
    ApiEndpoint(st.currentPath + g.second, Join(st.currentTags, ", "), FunctionName(lines, i), filePath, i + 1, "python",
                Some(Upper(g.first)))
  }

  /** `parseEndpoint`: the endpoint of the first decorator pattern that matches. */
  function EndpointAt(lines: seq<string>, i: nat, st: State, filePath: string): Option<ApiEndpoint>
    requires i < |lines|
  {
    match FirstPresent(Decorators(Trim(lines[i])), 0)
    case Some(g) => Some(Endpoint(lines, i, st, g, filePath))
    case None => None
  }

  /** The endpoints line `i` yields when the lines before it left `before`:
      none on a prefix line, else the decorator's under the updated tags. */
  function LineEndpoints(lines: seq<string>, filePath: string, i: nat, before: State): seq<ApiEndpoint>
    requires i < |lines|
  {
    var line := Trim(lines[i]);
    if SetsPrefix(line) then []
    else
      match EndpointAt(lines, i, Next(line, before), filePath)
      case Some(e) => [e]
      case None => []
  }

  function PerLine(lines: seq<string>, filePath: string): (r: seq<seq<ApiEndpoint>>)
    ensures |r| == |lines|
  {
    seq(|lines|, i requires 0 <= i < |lines| => LineEndpoints(lines, filePath, i, StateAt(lines, i)))
  }

  function Parse(content: string, filePath: string): seq<ApiEndpoint> {
    Flatten(PerLine(Split(content, '\n'), filePath))
  }

  /** `processFile` of a scanner built with `config`: the size check first,
      then the gate, then the parse. */
  function ProcessFile(config: ScannerConfig, content: string, filePath: string): seq<ApiEndpoint> {
    if !Base.ValidateFileSize(config.maxFileSizeBytes, content) then []
    else if !IsValidFile(content) then []
    else Parse(content, filePath)
  }

  /** Every kept file can be read. */
  predicate Readable(files: seq<string>, disk: map<string, string>) {
    forall k :: 0 <= k < |files| ==> files[k] in disk
  }

  /** `scan`: the endpoints of every file `getFilesToScan` keeps, in the order
      of the files, or nothing at all when a read fails, since one failed read
      rejects the whole `Promise.all`. `disk` holds the files that can be read. */
  function Scan(config: ScannerConfig, found: seq<string>, disk: map<string, string>): Option<seq<ApiEndpoint>> {
    var files := Base.FilesToScan(found, config.excludePatterns);
    if Readable(files, disk) then Some(Flatten(FileLists(config, files, disk))) else None
  }

  // ---------------------------------------------------------------- the loops

  /** `parseEndpoint`: the decorator loop, returning on the first match. */
  method ParseEndpoint(lines: seq<string>, i: nat, currentPath: string, currentTags: seq<string>, filePath: string)
    returns (r: Option<ApiEndpoint>)
    requires i < |lines|
    ensures r == EndpointAt(lines, i, State(currentPath, currentTags), filePath)
  {
    var line := Trim(lines[i]);
    ghost var xs := Decorators(line);
    var k := 0;
    while k < |DecoratorPatterns|
      invariant 0 <= k <= |DecoratorPatterns|
      invariant FirstPresent(xs, 0) == FirstPresent(xs, k)
    {
      var m := Find(line, DecoratorPatterns[k]);
      assert xs[k] == m;
      if m.Some? {
        var functionName := "";
        if i + 1 < |lines| {
          var nextLine := Trim(lines[i + 1]);
          var funcMatch := Find(nextLine, FunctionDef);
          if funcMatch.Some? {
            functionName := funcMatch.value.first;
          }
        }
        return Some(ApiEndpoint(currentPath + m.value.second, Join(currentTags, ", "), functionName, filePath, i + 1, "python",
                                Some(Upper(m.value.first))));
      }
      k := k + 1;
    }
    return None;
  }

  /** One line of the pass: the prefix branch, the tags update, then the
      decorator. */
  method Step(lines: seq<string>, filePath: string, i: nat, st: State) returns (found: seq<ApiEndpoint>, after: State)
    requires i < |lines|
    ensures found == LineEndpoints(lines, filePath, i, st)
    ensures after == Next(Trim(lines[i]), st)
  {
    var line := Trim(lines[i]);
    var currentPath, currentTags := st.currentPath, st.currentTags;
    found := [];
    if Contains(line, "APIRouter(prefix=") {
      var prefixMatch := Find(line, PrefixArgument);
      if prefixMatch.Some? {
        currentPath := prefixMatch.value.first;
        after := State(currentPath, currentTags);
        return;
      }
    }
    if Contains(line, "tags=") {
      var tagsMatch := Find(line, TagsList);
      if tagsMatch.Some? {
        currentTags := ParseTags(tagsMatch.value.first);
      }
    }
    var endpoint := ParseEndpoint(lines, i, currentPath, currentTags, filePath);
    if endpoint.Some? {
      found := [endpoint.value];
    }
    after := State(currentPath, currentTags);
  }

  /** `parseFile`. */
  method ParseFile(content: string, filePath: string) returns (endpoints: seq<ApiEndpoint>)
    ensures endpoints == Parse(content, filePath)
  {
    var lines := Split(content, '\n');
    ghost var perLine := PerLine(lines, filePath);
    var st := State("", []);
    endpoints := [];
    var i := 0;
    while i < |lines|
      invariant 0 <= i <= |lines|
      invariant st == StateAt(lines, i)
      invariant endpoints == Flatten(perLine[..i])
    {
      FlattenStep(perLine, i);
      var found;
      found, st := Step(lines, filePath, i, st);
      endpoints := endpoints + found;
      i := i + 1;
    }
    assert perLine[..|lines|] == perLine;
  }

  // ---------------------------------------------------------------- what the pass keeps

  /** The outcome of the prefix pattern on every trimmed line that passes
      the `APIRouter(prefix=` guard. */
  function Prefixes(lines: seq<string>): (r: seq<Option<Groups>>)
    ensures |r| == |lines|
  {
    seq(|lines|, j requires 0 <= j < |lines| =>
      if Contains(Trim(lines[j]), "APIRouter(prefix=") then Find(Trim(lines[j]), PrefixArgument) else None)
  }

  /** The outcome of the tags pattern on every trimmed line that reaches the
      `tags=` check. */
  function TagLists(lines: seq<string>): (r: seq<Option<Groups>>)
    ensures |r| == |lines|
  {
    seq(|lines|, j requires 0 <= j < |lines| =>
      if !SetsPrefix(Trim(lines[j])) && Contains(Trim(lines[j]), "tags=") then Find(Trim(lines[j]), TagsList) else None)
  }

  /** The path prefix is the one the last `APIRouter(prefix="p")` line set,
      empty before any. */
  lemma PathLatest(lines: seq<string>, n: nat)
    requires n <= |lines|
    ensures StateAt(lines, n).currentPath == LastGroupOr(Prefixes(lines), n, "")
  {
    var xs := Prefixes(lines);
    var vs := seq(|lines| + 1, k requires 0 <= k <= |lines| => StateAt(lines, k).currentPath);
    forall k | 0 <= k < |lines|
      ensures vs[k + 1] == if xs[k].Some? then xs[k].value.first else vs[k]
    {
    }
    LatestFold(xs, vs, "", n);
  }

  /** The tags are those of the last `tags=[...]` line outside a prefix line,
      split, trimmed and unquoted; none before any. A line that sets the
      prefix never changes the tags, even when it lists some. */
  lemma TagsLatest(lines: seq<string>, n: nat)
    requires n <= |lines|
    ensures StateAt(lines, n).currentTags == match LastPresent(TagLists(lines), n) case Some(g) => ParseTags(g.first) case None => []
  {
    var xs := TagLists(lines);
    var vs := seq(|lines| + 1, k requires 0 <= k <= |lines| => StateAt(lines, k).currentTags);
    forall k | 0 <= k < |lines|
      ensures vs[k + 1] == if xs[k].Some? then ParseTags(xs[k].value.first) else vs[k]
    {
    }
    LatestOf(xs, vs, ParseTags, [], n);
  }

  /** Each tag is free of quotes and of commas. */
  lemma TagsClean(list: string)
    ensures forall t :: t in ParseTags(list) ==> ',' !in t && '\'' !in t && '"' !in t
  {
    var pieces := Split(list, ',');
    forall k | 0 <= k < |pieces|
      ensures ',' !in Without(Trim(pieces[k]), Quotes)
    {
      TrimSpec(pieces[k]);
      ContainsChars(pieces[k], Trim(pieces[k]));
    }
  }

  // ---------------------------------------------------------------- what a line yields

  /** The anchored `^router.` pattern matches only lines the unanchored
      `router.` pattern, tried before it, already matches: it never decides. */
  lemma FourthPatternDead(line: string)
    ensures FirstPresent(Decorators(line), 0) == FirstPresent(Decorators(line)[..3], 0)
  {
    var xs := Decorators(line);
    var ys := xs[..3];
    assert FirstPresent(xs, 4) == None && FirstPresent(ys, 3) == None;
    if xs[3].Some? {
      AnchoredDecorator(line, "router.", Verbs);
      assert FirstPresent(xs, 1) == xs[1] == FirstPresent(ys, 1);
    } else {
      assert FirstPresent(xs, 3) == FirstPresent(ys, 3);
      assert FirstPresent(xs, 2) == FirstPresent(ys, 2);
      assert FirstPresent(xs, 1) == FirstPresent(ys, 1);
    }
  }

  /** The verbs as the endpoint records them. */
  const UpperVerbs: seq<string> := ["GET", "POST", "PUT", "DELETE", "PATCH", "HEAD", "OPTIONS", "TRACE"]

  lemma UpperVerbsSpec()
    ensures forall k :: 0 <= k < |Verbs| ==> Upper(Verbs[k]) == UpperVerbs[k]
  {
    forall k | 0 <= k < |Verbs| ensures Upper(Verbs[k]) == UpperVerbs[k] {
      var v := Verbs[k];
      assert |Upper(v)| == |UpperVerbs[k]|;
      forall j | 0 <= j < |v| ensures Upper(v)[j] == UpperVerbs[k][j] {
      }
    }
  }

  /** What a decorator match puts in the endpoint: the verb upper-cased, one
      of the eight; the prefix followed by the literal, not normalised; the
      tags joined with `, `; the line number from 1. */
  lemma EndpointOf(lines: seq<string>, i: nat, st: State, k: nat, filePath: string)
    requires i < |lines| && k < |DecoratorPatterns| && Decorators(Trim(lines[i]))[k].Some?
    ensures var g := Decorators(Trim(lines[i]))[k].value; var e := Endpoint(lines, i, st, g, filePath);
      && e.httpMethod.Some? && e.httpMethod.value in UpperVerbs
      && e.apiPath == st.currentPath + g.second && |g.second| > 0
      && (forall q :: 0 <= q < |g.second| ==> g.second[q] !in Quotes)
      && e.className == Join(st.currentTags, ", ")
      && e.lineNumber == i + 1 && e.language == "python" && e.filePath == filePath
  {
    var line := Trim(lines[i]);
    var g := Decorators(line)[k].value;
    var m := DecoratorPatterns[k];
    assert Find(line, m) == Decorators(line)[k];
    DecoratorFound(line, m.prefix, m.anchored, Verbs);
    var v :| v in Verbs && Lower(g.first) == Lower(v);
    UpperIgnoresCase(g.first, v);
    UpperVerbsSpec();
  }

  /** The method name is the function a `def` on the next line defines, a
      run of word characters, or empty when there is none. */
  lemma FunctionNameSpec(lines: seq<string>, i: nat)
    ensures FunctionName(lines, i) == "" || IsIdentifier(FunctionName(lines, i))
    ensures FunctionName(lines, i) != "" <==> i + 1 < |lines| && Find(Trim(lines[i + 1]), FunctionDef).Some?
  {
    if i + 1 < |lines| && Find(Trim(lines[i + 1]), FunctionDef).Some? {
      KeywordsFound(Trim(lines[i + 1]), ["def"]);
    }
  }

  /** `e` is the endpoint of line `i`: the line does not set the prefix, and
      one of the first three patterns is the first to match it. */
  ghost predicate Emitted(lines: seq<string>, filePath: string, i: nat, e: ApiEndpoint)
    requires i < |lines|
  {
    var line := Trim(lines[i]);
    && !SetsPrefix(line)
    && exists k :: 0 <= k < 3 && Decorators(line)[k].Some? && (forall q :: 0 <= q < k ==> Decorators(line)[q].None?)
         && e == Endpoint(lines, i, Next(line, StateAt(lines, i)), Decorators(line)[k].value, filePath)
  }

  /** Where the first present entry of a list lies within its first three,
      it is the entry of the one index below 3 with nothing present before. */
  lemma FirstOfThree<T>(xs: seq<Option<T>>)
    requires |xs| >= 3 && FirstPresent(xs, 0) == FirstPresent(xs[..3], 0)
    ensures forall k :: 0 <= k < 3 && xs[k].Some? && (forall q :: 0 <= q < k ==> xs[q].None?) ==> xs[k] == FirstPresent(xs, 0)
    ensures FirstPresent(xs, 0).None? ==> forall k :: 0 <= k < 3 ==> xs[k].None?
    ensures FirstPresent(xs, 0).Some? ==>
      exists k :: 0 <= k < 3 && xs[k] == FirstPresent(xs, 0) && forall q :: 0 <= q < k ==> xs[q].None?
  {
    var ys := xs[..3];
    assert forall k :: 0 <= k < 3 ==> ys[k] == xs[k];
    FirstPresentLeftmost(ys, 0);
  }

  /** Line `i` yields at most one endpoint, and yields `e` exactly when it
      emits `e`. */
  lemma LineEndpointsExactly(lines: seq<string>, filePath: string, i: nat)
    requires i < |lines|
    ensures |PerLine(lines, filePath)[i]| <= 1
    ensures forall e :: e in PerLine(lines, filePath)[i] <==> Emitted(lines, filePath, i, e)
  {
    var line := Trim(lines[i]);
    var xs := Decorators(line);
    var st := Next(line, StateAt(lines, i));
    FourthPatternDead(line);
    FirstOfThree(xs);
    assert PerLine(lines, filePath)[i] == LineEndpoints(lines, filePath, i, StateAt(lines, i));
    if !SetsPrefix(line) && FirstPresent(xs, 0).Some? {
      var e := Endpoint(lines, i, st, FirstPresent(xs, 0).value, filePath);
      assert PerLine(lines, filePath)[i] == [e];
      var p :| 0 <= p < 3 && xs[p] == FirstPresent(xs, 0) && forall q :: 0 <= q < p ==> xs[q].None?;
      assert Emitted(lines, filePath, i, e);
    } else {
      assert PerLine(lines, filePath)[i] == [];
    }
  }

  /** Every endpoint of a file is emitted by one of its lines. */
  lemma Provenance(content: string, filePath: string, e: ApiEndpoint)
    requires e in Parse(content, filePath)
    ensures exists i :: 0 <= i < |Split(content, '\n')| && Emitted(Split(content, '\n'), filePath, i, e)
  {
    var lines := Split(content, '\n');
    FlattenMember(PerLine(lines, filePath), e);
    var i :| 0 <= i < |lines| && e in PerLine(lines, filePath)[i];
    LineEndpointsExactly(lines, filePath, i);
  }

  /** Every endpoint a line emits is in the file's list. */
  lemma Completeness(content: string, filePath: string, i: nat, e: ApiEndpoint)
    requires i < |Split(content, '\n')| && Emitted(Split(content, '\n'), filePath, i, e)
    ensures e in Parse(content, filePath)
  {
    var lines := Split(content, '\n');
    LineEndpointsExactly(lines, filePath, i);
    FlattenMember(PerLine(lines, filePath), e);
  }

  /** Each line yields at most one endpoint, numbered after the line and
      carrying the file's path. */
  lemma PerLineShape(lines: seq<string>, filePath: string)
    ensures forall i :: 0 <= i < |lines| ==> |PerLine(lines, filePath)[i]| <= 1
    ensures forall i, e :: 0 <= i < |lines| && e in PerLine(lines, filePath)[i] ==>
      e.lineNumber == 1 + i && e.filePath == filePath
  {
    forall i | 0 <= i < |lines|
      ensures |PerLine(lines, filePath)[i]| <= 1
      ensures forall e :: e in PerLine(lines, filePath)[i] ==> e.lineNumber == 1 + i && e.filePath == filePath
    {
      LineEndpointsExactly(lines, filePath, i);
    }
  }

  /** Endpoints come out in the strict order of their lines, numbered from 1,
      one per line at most. */
  lemma LineOrder(content: string, filePath: string)
    ensures var r := Parse(content, filePath);
      forall a :: 0 <= a < |r| ==> 1 <= r[a].lineNumber <= |Split(content, '\n')|
    ensures var r := Parse(content, filePath);
      forall a, b :: 0 <= a < b < |r| ==> r[a].lineNumber < r[b].lineNumber
    ensures |Parse(content, filePath)| <= |Split(content, '\n')|
  {
    var lines := Split(content, '\n');
    var perLine := PerLine(lines, filePath);
    PerLineShape(lines, filePath);
    FlattenNumbered(perLine, (e: ApiEndpoint) => e.lineNumber, 1);
    FlattenSingles(perLine, (e: ApiEndpoint) => e.lineNumber, 1);
    FlattenLength(perLine, 1);
  }

  /** Every endpoint of a file names that file. */
  lemma ParseFilePath(content: string, filePath: string)
    ensures forall e :: e in Parse(content, filePath) ==> e.filePath == filePath
  {
    var lines := Split(content, '\n');
    PerLineShape(lines, filePath);
    forall e | e in Parse(content, filePath) ensures e.filePath == filePath {
      FlattenMember(PerLine(lines, filePath), e);
    }
  }

  // ---------------------------------------------------------------- files and the scan

  /** Under a set, non-zero limit a file beyond the limit in code units, or
      one failing the gate, yields nothing; a valid file that fits even at
      two code units per character, or any valid file when the limit is
      unset or zero, is parsed. */
  lemma ProcessFileGate(config: ScannerConfig, content: string, filePath: string)
    ensures config.maxFileSizeBytes.Some? && config.maxFileSizeBytes.value != 0 && |content| > config.maxFileSizeBytes.value
      ==> ProcessFile(config, content, filePath) == []
    ensures !IsValidFile(content) ==> ProcessFile(config, content, filePath) == []
    ensures (config.maxFileSizeBytes.None? || config.maxFileSizeBytes.value == 0 || 2 * |content| <= config.maxFileSizeBytes.value) && IsValidFile(content)
      ==> ProcessFile(config, content, filePath) == Parse(content, filePath)
  {
    if config.maxFileSizeBytes.Some? && config.maxFileSizeBytes.value != 0 {
      Base.SizeCheckBounds(config.maxFileSizeBytes.value, content);
    }
  }

  /** The default-built scanner skips a file beyond a mebibyte of code
      units, and parses a valid file of at most half a mebibyte characters. */
  lemma DefaultSizeLimit(content: string, filePath: string)
    ensures |content| > 1024 * 1024 ==> ProcessFile(DefaultConfig, content, filePath) == []
    ensures 2 * |content| <= 1024 * 1024 && IsValidFile(content) ==> ProcessFile(DefaultConfig, content, filePath) == Parse(content, filePath)
  {
    ProcessFileGate(DefaultConfig, content, filePath);
  }

  /** The scan fails exactly when a found file that no exclude pattern
      removes cannot be read. */
  lemma ScanFails(config: ScannerConfig, found: seq<string>, disk: map<string, string>)
    ensures Scan(config, found, disk).None? <==>
      exists f :: f in found && !Base.Excluded(f, config.excludePatterns) && f !in disk
  {
    var files := Base.FilesToScan(found, config.excludePatterns);
    if !Readable(files, disk) {
      var k :| 0 <= k < |files| && files[k] !in disk;
      Base.FilesToScanMember(found, config.excludePatterns, files[k]);
    } else {
      forall f | f in found && !Base.Excluded(f, config.excludePatterns) ensures f in disk {
        Base.FilesToScanMember(found, config.excludePatterns, f);
      }
    }
  }

  /** The files' lists, in the order of the kept files. */
  function FileLists(config: ScannerConfig, files: seq<string>, disk: map<string, string>): (r: seq<seq<ApiEndpoint>>)
    requires Readable(files, disk)
    ensures |r| == |files|
  {
    seq(|files|, k requires 0 <= k < |files| => ProcessFile(config, disk[files[k]], files[k]))
  }

  /** Every endpoint of a successful scan comes from a kept file that passed
      the gate, and is one of that file's endpoints. */
  lemma ScanProvenance(config: ScannerConfig, found: seq<string>, disk: map<string, string>, e: ApiEndpoint)
    requires Scan(config, found, disk).Some? && e in Scan(config, found, disk).value
    ensures e.filePath in found && !Base.Excluded(e.filePath, config.excludePatterns) && e.filePath in disk
    ensures IsValidFile(disk[e.filePath]) && e in Parse(disk[e.filePath], e.filePath)
  {
    var files := Base.FilesToScan(found, config.excludePatterns);
    var xss := FileLists(config, files, disk);
    assert Scan(config, found, disk).value == Flatten(xss);
    FlattenMember(xss, e);
    var k :| 0 <= k < |files| && e in xss[k];
    var content := disk[files[k]];
    assert ProcessFile(config, content, files[k]) == Parse(content, files[k]) && IsValidFile(content);
    ParseFilePath(content, files[k]);
    Base.FilesToScanMember(found, config.excludePatterns, files[k]);
  }

  /** Every endpoint of a kept file is in the result of a successful scan. */
  lemma ScanCompleteness(config: ScannerConfig, found: seq<string>, disk: map<string, string>, f: string, e: ApiEndpoint)
    requires Scan(config, found, disk).Some?
    requires f in found && !Base.Excluded(f, config.excludePatterns)
    requires f in disk && e in ProcessFile(config, disk[f], f)
    ensures e in Scan(config, found, disk).value
  {
    var files := Base.FilesToScan(found, config.excludePatterns);
    Base.FilesToScanMember(found, config.excludePatterns, f);
    var k :| 0 <= k < |files| && files[k] == f;
    var xss := FileLists(config, files, disk);
    assert e in xss[k];
    FlattenMember(xss, e);
    assert Scan(config, found, disk).value == Flatten(xss);
  }
}
