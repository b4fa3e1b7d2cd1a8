/** `NestScanner`: a forward pass over the trimmed lines of a TypeScript or
    JavaScript file. A line holding `@Controller` sets the base route from
    `@Controller('p')`, takes the class from the next `export class X` line
    below it, and yields nothing; on any other line each of the five verb
    decorators the line contains yields an endpoint, its path the decorator's
    literal (or `/`), its method name the first `name(` call on a later line.

    `StateAt`, `LineEndpoints` and `Parse` say what the pass computes;
    `ParseFile` is the loop itself, proved to compute `Parse`. */
module Nest {
  import opened Optional
  import opened Strings
  import opened Patterns
  import opened Paths
  import opened Types
  import opened Sequences

  /** The fast-reject gate; `@Patch` is not among the markers. */
  predicate IsValidFile(content: string) {
    && Contains(content, "@nestjs/common")
    && (|| Contains(content, "@Controller") || Contains(content, "@Get") || Contains(content, "@Post")
        || Contains(content, "@Put") || Contains(content, "@Delete"))
  }

  /** `/@Controller\(['"]([^'"]*)['"]\)/` */
  const ControllerRoute: Matcher := Quoted("@Controller(", Quotes, Quotes, true, CloseParen)

  /** `/export\s+class\s+(\w+)/` */
  const ExportClass: Matcher := Keywords(["export", "class"])

  /** `/(?:async\s+)?(\w+)\s*\(/` */
  const MethodCall: Matcher := WordCall

  /** A row of `decoratorMap`: the decorator's name and its verb. */
  datatype Mapping = Mapping(decorator: string, verb: string)

  /** `decoratorMap`, in its insertion order. */
  const DecoratorMap: seq<Mapping> := [
    Mapping("Get", "GET"), Mapping("Post", "POST"), Mapping("Put", "PUT"),
    Mapping("Delete", "DELETE"), Mapping("Patch", "PATCH")]

  /** `new RegExp(`@${decorator}\\(['"]([^'"]*)['"](\\)|$)`)` */
  function PathPattern(decorator: string): Matcher {
    Quoted("@" + decorator + "(", Quotes, Quotes, true, CloseParenOrEnd)
  }

  /** The decorator's literal, or `/` when the line has none. */
  function DecoratorPath(line: string, decorator: string): string {
    FirstGroupOr(line, PathPattern(decorator), "/")
  }

  // ---------------------------------------------------------------- the two lookaheads

  /** The `export class` pattern on every line, untrimmed, as the class
      lookahead reads them. */
  function ClassLines(lines: seq<string>): (r: seq<Option<Groups>>)
    ensures |r| == |lines|
  {
    seq(|lines|, j requires 0 <= j < |lines| => Find(lines[j], ExportClass))
  }

  /** The `name(` pattern on every line, untrimmed, as the method lookahead
      reads them. */
  function CallLines(lines: seq<string>): (r: seq<Option<Groups>>)
    ensures |r| == |lines|
  {
    seq(|lines|, j requires 0 <= j < |lines| => Find(lines[j], MethodCall))
  }

  /** The class of the first `export class` line at `start` or later, else `currentClass`. */
  function LookaheadClass(lines: seq<string>, start: nat, currentClass: string): string
    requires start <= |lines|
  {
    match FirstPresent(ClassLines(lines), start)
    case Some(g) => g.first
    case None => currentClass
  }

  /** The name of the first `name(` call at `start` or later, else `unknown`. */
  function LookaheadMethod(lines: seq<string>, start: nat): string
    requires start <= |lines|
  {
    match FirstPresent(CallLines(lines), start)
    case Some(g) => g.first
    case None => "unknown"
  }

  // ---------------------------------------------------------------- the pass

  datatype State = State(currentClass: string, baseRoute: string)

  /** A line that updates the controller and then ends the line's processing. */
  predicate ControllerLine(line: string) {
    Contains(line, "@Controller")
  }

  /** The state after line `i`: a controller line may set the base route and
      the class; any other line leaves both alone. */
  function Next(lines: seq<string>, i: nat, st: State): State
    requires i < |lines|
  {
    var line := Trim(lines[i]);
    if ControllerLine(line) then
      State(LookaheadClass(lines, i + 1, st.currentClass), FirstGroupOr(line, ControllerRoute, st.baseRoute))
    else st
  }

  /** The state the first `n` lines leave behind. */
  function StateAt(lines: seq<string>, n: nat): State
    requires n <= |lines|
  {
    if n == 0 then State("", "") else Next(lines, n - 1, StateAt(lines, n - 1))
  }

  /** The endpoint decorator row `k` yields on line `i` under `st`. */
  function Endpoint(lines: seq<string>, filePath: string, i: nat, st: State, k: nat): ApiEndpoint
    requires i < |lines| && k < |DecoratorMap|
  {
    var line := Trim(lines[i]);
    ApiEndpoint(CombinePath([st.baseRoute, DecoratorPath(line, DecoratorMap[k].decorator)]), st.currentClass,
                LookaheadMethod(lines, i + 1), filePath, i + 1, ScriptLanguage(filePath), Some(DecoratorMap[k].verb))
  }

  /** Whether line `i` contains the decorator of row `k`. */
  predicate HasDecorator(lines: seq<string>, i: nat, k: nat)
    requires i < |lines| && k < |DecoratorMap|
  {
    Contains(Trim(lines[i]), "@" + DecoratorMap[k].decorator)
  }

  /** The endpoints of the first `k` rows of the table on line `i`. */
  function DecoratorEndpoints(lines: seq<string>, filePath: string, i: nat, st: State, k: nat): seq<ApiEndpoint>
    requires i < |lines| && k <= |DecoratorMap|
  {
    if k == 0 then []
    else
      DecoratorEndpoints(lines, filePath, i, st, k - 1)
      + if HasDecorator(lines, i, k - 1) then [Endpoint(lines, filePath, i, st, k - 1)] else []
  }

  /** The endpoints line `i` yields when the lines before it left `st`. */
  function LineEndpoints(lines: seq<string>, filePath: string, i: nat, st: State): seq<ApiEndpoint>
    requires i < |lines|
  {
    if ControllerLine(Trim(lines[i])) then [] else DecoratorEndpoints(lines, filePath, i, st, |DecoratorMap|)
  }

  function PerLine(lines: seq<string>, filePath: string): (r: seq<seq<ApiEndpoint>>)
    ensures |r| == |lines|
  {
    seq(|lines|, i requires 0 <= i < |lines| => LineEndpoints(lines, filePath, i, StateAt(lines, i)))
  }

  function Parse(content: string, filePath: string): seq<ApiEndpoint> {
    Flatten(PerLine(Split(content, '\n'), filePath))
  }

  // ---------------------------------------------------------------- the loops

  /** The `j` loop of a controller line: the first `export class` below it. */
  method FindClass(lines: seq<string>, start: nat, currentClass: string) returns (r: string)
    requires start <= |lines|
    ensures r == LookaheadClass(lines, start, currentClass)
  {
    r := currentClass;
    var j := start;
    while j < |lines|
      invariant start <= j <= |lines|
      invariant LookaheadClass(lines, j, currentClass) == LookaheadClass(lines, start, currentClass)
    {
      var classMatch := Find(lines[j], ExportClass);
      assert ClassLines(lines)[j] == classMatch;
      if classMatch.Some? {
        r := classMatch.value.first;
        return;
      }
      j := j + 1;
    }
  }

  /** The `j` loop of a decorator: the first `name(` call below it. */
  method FindMethodName(lines: seq<string>, start: nat) returns (methodName: string)
    requires start <= |lines|
    ensures methodName == LookaheadMethod(lines, start)
  {
    methodName := "unknown";
    var j := start;
    while j < |lines|
      invariant start <= j <= |lines|
      invariant LookaheadMethod(lines, j) == LookaheadMethod(lines, start)
    {
      var methodMatch := Find(lines[j], MethodCall);
      assert CallLines(lines)[j] == methodMatch;
      if methodMatch.Some? {
        methodName := methodMatch.value.first;
        return;
      }
      j := j + 1;
    }
  }

  /** The loop over `decoratorMap` for line `i`. */
  method DecoratorsOnLine(lines: seq<string>, filePath: string, i: nat, currentClass: string, baseRoute: string)
    returns (found: seq<ApiEndpoint>)
    requires i < |lines|
    ensures found == DecoratorEndpoints(lines, filePath, i, State(currentClass, baseRoute), |DecoratorMap|)
  {
    var line := Trim(lines[i]);
    found := [];
    var k := 0;
    while k < |DecoratorMap|
      invariant 0 <= k <= |DecoratorMap|
      invariant found == DecoratorEndpoints(lines, filePath, i, State(currentClass, baseRoute), k)
    {
      ghost var next := DecoratorEndpoints(lines, filePath, i, State(currentClass, baseRoute), k + 1);
      var decorator, verb := DecoratorMap[k].decorator, DecoratorMap[k].verb;
      var decoratorPattern := "@" + decorator;
      if Contains(line, decoratorPattern) {
        var pathMatch := Find(line, PathPattern(decorator));
        var path := if pathMatch.Some? then pathMatch.value.first else "/";
        var methodName := FindMethodName(lines, i + 1);
        var e := ApiEndpoint(CombinePath([baseRoute, path]), currentClass, methodName, filePath, i + 1,
                             if EndsWith(filePath, ".ts") then "typescript" else "javascript", Some(verb));
        assert e == Endpoint(lines, filePath, i, State(currentClass, baseRoute), k);
        assert next == found + [e];
        found := found + [e];
      } else {
        assert next == found;
      }
      k := k + 1;
    }
  }

  /** `parseFile`. */
  method ParseFile(content: string, filePath: string) returns (endpoints: seq<ApiEndpoint>)
    ensures endpoints == Parse(content, filePath)
  {
    var lines := Split(content, '\n');
    ghost var perLine := PerLine(lines, filePath);
    var currentClass, baseRoute := "", "";
    endpoints := [];
    var i := 0;
    while i < |lines|
      invariant 0 <= i <= |lines|
      invariant State(currentClass, baseRoute) == StateAt(lines, i)
      invariant endpoints == Flatten(perLine[..i])
    {
      FlattenStep(perLine, i);
      var line := Trim(lines[i]);
      if Contains(line, "@Controller") {
        var routeMatch := Find(line, ControllerRoute);
        if routeMatch.Some? {
          baseRoute := routeMatch.value.first;
        }
        currentClass := FindClass(lines, i + 1, currentClass);
        assert endpoints + perLine[i] == endpoints;
        i := i + 1;
        continue;
      }
      var found := DecoratorsOnLine(lines, filePath, i, currentClass, baseRoute);
      endpoints := endpoints + found;
      i := i + 1;
    }
    assert perLine[..|lines|] == perLine;
  }

  // ---------------------------------------------------------------- lookaheads

  /** The class lookahead answers the class of the first `export class` line
      at `start` or later, a run of word characters, and keeps the current
      class exactly when no such line exists. */
  lemma LookaheadClassSpec(lines: seq<string>, start: nat, currentClass: string)
    requires start <= |lines|
    ensures (forall j :: start <= j < |lines| ==> ClassLines(lines)[j].None?) ==>
      LookaheadClass(lines, start, currentClass) == currentClass
    ensures (exists j :: start <= j < |lines| && ClassLines(lines)[j].Some?) ==>
      var r := LookaheadClass(lines, start, currentClass);
      IsIdentifier(r) &&
      exists j :: start <= j < |lines| && ClassLines(lines)[j] == Some(Groups(r, ""))
                  && forall q :: start <= q < j ==> ClassLines(lines)[q].None?
  {
    var xs := ClassLines(lines);
    FirstPresentLeftmost(xs, start);
    if FirstPresent(xs, start).Some? {
      var j :| start <= j < |xs| && xs[j] == FirstPresent(xs, start) && forall q :: start <= q < j ==> xs[q].None?;
      assert xs[j] == Find(lines[j], ExportClass);
      KeywordsFound(lines[j], ["export", "class"]);
    }
  }

  /** The method lookahead answers the name of the first `name(` call at
      `start` or later, a run of word characters, and `unknown` when there is
      none. */
  lemma LookaheadMethodSpec(lines: seq<string>, start: nat)
    requires start <= |lines|
    ensures (forall j :: start <= j < |lines| ==> CallLines(lines)[j].None?) ==> LookaheadMethod(lines, start) == "unknown"
    ensures (exists j :: start <= j < |lines| && CallLines(lines)[j].Some?) ==>
      var r := LookaheadMethod(lines, start);
      IsIdentifier(r) &&
      exists j :: start <= j < |lines| && CallLines(lines)[j] == Some(Groups(r, ""))
                  && forall q :: start <= q < j ==> CallLines(lines)[q].None?
  {
    var xs := CallLines(lines);
    FirstPresentLeftmost(xs, start);
    if FirstPresent(xs, start).Some? {
      var j :| start <= j < |xs| && xs[j] == FirstPresent(xs, start) && forall q :: start <= q < j ==> xs[q].None?;
      assert xs[j] == Find(lines[j], WordCall);
      WordCallFound(lines[j]);
      assert Find(lines[j], WordCall).value.second == "" by {
        var p := FoundAt(lines[j], WordCall);
      }
    }
  }

  // ---------------------------------------------------------------- what the pass keeps

  /** The outcome of the route pattern on every controller line. */
  function ControllerRoutes(lines: seq<string>): (r: seq<Option<Groups>>)
    ensures |r| == |lines|
  {
    seq(|lines|, j requires 0 <= j < |lines| =>
      if ControllerLine(Trim(lines[j])) then Find(Trim(lines[j]), ControllerRoute) else None)
  }

  /** The base route is the literal of the last `@Controller('p')`, which
      may be empty, and empty before any. */
  lemma BaseRouteLatest(lines: seq<string>, n: nat)
    requires n <= |lines|
    ensures StateAt(lines, n).baseRoute == LastGroupOr(ControllerRoutes(lines), n, "")
  {
    var xs := ControllerRoutes(lines);
    var vs := seq(|lines| + 1, k requires 0 <= k <= |lines| => StateAt(lines, k).baseRoute);
    forall k | 0 <= k < |lines|
      ensures vs[k + 1] == if xs[k].Some? then xs[k].value.first else vs[k]
    {
    }
    LatestFold(xs, vs, "", n);
  }

  /** The current class is empty or a run of word characters. */
  lemma ClassIsName(lines: seq<string>, n: nat)
    requires n <= |lines|
    ensures NameOrEmpty(StateAt(lines, n).currentClass)
  {
    var vs := seq(|lines| + 1, k requires 0 <= k <= |lines| => StateAt(lines, k).currentClass);
    forall k | 0 <= k < |vs| - 1 && NameOrEmpty(vs[k]) ensures NameOrEmpty(vs[k + 1]) {
      ClassStep(lines, k);
    }
    NamesThroughout(vs, n);
  }

  lemma ClassStep(lines: seq<string>, k: nat)
    requires k < |lines| && NameOrEmpty(StateAt(lines, k).currentClass)
    ensures NameOrEmpty(StateAt(lines, k + 1).currentClass)
  {
    LookaheadClassSpec(lines, k + 1, StateAt(lines, k).currentClass);
  }

  // ---------------------------------------------------------------- what a line yields

  /** A decorator without a literal takes `/`, which the join drops: the
      endpoint's path is the base route's alone. */
  lemma DefaultPath(lines: seq<string>, filePath: string, i: nat, st: State, k: nat)
    requires i < |lines| && k < |DecoratorMap|
    requires Find(Trim(lines[i]), PathPattern(DecoratorMap[k].decorator)).None?
    ensures Endpoint(lines, filePath, i, st, k).apiPath == CombinePath([st.baseRoute])
  {
    DropsUnkeptPart([st.baseRoute], "/", []);
    assert [st.baseRoute] + ["/"] + [] == [st.baseRoute, "/"];
    assert [st.baseRoute] + [] == [st.baseRoute];
  }

  /** `e` is the endpoint of decorator row `k` on line `i`, which holds that
      decorator and is no controller line. */
  ghost predicate Emitted(lines: seq<string>, filePath: string, i: nat, e: ApiEndpoint)
    requires i < |lines|
  {
    && !ControllerLine(Trim(lines[i]))
    && exists k :: 0 <= k < |DecoratorMap| && HasDecorator(lines, i, k) && e == Endpoint(lines, filePath, i, StateAt(lines, i), k)
  }

  lemma {:induction false} DecoratorEndpointsOf(lines: seq<string>, filePath: string, i: nat, st: State, k: nat)
    requires i < |lines| && k <= |DecoratorMap|
    ensures |DecoratorEndpoints(lines, filePath, i, st, k)| <= k
    ensures forall e :: e in DecoratorEndpoints(lines, filePath, i, st, k) <==>
      exists k' :: 0 <= k' < k && HasDecorator(lines, i, k') && e == Endpoint(lines, filePath, i, st, k')
    decreases k
  {
    if k > 0 {
      DecoratorEndpointsOf(lines, filePath, i, st, k - 1);
    }
  }

  /** Line `i` yields at most one endpoint per decorator, and yields `e`
      exactly when it emits `e`. */
  lemma LineEndpointsExactly(lines: seq<string>, filePath: string, i: nat)
    requires i < |lines|
    ensures |PerLine(lines, filePath)[i]| <= |DecoratorMap|
    ensures forall e :: e in PerLine(lines, filePath)[i] <==> Emitted(lines, filePath, i, e)
  {
    DecoratorEndpointsOf(lines, filePath, i, StateAt(lines, i), |DecoratorMap|);
  }

  /** Every endpoint of a file is emitted by one of its lines. */
  lemma Provenance(content: string, filePath: string, e: ApiEndpoint)
    requires e in Parse(content, filePath)
    ensures exists i :: 0 <= i < |Split(content, '\n')| && Emitted(Split(content, '\n'), filePath, i, e)
  {
    var lines := Split(content, '\n');
    FlattenMember(PerLine(lines, filePath), e);
    var i :| 0 <= i < |lines| && e in PerLine(lines, filePath)[i];
    LineEndpointsExactly(lines, filePath, i);
  }

  /** Every endpoint a line emits is in the file's list. */
  lemma Completeness(content: string, filePath: string, i: nat, e: ApiEndpoint)
    requires i < |Split(content, '\n')| && Emitted(Split(content, '\n'), filePath, i, e)
    ensures e in Parse(content, filePath)
  {
    var lines := Split(content, '\n');
    LineEndpointsExactly(lines, filePath, i);
    FlattenMember(PerLine(lines, filePath), e);
  }

  /** What the endpoint of decorator row `k` holds: the row's own verb, one
      of the five; the looked-ahead method name, `unknown` or a run of word
      characters; the language the file's extension gives. */
  lemma EndpointRecord(lines: seq<string>, filePath: string, i: nat, st: State, k: nat)
    requires i < |lines| && k < |DecoratorMap|
    ensures var e := Endpoint(lines, filePath, i, st, k);
      && e.httpMethod == Some(DecoratorMap[k].verb) && DecoratorMap[k].verb in ["GET", "POST", "PUT", "DELETE", "PATCH"]
      && (e.methodName == "unknown" || IsIdentifier(e.methodName))
      && e.language == ScriptLanguage(filePath) && e.filePath == filePath && e.lineNumber == i + 1
  {
    var e := Endpoint(lines, filePath, i, st, k);
    assert e.methodName == LookaheadMethod(lines, i + 1);
    LookaheadMethodSpec(lines, i + 1);
    assert DecoratorMap[k].verb in ["GET", "POST", "PUT", "DELETE", "PATCH"] by {
      assert k == 0 || k == 1 || k == 2 || k == 3 || k == 4;
    }
  }

  /** Only the five decorators of the table yield endpoints, each with its
      own verb, and the method name is `unknown` or a run of word characters. */
  lemma EndpointFields(content: string, filePath: string, e: ApiEndpoint)
    requires e in Parse(content, filePath)
    ensures e.httpMethod.Some? && e.httpMethod.value in ["GET", "POST", "PUT", "DELETE", "PATCH"]
    ensures e.methodName == "unknown" || IsIdentifier(e.methodName)
    ensures e.language == ScriptLanguage(filePath) && e.filePath == filePath
  {
    var lines := Split(content, '\n');
    Provenance(content, filePath, e);
    var i :| 0 <= i < |lines| && Emitted(lines, filePath, i, e);
    var k :| 0 <= k < |DecoratorMap| && HasDecorator(lines, i, k) && e == Endpoint(lines, filePath, i, StateAt(lines, i), k);
    EndpointRecord(lines, filePath, i, StateAt(lines, i), k);
  }

  /** Endpoints come out in the order of their lines, numbered from 1, at
      most one per decorator and line. */
  lemma LineOrder(content: string, filePath: string)
    ensures var r := Parse(content, filePath);
      forall a :: 0 <= a < |r| ==> 1 <= r[a].lineNumber <= |Split(content, '\n')|
    ensures var r := Parse(content, filePath);
      forall a, b :: 0 <= a < b < |r| ==> r[a].lineNumber <= r[b].lineNumber
    ensures |Parse(content, filePath)| <= |DecoratorMap| * |Split(content, '\n')|
  {
    var lines := Split(content, '\n');
    var perLine := PerLine(lines, filePath);
    forall i | 0 <= i < |perLine|
      ensures |perLine[i]| <= |DecoratorMap|
      ensures forall e: ApiEndpoint :: e in perLine[i] ==> e.lineNumber == 1 + i
    {
      LineEndpointsExactly(lines, filePath, i);
    }
    FlattenNumbered(perLine, (e: ApiEndpoint) => e.lineNumber, 1);
    FlattenLength(perLine, |DecoratorMap|);
  }
}
