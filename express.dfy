/** `ExpressScanner`: a forward pass over the trimmed lines of a JavaScript or
    TypeScript file that tracks the names bound to `express()` and to a
    `Router()`, the prefix of the last `.use('p', h)` and a pending chained
    `route('p')` line, and emits one endpoint per verb and route pattern that
    matches a line, plus one per continuation line of a chained route.

    `StateAt`, `LineEndpoints` and `Parse` say what the pass computes;
    `ParseFile` is the loop itself, proved to compute `Parse`. */
module Express {
  import opened Optional
  import opened Strings
  import opened Patterns
  import opened Paths
  import opened Types
  import opened Sequences

  /** The fast-reject gate. */
  predicate IsValidFile(content: string) {
    Contains(content, "express") && (Contains(content, "Router") || Contains(content, "app.") || Contains(content, "router."))
  }

  /** The verbs tried on every line, in order. */
  const Verbs: seq<string> := ["get", "post", "put", "delete", "patch", "all"]

  /** `/(\w+)\s*=\s*express\(\)/` */
  const AppBinding: Matcher := Binding(false, ["express()"])

  /** `/(\w+)\s*=\s*(?:express\.)?Router\(\)/` */
  const RouterBinding: Matcher := Binding(false, ["express.Router()", "Router()"])

  /** `/,\s*(\w+)(?:\)|\s*,)/` */
  const HandlerArgument: Matcher := Handler(false)

  /** `/class\s+(\w+)/` */
  const ClassName: Matcher := Keywords(["class"])

  /** `/route\(['"]([^'"]+)['"]\)/` */
  const RouteCall: Matcher := Quoted("route(", Quotes, Quotes, false, CloseParen)

  datatype State = State(currentRouter: string, baseRoute: string, appVarName: string, routerVarName: string)

  // ---------------------------------------------------------------- bindings

  /** The application-name update as the scanner writes it, behind an
      `includes('express()')` guard; `AppVarStep` shows the guard changes nothing. */
  function AppVarAfter(line: string, appVarName: string): string {
    if Contains(line, "express()") then FirstGroupOr(line, AppBinding, appVarName) else appVarName
  }

  /** The router-name update behind its two `includes` guards; `RouterVarStep`
      shows they change nothing. */
  function RouterVarAfter(line: string, routerVarName: string): string {
    if Contains(line, "express.Router()") || Contains(line, "Router()") then FirstGroupOr(line, RouterBinding, routerVarName)
    else routerVarName
  }

  /** The base-route update behind its `includes('.use(')` guard, which does
      matter: the pattern itself also accepts `use(` without the dot. */
  function BaseRouteAfter(line: string, baseRoute: string): string {
    if Contains(line, ".use(") then FirstGroupOr(line, UseRoute, baseRoute) else baseRoute
  }

  /** The three updates at the top of the loop body, before any route is read. */
  function Bind(line: string, st: State): State {
    State(st.currentRouter, BaseRouteAfter(line, st.baseRoute), FirstGroupOr(line, AppBinding, st.appVarName),
          FirstGroupOr(line, RouterBinding, st.routerVarName))
  }

  // ---------------------------------------------------------------- routes

  /** The three patterns tried for a verb: `app.verb('p'`, `router.verb('p'`
      under the current names, and `route('p').….verb(`. */
  function RoutePatterns(st: State, verb: string): seq<Matcher> {
    [ QuotedAfter(st.appVarName + "." + verb + "("),
      QuotedAfter(st.routerVarName + "." + verb + "("),
      Quoted("route(", Quotes, Quotes, false, CloseParenThen("." + verb + "(")) ]
  }

  function HandlerOf(line: string): string {
    FirstGroupOr(line, HandlerArgument, "unknown")
  }

  /** The outcome of `/class\s+(\w+)/` on every raw (untrimmed) line. */
  function Classes(lines: seq<string>): (r: seq<Option<Groups>>)
    ensures |r| == |lines|
  {
    seq(|lines|, j requires 0 <= j < |lines| => Find(lines[j], ClassName))
  }

  /** The class name the backward search from line `n - 1` settles on, or empty. */
  function LastClass(lines: seq<string>, n: nat): string
    requires n <= |lines|
  {
    LastGroupOr(Classes(lines), n, "")
  }

  /** The class an endpoint of line `i` is filed under. */
  function ClassFor(lines: seq<string>, i: nat): string
    requires i < |lines|
  {
    var className := LastClass(lines, i + 1);
    if className != "" then className else "default"
  }

  /** The endpoint `m` yields on line `i`, if it matches there. */
  function RouteEndpoint(lines: seq<string>, filePath: string, i: nat, st: State, verb: string, m: Matcher): seq<ApiEndpoint>
    requires i < |lines|
  {
    var line := Trim(lines[i]);
    match Find(line, m)
    case Some(g) =>
      [ApiEndpoint(CombinePath([st.baseRoute, g.first]), ClassFor(lines, i), HandlerOf(line), filePath, i + 1,
                   ScriptLanguage(filePath), Some(Upper(verb)))]
    case None => []
  }

  /** The endpoints of the first `n` patterns of `verb`. */
  function PatternEndpoints(lines: seq<string>, filePath: string, i: nat, st: State, verb: string, n: nat): seq<ApiEndpoint>
    requires i < |lines| && n <= 3
  {
    if n == 0 then []
    else PatternEndpoints(lines, filePath, i, st, verb, n - 1) + RouteEndpoint(lines, filePath, i, st, verb, RoutePatterns(st, verb)[n - 1])
  }

  /** The endpoints of the first `k` verbs. */
  function VerbEndpoints(lines: seq<string>, filePath: string, i: nat, st: State, k: nat): seq<ApiEndpoint>
    requires i < |lines| && k <= |Verbs|
  {
    if k == 0 then []
    else VerbEndpoints(lines, filePath, i, st, k - 1) + PatternEndpoints(lines, filePath, i, st, Verbs[k - 1], 3)
  }

  // ---------------------------------------------------------------- chained routes

  /** `httpMethods.some(method => line.includes('.' + method + '('))` */
  predicate CallsVerb(line: string, verbs: seq<string>)
    decreases |verbs|
  {
    |verbs| > 0 && (Contains(line, "." + verbs[0] + "(") || CallsVerb(line, verbs[1..]))
  }

  /** A line continues the pending chained route: it has no `route(` of its
      own, a route is pending and the line calls one of the verbs. */
  predicate Continues(line: string, pending: string) {
    !Contains(line, "route(") && pending != "" && CallsVerb(line, Verbs)
  }

  /** The pending route line after `line`. */
  function PendingAfter(line: string, pending: string): string {
    if Contains(line, "route(") then line else if Continues(line, pending) then pending else ""
  }

  /** The endpoint a continuation line yields: the pending route's literal
      under the base route, with the first `.name(` of the line as its verb. */
  function ChainedEndpoints(line: string, filePath: string, i: nat, pending: string, baseRoute: string): seq<ApiEndpoint> {
    if Continues(line, pending) then
      match Find(pending, RouteCall)
      case Some(g) =>
        (match Find(line, DotCall)
         case Some(h) =>
           [ApiEndpoint(CombinePath([baseRoute, g.first]), "default", "chainedHandler", filePath, i + 1,
                        ScriptLanguage(filePath), Some(Upper(h.first)))]
         case None => [])
      case None => []
    else []
  }

  // ---------------------------------------------------------------- the pass

  /** The base route after the first `n` lines. */
  function BaseRouteAt(lines: seq<string>, n: nat): string
    requires n <= |lines|
  {
    if n == 0 then "" else BaseRouteAfter(Trim(lines[n - 1]), BaseRouteAt(lines, n - 1))
  }

  /** The pending chained route after the first `n` lines. */
  function PendingAt(lines: seq<string>, n: nat): string
    requires n <= |lines|
  {
    if n == 0 then "" else PendingAfter(Trim(lines[n - 1]), PendingAt(lines, n - 1))
  }

  /** The state the first `n` lines leave behind. */
  function StateAt(lines: seq<string>, n: nat): State
    requires n <= |lines|
  {
    State(PendingAt(lines, n), BaseRouteAt(lines, n), Rebound(lines, AppBinding, "app", n),
          Rebound(lines, RouterBinding, "router", n))
  }

  /** The endpoints line `i` adds when the lines before it left `before`. */
  function LineEndpoints(lines: seq<string>, filePath: string, i: nat, before: State): seq<ApiEndpoint>
    requires i < |lines|
  {
    var line := Trim(lines[i]);
    var st := Bind(line, before);
    VerbEndpoints(lines, filePath, i, st, |Verbs|) + ChainedEndpoints(line, filePath, i, before.currentRouter, st.baseRoute)
  }

  /** The endpoints of every line, in line order. */
  function PerLine(lines: seq<string>, filePath: string): (r: seq<seq<ApiEndpoint>>)
    ensures |r| == |lines|
  {
    seq(|lines|, i requires 0 <= i < |lines| => LineEndpoints(lines, filePath, i, StateAt(lines, i)))
  }

  function Parse(content: string, filePath: string): seq<ApiEndpoint> {
    var lines := Split(content, '\n');
    Flatten(PerLine(lines, filePath))
  }

  // ---------------------------------------------------------------- the loop

  /** The backward `j` loop: the nearest `class X` at or above line `i`. */
  method NearestClass(lines: seq<string>, i: nat) returns (className: string)
    requires i < |lines|
    ensures className == LastClass(lines, i + 1)
  {
    className := "";
    var j: int := i;
    while j >= 0
      invariant -1 <= j <= i
      invariant LastClass(lines, j + 1) == LastClass(lines, i + 1)
      decreases j
    {
      var classMatch := Find(lines[j], ClassName);
      assert Classes(lines)[j] == classMatch;
      if classMatch.Some? {
        className := classMatch.value.first;
        break;
      }
      j := j - 1;
    }
  }

  /** The three binding updates at the top of the loop body. */
  method Bindings(line: string, baseRoute: string, appVarName: string, routerVarName: string)
    returns (newBaseRoute: string, newAppVarName: string, newRouterVarName: string)
    ensures newBaseRoute == BaseRouteAfter(line, baseRoute)
    ensures newAppVarName == FirstGroupOr(line, AppBinding, appVarName)
    ensures newRouterVarName == FirstGroupOr(line, RouterBinding, routerVarName)
  {
    newBaseRoute, newAppVarName, newRouterVarName := baseRoute, appVarName, routerVarName;
    if Contains(line, "express()") {
      var m := Find(line, AppBinding);
      if m.Some? {
        newAppVarName := m.value.first;
      }
    }
    if Contains(line, "express.Router()") || Contains(line, "Router()") {
      var m := Find(line, RouterBinding);
      if m.Some? {
        newRouterVarName := m.value.first;
      }
    }
    if Contains(line, ".use(") {
      var routeMatch := Find(line, UseRoute);
      if routeMatch.Some? {
        newBaseRoute := routeMatch.value.first;
      }
    }
    AppVarStep(line, appVarName);
    RouterVarStep(line, routerVarName);
  }

  /** The `patterns` loop for one verb. */
  method VerbRoutes(lines: seq<string>, filePath: string, i: nat, st: State, verb: string)
    returns (found: seq<ApiEndpoint>)
    requires i < |lines|
    ensures found == PatternEndpoints(lines, filePath, i, st, verb, 3)
  {
    var line := Trim(lines[i]);
    var patterns := RoutePatterns(st, verb);
    found := [];
    var n := 0;
    while n < |patterns|
      invariant 0 <= n <= 3
      invariant found == PatternEndpoints(lines, filePath, i, st, verb, n)
    {
      var routeMatch := Find(line, patterns[n]);
      if routeMatch.Some? {
        var path := routeMatch.value.first;
        var handlerName := "unknown";
        var handlerMatch := Find(line, HandlerArgument);
        if handlerMatch.Some? {
          handlerName := handlerMatch.value.first;
        }
        var className := NearestClass(lines, i);
        found := found + [ApiEndpoint(CombinePath([st.baseRoute, path]), if className != "" then className else "default",
                                      handlerName, filePath, i + 1,
                                      if EndsWith(filePath, ".ts") then "typescript" else "javascript", Some(Upper(verb)))];
      }
      n := n + 1;
    }
  }

  /** The `httpMethods` loop of line `i`. */
  method LineRoutes(lines: seq<string>, filePath: string, i: nat, st: State) returns (found: seq<ApiEndpoint>)
    requires i < |lines|
    ensures found == VerbEndpoints(lines, filePath, i, st, |Verbs|)
  {
    found := [];
    var k := 0;
    while k < |Verbs|
      invariant 0 <= k <= |Verbs|
      invariant found == VerbEndpoints(lines, filePath, i, st, k)
    {
      var more := VerbRoutes(lines, filePath, i, st, Verbs[k]);
      found := found + more;
      k := k + 1;
    }
  }

  /** The chained-route branch at the end of the loop body. */
  method ChainStep(line: string, filePath: string, i: nat, currentRouter: string, baseRoute: string)
    returns (newRouter: string, found: seq<ApiEndpoint>)
    ensures newRouter == PendingAfter(line, currentRouter)
    ensures found == ChainedEndpoints(line, filePath, i, currentRouter, baseRoute)
  {
    newRouter, found := currentRouter, [];
    if Contains(line, "route(") {
      newRouter := line;
    } else if currentRouter != "" && CallsVerb(line, Verbs) {
      var routeMatch := Find(currentRouter, RouteCall);
      if routeMatch.Some? {
        var path := routeMatch.value.first;
        var methodMatch := Find(line, DotCall);
        if methodMatch.Some? {
          found := [ApiEndpoint(CombinePath([baseRoute, path]), "default", "chainedHandler", filePath, i + 1,
                                if EndsWith(filePath, ".ts") then "typescript" else "javascript",
                                Some(Upper(methodMatch.value.first)))];
        }
      }
    } else {
      newRouter := "";
    }
  }

  /** `parseFile`. */
  method ParseFile(content: string, filePath: string) returns (endpoints: seq<ApiEndpoint>)
    ensures endpoints == Parse(content, filePath)
  {
    var lines := Split(content, '\n');
    ghost var perLine := PerLine(lines, filePath);
    var currentRouter, baseRoute, appVarName, routerVarName := "", "", "app", "router";
    endpoints := [];
    var i := 0;
    while i < |lines|
      invariant 0 <= i <= |lines|
      invariant State(currentRouter, baseRoute, appVarName, routerVarName) == StateAt(lines, i)
      invariant endpoints == Flatten(perLine[..i])
    {
      FlattenStep(perLine, i);
      var line := Trim(lines[i]);
      ghost var before := State(currentRouter, baseRoute, appVarName, routerVarName);
      assert perLine[i] == LineEndpoints(lines, filePath, i, before);
      baseRoute, appVarName, routerVarName := Bindings(line, baseRoute, appVarName, routerVarName);
      var routes := LineRoutes(lines, filePath, i, State(currentRouter, baseRoute, appVarName, routerVarName));
      var chained;
      currentRouter, chained := ChainStep(line, filePath, i, currentRouter, baseRoute);
      endpoints := endpoints + (routes + chained);
      i := i + 1;
    }
    assert perLine[..|lines|] == perLine;
  }

  // ---------------------------------------------------------------- what the pass keeps

  /** The outcome of the `.use(` prefix pattern on every trimmed line that
      passes the `.use(` guard. */
  function Mounts(lines: seq<string>): (r: seq<Option<Groups>>)
    ensures |r| == |lines|
  {
    seq(|lines|, j requires 0 <= j < |lines| =>
      if Contains(Trim(lines[j]), ".use(") then Find(Trim(lines[j]), UseRoute) else None)
  }

  /** The `express()` guard never rejects a line the binding pattern accepts. */
  lemma AppVarStep(line: string, appVarName: string)
    ensures AppVarAfter(line, appVarName) == FirstGroupOr(line, AppBinding, appVarName)
  {
    if Find(line, AppBinding).Some? {
      BindingFound(line, false, ["express()"]);
    }
  }

  /** Nor do the `Router()` guards reject a line their pattern accepts. */
  lemma RouterVarStep(line: string, routerVarName: string)
    ensures RouterVarAfter(line, routerVarName) == FirstGroupOr(line, RouterBinding, routerVarName)
  {
    if Find(line, RouterBinding).Some? {
      BindingFound(line, false, ["express.Router()", "Router()"]);
    }
  }

  /** The base route is the prefix of the last `.use('p', h)` line so far,
      empty before any; a `.use(` line whose prefix does not parse keeps it. */
  lemma {:induction false} BaseRouteLatest(lines: seq<string>, n: nat)
    requires n <= |lines|
    ensures BaseRouteAt(lines, n) == LastGroupOr(Mounts(lines), n, "")
    decreases n
  {
    if n > 0 {
      BaseRouteLatest(lines, n - 1);
      LastGroupOrStep(Mounts(lines), n, "");
    }
  }

  /** A name bound by `x = express()` or `x = Router()` is a run of word characters. */
  lemma BoundNameIsIdentifier(lines: seq<string>, m: Matcher, default: string, n: nat)
    requires n <= |lines| && IsIdentifier(default)
    requires m == AppBinding || m == RouterBinding
    ensures IsIdentifier(Rebound(lines, m, default, n))
  {
    ReboundLatest(lines, m, default, n);
    LastGroupOrFrom(Finds(lines, m), n, default);
    if Rebound(lines, m, default, n) != default {
      var p :| 0 <= p < n && Finds(lines, m)[p].Some? && Finds(lines, m)[p].value.first == Rebound(lines, m, default, n);
      BindingFound(Trim(lines[p]), false, m.rhs);
    }
  }

  /** Both names are always runs of word characters, so splicing them into
      the route patterns, as the scanner does without escaping, adds no
      regular-expression syntax: matching them literally is exact. */
  lemma NamesAreIdentifiers(lines: seq<string>, n: nat)
    requires n <= |lines|
    ensures IsIdentifier(StateAt(lines, n).appVarName) && IsIdentifier(StateAt(lines, n).routerVarName)
  {
    BoundNameIsIdentifier(lines, AppBinding, "app", n);
    BoundNameIsIdentifier(lines, RouterBinding, "router", n);
  }

  /** Which trimmed lines open a chained route. */
  function Opens(lines: seq<string>): (r: seq<bool>)
    ensures |r| == |lines|
  {
    seq(|lines|, j requires 0 <= j < |lines| => Contains(Trim(lines[j]), "route("))
  }

  /** Which trimmed lines call one of the verbs. */
  function CallsVerbs(lines: seq<string>): (r: seq<bool>)
    ensures |r| == |lines|
  {
    seq(|lines|, j requires 0 <= j < |lines| => CallsVerb(Trim(lines[j]), Verbs))
  }

  function Trimmed(lines: seq<string>): (r: seq<string>)
    ensures |r| == |lines|
  {
    seq(|lines|, j requires 0 <= j < |lines| => Trim(lines[j]))
  }

  /** Line `j` opened a chained route and lines `j + 1 .. n - 1` continued it. */
  predicate ChainFrom(lines: seq<string>, j: int, n: nat)
    requires n <= |lines|
  {
    Chain(Opens(lines), CallsVerbs(lines), j, n)
  }

  /** A route is pending after `n` lines exactly when some line opened a
      chained route and every line since continued it; the pending route is
      that line. */
  lemma PendingRoute(lines: seq<string>, n: nat)
    requires n <= |lines|
    ensures PendingAt(lines, n) != "" ==> exists j :: ChainFrom(lines, j, n) && PendingAt(lines, n) == Trim(lines[j])
    ensures forall j :: ChainFrom(lines, j, n) ==> PendingAt(lines, n) == Trim(lines[j])
  {
    var vs := seq(|lines| + 1, k requires 0 <= k <= |lines| => PendingAt(lines, k));
    forall k | 0 <= k < |lines|
      ensures vs[k + 1] == if Opens(lines)[k] then Trimmed(lines)[k]
        else if vs[k] != "" && CallsVerbs(lines)[k] then vs[k] else ""
    {
    }
    forall k | 0 <= k < |lines| && Opens(lines)[k] ensures Trimmed(lines)[k] != "" {
    }
    LatchedOpened(Opens(lines), CallsVerbs(lines), Trimmed(lines), vs, "", n);
    LatchedLatest(Opens(lines), CallsVerbs(lines), Trimmed(lines), vs, "", n);
  }

  // ---------------------------------------------------------------- what the endpoints say

  /** The class search finds nothing exactly when no line at or above `i`
      declares a class, and otherwise the name of the nearest one. */
  lemma ClassAbove(lines: seq<string>, i: nat)
    requires i < |lines|
    ensures LastClass(lines, i + 1) == "" <==> forall j :: 0 <= j <= i ==> Find(lines[j], ClassName).None?
    ensures LastClass(lines, i + 1) != "" ==>
      exists j :: 0 <= j <= i && Find(lines[j], ClassName) == Some(Groups(LastClass(lines, i + 1), ""))
        && forall q :: j < q <= i ==> Find(lines[q], ClassName).None?
  {
    var xs := Classes(lines);
    LastPresentRightmost(xs, i + 1);
    if LastPresent(xs, i + 1).Some? {
      var p :| 0 <= p < i + 1 && xs[p] == LastPresent(xs, i + 1) && forall q :: p < q < i + 1 ==> xs[q].None?;
      KeywordsFound(lines[p], ["class"]);
      assert xs[p] == Find(lines[p], ClassName);
      forall q | p < q <= i ensures Find(lines[q], ClassName).None? {
        assert xs[q] == Find(lines[q], ClassName);
      }
    } else {
      forall j | 0 <= j <= i ensures Find(lines[j], ClassName).None? {
        assert xs[j] == Find(lines[j], ClassName);
      }
    }
  }

  /** The handler is always a run of word characters: the captured argument,
      or `unknown` when no argument matches. */
  lemma HandlerIsIdentifier(line: string)
    ensures IsIdentifier(HandlerOf(line))
    ensures Find(line, HandlerArgument).None? ==> HandlerOf(line) == "unknown"
  {
    if Find(line, HandlerArgument).Some? {
      HandlerFound(line, false);
    } else {
      var u := "unknown";
      assert forall k :: 0 <= k < |u| ==> IsWord(u[k]);
    }
  }

  /** `e` is what pattern `n` of verb `k` yields on line `i` under `st`. */
  predicate RouteOf(lines: seq<string>, filePath: string, i: nat, st: State, e: ApiEndpoint)
    requires i < |lines|
  {
    var line := Trim(lines[i]);
    && e.lineNumber == i + 1 && e.filePath == filePath && e.language == ScriptLanguage(filePath)
    && e.className == ClassFor(lines, i) && e.methodName == HandlerOf(line)
    && exists k, n :: 0 <= k < |Verbs| && 0 <= n < 3 && Find(line, RoutePatterns(st, Verbs[k])[n]).Some?
         && e.httpMethod == Some(Upper(Verbs[k]))
         && e.apiPath == CombinePath([st.baseRoute, Find(line, RoutePatterns(st, Verbs[k])[n]).value.first])
  }

  /** `e` is the endpoint a continuation line `i` of the chained route opened
      on line `j` yields: that line's literal under the base route, with the
      first `.name(` call of line `i` as its verb. */
  predicate ChainedOf(lines: seq<string>, filePath: string, i: nat, e: ApiEndpoint)
    requires i < |lines|
  {
    exists j :: 0 <= j < i && ChainFrom(lines, j, i + 1)
      && Find(Trim(lines[j]), RouteCall).Some? && Find(Trim(lines[i]), DotCall).Some?
      && e == ApiEndpoint(CombinePath([BaseRouteAt(lines, i + 1), Find(Trim(lines[j]), RouteCall).value.first]),
                          "default", "chainedHandler", filePath, i + 1, ScriptLanguage(filePath),
                          Some(Upper(Find(Trim(lines[i]), DotCall).value.first)))
  }

  /** `e` comes from line `i`: a route under the names and prefix in force
      after that line's bindings, or a chained continuation. */
  predicate Emitted(lines: seq<string>, filePath: string, i: nat, e: ApiEndpoint)
    requires i < |lines|
  {
    RouteOf(lines, filePath, i, Bind(Trim(lines[i]), StateAt(lines, i)), e) || ChainedOf(lines, filePath, i, e)
  }

  lemma {:induction false} PatternEndpointsOf(lines: seq<string>, filePath: string, i: nat, st: State, k: nat, n: nat)
    requires i < |lines| && k < |Verbs| && n <= 3
    ensures |PatternEndpoints(lines, filePath, i, st, Verbs[k], n)| <= n
    ensures forall e :: e in PatternEndpoints(lines, filePath, i, st, Verbs[k], n) ==> RouteOf(lines, filePath, i, st, e)
    decreases n
  {
    if n > 0 {
      PatternEndpointsOf(lines, filePath, i, st, k, n - 1);
      forall e | e in RouteEndpoint(lines, filePath, i, st, Verbs[k], RoutePatterns(st, Verbs[k])[n - 1])
        ensures RouteOf(lines, filePath, i, st, e)
      {
        assert Find(Trim(lines[i]), RoutePatterns(st, Verbs[k])[n - 1]).Some?;
      }
    }
  }

  lemma {:induction false} VerbEndpointsOf(lines: seq<string>, filePath: string, i: nat, st: State, k: nat)
    requires i < |lines| && k <= |Verbs|
    ensures |VerbEndpoints(lines, filePath, i, st, k)| <= 3 * k
    ensures forall e :: e in VerbEndpoints(lines, filePath, i, st, k) ==> RouteOf(lines, filePath, i, st, e)
    decreases k
  {
    if k > 0 {
      VerbEndpointsOf(lines, filePath, i, st, k - 1);
      PatternEndpointsOf(lines, filePath, i, st, k - 1, 3);
    }
  }

  /** A line that continues the pending route continues the chain of the
      line that opened it. */
  lemma ContinuedChain(lines: seq<string>, i: nat) returns (j: nat)
    requires i < |lines| && Continues(Trim(lines[i]), PendingAt(lines, i))
    ensures j < i && ChainFrom(lines, j, i + 1) && PendingAt(lines, i) == Trim(lines[j])
  {
    PendingRoute(lines, i);
    j :| ChainFrom(lines, j, i) && PendingAt(lines, i) == Trim(lines[j]);
    assert !Opens(lines)[i] && CallsVerbs(lines)[i];
    ChainExtend(Opens(lines), CallsVerbs(lines), j, i);
  }

  /** A continuation line yields at most one endpoint, and it belongs to the
      chained route the line continues. */
  lemma ChainedEndpointsOf(lines: seq<string>, filePath: string, i: nat)
    requires i < |lines|
    ensures |ChainedEndpoints(Trim(lines[i]), filePath, i, PendingAt(lines, i), BaseRouteAt(lines, i + 1))| <= 1
    ensures forall e | e in ChainedEndpoints(Trim(lines[i]), filePath, i, PendingAt(lines, i), BaseRouteAt(lines, i + 1))
      :: ChainedOf(lines, filePath, i, e)
  {
    var line := Trim(lines[i]);
    var pending := PendingAt(lines, i);
    if Continues(line, pending) {
      var j := ContinuedChain(lines, i);
      if Find(pending, RouteCall).Some? && Find(line, DotCall).Some? {
        var e := ApiEndpoint(CombinePath([BaseRouteAt(lines, i + 1), Find(pending, RouteCall).value.first]),
                             "default", "chainedHandler", filePath, i + 1, ScriptLanguage(filePath),
                             Some(Upper(Find(line, DotCall).value.first)));
        assert ChainedEndpoints(line, filePath, i, pending, BaseRouteAt(lines, i + 1)) == [e];
        assert ChainedOf(lines, filePath, i, e);
      } else {
        assert ChainedEndpoints(line, filePath, i, pending, BaseRouteAt(lines, i + 1)) == [];
      }
    }
  }

  /** The endpoints of line `i` all come from it: at most one per verb and
      pattern, and one more for a chained continuation. */
  lemma LineEndpointsOf(lines: seq<string>, filePath: string, i: nat)
    requires i < |lines|
    ensures |PerLine(lines, filePath)[i]| <= 3 * |Verbs| + 1
    ensures forall e :: e in PerLine(lines, filePath)[i] ==> Emitted(lines, filePath, i, e)
  {
    var line := Trim(lines[i]);
    var st := Bind(line, StateAt(lines, i));
    VerbEndpointsOf(lines, filePath, i, st, |Verbs|);
    ChainedEndpointsOf(lines, filePath, i);
    assert PerLine(lines, filePath)[i] == VerbEndpoints(lines, filePath, i, st, |Verbs|)
      + ChainedEndpoints(line, filePath, i, PendingAt(lines, i), BaseRouteAt(lines, i + 1));
  }

  /** The positions, among the first `n` patterns of `verb`, of the
      patterns that match on `line`. */
  function MatchingPatterns(line: string, st: State, verb: string, n: nat): set<nat>
    requires n <= 3
  {
    set m: nat | m < n && Find(line, RoutePatterns(st, verb)[m]).Some?
  }

  /** The number of (verb, pattern) pairs, among the first `k` verbs, that
      match on `line`. */
  function MatchingPairs(line: string, st: State, k: nat): nat
    requires k <= |Verbs|
  {
    if k == 0 then 0 else MatchingPairs(line, st, k - 1) + |MatchingPatterns(line, st, Verbs[k - 1], 3)|
  }

  /** One more pattern adds its own position when it matches. */
  lemma MatchingPatternsStep(line: string, st: State, verb: string, n: nat)
    requires 0 < n <= 3
    ensures |MatchingPatterns(line, st, verb, n)|
      == |MatchingPatterns(line, st, verb, n - 1)| + if Find(line, RoutePatterns(st, verb)[n - 1]).Some? then 1 else 0
  {
    var ps := RoutePatterns(st, verb);
    var before := MatchingPatterns(line, st, verb, n - 1);
    var after := MatchingPatterns(line, st, verb, n);
    var added: set<nat> := if Find(line, ps[n - 1]).Some? then {n - 1} else {};
    assert n - 1 !in before;
    assert after == before + added by {
      forall m: nat ensures m in after <==> m in before + added {
        if m < n - 1 {
          assert m in after <==> Find(line, ps[m]).Some?;
          assert m in before <==> Find(line, ps[m]).Some?;
        }
      }
    }
  }

  /** Each matching pattern of a verb adds exactly one endpoint. */
  lemma {:induction false} PatternEndpointsCount(lines: seq<string>, filePath: string, i: nat, st: State, verb: string, n: nat)
    requires i < |lines| && n <= 3
    ensures |PatternEndpoints(lines, filePath, i, st, verb, n)| == |MatchingPatterns(Trim(lines[i]), st, verb, n)|
    decreases n
  {
    if n > 0 {
      PatternEndpointsCount(lines, filePath, i, st, verb, n - 1);
      MatchingPatternsStep(Trim(lines[i]), st, verb, n);
      var m := RoutePatterns(st, verb)[n - 1];
      assert |RouteEndpoint(lines, filePath, i, st, verb, m)| == if Find(Trim(lines[i]), m).Some? then 1 else 0;
      assert PatternEndpoints(lines, filePath, i, st, verb, n)
        == PatternEndpoints(lines, filePath, i, st, verb, n - 1) + RouteEndpoint(lines, filePath, i, st, verb, m);
    }
  }

  /** Each matching (verb, pattern) pair adds exactly one endpoint. */
  lemma {:induction false} VerbEndpointsCount(lines: seq<string>, filePath: string, i: nat, st: State, k: nat)
    requires i < |lines| && k <= |Verbs|
    ensures |VerbEndpoints(lines, filePath, i, st, k)| == MatchingPairs(Trim(lines[i]), st, k)
    decreases k
  {
    if k > 0 {
      VerbEndpointsCount(lines, filePath, i, st, k - 1);
      PatternEndpointsCount(lines, filePath, i, st, Verbs[k - 1], 3);
    }
  }

  /** Line `i` yields one endpoint per matching (verb, pattern) pair,
      duplicates included, and one more when it continues a pending chained
      route whose literal and verb call are both found. */
  lemma LineEndpointsCount(lines: seq<string>, filePath: string, i: nat)
    requires i < |lines|
    ensures var line := Trim(lines[i]); var pending := PendingAt(lines, i);
      |PerLine(lines, filePath)[i]|
        == MatchingPairs(line, Bind(line, StateAt(lines, i)), |Verbs|)
           + if Continues(line, pending) && Find(pending, RouteCall).Some? && Find(line, DotCall).Some? then 1 else 0
  {
    var line := Trim(lines[i]);
    var st := Bind(line, StateAt(lines, i));
    VerbEndpointsCount(lines, filePath, i, st, |Verbs|);
    assert PerLine(lines, filePath)[i] == VerbEndpoints(lines, filePath, i, st, |Verbs|)
      + ChainedEndpoints(line, filePath, i, PendingAt(lines, i), BaseRouteAt(lines, i + 1));
  }

  /** Every endpoint of a file comes from one of its lines and carries what
      that line and the state there give it. */
  lemma Provenance(content: string, filePath: string, e: ApiEndpoint)
    requires e in Parse(content, filePath)
    ensures exists i :: 0 <= i < |Split(content, '\n')| && Emitted(Split(content, '\n'), filePath, i, e)
  {
    var lines := Split(content, '\n');
    FlattenMember(PerLine(lines, filePath), e);
    var i :| 0 <= i < |lines| && e in PerLine(lines, filePath)[i];
    LineEndpointsOf(lines, filePath, i);
    assert Emitted(lines, filePath, i, e);
  }

  /** Endpoints come out in the order of their lines, numbered from 1, at
      most nineteen per line. */
  lemma LineOrder(content: string, filePath: string)
    ensures var r := Parse(content, filePath);
      forall a :: 0 <= a < |r| ==> 1 <= r[a].lineNumber <= |Split(content, '\n')|
    ensures var r := Parse(content, filePath);
      forall a, b :: 0 <= a < b < |r| ==> r[a].lineNumber <= r[b].lineNumber
    ensures |Parse(content, filePath)| <= (3 * |Verbs| + 1) * |Split(content, '\n')|
  {
    var lines := Split(content, '\n');
    var perLine := PerLine(lines, filePath);
    forall i, e: ApiEndpoint | 0 <= i < |perLine| && e in perLine[i] ensures e.lineNumber == 1 + i {
      LineEndpointsOf(lines, filePath, i);
      if !RouteOf(lines, filePath, i, Bind(Trim(lines[i]), StateAt(lines, i)), e) {
        assert ChainedOf(lines, filePath, i, e);
      }
    }
    forall i | 0 <= i < |perLine| ensures |perLine[i]| <= 3 * |Verbs| + 1 {
      LineEndpointsOf(lines, filePath, i);
    }
    FlattenNumbered(perLine, (e: ApiEndpoint) => e.lineNumber, 1);
    FlattenLength(perLine, 3 * |Verbs| + 1);
  }

  lemma {:induction false} PatternEndpointsHave(lines: seq<string>, filePath: string, i: nat, st: State, verb: string, n: nat, n': nat,
                                                e: ApiEndpoint)
    requires i < |lines| && n < n' <= 3
    requires e in RouteEndpoint(lines, filePath, i, st, verb, RoutePatterns(st, verb)[n])
    ensures e in PatternEndpoints(lines, filePath, i, st, verb, n')
    decreases n'
  {
    var prev := PatternEndpoints(lines, filePath, i, st, verb, n' - 1);
    assert PatternEndpoints(lines, filePath, i, st, verb, n') == prev + RouteEndpoint(lines, filePath, i, st, verb, RoutePatterns(st, verb)[n' - 1]);
    if n' > n + 1 {
      PatternEndpointsHave(lines, filePath, i, st, verb, n, n' - 1, e);
    }
  }

  lemma {:induction false} VerbEndpointsHave(lines: seq<string>, filePath: string, i: nat, st: State, k: nat, k': nat, e: ApiEndpoint)
    requires i < |lines| && k < k' <= |Verbs|
    requires e in PatternEndpoints(lines, filePath, i, st, Verbs[k], 3)
    ensures e in VerbEndpoints(lines, filePath, i, st, k')
    decreases k'
  {
    var prev := VerbEndpoints(lines, filePath, i, st, k' - 1);
    assert VerbEndpoints(lines, filePath, i, st, k') == prev + PatternEndpoints(lines, filePath, i, st, Verbs[k' - 1], 3);
    if k' > k + 1 {
      VerbEndpointsHave(lines, filePath, i, st, k, k' - 1, e);
    }
  }

  /** Every verb and pattern that matches a line yields its endpoint. */
  lemma RouteCompleteness(content: string, filePath: string, i: nat, k: nat, n: nat)
    requires i < |Split(content, '\n')| && k < |Verbs| && n < 3
    requires var lines := Split(content, '\n'); var line := Trim(lines[i]);
      Find(line, RoutePatterns(Bind(line, StateAt(lines, i)), Verbs[k])[n]).Some?
    ensures var lines := Split(content, '\n'); var line := Trim(lines[i]); var st := Bind(line, StateAt(lines, i));
      ApiEndpoint(CombinePath([st.baseRoute, Find(line, RoutePatterns(st, Verbs[k])[n]).value.first]), ClassFor(lines, i),
                  HandlerOf(line), filePath, i + 1, ScriptLanguage(filePath), Some(Upper(Verbs[k])))
      in Parse(content, filePath)
  {
    var lines := Split(content, '\n');
    var line := Trim(lines[i]);
    var st := Bind(line, StateAt(lines, i));
    var e := ApiEndpoint(CombinePath([st.baseRoute, Find(line, RoutePatterns(st, Verbs[k])[n]).value.first]), ClassFor(lines, i),
                         HandlerOf(line), filePath, i + 1, ScriptLanguage(filePath), Some(Upper(Verbs[k])));
    assert RouteEndpoint(lines, filePath, i, st, Verbs[k], RoutePatterns(st, Verbs[k])[n]) == [e];
    PatternEndpointsHave(lines, filePath, i, st, Verbs[k], n, 3, e);
    VerbEndpointsHave(lines, filePath, i, st, k, |Verbs|, e);
    assert e in PerLine(lines, filePath)[i];
    FlattenMember(PerLine(lines, filePath), e);
  }

  /** Every continuation of a chained route whose opening line holds a
      literal and which itself calls `.name(` yields its endpoint. */
  lemma ChainedCompleteness(content: string, filePath: string, j: nat, i: nat)
    requires j < i < |Split(content, '\n')| && ChainFrom(Split(content, '\n'), j, i + 1)
    requires Find(Trim(Split(content, '\n')[j]), RouteCall).Some? && Find(Trim(Split(content, '\n')[i]), DotCall).Some?
    ensures var lines := Split(content, '\n');
      ApiEndpoint(CombinePath([BaseRouteAt(lines, i + 1), Find(Trim(lines[j]), RouteCall).value.first]),
                  "default", "chainedHandler", filePath, i + 1, ScriptLanguage(filePath),
                  Some(Upper(Find(Trim(lines[i]), DotCall).value.first)))
      in Parse(content, filePath)
  {
    var lines := Split(content, '\n');
    var line := Trim(lines[i]);
    assert ChainFrom(lines, j, i);
    PendingRoute(lines, i);
    var pending := PendingAt(lines, i);
    assert Opens(lines)[j] && !Opens(lines)[i] && CallsVerbs(lines)[i];
    assert pending != "" by {
      var p :| 0 <= p <= |pending| - 6 && StartsAt(pending, p, "route(");
    }
    assert Continues(line, pending);
    var e := ApiEndpoint(CombinePath([BaseRouteAt(lines, i + 1), Find(pending, RouteCall).value.first]),
                         "default", "chainedHandler", filePath, i + 1, ScriptLanguage(filePath),
                         Some(Upper(Find(line, DotCall).value.first)));
    assert ChainedEndpoints(line, filePath, i, pending, BaseRouteAt(lines, i + 1)) == [e];
    assert PerLine(lines, filePath)[i] == VerbEndpoints(lines, filePath, i, Bind(line, StateAt(lines, i)), |Verbs|)
      + ChainedEndpoints(line, filePath, i, pending, BaseRouteAt(lines, i + 1));
    FlattenMember(PerLine(lines, filePath), e);
  }

  /** When the application and the router share a name, the first two
      patterns are the same and every route they match is listed twice. */
  lemma SameNameTwice(lines: seq<string>, filePath: string, i: nat, st: State, verb: string)
    requires i < |lines| && st.appVarName == st.routerVarName
    requires Find(Trim(lines[i]), RoutePatterns(st, verb)[0]).Some?
    ensures |PatternEndpoints(lines, filePath, i, st, verb, 2)| == 2
    ensures PatternEndpoints(lines, filePath, i, st, verb, 2)[0] == PatternEndpoints(lines, filePath, i, st, verb, 2)[1]
  {
    var ps := RoutePatterns(st, verb);
    assert ps[0] == ps[1];
    var r := RouteEndpoint(lines, filePath, i, st, verb, ps[0]);
    assert |r| == 1;
    assert PatternEndpoints(lines, filePath, i, st, verb, 1) == r;
    assert PatternEndpoints(lines, filePath, i, st, verb, 2) == r + r;
  }
}
