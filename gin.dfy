/** `GinScanner`: a forward pass over the trimmed lines of a Go file. A line
    is handled by the first of these that applies, each ending the line: a
    `type X struct` declaration names the current struct; a line holding
    `gin.Default()` or `gin.New()` may rename the router; a `.Group("p")` line
    opens a route group; a `}` inside a group closes it. Any other line is a
    route line: every verb and pattern that matches it yields an endpoint
    under the current group, and a `Struct.Method` handler names the struct.

    The three parts of the scanner's state move separately: the router's name
    (`RouterVarAt`), the open group (`ScopeAt`) and the current struct
    (`StructAt`), which depends on the other two. */
module Gin {
  import opened Optional
  import opened Strings
  import opened Patterns
  import opened Paths
  import opened Types
  import opened Sequences

  /** The fast-reject gate. */
  predicate IsValidFile(content: string) {
    && Contains(content, "github.com/gin-gonic/gin")
    && (Contains(content, "gin.Engine") || Contains(content, "gin.RouterGroup") || Contains(content, "gin.Context"))
  }

  /** The route methods tried on every route line, in order. */
  const Verbs: seq<string> := ["GET", "POST", "PUT", "DELETE", "PATCH", "HEAD", "OPTIONS"]

  /** `/(\w+)\s*:?=\s*gin\.(Default|New)\(\)/` */
  const GinBinding: Matcher := Binding(true, ["gin.Default()", "gin.New()"])

  /** `/[.]Group\(['"]([^'"]+)['"]/` */
  const GroupCall: Matcher := QuotedAfter(".Group(")

  /** `/,\s*([\w.]+)(?:\)|\s*,)/` */
  const HandlerArgument: Matcher := Handler(true)

  datatype State = State(currentGroup: string, routerVarName: string, currentStruct: string, inGroup: bool)

  /** The open route group: its prefix and whether one is open. */
  datatype Scope = Scope(currentGroup: string, inGroup: bool)

  /** A verb and the path literal a route pattern captured. */
  datatype Route = Route(verb: string, path: string)

  // ---------------------------------------------------------------- kinds of line

  predicate StructLine(line: string) {
    Find(line, TypeStruct).Some?
  }

  predicate BindsRouter(line: string) {
    Contains(line, "gin.Default()") || Contains(line, "gin.New()")
  }

  predicate OpensGroup(line: string) {
    Contains(line, ".Group(")
  }

  predicate ClosesGroup(line: string, sc: Scope) {
    sc.inGroup && Contains(line, "}")
  }

  /** A line none of the four earlier branches takes. */
  predicate RouteLine(line: string, sc: Scope) {
    !StructLine(line) && !BindsRouter(line) && !OpensGroup(line) && !ClosesGroup(line, sc)
  }

  // ---------------------------------------------------------------- routes

  /** The three patterns tried for a verb: any `.VERB("p"`, `group.VERB("p"`
      and `router.VERB("p"` under the router's current name. */
  function RoutePatterns(routerVarName: string, verb: string): seq<Matcher> {
    [QuotedAfter("." + verb + "("), QuotedAfter("group." + verb + "("), QuotedAfter(routerVarName + "." + verb + "(")]
  }

  /** The route pattern `m` of `verb` captures on `line`, if any. */
  function PatternRoute(line: string, verb: string, m: Matcher): seq<Route> {
    match Find(line, m)
    case Some(g) => [Route(verb, g.first)]
    case None => []
  }

  /** The routes the first `n` patterns of `verb` capture. */
  function PatternRoutes(line: string, routerVarName: string, verb: string, n: nat): seq<Route>
    requires n <= 3
  {
    if n == 0 then [] else PatternRoutes(line, routerVarName, verb, n - 1) + PatternRoute(line, verb, RoutePatterns(routerVarName, verb)[n - 1])
  }

  /** The routes the first `k` verbs capture. */
  function VerbRoutes(line: string, routerVarName: string, k: nat): seq<Route>
    requires k <= |Verbs|
  {
    if k == 0 then [] else VerbRoutes(line, routerVarName, k - 1) + PatternRoutes(line, routerVarName, Verbs[k - 1], 3)
  }

  /** Every route a route line defines, in the order the loops find them. */
  function Routes(line: string, routerVarName: string): seq<Route> {
    VerbRoutes(line, routerVarName, |Verbs|)
  }

  function HandlerOf(line: string): string {
    FirstGroupOr(line, HandlerArgument, "unknown")
  }

  /** The struct a route line leaves current: the receiver of a
      `Struct.Method` handler, or the one before. */
  function Receiver(line: string, currentStruct: string): string {
    match Find(HandlerOf(line), Qualified)
    case Some(q) => q.first
    case None => currentStruct
  }

  /** The method name: the part after the dot of a `Struct.Method` handler,
      or the whole handler. */
  function MethodOf(line: string): string {
    match Find(HandlerOf(line), Qualified)
    case Some(q) => q.second
    case None => HandlerOf(line)
  }

  function ClassName(line: string, currentStruct: string): string {
    var r := Receiver(line, currentStruct);
    if r != "" then r else "main"
  }

  /** The endpoint route `r` of line `i` yields. */
  function Endpoint(r: Route, currentGroup: string, className: string, methodName: string, filePath: string, i: nat): ApiEndpoint {
    ApiEndpoint(CombinePath([currentGroup, r.path]), className, methodName, filePath, i + 1, "go", Some(r.verb))
  }

  /** The endpoints of routes `rs` of line `i`. */
  function ToEndpoints(rs: seq<Route>, currentGroup: string, className: string, methodName: string, filePath: string, i: nat): (r: seq<ApiEndpoint>)
    ensures |r| == |rs|
  {
    if |rs| == 0 then []
    else
      ToEndpoints(rs[..|rs| - 1], currentGroup, className, methodName, filePath, i)
      + [Endpoint(rs[|rs| - 1], currentGroup, className, methodName, filePath, i)]
  }

  /** The endpoints line `i` yields when the lines before it left `st`. */
  function LineEndpoints(line: string, filePath: string, i: nat, st: State): seq<ApiEndpoint> {
    if RouteLine(line, Scope(st.currentGroup, st.inGroup)) then
      ToEndpoints(Routes(line, st.routerVarName), st.currentGroup, ClassName(line, st.currentStruct), MethodOf(line), filePath, i)
    else []
  }

  // ---------------------------------------------------------------- the pass

  /** The router's name after one line. */
  function RouterVarAfter(line: string, routerVarName: string): string {
    if !StructLine(line) && BindsRouter(line) then FirstGroupOr(line, GinBinding, routerVarName) else routerVarName
  }

  /** The route group after one line. */
  function ScopeAfter(line: string, sc: Scope): Scope {
    if StructLine(line) || BindsRouter(line) then sc
    else if OpensGroup(line) then
      match Find(line, GroupCall)
      case Some(g) => Scope(g.first, true)
      case None => sc
    else if ClosesGroup(line, sc) then Scope("", false)
    else sc
  }

  /** The current struct after one line. */
  function StructAfter(line: string, currentStruct: string, routerVarName: string, sc: Scope): string {
    match Find(line, TypeStruct)
    case Some(g) => g.first
    case None =>
      if RouteLine(line, sc) && Routes(line, routerVarName) != [] then Receiver(line, currentStruct) else currentStruct
  }

  function RouterVarAt(lines: seq<string>, n: nat): string
    requires n <= |lines|
  {
    if n == 0 then "r" else RouterVarAfter(Trim(lines[n - 1]), RouterVarAt(lines, n - 1))
  }

  function ScopeAt(lines: seq<string>, n: nat): Scope
    requires n <= |lines|
  {
    if n == 0 then Scope("", false) else ScopeAfter(Trim(lines[n - 1]), ScopeAt(lines, n - 1))
  }

  function StructAt(lines: seq<string>, n: nat): string
    requires n <= |lines|
  {
    if n == 0 then ""
    else StructAfter(Trim(lines[n - 1]), StructAt(lines, n - 1), RouterVarAt(lines, n - 1), ScopeAt(lines, n - 1))
  }

  /** The state the first `n` lines leave behind. */
  function StateAt(lines: seq<string>, n: nat): State
    requires n <= |lines|
  {
    State(ScopeAt(lines, n).currentGroup, RouterVarAt(lines, n), StructAt(lines, n), ScopeAt(lines, n).inGroup)
  }

  /** The endpoints of every line, in line order. */
  function PerLine(lines: seq<string>, filePath: string): (r: seq<seq<ApiEndpoint>>)
    ensures |r| == |lines|
  {
    seq(|lines|, i requires 0 <= i < |lines| => LineEndpoints(Trim(lines[i]), filePath, i, StateAt(lines, i)))
  }

  function Parse(content: string, filePath: string): seq<ApiEndpoint> {
    Flatten(PerLine(Split(content, '\n'), filePath))
  }

  // ---------------------------------------------------------------- the loop

  /** The handler of a route line, split into the struct it names (or
      `currentStruct`) and the method name. */
  method HandlerParts(line: string, currentStruct: string) returns (structName: string, methodName: string)
    ensures structName == Receiver(line, currentStruct) && methodName == MethodOf(line)
  {
    methodName := "unknown";
    var handlerMatch := Find(line, HandlerArgument);
    if handlerMatch.Some? {
      methodName := handlerMatch.value.first;
    }
    structName := currentStruct;
    var methodMatch := Find(methodName, Qualified);
    if methodMatch.Some? {
      structName := methodMatch.value.first;
      methodName := methodMatch.value.second;
    }
  }

  /** Taking the receiver twice is taking it once. */
  lemma ReceiverStable(line: string, currentStruct: string)
    ensures Receiver(line, Receiver(line, currentStruct)) == Receiver(line, currentStruct)
  {
  }

  /** One more route adds its endpoint at the end. */
  lemma ToEndpointsSnoc(rs: seq<Route>, r: Route, currentGroup: string, className: string, methodName: string, filePath: string, i: nat)
    ensures ToEndpoints(rs + [r], currentGroup, className, methodName, filePath, i)
      == ToEndpoints(rs, currentGroup, className, methodName, filePath, i)
         + [Endpoint(r, currentGroup, className, methodName, filePath, i)]
  {
    assert (rs + [r])[..|rs + [r]| - 1] == rs;
  }

  /** One pattern of the `patterns` loop: on a match, the endpoint and the
      handler's receiver as the new current struct. */
  method MatchPattern(line: string, filePath: string, i: nat, currentGroup: string, verb: string, pattern: Matcher,
                      currentStruct: string)
    returns (found: seq<ApiEndpoint>, newStruct: string)
    ensures found == ToEndpoints(PatternRoute(line, verb, pattern), currentGroup, ClassName(line, currentStruct), MethodOf(line), filePath, i)
    ensures newStruct == if PatternRoute(line, verb, pattern) != [] then Receiver(line, currentStruct) else currentStruct
  {
    found, newStruct := [], currentStruct;
    var routeMatch := Find(line, pattern);
    if routeMatch.Some? {
      var path := routeMatch.value.first;
      var structName, handlerName := HandlerParts(line, currentStruct);
      newStruct := structName;
      assert PatternRoute(line, verb, pattern) == [Route(verb, path)];
      found := [ApiEndpoint(CombinePath([currentGroup, path]), if newStruct != "" then newStruct else "main",
                            handlerName, filePath, i + 1, "go", Some(verb))];
      assert [Route(verb, path)][..0] == [];
    }
  }

  /** The `patterns` loop for one verb; `currentStruct` moves to the handler's
      receiver on every match, as the scanner assigns it. */
  method MatchVerb(line: string, filePath: string, i: nat, currentGroup: string, routerVarName: string, verb: string,
                   currentStruct: string)
    returns (found: seq<ApiEndpoint>, newStruct: string)
    ensures found == ToEndpoints(PatternRoutes(line, routerVarName, verb, 3), currentGroup, ClassName(line, currentStruct),
                                 MethodOf(line), filePath, i)
    ensures newStruct == if PatternRoutes(line, routerVarName, verb, 3) != [] then Receiver(line, currentStruct) else currentStruct
  {
    var patterns := RoutePatterns(routerVarName, verb);
    ghost var className := ClassName(line, currentStruct);
    ReceiverStable(line, currentStruct);
    found, newStruct := [], currentStruct;
    var n := 0;
    while n < |patterns|
      invariant 0 <= n <= 3
      invariant found == ToEndpoints(PatternRoutes(line, routerVarName, verb, n), currentGroup, className, MethodOf(line), filePath, i)
      invariant newStruct == if PatternRoutes(line, routerVarName, verb, n) != [] then Receiver(line, currentStruct) else currentStruct
    {
      var more, after := MatchPattern(line, filePath, i, currentGroup, verb, patterns[n], newStruct);
      assert ClassName(line, newStruct) == className;
      PatternRoutesStep(line, routerVarName, verb, n, currentGroup, className, MethodOf(line), filePath, i);
      found, newStruct := found + more, after;
      n := n + 1;
    }
  }

  /** One more pattern appends its route and its endpoint. */
  lemma PatternRoutesStep(line: string, routerVarName: string, verb: string, n: nat, currentGroup: string, className: string,
                          methodName: string, filePath: string, i: nat)
    requires n < 3
    ensures var rs := PatternRoute(line, verb, RoutePatterns(routerVarName, verb)[n]);
      && PatternRoutes(line, routerVarName, verb, n + 1) == PatternRoutes(line, routerVarName, verb, n) + rs
      && ToEndpoints(PatternRoutes(line, routerVarName, verb, n + 1), currentGroup, className, methodName, filePath, i)
         == ToEndpoints(PatternRoutes(line, routerVarName, verb, n), currentGroup, className, methodName, filePath, i)
            + ToEndpoints(rs, currentGroup, className, methodName, filePath, i)
  {
    var rs := PatternRoute(line, verb, RoutePatterns(routerVarName, verb)[n]);
    ToEndpointsAppend(PatternRoutes(line, routerVarName, verb, n), rs, currentGroup, className, methodName, filePath, i);
  }

  /** The concatenation of two route lists yields the concatenated endpoints. */
  lemma {:induction false} ToEndpointsAppend(a: seq<Route>, b: seq<Route>, currentGroup: string, className: string,
                                             methodName: string, filePath: string, i: nat)
    ensures ToEndpoints(a + b, currentGroup, className, methodName, filePath, i)
      == ToEndpoints(a, currentGroup, className, methodName, filePath, i) + ToEndpoints(b, currentGroup, className, methodName, filePath, i)
    decreases |b|
  {
    if |b| > 0 {
      var b' := b[..|b| - 1];
      ToEndpointsAppend(a, b', currentGroup, className, methodName, filePath, i);
      assert (a + b)[..|a + b| - 1] == a + b';
    } else {
      assert a + b == a;
    }
  }

  /** The `httpMethods` loop of a route line. */
  method LineRoutes(line: string, filePath: string, i: nat, currentGroup: string, routerVarName: string, currentStruct: string)
    returns (found: seq<ApiEndpoint>, newStruct: string)
    ensures found == ToEndpoints(Routes(line, routerVarName), currentGroup, ClassName(line, currentStruct), MethodOf(line), filePath, i)
    ensures newStruct == if Routes(line, routerVarName) != [] then Receiver(line, currentStruct) else currentStruct
  {
    ghost var className := ClassName(line, currentStruct);
    ReceiverStable(line, currentStruct);
    found, newStruct := [], currentStruct;
    var k := 0;
    while k < |Verbs|
      invariant 0 <= k <= |Verbs|
      invariant found == ToEndpoints(VerbRoutes(line, routerVarName, k), currentGroup, className, MethodOf(line), filePath, i)
      invariant newStruct == if VerbRoutes(line, routerVarName, k) != [] then Receiver(line, currentStruct) else currentStruct
    {
      var more, after := MatchVerb(line, filePath, i, currentGroup, routerVarName, Verbs[k], newStruct);
      assert ClassName(line, newStruct) == className;
      ghost var rs := PatternRoutes(line, routerVarName, Verbs[k], 3);
      assert VerbRoutes(line, routerVarName, k + 1) == VerbRoutes(line, routerVarName, k) + rs;
      ToEndpointsAppend(VerbRoutes(line, routerVarName, k), rs, currentGroup, className, MethodOf(line), filePath, i);
      found, newStruct := found + more, after;
      k := k + 1;
    }
  }

  /** The state after one line. */
  function Next(line: string, st: State): State {
    var sc := ScopeAfter(line, Scope(st.currentGroup, st.inGroup));
    State(sc.currentGroup, RouterVarAfter(line, st.routerVarName),
          StructAfter(line, st.currentStruct, st.routerVarName, Scope(st.currentGroup, st.inGroup)), sc.inGroup)
  }

  lemma StateAtNext(lines: seq<string>, n: nat)
    requires n < |lines|
    ensures StateAt(lines, n + 1) == Next(Trim(lines[n]), StateAt(lines, n))
  {
  }

  /** The body of the line loop: the first branch that applies. */
  method Step(line: string, filePath: string, i: nat, st: State) returns (found: seq<ApiEndpoint>, after: State)
    ensures found == LineEndpoints(line, filePath, i, st)
    ensures after == Next(line, st)
  {
    var currentGroup, routerVarName, currentStruct, inGroup := st.currentGroup, st.routerVarName, st.currentStruct, st.inGroup;
    found := [];
    var structMatch := Find(line, TypeStruct);
    if structMatch.Some? {
      currentStruct := structMatch.value.first;
    } else if Contains(line, "gin.Default()") || Contains(line, "gin.New()") {
      var m := Find(line, GinBinding);
      if m.Some? {
        routerVarName := m.value.first;
      }
    } else if Contains(line, ".Group(") {
      var groupMatch := Find(line, GroupCall);
      if groupMatch.Some? {
        currentGroup := groupMatch.value.first;
        inGroup := true;
      }
    } else if inGroup && Contains(line, "}") {
      inGroup := false;
      currentGroup := "";
    } else {
      found, currentStruct := LineRoutes(line, filePath, i, currentGroup, routerVarName, currentStruct);
    }
    after := State(currentGroup, routerVarName, currentStruct, inGroup);
  }

  /** `parseFile`. */
  method ParseFile(content: string, filePath: string) returns (endpoints: seq<ApiEndpoint>)
    ensures endpoints == Parse(content, filePath)
  {
    var lines := Split(content, '\n');
    ghost var perLine := PerLine(lines, filePath);
    var st := State("", "r", "", false);
    endpoints := [];
    var i := 0;
    while i < |lines|
      invariant 0 <= i <= |lines|
      invariant st == StateAt(lines, i)
      invariant endpoints == Flatten(perLine[..i])
    {
      FlattenStep(perLine, i);
      StateAtNext(lines, i);
      assert perLine[i] == LineEndpoints(Trim(lines[i]), filePath, i, st);
      var found;
      found, st := Step(Trim(lines[i]), filePath, i, st);
      endpoints := endpoints + found;
      i := i + 1;
    }
    assert perLine[..|lines|] == perLine;
  }

  // ---------------------------------------------------------------- what the pass keeps

  /** The outcome of the binding pattern on every trimmed line that reaches
      the `gin.Default()` branch. */
  function RouterBindings(lines: seq<string>): (r: seq<Option<Groups>>)
    ensures |r| == |lines|
  {
    seq(|lines|, j requires 0 <= j < |lines| =>
      if StructLine(Trim(lines[j])) then None else Find(Trim(lines[j]), GinBinding))
  }

  /** The `gin.Default()`/`gin.New()` guard never rejects a line the binding
      pattern accepts. */
  lemma RouterVarStep(line: string, routerVarName: string)
    ensures RouterVarAfter(line, routerVarName) == if StructLine(line) then routerVarName else FirstGroupOr(line, GinBinding, routerVarName)
  {
    if Find(line, GinBinding).Some? {
      BindingFound(line, true, ["gin.Default()", "gin.New()"]);
    }
  }

  /** The router's name is the one the last `x := gin.Default()` (or
      `gin.New()`) outside a struct line bound, and `r` before any. */
  lemma RouterVarLatest(lines: seq<string>, n: nat)
    requires n <= |lines|
    ensures RouterVarAt(lines, n) == LastGroupOr(RouterBindings(lines), n, "r")
  {
    var xs := RouterBindings(lines);
    var vs := seq(|lines| + 1, k requires 0 <= k <= |lines| => RouterVarAt(lines, k));
    forall k | 0 <= k < |lines|
      ensures vs[k + 1] == if xs[k].Some? then xs[k].value.first else vs[k]
    {
      RouterVarStep(Trim(lines[k]), vs[k]);
    }
    LatestFold(xs, vs, "r", n);
  }

  /** The router's name is always a run of word characters, so splicing it
      into the third route pattern, as the scanner does without escaping,
      adds no regular-expression syntax: matching it literally is exact. */
  lemma RouterVarIsIdentifier(lines: seq<string>, n: nat)
    requires n <= |lines|
    ensures IsIdentifier(RouterVarAt(lines, n))
  {
    var xs := RouterBindings(lines);
    RouterVarLatest(lines, n);
    LastGroupOrFrom(xs, n, "r");
    if RouterVarAt(lines, n) != "r" {
      var p :| 0 <= p < n && xs[p].Some? && xs[p].value.first == RouterVarAt(lines, n);
      BindingFound(Trim(lines[p]), true, ["gin.Default()", "gin.New()"]);
    } else {
      var r := "r";
      assert IsWord(r[0]);
    }
  }

  /** A group is open exactly when its prefix is non-empty, and an open
      group's prefix is the literal of an earlier `.Group("p")` line. */
  lemma {:induction false} GroupScope(lines: seq<string>, n: nat)
    requires n <= |lines|
    ensures ScopeAt(lines, n).inGroup <==> ScopeAt(lines, n).currentGroup != ""
    ensures ScopeAt(lines, n).inGroup ==>
      exists j :: 0 <= j < n && OpensGroup(Trim(lines[j])) && Find(Trim(lines[j]), GroupCall).Some?
        && Find(Trim(lines[j]), GroupCall).value.first == ScopeAt(lines, n).currentGroup
    decreases n
  {
    if n > 0 {
      GroupScope(lines, n - 1);
      ScopeStep(Trim(lines[n - 1]), ScopeAt(lines, n - 1));
    }
  }

  /** One line keeps the scope's flag and prefix in step, and an open scope
      it changes takes its prefix from the line's own `.Group("p")`. */
  lemma ScopeStep(line: string, sc: Scope)
    requires sc.inGroup <==> sc.currentGroup != ""
    ensures var r := ScopeAfter(line, sc); r.inGroup <==> r.currentGroup != ""
    ensures var r := ScopeAfter(line, sc);
      r.inGroup && r != sc ==> OpensGroup(line) && Find(line, GroupCall).Some? && Find(line, GroupCall).value.first == r.currentGroup
  {
    if !StructLine(line) && !BindsRouter(line) && OpensGroup(line) && Find(line, GroupCall).Some? {
      QuotedFound(line, ".Group(", Quotes, Quotes, false, Anything);
    }
  }

  /** A line keeps the current struct a name or empty. */
  lemma StructStep(line: string, currentStruct: string, routerVarName: string, sc: Scope)
    requires NameOrEmpty(currentStruct)
    ensures NameOrEmpty(StructAfter(line, currentStruct, routerVarName, sc))
  {
    if StructLine(line) {
      TypeStructFound(line);
    } else {
      ReceiverIsName(line, currentStruct);
    }
  }

  lemma ReceiverIsName(line: string, currentStruct: string)
    requires NameOrEmpty(currentStruct)
    ensures NameOrEmpty(Receiver(line, currentStruct))
  {
    if Find(HandlerOf(line), Qualified).Some? {
      QualifiedFound(HandlerOf(line));
    }
  }


  /** The current struct is empty or a run of word characters: a struct's
      declared name, or the receiver of a `Struct.Method` handler. */
  lemma StructIsIdentifier(lines: seq<string>, n: nat)
    requires n <= |lines|
    ensures NameOrEmpty(StructAt(lines, n))
  {
    var vs := seq(|lines| + 1, k requires 0 <= k <= |lines| => StructAt(lines, k));
    forall k | 0 <= k < |vs| - 1 && NameOrEmpty(vs[k]) ensures NameOrEmpty(vs[k + 1]) {
      StructAtStep(lines, k);
    }
    NamesThroughout(vs, n);
  }

  lemma StructAtStep(lines: seq<string>, k: nat)
    requires k < |lines| && NameOrEmpty(StructAt(lines, k))
    ensures NameOrEmpty(StructAt(lines, k + 1))
  {
    StructStep(Trim(lines[k]), StructAt(lines, k), RouterVarAt(lines, k), ScopeAt(lines, k));
  }

  // ---------------------------------------------------------------- what a route line yields

  /** `r` is what pattern `n` of verb `k` captures on `line`. */
  predicate RouteFrom(line: string, routerVarName: string, r: Route) {
    exists k, n :: 0 <= k < |Verbs| && 0 <= n < 3 && Find(line, RoutePatterns(routerVarName, Verbs[k])[n]).Some?
      && r == Route(Verbs[k], Find(line, RoutePatterns(routerVarName, Verbs[k])[n]).value.first)
  }

  lemma PatternRouteOf(line: string, verb: string, m: Matcher)
    ensures |PatternRoute(line, verb, m)| <= 1
    ensures forall r :: r in PatternRoute(line, verb, m) <==> Find(line, m).Some? && r == Route(verb, Find(line, m).value.first)
  {
  }

  lemma {:induction false} PatternRoutesLength(line: string, routerVarName: string, verb: string, n: nat)
    requires n <= 3
    ensures |PatternRoutes(line, routerVarName, verb, n)| <= n
    decreases n
  {
    if n > 0 {
      PatternRoutesLength(line, routerVarName, verb, n - 1);
      PatternRouteOf(line, verb, RoutePatterns(routerVarName, verb)[n - 1]);
    }
  }

  lemma {:induction false} PatternRoutesOf(line: string, routerVarName: string, verb: string, n: nat)
    requires n <= 3
    ensures forall r :: r in PatternRoutes(line, routerVarName, verb, n) <==>
      exists m :: 0 <= m < n && r in PatternRoute(line, verb, RoutePatterns(routerVarName, verb)[m])
    decreases n
  {
    if n > 0 {
      PatternRoutesOf(line, routerVarName, verb, n - 1);
    }
  }

  lemma {:induction false} VerbRoutesLength(line: string, routerVarName: string, k: nat)
    requires k <= |Verbs|
    ensures |VerbRoutes(line, routerVarName, k)| <= 3 * k
    decreases k
  {
    if k > 0 {
      VerbRoutesLength(line, routerVarName, k - 1);
      PatternRoutesLength(line, routerVarName, Verbs[k - 1], 3);
    }
  }

  lemma VerbRoutesOf(line: string, routerVarName: string, k: nat)
    requires k <= |Verbs|
    ensures forall r :: r in VerbRoutes(line, routerVarName, k) <==>
      exists j :: 0 <= j < k && r in PatternRoutes(line, routerVarName, Verbs[j], 3)
  {
    var parts := VerbParts(line, routerVarName)[..k];
    VerbRoutesFlatten(line, routerVarName, k);
    forall r
      ensures r in VerbRoutes(line, routerVarName, k) <==>
        exists j :: 0 <= j < k && r in PatternRoutes(line, routerVarName, Verbs[j], 3)
    {
      FlattenMember(parts, r);
      assert forall j :: 0 <= j < k ==> parts[j] == PatternRoutes(line, routerVarName, Verbs[j], 3);
    }
  }

  /** The routes of each verb, in table order. */
  function VerbParts(line: string, routerVarName: string): (r: seq<seq<Route>>)
    ensures |r| == |Verbs|
  {
    seq(|Verbs|, j requires 0 <= j < |Verbs| => PatternRoutes(line, routerVarName, Verbs[j], 3))
  }

  /** The verb loop concatenates the verbs' routes. */
  lemma {:induction false} VerbRoutesFlatten(line: string, routerVarName: string, k: nat)
    requires k <= |Verbs|
    ensures VerbRoutes(line, routerVarName, k) == Flatten(VerbParts(line, routerVarName)[..k])
    decreases k
  {
    if k > 0 {
      VerbRoutesFlatten(line, routerVarName, k - 1);
      FlattenStep(VerbParts(line, routerVarName), k - 1);
    }
  }

  /** The positions, among the first `n` patterns of `verb`, of the
      patterns that match on `line`. */
  function MatchingPatterns(line: string, routerVarName: string, verb: string, n: nat): set<nat>
    requires n <= 3
  {
    set m: nat | m < n && Find(line, RoutePatterns(routerVarName, verb)[m]).Some?
  }

  /** The number of (verb, pattern) pairs, among the first `k` verbs, that
      match on `line`. */
  function MatchingPairs(line: string, routerVarName: string, k: nat): nat
    requires k <= |Verbs|
  {
    if k == 0 then 0 else MatchingPairs(line, routerVarName, k - 1) + |MatchingPatterns(line, routerVarName, Verbs[k - 1], 3)|
  }

  /** One more pattern adds its own position when it matches. */
  lemma MatchingPatternsStep(line: string, routerVarName: string, verb: string, n: nat)
    requires 0 < n <= 3
    ensures |MatchingPatterns(line, routerVarName, verb, n)|
      == |MatchingPatterns(line, routerVarName, verb, n - 1)| + if Find(line, RoutePatterns(routerVarName, verb)[n - 1]).Some? then 1 else 0
  {
    var ps := RoutePatterns(routerVarName, verb);
    var before := MatchingPatterns(line, routerVarName, verb, n - 1);
    var after := MatchingPatterns(line, routerVarName, verb, n);
    var added: set<nat> := if Find(line, ps[n - 1]).Some? then {n - 1} else {};
    assert n - 1 !in before;
    assert after == before + added by {
      forall m: nat ensures m in after <==> m in before + added {
        if m < n - 1 {
          assert m in after <==> Find(line, ps[m]).Some?;
          assert m in before <==> Find(line, ps[m]).Some?;
        }
      }
    }
  }

  /** Each matching pattern of a verb adds exactly one route. */
  lemma {:induction false} PatternRoutesCount(line: string, routerVarName: string, verb: string, n: nat)
    requires n <= 3
    ensures |PatternRoutes(line, routerVarName, verb, n)| == |MatchingPatterns(line, routerVarName, verb, n)|
    decreases n
  {
    if n > 0 {
      PatternRoutesCount(line, routerVarName, verb, n - 1);
      MatchingPatternsStep(line, routerVarName, verb, n);
      var m := RoutePatterns(routerVarName, verb)[n - 1];
      assert |PatternRoute(line, verb, m)| == if Find(line, m).Some? then 1 else 0;
    }
  }

  /** Each matching (verb, pattern) pair adds exactly one route. */
  lemma {:induction false} VerbRoutesCount(line: string, routerVarName: string, k: nat)
    requires k <= |Verbs|
    ensures |VerbRoutes(line, routerVarName, k)| == MatchingPairs(line, routerVarName, k)
    decreases k
  {
    if k > 0 {
      VerbRoutesCount(line, routerVarName, k - 1);
      PatternRoutesCount(line, routerVarName, Verbs[k - 1], 3);
    }
  }

  /** A line's routes are exactly what some verb and pattern capture on it,
      one for every matching (verb, pattern) pair, so at most three per
      verb. */
  lemma RoutesExactly(line: string, routerVarName: string)
    ensures |Routes(line, routerVarName)| == MatchingPairs(line, routerVarName, |Verbs|)
    ensures |Routes(line, routerVarName)| <= 3 * |Verbs|
    ensures forall r :: r in Routes(line, routerVarName) <==> RouteFrom(line, routerVarName, r)
  {
    VerbRoutesCount(line, routerVarName, |Verbs|);
    VerbRoutesLength(line, routerVarName, |Verbs|);
    VerbRoutesOf(line, routerVarName, |Verbs|);
    forall k | 0 <= k < |Verbs|
      ensures forall r :: r in PatternRoutes(line, routerVarName, Verbs[k], 3) <==>
        exists n :: 0 <= n < 3 && r in PatternRoute(line, Verbs[k], RoutePatterns(routerVarName, Verbs[k])[n])
    {
      PatternRoutesOf(line, routerVarName, Verbs[k], 3);
    }
    forall k, n | 0 <= k < |Verbs| && 0 <= n < 3
      ensures forall r :: r in PatternRoute(line, Verbs[k], RoutePatterns(routerVarName, Verbs[k])[n]) <==>
        Find(line, RoutePatterns(routerVarName, Verbs[k])[n]).Some?
        && r == Route(Verbs[k], Find(line, RoutePatterns(routerVarName, Verbs[k])[n]).value.first)
    {
      PatternRouteOf(line, Verbs[k], RoutePatterns(routerVarName, Verbs[k])[n]);
    }
  }

  /** The `i`-th endpoint is the `i`-th route's. */
  lemma {:induction false} ToEndpointsAt(rs: seq<Route>, currentGroup: string, className: string, methodName: string, filePath: string, i: nat)
    ensures forall j :: 0 <= j < |rs| ==>
      ToEndpoints(rs, currentGroup, className, methodName, filePath, i)[j] == Endpoint(rs[j], currentGroup, className, methodName, filePath, i)
    decreases |rs|
  {
    if |rs| > 0 {
      ToEndpointsAt(rs[..|rs| - 1], currentGroup, className, methodName, filePath, i);
    }
  }

  /** Every route matched through the group or the router's name is also
      matched by the plain `.VERB(` pattern, so it is listed at least twice. */
  lemma ListedTwice(line: string, routerVarName: string, verb: string)
    requires Find(line, RoutePatterns(routerVarName, verb)[1]).Some? || Find(line, RoutePatterns(routerVarName, verb)[2]).Some?
    ensures |PatternRoutes(line, routerVarName, verb, 3)| >= 2
  {
    var ps := RoutePatterns(routerVarName, verb);
    var b := "." + verb + "(";
    assert ps[0] == QuotedAfter(b);
    if Find(line, ps[1]).Some? {
      assert "group" + b == "group." + verb + "(";
      QuotedSuffixFound(line, "group", b);
    } else {
      assert routerVarName + b == routerVarName + "." + verb + "(";
      QuotedSuffixFound(line, routerVarName, b);
    }
    assert |PatternRoutes(line, routerVarName, verb, 1)| == 1;
    assert |PatternRoutes(line, routerVarName, verb, 3)|
      == |PatternRoutes(line, routerVarName, verb, 1)| + |PatternRoute(line, verb, ps[1])| + |PatternRoute(line, verb, ps[2])|;
  }

  /** The class name is a run of word characters: the current struct or
      `main`. */
  lemma ClassNameIsIdentifier(line: string, currentStruct: string)
    requires NameOrEmpty(currentStruct)
    ensures IsIdentifier(ClassName(line, currentStruct))
  {
    ReceiverIsName(line, currentStruct);
    var main := "main";
    assert forall k :: 0 <= k < |main| ==> IsWord(main[k]);
  }

  /** The method name is never empty: the part after the dot of a
      `Struct.Method` handler, the handler, or `unknown`. */
  lemma MethodNonEmpty(line: string)
    ensures |MethodOf(line)| > 0
  {
    if Find(HandlerOf(line), Qualified).Some? {
      QualifiedFound(HandlerOf(line));
    } else if Find(line, HandlerArgument).Some? {
      HandlerFound(line, true);
    }
  }

  // ---------------------------------------------------------------- what the endpoints say

  /** `e` is what a route on line `i` yields, when that line is a route line
      under the state the lines above it left. */
  ghost predicate Emitted(lines: seq<string>, filePath: string, i: nat, e: ApiEndpoint)
    requires i < |lines|
  {
    var line := Trim(lines[i]);
    var st := StateAt(lines, i);
    && RouteLine(line, Scope(st.currentGroup, st.inGroup))
    && exists r :: RouteFrom(line, st.routerVarName, r)
         && e == Endpoint(r, st.currentGroup, ClassName(line, st.currentStruct), MethodOf(line), filePath, i)
  }

  /** The endpoints of line `i` are exactly those `Emitted` says: on a
      route line one for every matching (verb, pattern) pair, duplicates
      included, and none on any other line. */
  lemma LineEndpointsExactly(lines: seq<string>, filePath: string, i: nat)
    requires i < |lines|
    ensures var st := StateAt(lines, i);
      |PerLine(lines, filePath)[i]|
        == if RouteLine(Trim(lines[i]), Scope(st.currentGroup, st.inGroup)) then MatchingPairs(Trim(lines[i]), st.routerVarName, |Verbs|) else 0
    ensures |PerLine(lines, filePath)[i]| <= 3 * |Verbs|
    ensures forall e :: e in PerLine(lines, filePath)[i] <==> Emitted(lines, filePath, i, e)
  {
    var line := Trim(lines[i]);
    var st := StateAt(lines, i);
    var sc := Scope(st.currentGroup, st.inGroup);
    if RouteLine(line, sc) {
      var rs := Routes(line, st.routerVarName);
      var className := ClassName(line, st.currentStruct);
      var es := ToEndpoints(rs, st.currentGroup, className, MethodOf(line), filePath, i);
      assert PerLine(lines, filePath)[i] == es;
      RoutesExactly(line, st.routerVarName);
      ToEndpointsAt(rs, st.currentGroup, className, MethodOf(line), filePath, i);
      forall e ensures e in es <==> Emitted(lines, filePath, i, e) {
        if e in es {
          var j :| 0 <= j < |es| && es[j] == e;
          assert rs[j] in rs;
        }
        if Emitted(lines, filePath, i, e) {
          var r :| RouteFrom(line, st.routerVarName, r)
            && e == Endpoint(r, st.currentGroup, className, MethodOf(line), filePath, i);
          var j :| 0 <= j < |rs| && rs[j] == r;
          assert es[j] == e;
        }
      }
    } else {
      assert PerLine(lines, filePath)[i] == [];
    }
  }

  /** Every endpoint of a file is emitted by one of its lines. */
  lemma Provenance(content: string, filePath: string, e: ApiEndpoint)
    requires e in Parse(content, filePath)
    ensures exists i :: 0 <= i < |Split(content, '\n')| && Emitted(Split(content, '\n'), filePath, i, e)
  {
    var lines := Split(content, '\n');
    FlattenMember(PerLine(lines, filePath), e);
    var i :| 0 <= i < |lines| && e in PerLine(lines, filePath)[i];
    LineEndpointsExactly(lines, filePath, i);
  }

  /** Every endpoint a line emits is in the file's list. */
  lemma Completeness(content: string, filePath: string, i: nat, e: ApiEndpoint)
    requires i < |Split(content, '\n')| && Emitted(Split(content, '\n'), filePath, i, e)
    ensures e in Parse(content, filePath)
  {
    var lines := Split(content, '\n');
    LineEndpointsExactly(lines, filePath, i);
    FlattenMember(PerLine(lines, filePath), e);
  }

  /** Endpoints come out in the order of their lines, numbered from 1, at
      most twenty-one per line. */
  lemma LineOrder(content: string, filePath: string)
    ensures var r := Parse(content, filePath);
      forall a :: 0 <= a < |r| ==> 1 <= r[a].lineNumber <= |Split(content, '\n')|
    ensures var r := Parse(content, filePath);
      forall a, b :: 0 <= a < b < |r| ==> r[a].lineNumber <= r[b].lineNumber
    ensures |Parse(content, filePath)| <= 3 * |Verbs| * |Split(content, '\n')|
  {
    var lines := Split(content, '\n');
    var perLine := PerLine(lines, filePath);
    forall i, e: ApiEndpoint | 0 <= i < |perLine| && e in perLine[i] ensures e.lineNumber == 1 + i {
      LineEndpointsExactly(lines, filePath, i);
    }
    forall i | 0 <= i < |perLine| ensures |perLine[i]| <= 3 * |Verbs| {
      LineEndpointsExactly(lines, filePath, i);
    }
    FlattenNumbered(perLine, (e: ApiEndpoint) => e.lineNumber, 1);
    FlattenLength(perLine, 3 * |Verbs|);
  }
}
