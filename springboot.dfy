/** `SpringBootScanner`: a forward pass over the trimmed lines of a Java file
    that remembers the last class name, the class-level `@RequestMapping`
    literal and whether a controller annotation has been seen, and emits one
    endpoint per mapping annotation on a line, provided a method signature
    follows somewhere below it.

    `StateAt`, `LineEndpoints` and `Parse` say what the pass computes;
    `ParseFile` is the loop itself, proved to compute `Parse`. */
module SpringBoot {
  import opened Optional
  import opened Strings
  import opened Patterns
  import opened Paths
  import opened Types
  import opened Sequences

  /** The scanner's `contextPath` field, which nothing ever assigns. */
  const ContextPath: string := ""

  /** The annotations that make a line a route, in the order they are tried. */
  const MappingTypes: seq<string> :=
    ["@GetMapping", "@PostMapping", "@PutMapping", "@DeleteMapping", "@PatchMapping", "@RequestMapping"]

  /** `/["]([^"]+)["]/`: the first double-quoted literal on a line. */
  const DoubleQuoted: Matcher := Quoted("", DoubleQuote, DoubleQuote, false, Anything)

  /** `/class\s+(\w+)/` */
  const ClassName: Matcher := Keywords(["class"])

  /** The fast-reject gate: the file mentions a controller annotation. */
  predicate IsValidFile(content: string) {
    Contains(content, "@RestController") || Contains(content, "@Controller") || Contains(content, "@RequestMapping")
  }

  /** A line that switches the controller flag on. */
  predicate ControllerLine(line: string) {
    Contains(line, "@RestController") || Contains(line, "@Controller")
  }

  /** The verb of a mapping annotation: the one its name spells, and `GET`
      for the verb-less `@RequestMapping`. */
  function GetHttpMethod(mappingType: string): (r: string)
    requires mappingType in MappingTypes
    ensures r in HttpMethods
    ensures r == "GET" <==> mappingType == "@GetMapping" || mappingType == "@RequestMapping"
  {
    match mappingType
    case "@GetMapping" => "GET"
    case "@PostMapping" => "POST"
    case "@PutMapping" => "PUT"
    case "@DeleteMapping" => "DELETE"
    case "@PatchMapping" => "PATCH"
    case _ => "GET"
  }

  /** The path literal of a mapping line: the first double-quoted literal, else
      the `value = "..."` literal, else the `path = "..."` literal, else empty. */
  function MethodPath(line: string): string {
    match Find(line, DoubleQuoted)
    case Some(g) => g.first
    case None =>
      match Find(line, KeyQuoted("value"))
      case Some(g) => g.first
      case None => FirstGroupOr(line, KeyQuoted("path"), "")
  }

  /** The two fallbacks can never be reached, since each of their literals is
      itself a double-quoted literal: the path is the first double-quoted
      literal, empty exactly when there is none, and free of `"`. */
  lemma MethodPathSpec(line: string)
    ensures MethodPath(line) == FirstGroupOr(line, DoubleQuoted, "")
    ensures MethodPath(line) == "" <==> Find(line, DoubleQuoted).None?
    ensures forall k :: 0 <= k < |MethodPath(line)| ==> MethodPath(line)[k] != '"'
  {
    if Find(line, DoubleQuoted).Some? {
      QuotedFound(line, "", DoubleQuote, DoubleQuote, false, Anything);
    } else {
      if Find(line, KeyQuoted("value")).Some? {
        KeyQuotedImpliesQuoted(line, "value");
      }
      if Find(line, KeyQuoted("path")).Some? {
        KeyQuotedImpliesQuoted(line, "path");
      }
    }
  }

  /** The outcome of `/\s+\w+\s+(\w+)\s*\(/` on every trimmed line. */
  function Signatures(lines: seq<string>): (r: seq<Option<Groups>>)
    ensures |r| == |lines|
  {
    seq(|lines|, j requires 0 <= j < |lines| => Find(Trim(lines[j]), JavaSignature))
  }

  /** The name the forward lookahead settles on: the method name of the first
      signature at line `start` or later, or empty when there is none. */
  function LookaheadName(lines: seq<string>, start: nat): string
    requires start <= |lines|
  {
    match FirstPresent(Signatures(lines), start)
    case Some(g) => g.first
    case None => ""
  }

  /** The lookahead answers the captured method name of the first line at or
      after `start` whose trimmed text holds a Java method signature, and
      empty exactly when no such line exists. */
  lemma LookaheadNameSpec(lines: seq<string>, start: nat)
    requires start <= |lines|
    ensures var r := LookaheadName(lines, start);
      r == "" <==> forall j :: start <= j < |lines| ==> Signatures(lines)[j].None?
    ensures var r := LookaheadName(lines, start);
      r != "" ==> exists j :: start <= j < |lines| && Signatures(lines)[j] == Some(Groups(r, ""))
                              && forall k :: start <= k < j ==> Signatures(lines)[k].None?
  {
    var sigs := Signatures(lines);
    FirstPresentLeftmost(sigs, start);
    if FirstPresent(sigs, start).Some? {
      var j :| start <= j < |sigs| && sigs[j] == FirstPresent(sigs, start) && forall q :: start <= q < j ==> sigs[q].None?;
      assert sigs[j] == Find(Trim(lines[j]), JavaSignature);
      JavaSignatureFound(Trim(lines[j]));
    }
  }

  /** The inner `j` loop: scan forward from `start` for a method signature. */
  method FindMethodName(lines: seq<string>, start: nat) returns (methodName: string)
    requires start <= |lines|
    ensures methodName == LookaheadName(lines, start)
  {
    methodName := "";
    var j := start;
    while j < |lines| && methodName == ""
      invariant start <= j <= |lines|
      invariant methodName == ""
      invariant LookaheadName(lines, j) == LookaheadName(lines, start)
      decreases |lines| - j
    {
      var methodLine := Trim(lines[j]);
      var methodMatch := Find(methodLine, JavaSignature);
      assert Signatures(lines)[j] == methodMatch;
      if methodMatch.Some? {
        assert LookaheadName(lines, j) == methodMatch.value.first;
        methodName := methodMatch.value.first;
        break;
      }
      assert LookaheadName(lines, j + 1) == LookaheadName(lines, j);
      j := j + 1;
    }
  }

  // ---------------------------------------------------------------- the pass

  datatype State = State(currentClass: string, baseUrl: string, isController: bool)

  const Start: State := State("", "", false)

  /** The class-level `@RequestMapping` literal, with `/` read as empty. */
  function BaseUrlAfter(line: string, baseUrl: string): string {
    if Contains(line, "@RequestMapping") then
      match Find(line, DoubleQuoted)
      case Some(g) => if g.first == "/" then "" else g.first
      case None => baseUrl
    else baseUrl
  }

  function ClassAfter(line: string, currentClass: string): string {
    if Contains(line, "class") then FirstGroupOr(line, ClassName, currentClass) else currentClass
  }

  /** The three class-level updates a line makes, before any route is read from it. */
  function Update(line: string, st: State): State {
    State(ClassAfter(line, st.currentClass), BaseUrlAfter(line, st.baseUrl), st.isController || ControllerLine(line))
  }

  /** The endpoint one mapping annotation yields on line `i`. */
  function MappingEndpoint(lines: seq<string>, filePath: string, i: nat, st: State, mappingType: string): seq<ApiEndpoint>
    requires i < |lines| && mappingType in MappingTypes
  {
    var line := Trim(lines[i]);
    if Contains(line, mappingType) then
      var methodName := LookaheadName(lines, i + 1);
      if methodName != "" then
        [ApiEndpoint(CombinePath([ContextPath, st.baseUrl, MethodPath(line)]), st.currentClass, methodName,
                     filePath, i + 1, "java", Some(GetHttpMethod(mappingType)))]
      else []
    else []
  }

  /** The endpoints of the first `k` mapping annotations, in table order. */
  function MappingEndpoints(lines: seq<string>, filePath: string, i: nat, st: State, k: nat): seq<ApiEndpoint>
    requires i < |lines| && k <= |MappingTypes|
  {
    if k == 0 then []
    else MappingEndpoints(lines, filePath, i, st, k - 1) + MappingEndpoint(lines, filePath, i, st, MappingTypes[k - 1])
  }

  /** The state the first `n` lines leave behind. */
  function StateAt(lines: seq<string>, n: nat): State
    requires n <= |lines|
  {
    if n == 0 then Start else Update(Trim(lines[n - 1]), StateAt(lines, n - 1))
  }

  /** The endpoints line `i` adds when the lines before it left `before`:
      none unless the state after the line's own updates is a controller's. */
  function LineEndpoints(lines: seq<string>, filePath: string, i: nat, before: State): seq<ApiEndpoint>
    requires i < |lines|
  {
    var st := Update(Trim(lines[i]), before);
    if st.isController then MappingEndpoints(lines, filePath, i, st, |MappingTypes|) else []
  }

  /** The endpoints of every line, in line order. */
  function PerLine(lines: seq<string>, filePath: string): (r: seq<seq<ApiEndpoint>>)
    ensures |r| == |lines|
  {
    seq(|lines|, i requires 0 <= i < |lines| => LineEndpoints(lines, filePath, i, StateAt(lines, i)))
  }

  function Parse(content: string, filePath: string): seq<ApiEndpoint> {
    var lines := Split(content, '\n');
    Flatten(PerLine(lines, filePath))
  }

  /** The loop over `mappingTypes` for line `i` of a controller. */
  method MappingsOnLine(lines: seq<string>, filePath: string, i: nat, baseUrl: string, currentClass: string)
    returns (found: seq<ApiEndpoint>)
    requires i < |lines|
    ensures found == MappingEndpoints(lines, filePath, i, State(currentClass, baseUrl, true), |MappingTypes|)
  {
    var line := Trim(lines[i]);
    found := [];
    var k := 0;
    while k < |MappingTypes|
      invariant 0 <= k <= |MappingTypes|
      invariant found == MappingEndpoints(lines, filePath, i, State(currentClass, baseUrl, true), k)
    {
      var mappingType := MappingTypes[k];
      ghost var one := MappingEndpoint(lines, filePath, i, State(currentClass, baseUrl, true), mappingType);
      assert MappingEndpoints(lines, filePath, i, State(currentClass, baseUrl, true), k + 1) == found + one;
      if Contains(line, mappingType) {
        var methodPath := MethodPath(line);
        var methodName := FindMethodName(lines, i + 1);
        if methodName != "" {
          var e := ApiEndpoint(CombinePath([ContextPath, baseUrl, methodPath]), currentClass,
                               methodName, filePath, i + 1, "java", Some(GetHttpMethod(mappingType)));
          assert one == [e];
          found := found + [e];
        } else {
          assert one == [];
        }
      } else {
        assert one == [];
      }
      k := k + 1;
    }
  }

  /** The three class-level updates at the top of the loop body. */
  method ClassLevel(line: string, currentClass: string, baseUrl: string, isController: bool)
    returns (newClass: string, newBaseUrl: string, nowController: bool)
    ensures State(newClass, newBaseUrl, nowController) == Update(line, State(currentClass, baseUrl, isController))
  {
    newClass, newBaseUrl, nowController := currentClass, baseUrl, isController;
    if Contains(line, "@RestController") || Contains(line, "@Controller") {
      nowController := true;
    }
    if Contains(line, "@RequestMapping") {
      var pathMatch := Find(line, DoubleQuoted);
      if pathMatch.Some? {
        newBaseUrl := pathMatch.value.first;
        if newBaseUrl == "/" {
          newBaseUrl := "";
        }
      }
    }
    if Contains(line, "class") {
      var classMatch := Find(line, ClassName);
      if classMatch.Some? {
        newClass := classMatch.value.first;
      }
    }
  }

  /** `parseFile`. */
  method ParseFile(content: string, filePath: string) returns (endpoints: seq<ApiEndpoint>)
    ensures endpoints == Parse(content, filePath)
  {
    var lines := Split(content, '\n');
    ghost var perLine := PerLine(lines, filePath);
    var currentClass, baseUrl, isController := "", "", false;
    endpoints := [];
    var i := 0;
    while i < |lines|
      invariant 0 <= i <= |lines|
      invariant State(currentClass, baseUrl, isController) == StateAt(lines, i)
      invariant endpoints == Flatten(perLine[..i])
    {
      FlattenStep(perLine, i);
      currentClass, baseUrl, isController := ClassLevel(Trim(lines[i]), currentClass, baseUrl, isController);
      if !isController {
        assert endpoints + perLine[i] == endpoints;
        i := i + 1;
        continue;
      }
      var found := MappingsOnLine(lines, filePath, i, baseUrl, currentClass);
      endpoints := endpoints + found;
      i := i + 1;
    }
    assert perLine[..|lines|] == perLine;
  }

  // ---------------------------------------------------------------- properties

  /** What an endpoint emitted for line `i` in state `st` (the state after the
      line's class-level updates) holds: the line's number, the file, `java`,
      the current class, the looked-ahead method name (never empty), the joined
      path and the verb of a mapping annotation the line contains. */
  predicate EndpointOf(lines: seq<string>, filePath: string, i: nat, st: State, e: ApiEndpoint)
    requires i < |lines|
  {
    var line := Trim(lines[i]);
    && e.lineNumber == i + 1 && e.filePath == filePath && e.language == "java"
    && e.className == st.currentClass
    && e.methodName == LookaheadName(lines, i + 1) && e.methodName != ""
    && e.apiPath == CombinePath([ContextPath, st.baseUrl, MethodPath(line)])
    && exists k :: 0 <= k < |MappingTypes| && Contains(line, MappingTypes[k])
                   && e.httpMethod == Some(GetHttpMethod(MappingTypes[k]))
  }

  /** `e` comes from line `i`, which the pass reads inside a controller. */
  predicate Emitted(lines: seq<string>, filePath: string, i: nat, e: ApiEndpoint)
    requires i < |lines|
  {
    StateAt(lines, i + 1).isController && EndpointOf(lines, filePath, i, StateAt(lines, i + 1), e)
  }

  lemma {:induction false} MappingEndpointsOf(lines: seq<string>, filePath: string, i: nat, st: State, k: nat)
    requires i < |lines| && k <= |MappingTypes|
    ensures |MappingEndpoints(lines, filePath, i, st, k)| <= k
    ensures forall e :: e in MappingEndpoints(lines, filePath, i, st, k) ==> EndpointOf(lines, filePath, i, st, e)
    decreases k
  {
    if k > 0 {
      MappingEndpointsOf(lines, filePath, i, st, k - 1);
      var mappingType := MappingTypes[k - 1];
      MappingEndpointLength(lines, filePath, i, st, mappingType);
      if Contains(Trim(lines[i]), mappingType) && LookaheadName(lines, i + 1) != "" {
        MappingEndpointIs(lines, filePath, i, st, mappingType);
      }
      assert MappingEndpoints(lines, filePath, i, st, k)
        == MappingEndpoints(lines, filePath, i, st, k - 1) + MappingEndpoint(lines, filePath, i, st, mappingType);
    }
  }

  /** The endpoints of line `i` all come from it, at most one per annotation. */
  lemma LineEndpointsOf(lines: seq<string>, filePath: string, i: nat)
    requires i < |lines|
    ensures |PerLine(lines, filePath)[i]| <= |MappingTypes|
    ensures forall e :: e in PerLine(lines, filePath)[i] ==> Emitted(lines, filePath, i, e)
  {
    var st := StateAt(lines, i + 1);
    if st.isController {
      MappingEndpointsOf(lines, filePath, i, st, |MappingTypes|);
    }
  }

  /** The positions, among the first `k` mapping annotations, of those the
      line holds. */
  function MappingsOn(line: string, k: nat): set<nat>
    requires k <= |MappingTypes|
  {
    set m: nat | m < k && Contains(line, MappingTypes[m])
  }

  /** One annotation yields one endpoint exactly when the line holds it and
      a signature follows. */
  lemma MappingEndpointLength(lines: seq<string>, filePath: string, i: nat, st: State, mappingType: string)
    requires i < |lines| && mappingType in MappingTypes
    ensures |MappingEndpoint(lines, filePath, i, st, mappingType)|
      == if Contains(Trim(lines[i]), mappingType) && LookaheadName(lines, i + 1) != "" then 1 else 0
  {
  }

  /** One more annotation adds its own position when the line holds it. */
  lemma MappingsOnStep(line: string, k: nat)
    requires 0 < k <= |MappingTypes|
    ensures |MappingsOn(line, k)| == |MappingsOn(line, k - 1)| + if Contains(line, MappingTypes[k - 1]) then 1 else 0
  {
    var before := MappingsOn(line, k - 1);
    var added: set<nat> := if Contains(line, MappingTypes[k - 1]) then {k - 1} else {};
    assert k - 1 !in before;
    assert MappingsOn(line, k) == before + added by {
      forall m: nat ensures m in MappingsOn(line, k) <==> m in before + added {
        if m < k - 1 {
          assert m in MappingsOn(line, k) <==> Contains(line, MappingTypes[m]);
          assert m in before <==> Contains(line, MappingTypes[m]);
        }
      }
    }
  }

  /** Each annotation the line holds adds one endpoint when a signature
      follows, and none adds one otherwise. */
  lemma {:induction false} MappingEndpointsCount(lines: seq<string>, filePath: string, i: nat, st: State, k: nat)
    requires i < |lines| && k <= |MappingTypes|
    ensures |MappingEndpoints(lines, filePath, i, st, k)|
      == if LookaheadName(lines, i + 1) != "" then |MappingsOn(Trim(lines[i]), k)| else 0
    decreases k
  {
    if k > 0 {
      MappingEndpointsCount(lines, filePath, i, st, k - 1);
      MappingEndpointLength(lines, filePath, i, st, MappingTypes[k - 1]);
      MappingsOnStep(Trim(lines[i]), k);
      assert MappingEndpoints(lines, filePath, i, st, k)
        == MappingEndpoints(lines, filePath, i, st, k - 1) + MappingEndpoint(lines, filePath, i, st, MappingTypes[k - 1]);
    }
  }

  /** Line `i` yields one endpoint per mapping annotation it holds, when it
      is read inside a controller and a signature follows it, and none
      otherwise: a line holding two annotations yields two endpoints, even
      equal ones. */
  lemma LineEndpointsCount(lines: seq<string>, filePath: string, i: nat)
    requires i < |lines|
    ensures |PerLine(lines, filePath)[i]|
      == if StateAt(lines, i + 1).isController && LookaheadName(lines, i + 1) != "" then |MappingsOn(Trim(lines[i]), |MappingTypes|)| else 0
  {
    var st := StateAt(lines, i + 1);
    if st.isController {
      MappingEndpointsCount(lines, filePath, i, st, |MappingTypes|);
    }
  }

  /** The endpoint an annotation the line holds yields, when a signature
      follows. */
  lemma MappingEndpointIs(lines: seq<string>, filePath: string, i: nat, st: State, mappingType: string)
    requires i < |lines| && mappingType in MappingTypes
    requires Contains(Trim(lines[i]), mappingType) && LookaheadName(lines, i + 1) != ""
    ensures MappingEndpoint(lines, filePath, i, st, mappingType)
      == [ApiEndpoint(CombinePath([ContextPath, st.baseUrl, MethodPath(Trim(lines[i]))]), st.currentClass,
                      LookaheadName(lines, i + 1), filePath, i + 1, "java", Some(GetHttpMethod(mappingType)))]
  {
  }

  /** `@GetMapping` and `@RequestMapping` on one controller line give the
      same `GET` endpoint twice. */
  lemma TwoMappingsTwice(lines: seq<string>, filePath: string, i: nat)
    requires i < |lines| && StateAt(lines, i + 1).isController && LookaheadName(lines, i + 1) != ""
    requires Contains(Trim(lines[i]), "@GetMapping") && Contains(Trim(lines[i]), "@RequestMapping")
    ensures var st := StateAt(lines, i + 1);
      multiset(PerLine(lines, filePath)[i])[ApiEndpoint(CombinePath([ContextPath, st.baseUrl, MethodPath(Trim(lines[i]))]), st.currentClass,
                                                         LookaheadName(lines, i + 1), filePath, i + 1, "java", Some("GET"))] >= 2
  {
    var st := StateAt(lines, i + 1);
    assert PerLine(lines, filePath)[i] == MappingEndpoints(lines, filePath, i, st, |MappingTypes|);
    GetAndRequestTwice(lines, filePath, i, st);
  }

  lemma GetAndRequestTwice(lines: seq<string>, filePath: string, i: nat, st: State)
    requires i < |lines| && LookaheadName(lines, i + 1) != ""
    requires Contains(Trim(lines[i]), "@GetMapping") && Contains(Trim(lines[i]), "@RequestMapping")
    ensures multiset(MappingEndpoints(lines, filePath, i, st, |MappingTypes|))[
      ApiEndpoint(CombinePath([ContextPath, st.baseUrl, MethodPath(Trim(lines[i]))]), st.currentClass,
                  LookaheadName(lines, i + 1), filePath, i + 1, "java", Some("GET"))] >= 2
  {
    var e := ApiEndpoint(CombinePath([ContextPath, st.baseUrl, MethodPath(Trim(lines[i]))]), st.currentClass,
                         LookaheadName(lines, i + 1), filePath, i + 1, "java", Some("GET"));
    assert MappingTypes[0] == "@GetMapping" && MappingTypes[5] == "@RequestMapping";
    MappingEndpointIs(lines, filePath, i, st, MappingTypes[0]);
    MappingEndpointIs(lines, filePath, i, st, MappingTypes[5]);
    var front := MappingEndpoints(lines, filePath, i, st, 1);
    var middle := MappingEndpoints(lines, filePath, i, st, 5);
    var all := MappingEndpoints(lines, filePath, i, st, 6);
    assert front == [] + [e] by {
      assert MappingEndpoints(lines, filePath, i, st, 0) == [];
    }
    assert all == middle + [e];
    MappingEndpointsGrow(lines, filePath, i, st, 1, 5);
    var rest := middle[1..];
    assert middle == [e] + rest;
    assert multiset(all) == multiset([e]) + multiset(rest) + multiset([e]);
  }

  /** The first `k` annotations' endpoints are a prefix of the first `k'`'s. */
  lemma {:induction false} MappingEndpointsGrow(lines: seq<string>, filePath: string, i: nat, st: State, k: nat, k': nat)
    requires i < |lines| && k <= k' <= |MappingTypes|
    ensures MappingEndpoints(lines, filePath, i, st, k) <= MappingEndpoints(lines, filePath, i, st, k')
    decreases k'
  {
    if k' > k {
      MappingEndpointsGrow(lines, filePath, i, st, k, k' - 1);
      var prev := MappingEndpoints(lines, filePath, i, st, k' - 1);
      assert MappingEndpoints(lines, filePath, i, st, k') == prev + MappingEndpoint(lines, filePath, i, st, MappingTypes[k' - 1]);
    }
  }

  /** Every endpoint of a file comes from some line read inside a controller,
      and carries what that line and the state there give it. */
  lemma Provenance(content: string, filePath: string, e: ApiEndpoint)
    requires e in Parse(content, filePath)
    ensures exists i :: 0 <= i < |Split(content, '\n')| && Emitted(Split(content, '\n'), filePath, i, e)
  {
    var lines := Split(content, '\n');
    FlattenMember(PerLine(lines, filePath), e);
    var i :| 0 <= i < |lines| && e in PerLine(lines, filePath)[i];
    LineEndpointsOf(lines, filePath, i);
    assert Emitted(lines, filePath, i, e);
  }

  /** Every mapping annotation on a controller line with a method signature
      somewhere below yields its endpoint. */
  lemma Completeness(content: string, filePath: string, i: nat, k: nat)
    requires i < |Split(content, '\n')| && k < |MappingTypes|
    requires StateAt(Split(content, '\n'), i + 1).isController
    requires Contains(Trim(Split(content, '\n')[i]), MappingTypes[k])
    requires LookaheadName(Split(content, '\n'), i + 1) != ""
    ensures var lines := Split(content, '\n'); var st := StateAt(lines, i + 1);
      ApiEndpoint(CombinePath([ContextPath, st.baseUrl, MethodPath(Trim(lines[i]))]), st.currentClass,
                  LookaheadName(lines, i + 1), filePath, i + 1, "java", Some(GetHttpMethod(MappingTypes[k])))
      in Parse(content, filePath)
  {
    var lines := Split(content, '\n');
    var st := StateAt(lines, i + 1);
    var e := ApiEndpoint(CombinePath([ContextPath, st.baseUrl, MethodPath(Trim(lines[i]))]), st.currentClass,
                         LookaheadName(lines, i + 1), filePath, i + 1, "java", Some(GetHttpMethod(MappingTypes[k])));
    assert MappingEndpoint(lines, filePath, i, st, MappingTypes[k]) == [e];
    MappingEndpointsHave(lines, filePath, i, st, k, |MappingTypes|, e);
    assert e in PerLine(lines, filePath)[i];
    FlattenMember(PerLine(lines, filePath), e);
  }

  lemma {:induction false} MappingEndpointsHave(lines: seq<string>, filePath: string, i: nat, st: State, k: nat, k': nat,
                                                e: ApiEndpoint)
    requires i < |lines| && k < k' <= |MappingTypes|
    requires e in MappingEndpoint(lines, filePath, i, st, MappingTypes[k])
    ensures e in MappingEndpoints(lines, filePath, i, st, k')
    decreases k'
  {
    var prev := MappingEndpoints(lines, filePath, i, st, k' - 1);
    assert MappingEndpoints(lines, filePath, i, st, k') == prev + MappingEndpoint(lines, filePath, i, st, MappingTypes[k' - 1]);
    if k' > k + 1 {
      MappingEndpointsHave(lines, filePath, i, st, k, k' - 1, e);
    }
  }

  /** Endpoints come out in the order of their lines, numbered from 1, and no
      line yields more than one per mapping annotation. */
  lemma LineOrder(content: string, filePath: string)
    ensures var r := Parse(content, filePath);
      forall a :: 0 <= a < |r| ==> 1 <= r[a].lineNumber <= |Split(content, '\n')|
    ensures var r := Parse(content, filePath);
      forall a, b :: 0 <= a < b < |r| ==> r[a].lineNumber <= r[b].lineNumber
    ensures |Parse(content, filePath)| <= |MappingTypes| * |Split(content, '\n')|
  {
    var lines := Split(content, '\n');
    var perLine := PerLine(lines, filePath);
    forall i, e: ApiEndpoint | 0 <= i < |perLine| && e in perLine[i] ensures e.lineNumber == 1 + i {
      LineEndpointsOf(lines, filePath, i);
    }
    forall i | 0 <= i < |perLine| ensures |perLine[i]| <= |MappingTypes| {
      LineEndpointsOf(lines, filePath, i);
    }
    FlattenNumbered(perLine, (e: ApiEndpoint) => e.lineNumber, 1);
    FlattenLength(perLine, |MappingTypes|);
  }

  /** The controller flag is on after `n` lines exactly when one of them
      carries `@RestController` or `@Controller`. */
  lemma {:induction false} ControllerAt(lines: seq<string>, n: nat)
    requires n <= |lines|
    ensures StateAt(lines, n).isController <==> exists j :: 0 <= j < n && ControllerLine(Trim(lines[j]))
    decreases n
  {
    if n > 0 {
      ControllerAt(lines, n - 1);
    }
  }

  /** A file none of whose lines carries a controller annotation yields nothing. */
  lemma NoControllerNoEndpoints(content: string, filePath: string)
    requires forall j :: 0 <= j < |Split(content, '\n')| ==> !ControllerLine(Trim(Split(content, '\n')[j]))
    ensures Parse(content, filePath) == []
  {
    var lines := Split(content, '\n');
    if Parse(content, filePath) != [] {
      var e := Parse(content, filePath)[0];
      Provenance(content, filePath, e);
      var i :| 0 <= i < |lines| && Emitted(lines, filePath, i, e);
      ControllerAt(lines, i + 1);
      assert false;
    }
  }

  /** A file the parser finds endpoints in passes the fast-reject gate. */
  lemma ParseNeedsValidFile(content: string, filePath: string)
    requires Parse(content, filePath) != []
    ensures IsValidFile(content)
  {
    var lines := Split(content, '\n');
    var e := Parse(content, filePath)[0];
    Provenance(content, filePath, e);
    var i :| 0 <= i < |lines| && Emitted(lines, filePath, i, e);
    ControllerAt(lines, i + 1);
    var j :| 0 <= j < i + 1 && ControllerLine(Trim(lines[j]));
    if Contains(Trim(lines[j]), "@RestController") {
      FoundInLineIsInContent(content, j, "@RestController");
    } else {
      FoundInLineIsInContent(content, j, "@Controller");
    }
  }

  /** The base URL each line would set: the first double-quoted literal of
      an `@RequestMapping` line, with `/` read as empty. */
  function RequestMappingBases(lines: seq<string>): (r: seq<Option<Groups>>)
    ensures |r| == |lines|
  {
    seq(|lines|, j requires 0 <= j < |lines| =>
      var line := Trim(lines[j]);
      if Contains(line, "@RequestMapping") then
        match Find(line, DoubleQuoted)
        case Some(g) => Some(Groups(if g.first == "/" then "" else g.first, ""))
        case None => None
      else None)
  }

  /** The base URL is set by every `@RequestMapping` line that holds a
      literal, method-level ones included, and holds for all later lines:
      it is the last such literal above, or empty before any. */
  lemma BaseUrlLatest(lines: seq<string>, n: nat)
    requires n <= |lines|
    ensures StateAt(lines, n).baseUrl == LastGroupOr(RequestMappingBases(lines), n, "")
  {
    var xs := RequestMappingBases(lines);
    var vs := seq(|lines| + 1, k requires 0 <= k <= |lines| => StateAt(lines, k).baseUrl);
    forall k | 0 <= k < |lines|
      ensures vs[k + 1] == if xs[k].Some? then xs[k].value.first else vs[k]
    {
    }
    LatestFold(xs, vs, "", n);
  }

  /** A method-level `@RequestMapping` with a literal `p` other than `/`,
      inside a controller, yields the path of `p` joined to itself (`/x/x`
      for `"/x"`): the line first rebinds the base URL to its own literal,
      then joins the literal to it again. */
  lemma RequestMappingDoubles(lines: seq<string>, filePath: string, i: nat)
    requires i < |lines| && StateAt(lines, i).isController && LookaheadName(lines, i + 1) != ""
    requires Contains(Trim(lines[i]), "@RequestMapping")
    requires Find(Trim(lines[i]), DoubleQuoted).Some? && Find(Trim(lines[i]), DoubleQuoted).value.first != "/"
    ensures var p := Find(Trim(lines[i]), DoubleQuoted).value.first;
      ApiEndpoint(CombinePath([ContextPath, p, p]), StateAt(lines, i + 1).currentClass, LookaheadName(lines, i + 1), filePath, i + 1, "java", Some("GET"))
        in PerLine(lines, filePath)[i]
  {
    var line := Trim(lines[i]);
    var p := Find(line, DoubleQuoted).value.first;
    var st := StateAt(lines, i + 1);
    assert st.baseUrl == p;
    assert MethodPath(line) == p;
    var e := ApiEndpoint(CombinePath([ContextPath, p, p]), st.currentClass, LookaheadName(lines, i + 1), filePath, i + 1, "java", Some("GET"));
    assert MappingTypes[5] == "@RequestMapping";
    assert MappingEndpoint(lines, filePath, i, st, MappingTypes[5]) == [e];
    MappingEndpointsHave(lines, filePath, i, st, 5, |MappingTypes|, e);
  }

  /** The class-level path is never `/`: a literal `/` is stored as empty. */
  lemma {:induction false} BaseUrlNotRoot(lines: seq<string>, n: nat)
    requires n <= |lines|
    ensures StateAt(lines, n).baseUrl != "/"
    decreases n
  {
    if n > 0 {
      BaseUrlNotRoot(lines, n - 1);
    }
  }
}
