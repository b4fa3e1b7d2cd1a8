# api-navigator endpoint extraction, in Dafny

api-navigator is a VS Code extension that lists the HTTP endpoints of a
workspace. It finds them by reading sources line by line. This project
models its endpoint-extraction core and proves properties of the model.
The core has these parts:

- **Line scanners.** Spring Boot, Express, Gin, NestJS and FastAPI each
  have a `parseFile`. It is one forward pass over `content.split('\n')`
  that carries a little state: a class or struct, a base path, router
  variable names, a group flag, tags. On lines that hold a verb marker it
  pushes endpoint records.
- **The legacy provider's scanner.** `ApiEndpointProvider` has its own
  Java pass, with its own endpoint list.
- **`combinePath`.** Five files hold identical copies of this path joiner.
- **`isValidFile` gates.** Each scanner has one.
- **Two bounded FIFO content caches.**
- **Small pieces:**
  - the provider's search;
  - the scanner registry;
  - `BaseScanner`'s exclude filter and size check;
  - the project-type chain of `checkProjectType`;
  - the extension's `getFilePattern`.

Each scanner module follows the same plan:

- `StateAt(lines, n)` is the state the first `n` lines leave.
- `LineEndpoints` is what one line yields.
- `Parse` is the concatenation, over the lines, of what each line yields.
- `ParseFile` is the imperative loop, with the source's inner loops as
  methods of their own. It is proved to return `Parse`.
- Lemmas state what `Parse` means:
  - **Provenance:** every endpoint comes from one line, and the module's
    `Emitted` predicate says what it holds.
  - **Completeness:** every endpoint such a line describes is returned.
  - **Line numbering and order:** record *k* comes from line *k*, and
    records come out in line order.
  - **The state variables:**
    - a name a binding line sets is the last one bound above;
    - a prefix is the last one declared;
    - a group is open exactly when a group line opened it.

Each regular expression of the source is an explicit matcher. Its leftmost
match is given by `Patterns.Find`. The optional prefixes `(?:async\s+)?`
and `\s*(?:public|private|protected)?` never change what a pattern
captures, so the matchers leave them out.

The caches and the registry are classes over `seq` and `map` fields. Each
method is proved to follow a function on a snapshot of the class's state,
and the lemmas are stated on those functions. I/O arrives as inputs:

- the file list a search found;
- a `disk` map from path to text, where a missing path is a failed read;
- the first manifest of each kind, with its text.

The FastAPI scanner's `processFile` and `scan` take the configuration the scanner was built with. `FastApi.DefaultConfig` is the one its constructor uses when it is given none.

## Model

| member | source | states |
|---|---|---|
| Paths.KeptPartsSpec | src/providers/ApiEndpointProvider.ts:178-183 | the filter keeps exactly the parts that are neither `/` nor empty, in their order, and never more parts than it was given |
| Paths.DropLeading | src/providers/ApiEndpointProvider.ts:186-188 | the leading `^\/+` replacement removes exactly a run of slashes from the front; what is left does not start with `/` |
| Paths.DropTrailing | src/providers/ApiEndpointProvider.ts:186-188 | the trailing `\/+$` replacement removes exactly a run of slashes from the end; what is left does not end with `/` |
| Paths.StripSlashes | src/providers/ApiEndpointProvider.ts:186-188 | a stripped part neither starts nor ends with `/`, and is empty exactly when the part was all slashes |
| Paths.Strip | src/providers/ApiEndpointProvider.ts:186-188 | the map strips each part in place and keeps their number |
| Paths.CombinePath | src/providers/ApiEndpointProvider.ts:176-192 | the joined path always starts with `/` |
| Paths.KeptPartsConcat | src/providers/ApiEndpointProvider.ts:178-183 | filtering a concatenation is the concatenation of the filtered halves |
| Paths.DropsUnkeptPart | src/providers/ApiEndpointProvider.ts:178-183 | an empty or `/` part anywhere in the list changes nothing in the result |
| Paths.RootExactly | src/providers/ApiEndpointProvider.ts:176-192 | the result is exactly `/` iff no part survives the filter, or the only survivor is all slashes |
| Paths.EmptyPartsGiveRoot | src/providers/ApiEndpointProvider.ts:176-192 | parts that are all `/` or empty give `/` |
| Paths.JoinSegments | src/providers/ApiEndpointProvider.ts:191 | joining non-empty segments that neither start nor end with `/` gives such a segment, without `//` when no segment holds one |
| Paths.WellFormedResult | src/providers/ApiEndpointProvider.ts:176-192 | when every kept part holds a non-slash character and no `//`, the result holds no `//` and has no trailing `/` unless it is `/` |
| Paths.Idempotent | src/providers/ApiEndpointProvider.ts:176-192 | when every part that survives the filter holds a non-slash character, joining the result alone again gives the result back |
| Paths.SegmentsOfResult | src/providers/ApiEndpointProvider.ts:186-191 | when the cleaned parts hold no `/`, splitting the result after its first `/` gives back exactly the cleaned parts |
| Paths.StripsToNothing | src/providers/ApiEndpointProvider.ts:186-188 | the part `//` survives the filter but strips to the empty string |
| Paths.SlashRunLeading | src/providers/ApiEndpointProvider.ts:178-191 | `combinePath('//', 'a')` is `//a`: the path can start with `//` |
| Paths.SlashRunTrailing | src/providers/ApiEndpointProvider.ts:178-191 | `combinePath('a', '//')` is `/a/`: the path can end with `/` |
| Paths.DoubledPath | src/providers/ApiEndpointProvider.ts:176-192 | `combinePath('', '/x', '/x')` is `/x/x` |
| Strings.Split | src/scanners/node/ExpressScanner.ts:39 | `split('\n')` gives at least one piece, and no piece holds the separator |
| Strings.JoinSplit | src/scanners/node/ExpressScanner.ts:39 | joining the pieces with the separator gives the text back |
| Strings.SplitJoin | src/scanners/node/ExpressScanner.ts:39 | splitting a join of pieces free of the separator gives the pieces back |
| Strings.TrimSpec | src/scanners/node/ExpressScanner.ts:46 | `trim()` gives a substring of the line that neither starts nor ends with white space |
| Strings.SplitPiecesInText | src/scanners/node/ExpressScanner.ts:39 | every line of the split is a substring of the content |
| Strings.FoundInLineIsInContent | src/scanners/java/SpringBootScanner.ts:28-35 | text found in a trimmed line is found in the whole content, which is what relates a file's lines to its gate |
| Strings.LowerForgetsCase | src/providers/ApiEndpointProvider.ts:204-209 | lower-casing forgets the case a text had: `Lower(Upper(s)) == Lower(s)`, and lower-casing twice is lower-casing once |
| Strings.UpperIgnoresCase | src/scanners/node/ExpressScanner.ts:109 | texts equal up to case upper-case to the same verb |
| Strings.Without | src/scanners/python/FastAPIScanner.ts:83 | `replace(/['"]/g, '')` leaves no removed character, keeps every other character of the text, and leaves a text without removed characters unchanged |
| Strings.WithoutConcat | src/scanners/python/FastAPIScanner.ts:83 | the removal works piece by piece, so the kept characters stay in their order |
| Types.ScriptLanguage | src/scanners/node/ExpressScanner.ts:108 | the language is `typescript` exactly when the path ends in `.ts`, and `javascript` otherwise |
| Patterns.FindLeftmost | src/scanners/node/ExpressScanner.ts:81 | `line.match(re)` is the match at the leftmost offset where the pattern succeeds, and there is none only when every offset fails |
| Patterns.FoundAt | src/scanners/node/ExpressScanner.ts:81 | a match stands at an offset before which every attempt failed |
| Patterns.FirstPresentLeftmost | src/scanners/python/FastAPIScanner.ts:105-109 | a search over a list of attempts answers the first one that succeeds |
| Patterns.LastPresentRightmost | src/scanners/node/ExpressScanner.ts:94-100 | a backward search answers the last success below its start |
| Patterns.QuotedFound | src/scanners/golang/GinScanner.ts:89-93 | a `['"]([^'"]+)['"]` capture is non-empty (when the pattern says `+`) and holds no closing quote |
| Patterns.QuotedSuffixFound | src/scanners/golang/GinScanner.ts:89-93 | wherever `X.GET("p"` matches, the generic `.GET("p"` matches too |
| Patterns.JavaSignatureFound | src/scanners/java/SpringBootScanner.ts:89-97 | the signature pattern captures a non-empty method name |
| Patterns.KeyQuotedImpliesQuoted | src/scanners/java/SpringBootScanner.ts:83-87 | whatever `value\s*=\s*"…"` or `path\s*=\s*"…"` matches, the plain `"([^"]+)"` matches too |
| Patterns.BindingFound | src/scanners/node/ExpressScanner.ts:48-60 | a `(\w+)\s*=\s*express()`-style binding captures an identifier, on a line holding one of the right-hand sides |
| Patterns.HandlerFound | src/scanners/golang/GinScanner.ts:102-106 | the handler argument is an identifier, or a dotted run of word characters in the Gin form |
| Patterns.DotCallFound | src/scanners/node/ExpressScanner.ts:122 | `\.(\w+)\(` captures an identifier |
| Patterns.WordCallFound | src/scanners/node/NestScanner.ts:85 | `(?:async\s+)?(\w+)\s*\(` captures an identifier |
| Patterns.KeywordsFound | src/scanners/node/ExpressScanner.ts:95 | `class\s+(\w+)` and `export\s+class\s+(\w+)` capture an identifier |
| Patterns.TypeStructFound | src/scanners/golang/GinScanner.ts:51 | `type\s+(\w+)\s+struct` captures an identifier |
| Patterns.QualifiedFound | src/scanners/golang/GinScanner.ts:109 | `(\w+)\.(\w+)` captures two identifiers |
| Patterns.DecoratorFound | src/scanners/python/FastAPIScanner.ts:7-12 | a decorator pattern captures a listed verb, in any case, and a non-empty path free of quotes |
| Patterns.AnchoredDecorator | src/scanners/python/FastAPIScanner.ts:9-11 | the anchored `^router.` pattern matches only where the unanchored `router.` one does |
| Patterns.ReboundLatest | src/scanners/node/ExpressScanner.ts:48-60 | a variable rebound by each matching line holds what the last matching line bound, or its default |
| SpringBoot.GetHttpMethod | src/scanners/java/SpringBootScanner.ts:132-142 | the verb is one of the five, and is `GET` exactly for `@GetMapping` and `@RequestMapping` |
| SpringBoot.MethodPathSpec | src/scanners/java/SpringBootScanner.ts:83-87 | the method path is the first double-quoted literal, or empty exactly when there is none, and holds no `"`; the `value=` and `path=` fallbacks never decide |
| SpringBoot.LookaheadNameSpec | src/scanners/java/SpringBootScanner.ts:89-97 | the looked-ahead name is empty exactly when no later line has a signature, else it is the name on the first later line that has one |
| SpringBoot.FindMethodName | src/scanners/java/SpringBootScanner.ts:89-97 | the `j` loop returns the looked-ahead name |
| SpringBoot.ClassLevel | src/scanners/java/SpringBootScanner.ts:47-66 | the class-level updates set the controller flag, the base URL (with `/` read as empty) and the class as the line says |
| SpringBoot.MappingsOnLine | src/scanners/java/SpringBootScanner.ts:81-111 | the loop over the mapping types yields each type's endpoint, in table order |
| SpringBoot.ParseFile | src/scanners/java/SpringBootScanner.ts:37-115 | the pass returns `Parse(content, filePath)` |
| SpringBoot.MappingEndpointsOf | src/scanners/java/SpringBootScanner.ts:81-111 | a line yields at most one endpoint per mapping type, each with the line number, the file, `java`, the class, a non-empty looked-ahead name, the joined path and the mapping's verb |
| SpringBoot.LineEndpointsOf | src/scanners/java/SpringBootScanner.ts:68-111 | every endpoint of a line is emitted inside a controller, at most six per line |
| SpringBoot.MappingEndpointLength | src/scanners/java/SpringBootScanner.ts:80-108 | one annotation yields one endpoint exactly when the line holds it and a signature follows |
| SpringBoot.MappingEndpointsCount | src/scanners/java/SpringBootScanner.ts:79-109 | the annotation loop yields one endpoint per annotation the line holds when a signature follows, and none otherwise |
| SpringBoot.LineEndpointsCount | src/scanners/java/SpringBootScanner.ts:67-109 | a line yields exactly one endpoint per mapping annotation it holds, when it is read inside a controller and a signature follows, and none otherwise |
| SpringBoot.MappingEndpointsGrow | src/scanners/java/SpringBootScanner.ts:79-109 | the endpoints of the first annotations are a prefix of those of more annotations |
| SpringBoot.MappingEndpointIs | src/scanners/java/SpringBootScanner.ts:80-107 | an annotation the line holds, with a signature below, yields the endpoint with the joined path, the class, the found name, line `i+1`, `java` and its verb |
| SpringBoot.GetAndRequestTwice | src/scanners/java/SpringBootScanner.ts:79-109 | the annotation loop yields the `GET` endpoint of a line holding `@GetMapping` and `@RequestMapping` at least twice |
| SpringBoot.TwoMappingsTwice | src/scanners/java/SpringBootScanner.ts:79-109 | a controller line holding both `@GetMapping` and `@RequestMapping` yields the same `GET` endpoint at least twice |
| SpringBoot.Provenance | src/scanners/java/SpringBootScanner.ts:37-115 | every endpoint of the file comes from a line it describes |
| SpringBoot.Completeness | src/scanners/java/SpringBootScanner.ts:81-109 | a mapping line inside a controller whose lookahead finds a name yields its endpoint: path `combinePath('', baseUrl, methodPath)`, the class, the name, line `i+1` and the verb |
| SpringBoot.LineOrder | src/scanners/java/SpringBootScanner.ts:99-109 | line numbers lie between 1 and the line count and come out ascending, with at most six endpoints per line |
| SpringBoot.ControllerAt | src/scanners/java/SpringBootScanner.ts:47-49 | the controller flag is on exactly when some line so far held `@RestController` or `@Controller` |
| SpringBoot.NoControllerNoEndpoints | src/scanners/java/SpringBootScanner.ts:68-70 | a file without a controller line yields nothing |
| SpringBoot.ParseNeedsValidFile | src/scanners/java/SpringBootScanner.ts:28-35 | a file that yields an endpoint passes the gate |
| SpringBoot.BaseUrlNotRoot | src/scanners/java/SpringBootScanner.ts:51-59 | the base URL is never `/` |
| SpringBoot.BaseUrlLatest | src/scanners/java/SpringBootScanner.ts:51-59 | the base URL is the literal of the last `@RequestMapping` line above that holds one, method-level ones included, or empty before any |
| SpringBoot.RequestMappingDoubles | src/scanners/java/SpringBootScanner.ts:51-108 | an `@RequestMapping` line with a literal other than `/`, inside a controller and followed by a signature, yields that literal joined to itself as its path |
| Express.AppVarStep | src/scanners/node/ExpressScanner.ts:48-53 | the `includes('express()')` guard never changes the application name the pattern gives |
| Express.RouterVarStep | src/scanners/node/ExpressScanner.ts:55-60 | the two `includes` guards never change the router name the pattern gives |
| Express.Bindings | src/scanners/node/ExpressScanner.ts:48-67 | the three updates at the top of the loop give the base route, application name and router name the spec functions give |
| Express.BaseRouteLatest | src/scanners/node/ExpressScanner.ts:62-67 | the base route is the one the last `.use('p', h)` line above mounted, or empty |
| Express.NamesAreIdentifiers | src/scanners/node/ExpressScanner.ts:42-60 | the application and router names start as `app` and `router` and always stay identifiers |
| Express.NearestClass | src/scanners/node/ExpressScanner.ts:93-100 | the backward `j` loop returns the class of the nearest `class X` line at or above the route |
| Express.ClassAbove | src/scanners/node/ExpressScanner.ts:93-100 | that class is empty exactly when no line up to the route has `class X`, and otherwise is the last such line's name |
| Express.HandlerIsIdentifier | src/scanners/node/ExpressScanner.ts:85-90 | the handler name is an identifier, and `unknown` when no `, name)` or `, name,` follows |
| Express.VerbRoutes | src/scanners/node/ExpressScanner.ts:71-112 | the loop over a verb's three patterns yields one endpoint per matching pattern, in pattern order |
| Express.LineRoutes | src/scanners/node/ExpressScanner.ts:69-113 | the loop over the six verbs yields their endpoints in verb order |
| Express.ChainStep | src/scanners/node/ExpressScanner.ts:115-138 | the chained-route branch gives the new pending route and the continuation endpoint of the spec |
| Express.ParseFile | src/scanners/node/ExpressScanner.ts:37-142 | the pass returns `Parse(content, filePath)` |
| Express.PendingRoute | src/scanners/node/ExpressScanner.ts:115-138 | a pending route is the trimmed `route(` line that opened the unbroken run of verb-calling lines leading to this one; a line with neither clears it |
| Express.PatternEndpointsOf | src/scanners/node/ExpressScanner.ts:80-111 | a verb's patterns yield at most three endpoints, each a route of the line |
| Express.VerbEndpointsOf | src/scanners/node/ExpressScanner.ts:69-113 | the verbs yield at most three endpoints each, each a route of the line |
| Express.ChainedEndpointsOf | src/scanners/node/ExpressScanner.ts:116-135 | a line yields at most one chained endpoint: the pending route's literal under the base route, `default`, `chainedHandler` and the first `.name(` uppercased |
| Express.LineEndpointsOf | src/scanners/node/ExpressScanner.ts:45-139 | every endpoint of a line is a route or a chained continuation of it, at most nineteen per line |
| Express.PatternEndpointsCount | src/scanners/node/ExpressScanner.ts:79-112 | a verb yields one endpoint for each of its three patterns that matches the line |
| Express.VerbEndpointsCount | src/scanners/node/ExpressScanner.ts:76-113 | the verbs yield one endpoint for each matching (verb, pattern) pair |
| Express.LineEndpointsCount | src/scanners/node/ExpressScanner.ts:76-138 | a line yields exactly one endpoint per matching (verb, pattern) pair, duplicates included, plus one when it continues a pending chained route whose literal and verb call are found |
| Express.Provenance | src/scanners/node/ExpressScanner.ts:37-142 | every endpoint of the file comes from a line it describes |
| Express.RouteCompleteness | src/scanners/node/ExpressScanner.ts:70-110 | a pattern that matches yields its endpoint: the path under the base route, the nearest class, the handler, line `i+1`, the file's language and the verb uppercased |
| Express.ChainedCompleteness | src/scanners/node/ExpressScanner.ts:116-134 | a continuation line of an open chain whose route literal and `.name(` call match yields its endpoint |
| Express.LineOrder | src/scanners/node/ExpressScanner.ts:102-110 | line numbers lie between 1 and the line count and come out ascending |
| Express.SameNameTwice | src/scanners/node/ExpressScanner.ts:71-78 | when the application and router names coincide, a route yields two identical endpoints |
| Gin.HandlerParts | src/scanners/golang/GinScanner.ts:102-113 | a `Struct.Method` handler gives the struct and the method, and any other handler is the method itself |
| Gin.MatchPattern | src/scanners/golang/GinScanner.ts:96-124 | one pattern yields its route's endpoint when it matches, and moves the current struct to the handler's receiver |
| Gin.MatchVerb | src/scanners/golang/GinScanner.ts:87-125 | a verb's three patterns yield their endpoints in pattern order |
| Gin.LineRoutes | src/scanners/golang/GinScanner.ts:84-126 | the seven verbs yield their endpoints in verb order, and the struct moves when any route matched |
| Gin.Step | src/scanners/golang/GinScanner.ts:48-126 | one loop turn yields the spec's endpoints and state, with its `continue` branches |
| Gin.ParseFile | src/scanners/golang/GinScanner.ts:39-130 | the pass returns `Parse(content, filePath)` |
| Gin.RouterVarStep | src/scanners/golang/GinScanner.ts:57-64 | the `gin.Default()`/`gin.New()` guard never changes the router name the pattern gives, past struct lines |
| Gin.RouterVarLatest | src/scanners/golang/GinScanner.ts:57-64 | the router name is the one the last binding line outside struct lines bound, or `r` |
| Gin.RouterVarIsIdentifier | src/scanners/golang/GinScanner.ts:43-64 | the router name always stays an identifier |
| Gin.GroupScope | src/scanners/golang/GinScanner.ts:66-81 | a group is open exactly when its prefix is non-empty, and an open group's prefix is what a `.Group("p")` line above set |
| Gin.StructIsIdentifier | src/scanners/golang/GinScanner.ts:51-55 | the current struct is always empty or an identifier |
| Gin.ReceiverStable | src/scanners/golang/GinScanner.ts:108-113 | taking the receiver twice on the same line changes nothing |
| Gin.PatternRoutesCount | src/scanners/golang/GinScanner.ts:96-124 | a verb yields one route for each of its three patterns that matches the line |
| Gin.VerbRoutesCount | src/scanners/golang/GinScanner.ts:84-125 | the verbs yield one route for each matching (verb, pattern) pair |
| Gin.RoutesExactly | src/scanners/golang/GinScanner.ts:84-126 | a line's routes are exactly the (verb, literal) pairs of the patterns that match it, one per matching (verb, pattern) pair, so at most twenty-one |
| Gin.ListedTwice | src/scanners/golang/GinScanner.ts:87-94 | a `group.VERB` or `r.VERB` route is captured at least twice, since the generic `.VERB` pattern matches it as well |
| Gin.ClassNameIsIdentifier | src/scanners/golang/GinScanner.ts:117 | the class is the struct, an identifier, or `main` |
| Gin.MethodNonEmpty | src/scanners/golang/GinScanner.ts:101-113 | the method name is never empty |
| Gin.LineEndpointsExactly | src/scanners/golang/GinScanner.ts:50-126 | a line yields exactly the endpoints `Emitted` describes, one per matching (verb, pattern) pair on a route line, and struct, binding, group and closing lines none |
| Gin.Provenance | src/scanners/golang/GinScanner.ts:39-130 | every endpoint of the file comes from a route line it describes |
| Gin.Completeness | src/scanners/golang/GinScanner.ts:39-130 | every endpoint a route line describes is returned |
| Gin.LineOrder | src/scanners/golang/GinScanner.ts:115-123 | line numbers lie between 1 and the line count and come out ascending |
| FastApi.ParseTags | src/scanners/python/FastAPIScanner.ts:82-84 | the tag list has one tag per comma-separated piece |
| FastApi.TagsClean | src/scanners/python/FastAPIScanner.ts:82-84 | no tag holds a comma or a quote |
| FastApi.ParseEndpoint | src/scanners/python/FastAPIScanner.ts:97-137 | the decorator loop returns the endpoint of the first pattern that matches, or `null` |
| FastApi.Step | src/scanners/python/FastAPIScanner.ts:68-92 | one loop turn yields the spec's endpoints and state, with the prefix line's `continue` |
| FastApi.ParseFile | src/scanners/python/FastAPIScanner.ts:61-95 | the pass returns `Parse(content, filePath)` |
| FastApi.PathLatest | src/scanners/python/FastAPIScanner.ts:71-77 | the current path is the prefix of the last `APIRouter(prefix=…)` line, or empty |
| FastApi.TagsLatest | src/scanners/python/FastAPIScanner.ts:79-86 | the tags are those of the last `tags=[…]` line, or none |
| FastApi.FourthPatternDead | src/scanners/python/FastAPIScanner.ts:7-12 | the anchored fourth pattern never decides: the first three always answer first |
| FastApi.UpperVerbsSpec | src/scanners/python/FastAPIScanner.ts:111 | each listed verb uppercases to its upper-case spelling |
| FastApi.EndpointOf | src/scanners/python/FastAPIScanner.ts:111-133 | the endpoint has an upper-case listed verb, the raw concatenation of prefix and literal as path, the tags joined with `, `, line `i+1`, `python` and the file |
| FastApi.FunctionNameSpec | src/scanners/python/FastAPIScanner.ts:114-121 | the method name is an identifier from a `def` on the very next line, or empty exactly when that line has none |
| FastApi.LineEndpointsExactly | src/scanners/python/FastAPIScanner.ts:68-92 | a line yields at most one endpoint, exactly the one `Emitted` describes; a prefix line yields none |
| FastApi.Provenance | src/scanners/python/FastAPIScanner.ts:61-95 | every endpoint of the file comes from a line it describes |
| FastApi.Completeness | src/scanners/python/FastAPIScanner.ts:61-95 | every endpoint a line describes is returned |
| FastApi.PerLineShape | src/scanners/python/FastAPIScanner.ts:88-91 | each line yields at most one endpoint, numbered after the line, in the file |
| FastApi.LineOrder | src/scanners/python/FastAPIScanner.ts:88-91 | line numbers lie between 1 and the line count and strictly ascend |
| FastApi.ParseFilePath | src/scanners/python/FastAPIScanner.ts:127 | every endpoint records the parsed file |
| FastApi.ProcessFileGate | src/scanners/python/FastAPIScanner.ts:34-45 | for any configuration: under a set, non-zero `maxFileSizeBytes` a file beyond it, or any file failing the gate, yields nothing; a file that passes and fits even at two code units per character, or any file that passes when the limit is unset or zero, yields its parse |
| FastApi.DefaultSizeLimit | src/scanners/python/FastAPIScanner.ts:18-24 | the default-built scanner skips a file over 1 MiB and parses a passing one of at most half a MiB in characters |
| FastApi.ScanFails | src/scanners/python/FastAPIScanner.ts:26-32 | the scan fails exactly when some file the filter keeps cannot be read |
| FastApi.ScanProvenance | src/scanners/python/FastAPIScanner.ts:26-45 | every endpoint of a scan comes from a found, kept, readable file that passes the gate, and is in its parse |
| FastApi.ScanCompleteness | src/scanners/python/FastAPIScanner.ts:26-45 | every endpoint `processFile` gives for a found, kept file is in the scan |
| Nest.FindClass | src/scanners/node/NestScanner.ts:57-63 | the class lookahead returns the first `export class` name below, or keeps the current class |
| Nest.LookaheadClassSpec | src/scanners/node/NestScanner.ts:57-63 | that name is an identifier on the first later `export class` line, and the class is kept when there is none |
| Nest.FindMethodName | src/scanners/node/NestScanner.ts:83-90 | the method lookahead returns the first `name(` below |
| Nest.LookaheadMethodSpec | src/scanners/node/NestScanner.ts:83-90 | that name is an identifier on the first later line calling one, and `unknown` when there is none |
| Nest.DecoratorsOnLine | src/scanners/node/NestScanner.ts:76-102 | the loop over the decorator table yields each present decorator's endpoint, in table order |
| Nest.ParseFile | src/scanners/node/NestScanner.ts:41-106 | the pass returns `Parse(content, filePath)` |
| Nest.BaseRouteLatest | src/scanners/node/NestScanner.ts:51-55 | the base route is the literal of the last `@Controller('p')` line above, or empty |
| Nest.ClassIsName | src/scanners/node/NestScanner.ts:56-63 | the current class is always empty or an identifier |
| Nest.DefaultPath | src/scanners/node/NestScanner.ts:79-93 | a decorator without a literal has path `/`, so its endpoint's path is `combinePath(baseRoute)` |
| Nest.DecoratorEndpointsOf | src/scanners/node/NestScanner.ts:68-102 | the endpoints are exactly those of the table rows whose decorator the line holds, at most one per row |
| Nest.LineEndpointsExactly | src/scanners/node/NestScanner.ts:47-102 | a controller line yields nothing; any other yields exactly what `Emitted` describes |
| Nest.Provenance | src/scanners/node/NestScanner.ts:41-106 | every endpoint of the file comes from a line it describes |
| Nest.Completeness | src/scanners/node/NestScanner.ts:41-106 | every endpoint a line describes is returned |
| Nest.EndpointRecord | src/scanners/node/NestScanner.ts:92-100 | an endpoint has its row's verb, one of the five, an identifier or `unknown` as method, the file's language, the file and line `i+1` |
| Nest.EndpointFields | src/scanners/node/NestScanner.ts:68-100 | only the five mapped verbs occur, and every method name is an identifier or `unknown` |
| Nest.LineOrder | src/scanners/node/NestScanner.ts:92-100 | line numbers lie between 1 and the line count and come out ascending |
| Base.FilesToScanMember | src/scanners/base/BaseScanner.ts:21-25 | a file is kept exactly when it was found and no exclude pattern occurs in its path |
| Base.FilesToScanSublist | src/scanners/base/BaseScanner.ts:21-25 | the kept files are an order-preserving sublist of the found ones |
| Base.FilesToScanConcat | src/scanners/base/BaseScanner.ts:21-25 | filtering a concatenation is the concatenation of the filtered halves |
| Base.AllExcluded | src/scanners/base/BaseScanner.ts:21-25 | when every found file is excluded, nothing is kept |
| Base.EmptyPatternExcludesAll | src/scanners/base/BaseScanner.ts:21-25 | an empty exclude pattern excludes every file |
| Base.Utf16LengthBounds | src/scanners/base/BaseScanner.ts:31 | `content.length` counts one or two units per character, and one for every character of the Basic Multilingual Plane |
| Base.SizeCheckBounds | src/scanners/base/BaseScanner.ts:28-32 | under a non-zero limit, a file of at most half the limit in characters passes and one over the limit in characters fails |
| FileCache.Evict | src/utils/fileSystem.ts:16-21 | the overflow check keeps the map well formed |
| FileCache.Store | src/utils/fileSystem.ts:23 | `Map.set` keeps the map well formed |
| FileCache.ContentCache.constructor | src/utils/fileSystem.ts:5 | a new cache is empty |
| FileCache.ContentCache.ReadFile | src/utils/fileSystem.ts:8-25 | `readFile` answers and leaves the map as `Read` says |
| FileCache.ContentCache.Clear | src/utils/fileSystem.ts:42-44 | `clearCache` leaves the map empty |
| FileCache.HitLeavesCache | src/utils/fileSystem.ts:9-12 | a hit with non-empty text answers it and leaves the map unchanged |
| FileCache.FailureLeavesCache | src/utils/fileSystem.ts:14 | a failed read answers nothing and leaves the map unchanged |
| FileCache.ReadCaches | src/utils/fileSystem.ts:23-24 | after a read that answers, the map holds the answer for the path, and a miss answers what the disk gave |
| FileCache.ReadKeepsOthers | src/utils/fileSystem.ts:16-23 | a read changes no other entry, and drops none but the one it evicts |
| FileCache.EvictsOldest | src/utils/fileSystem.ts:16-21 | a miss on a full map drops the first-inserted key; the rest keep their order and the new path goes last |
| FileCache.ReadKeepsBound | src/utils/fileSystem.ts:16-23 | reads of non-empty paths keep at most 100 entries, none of them under the empty path |
| FileCache.EmptyOldestOverflows | src/utils/fileSystem.ts:17-19 | with the empty path as the oldest key, a full map grows past 100 |
| Registry.Register | src/core/scanners/ScannerRegistry.ts:17-19 | `registerScanner` keeps each type once, and the listed types are exactly the map's keys |
| Registry.RegisterAll | src/core/scanners/ScannerRegistry.ts:17-19 | a run of registrations from the empty map keeps it well formed |
| Registry.ScannerRegistry.constructor | src/core/scanners/ScannerRegistry.ts:6 | a new registry is empty |
| Registry.ScannerRegistry.RegisterScanner | src/core/scanners/ScannerRegistry.ts:17-19 | the registry after `registerScanner` is `Register` of the one before |
| Registry.ScannerRegistry.GetScanner | src/core/scanners/ScannerRegistry.ts:21-23 | `getScanner` answers the registered scanner, and `undefined` exactly for an unregistered type |
| Registry.ScannerRegistry.GetSupportedTypes | src/core/scanners/ScannerRegistry.ts:25-27 | `getSupportedTypes` lists exactly the types with a scanner |
| Registry.LookupAfterRegister | src/core/scanners/ScannerRegistry.ts:17-23 | after registering `s` for `t`, `t` looks up `s`, whatever was there before, and every other type looks up what it did |
| Registry.NeverRegistered | src/core/scanners/ScannerRegistry.ts:21-23 | a type no registration names looks up nothing |
| Registry.LastRegistrationWins | src/core/scanners/ScannerRegistry.ts:17-23 | a type looks up the scanner of its last registration |
| Registry.FirstIndex | src/core/scanners/ScannerRegistry.ts:17-19 | the position of a type's first registration, or the run's length when there is none |
| Registry.SupportedTypesExactly | src/core/scanners/ScannerRegistry.ts:25-27 | a type is listed exactly when some registration names it |
| Registry.SupportedTypesFirstSeen | src/core/scanners/ScannerRegistry.ts:25-27 | the list equals the run's types, deduplicated in first-seen order |
| Registry.SupportedTypesInOrder | src/core/scanners/ScannerRegistry.ts:25-27 | types are listed once each, in the order of their first registrations |
| CheckProject.Answers | src/utils/check.ts:5-58 | the chain only ever answers `springBoot`, `express`, `nest`, `gin`, `echo` or `unknown` |
| CheckProject.PomFirst | src/utils/check.ts:10-16 | a pom with the marker answers `springBoot`, whatever the other manifests hold |
| CheckProject.PomErrorIsUnknown | src/utils/check.ts:54-56 | a pom that cannot be read answers `unknown`, whatever else there is |
| CheckProject.GradlePreferred | src/utils/check.ts:19-27 | when `build.gradle` exists, `build.gradle.kts` never matters |
| CheckProject.ExpressBeforeNest | src/utils/check.ts:30-40 | dependencies on both `express` and `@nestjs/core` answer `express` |
| CheckProject.GinBeforeEcho | src/utils/check.ts:43-52 | a `go.mod` naming both frameworks answers `gin` |
| CheckProject.NoManifestIsUnknown | src/utils/check.ts:57 | a workspace without any manifest answers `unknown` |
| CheckProject.RealStarterMissed | src/utils/check.ts:13 | a pom naming only the real `spring-boot-starter-web` artifact answers `unknown` |
| Extension.PatternOfType | src/extension.ts:86-99 | `springBoot` watches `**/*.java`, `express` and `nest` watch `**/*.{js,ts}`, `gin` and `echo` watch `**/*.go`, and every other type the catch-all |
| Extension.OtherNamesCatchAll | src/extension.ts:96-97 | any other name gets `**/*.{java,ts,js,go}` |
| Provider.Legacies | src/providers/ApiEndpointProvider.ts:162-169 | one legacy record per endpoint found |
| Provider.ScanFiles | src/providers/ApiEndpointProvider.ts:65-79 | scanning files through the cache keeps the cache well formed |
| Provider.ScanFolders | src/providers/ApiEndpointProvider.ts:35-41 | scanning folders keeps the cache well formed |
| Provider.ApiEndpointProvider.constructor | src/providers/ApiEndpointProvider.ts:7-18 | a new provider has no endpoints and an empty cache |
| Provider.ApiEndpointProvider.ReadFileContent | src/providers/ApiEndpointProvider.ts:212-231 | the provider's read answers and leaves its cache as `FileCache.Read` says |
| Provider.ApiEndpointProvider.ParseJavaFile | src/providers/ApiEndpointProvider.ts:92-174 | the endpoint list grows by the legacy records of the Spring pass, in order |
| Provider.ApiEndpointProvider.ScanFile | src/providers/ApiEndpointProvider.ts:70-77 | one file is read through the cache and parsed when it is a controller file |
| Provider.ApiEndpointProvider.ScanSpringBootProject | src/providers/ApiEndpointProvider.ts:65-79 | the list grows by `ScanFiles` of the files, and the cache becomes what `ScanFiles` leaves |
| Provider.ApiEndpointProvider.ScanWorkspace | src/providers/ApiEndpointProvider.ts:27-42 | the list is reset; without folders it stays empty, otherwise it is `ScanFolders` of them |
| Provider.ApiEndpointProvider.SearchEndpoints | src/providers/ApiEndpointProvider.ts:203-210 | an endpoint is returned exactly when it is listed and its path, class or method contains the lower-cased query; the result is the list's matching positions, every one of them, in order |
| Provider.FilterExactly | src/providers/ApiEndpointProvider.ts:205-209 | the filter keeps exactly the matching endpoints |
| Provider.FilterSublist | src/providers/ApiEndpointProvider.ts:205-209 | the kept endpoints sit at strictly increasing positions of the list, and a position is kept exactly when its endpoint matches, so repeated matches are all kept |
| Provider.FilterKept | src/providers/ApiEndpointProvider.ts:205-209 | the filter's result is the sublist of the list at exactly its matching positions |
| Provider.EmptyQueryKeepsAll | src/providers/ApiEndpointProvider.ts:203-210 | the empty query keeps every endpoint, in order |
| Provider.ControllerFileIsSpringGate | src/providers/ApiEndpointProvider.ts:81-90 | `isControllerFile` is the Spring scanner's gate |
| Provider.JavaFileRecords | src/providers/ApiEndpointProvider.ts:98-170 | each record has a line within the file, the file, `java`, the non-empty name the lookahead found below it, and a controller line at or above it |
| Provider.ScanFilesRecords | src/providers/ApiEndpointProvider.ts:65-79 | every record of a scan comes from one of the files, in `java` |
| Provider.NotSpringScansNothing | src/providers/ApiEndpointProvider.ts:44-63 | without a pom mentioning `spring-boot`, folders are scanned for nothing and the cache stays as it was |

## Left out

- I/O is not modelled: `findFiles`, `fs.promises.readFile`, `vscode.workspace.fs` and `FileUtils.exists`. The files a search found, the text of each file and the manifests are inputs.
- `JSON.parse` is not modelled. A `package.json` is its set of truthy `dependencies` keys, or a parse failure.
- Concurrency is not modelled. `Promise.all` and the shared `endpoints.push` of parallel tasks become a sequential fold over the files in the order found, and the provider's cache reads happen in that order.
- Two `scanWorkspace` calls running at once are also outside the model.
- The `scan` methods of the Spring Boot, Express, Gin and Nest scanners are not modelled. They are a glob search, a read per file and that file's gate and parse, all of which the model does cover. Only the FastAPI `scan` and the provider's scan are modelled as folds.
- `getEndpoints` is left out, because its refresh depends on `Date.now()` and a time-to-live.
- The debouncer, the quick pick, the status bar, the watchers, command registration and the logger are left out, as timers or UI.
- The remainder of `activate` is UI as well; only `getFilePattern` is modelled.
- The `getInstance` singletons are ordinary objects in the model.
- `hasBuildFiles` in `check.ts` is not part of this model.
- Regular expressions are not modelled in general. Each pattern the scanners use is an explicit matcher with JavaScript's leftmost-match rule.
- Glob matching is not modelled. A glob is only the string the switch returns.
- Strings.Lower: `toLowerCase` and `toUpperCase` map ASCII letters only. Unicode case mapping is not modelled, so the search and the verbs are exact only for ASCII text.
- Paths.WellFormedResult: "no `//` and no trailing `/`" is proved only when every kept part holds a non-slash character and no `//`. Without that condition it fails, as Paths.SlashRunLeading and Paths.SlashRunTrailing show.
- Base.SizeCheckBounds: `content.length` counts UTF-16 code units, and the proof bounds it between one and two units per character rather than computing it exactly.
- Strings are sequences of characters. The decoding of file bytes is not modelled.

## Behaviour of the code worth knowing

The model follows the code as written, including these behaviours:

- **combinePath** drops the parts `''` and `'/'` and strips the slashes from each remaining part. A part made only of several slashes, such as `//`, gets through the filter and strips to the empty string. The join then yields `//a` or `/a/` (`Paths.SlashRunLeading`, `Paths.SlashRunTrailing`).
- **The content caches** evict their oldest key once they hold `MAX_CACHE_SIZE = 100` entries (`src/utils/fileSystem.ts:6`, `src/providers/ApiEndpointProvider.ts:16`). The `if (firstKey)` test skips eviction when the oldest key is the empty path, so a full map with that key would grow past 100 (`FileCache.EmptyOldestOverflows`). The readers never reach this case. A key is stored only after `fs.readFile` or `fs.promises.readFile` succeeds, and a read of the empty path fails. The provider reads only paths that `findFiles` returned. The bound that holds in practice is `FileCache.ReadKeepsBound`: reads of non-empty paths keep at most 100 entries. The model's `disk` input is unconstrained at the empty path, which is the only way it reaches the overflow.
- **checkProjectType's Spring marker** is spelt `springBoot-starter-web`. It never matches the real `spring-boot-starter-web` artifact (`CheckProject.RealStarterMissed`).
- **The provider's own detection** is separate: it looks for the plain text `spring-boot` in the first pom. It uses that one pom for every workspace folder.
- **The Gin scanner emits duplicates.** A route written `r.GET("/p", h)` or `group.GET(…)` is captured by the generic `.GET(` pattern and again by its own pattern, so it yields two endpoints (`Gin.ListedTwice`).
- **The Express scanner** yields two identical endpoints when the application and router names coincide (`Express.SameNameTwice`).
- **The `value=` and `path=` fallbacks** of the Spring method path are never reached: whatever they match, the first double-quoted literal matches too (`SpringBoot.MethodPathSpec`).
- **Spring `@RequestMapping` lines.** Every `@RequestMapping` line that holds a literal rebinds the base URL for all later lines, method-level ones included (`SpringBoot.BaseUrlLatest`). Such a line is also a mapping annotation. Inside a controller, when a signature follows, it yields a `GET` endpoint of its own, whose path is its literal joined to itself, such as `/x/x` (`SpringBoot.RequestMappingDoubles`, `Paths.DoubledPath`). A line holding `@GetMapping` and `@RequestMapping` together yields the same `GET` endpoint twice (`SpringBoot.TwoMappingsTwice`).
- **The endpoint collection is not replaced atomically.** `scanWorkspace` empties the list first and then pushes into it as files are parsed.
