/** The regular expressions of the scanners, each written out as an explicit
    matcher. `MatchAt(s, p, m)` is what the expression does when the engine
    tries it at offset `p`; `Find(s, m)` is `s.match(re)`: the leftmost offset
    at which it succeeds, with the captured groups.

    Every expression modelled here is deterministic at a fixed offset: each
    greedy run is followed by a character its class excludes, so backtracking
    never yields a second match. Two expressions carry an optional prefix that
    cannot change the captured group, and the matcher models the core only:
    `(?:async\s+)?def\s+(\w+)` captures what `def\s+(\w+)` captures, and
    `\s*(?:public|private|protected)?\s+\w+\s+(\w+)\s*\(` captures what
    `\s+\w+\s+(\w+)\s*\(` captures. Likewise `(?:async\s+)?(\w+)\s*\(` captures
    the first word that is followed by optional white space and `(`. */
module Patterns {
  import opened Optional
  import opened Strings

  /** `match[1]` and `match[2]`; matchers with one group leave `second` empty. */
  datatype Groups = Groups(first: string, second: string)

  /** What must follow the closing quote of a literal. */
  datatype After =
    | Anything                 // nothing more
    | CloseParen               // `\)`
    | CloseParenOrEnd          // `(\)|$)`
    | CloseParenThen(call: string)  // `\).*?` followed by `call`

  datatype Matcher =
    /** `prefix [open] ([^close]+ or *) [close] after` — the quoted-literal
        patterns of every scanner. */
    | Quoted(prefix: string, open: set<char>, close: set<char>, allowEmpty: bool, after: After)
    /** `key\s*=\s*"([^"]+)"` */
    | KeyQuoted(key: string)
    /** `w1\s+w2\s+...\s+(\w+)`: `class\s+(\w+)`, `export\s+class\s+(\w+)`, `def\s+(\w+)`. */
    | Keywords(words: seq<string>)
    /** `type\s+(\w+)\s+struct` */
    | TypeStruct
    /** `(\w+)\s*=\s*rhs` (with `:?=` when `colon`), for any right-hand side in `rhs`. */
    | Binding(colon: bool, rhs: seq<string>)
    /** `use\(['"](.*?)['"],\s*\w+` */
    | UseRoute
    /** `,\s*(\w+)(?:\)|\s*,)`, or with `[\w.]+` in place of `\w+` when `dots`. */
    | Handler(dots: bool)
    /** `\.(\w+)\(` */
    | DotCall
    /** `\s+\w+\s+(\w+)\s*\(` — a Java method signature. */
    | JavaSignature
    /** `(\w+)\s*\(` */
    | WordCall
    /** `(\w+)\.(\w+)` */
    | Qualified
    /** A case-insensitive `prefix(v1|v2|...)\s*\(['"]([^'"]+)['"]`, anchored at
        the start (`^`) when `anchored`; the first group is the verb as written. */
    | Decorator(prefix: string, anchored: bool, verbs: seq<string>)

  const Quotes: set<char> := {'\'', '"'}
  const DoubleQuote: set<char> := {'"'}

  /** A single- or double-quoted literal with a non-empty body, after `prefix`. */
  function QuotedAfter(prefix: string): Matcher {
    Quoted(prefix, Quotes, Quotes, false, Anything)
  }

  /** Case-insensitive `StartsAt`, as a `/i` expression compares ASCII letters. */
  predicate StartsAtIgnoreCase(s: string, p: int, t: string) {
    0 <= p && p + |t| <= |s| && Lower(s[p..p + |t|]) == Lower(t)
  }

  /** A literal opened at `a` by a character of `open`, whose body holds no
      character of `close` and is closed by one: the offset of the closing
      character. */
  function LiteralAt(s: string, a: nat, open: set<char>, close: set<char>, allowEmpty: bool): (r: Option<nat>)
    ensures r.Some? ==> a + 1 <= r.value < |s| && s[a] in open && s[r.value] in close
    ensures r.Some? ==> allowEmpty || a + 1 < r.value
    ensures r.Some? ==> forall k :: a + 1 <= k < r.value ==> s[k] !in close
  {
    if a < |s| && s[a] in open then
      var e := SpanEnd(s, a + 1, NoneOf(close));
      if e < |s| && (allowEmpty || e > a + 1) then Some(e) else None
    else None
  }

  predicate NoLineTerminator(s: string) {
    forall i | 0 <= i < |s| :: !IsLineTerminator(s[i])
  }

  predicate AfterHolds(s: string, k: nat, after: After) {
    match after
    case Anything => true
    case CloseParen => k < |s| && s[k] == ')'
    case CloseParenOrEnd => k == |s| || (k < |s| && s[k] == ')')
    case CloseParenThen(call) =>
      && k < |s| && s[k] == ')'
      && exists t | k + 1 <= t <= |s| :: StartsAt(s, t, call) && NoLineTerminator(s[k + 1..t])
  }

  /** `w1\s+w2\s+...\s+(\w+)` at offset `p`. */
  function KeywordsAt(s: string, p: nat, words: seq<string>): Option<Groups>
    requires p <= |s|
    decreases |words|
  {
    if |words| == 0 then
      var e := SpanEnd(s, p, Word);
      if e > p then Some(Groups(s[p..e], "")) else None
    else if StartsAt(s, p, words[0]) then
      var a := SpanEnd(s, p + |words[0]|, Space);
      if a > p + |words[0]| then KeywordsAt(s, a, words[1..]) else None
    else None
  }

  /** The rest of `use\(['"](.*?)['"],\s*\w+` once `.*?` has taken `s[..k]`. */
  predicate UseTailAt(s: string, k: nat) {
    && k + 1 < |s| && s[k] in Quotes && s[k + 1] == ','
    && var w := SpanEnd(s, k + 2, Space); w < |s| && IsWord(s[w])
  }

  /** The lazy `.*?` of `UseRoute`: the first offset from `k` where the tail
      matches, provided no line terminator comes before it. */
  function LazyUseEnd(s: string, k: nat): (r: Option<nat>)
    requires k <= |s|
    ensures r.Some? ==> k <= r.value < |s|
    decreases |s| - k
  {
    if k >= |s| then None
    else if UseTailAt(s, k) then Some(k)
    else if IsLineTerminator(s[k]) then None
    else LazyUseEnd(s, k + 1)
  }

  /** The alternation of `Decorator`, tried in order at offset `a`. */
  function DecoratorVerbAt(s: string, a: nat, verbs: seq<string>): Option<Groups>
    requires a <= |s|
    decreases |verbs|
  {
    if |verbs| == 0 then None
    else
      var v := verbs[0];
      var rest := DecoratorVerbAt(s, a, verbs[1..]);
      if StartsAtIgnoreCase(s, a, v) then
        var b := SpanEnd(s, a + |v|, Space);
        if b < |s| && s[b] == '(' then
          match LiteralAt(s, b + 1, Quotes, Quotes, false)
          case Some(e) => Some(Groups(s[a..a + |v|], s[b + 2..e]))
          case None => rest
        else rest
      else rest
  }

  function QuotedAt(s: string, p: nat, prefix: string, open: set<char>, close: set<char>, allowEmpty: bool, after: After): Option<Groups>
    requires p <= |s|
  {
    if StartsAt(s, p, prefix) then
      match LiteralAt(s, p + |prefix|, open, close, allowEmpty)
      case Some(e) =>
        if AfterHolds(s, e + 1, after) then Some(Groups(s[p + |prefix| + 1..e], "")) else None
      case None => None
    else None
  }

  function KeyQuotedAt(s: string, p: nat, key: string): Option<Groups>
    requires p <= |s|
  {
    if StartsAt(s, p, key) then
      var a := SpanEnd(s, p + |key|, Space);
      if a < |s| && s[a] == '=' then
        var b := SpanEnd(s, a + 1, Space);
        match LiteralAt(s, b, DoubleQuote, DoubleQuote, false)
        case Some(e) => Some(Groups(s[b + 1..e], ""))
        case None => None
      else None
    else None
  }

  function TypeStructAt(s: string, p: nat): Option<Groups>
    requires p <= |s|
  {
    if StartsAt(s, p, "type") then
      var a := SpanEnd(s, p + 4, Space);
      var b := SpanEnd(s, a, Word);
      var c := SpanEnd(s, b, Space);
      if a > p + 4 && b > a && c > b && StartsAt(s, c, "struct") then Some(Groups(s[a..b], "")) else None
    else None
  }

  function BindingAt(s: string, p: nat, colon: bool, rhs: seq<string>): Option<Groups>
    requires p <= |s|
  {
    var b := SpanEnd(s, p, Word);
    var c := SpanEnd(s, b, Space);
    var d := if colon && c < |s| && s[c] == ':' then c + 1 else c;
    if b > p && d < |s| && s[d] == '=' then
      var e := SpanEnd(s, d + 1, Space);
      if exists r | r in rhs :: StartsAt(s, e, r) then Some(Groups(s[p..b], "")) else None
    else None
  }

  function UseRouteAt(s: string, p: nat): Option<Groups>
    requires p <= |s|
  {
    if StartsAt(s, p, "use(") && p + 4 < |s| && s[p + 4] in Quotes then
      match LazyUseEnd(s, p + 5)
      case Some(k) => Some(Groups(s[p + 5..k], ""))
      case None => None
    else None
  }

  function HandlerAt(s: string, p: nat, dots: bool): Option<Groups>
    requires p <= |s|
  {
    if p < |s| && s[p] == ',' then
      var a := SpanEnd(s, p + 1, Space);
      var b := SpanEnd(s, a, if dots then WordOrDot else Word);
      var c := SpanEnd(s, b, Space);
      if b > a && ((b < |s| && s[b] == ')') || (c < |s| && s[c] == ',')) then Some(Groups(s[a..b], "")) else None
    else None
  }

  function DotCallAt(s: string, p: nat): Option<Groups>
    requires p <= |s|
  {
    if p < |s| && s[p] == '.' then
      var b := SpanEnd(s, p + 1, Word);
      if b > p + 1 && b < |s| && s[b] == '(' then Some(Groups(s[p + 1..b], "")) else None
    else None
  }

  function JavaSignatureAt(s: string, p: nat): Option<Groups>
    requires p <= |s|
  {
    if p < |s| && IsSpace(s[p]) then
      var a := SpanEnd(s, p, Space);
      var b := SpanEnd(s, a, Word);
      var c := SpanEnd(s, b, Space);
      var d := SpanEnd(s, c, Word);
      var e := SpanEnd(s, d, Space);
      if b > a && c > b && d > c && e < |s| && s[e] == '(' then Some(Groups(s[c..d], "")) else None
    else None
  }

  function WordCallAt(s: string, p: nat): Option<Groups>
    requires p <= |s|
  {
    var b := SpanEnd(s, p, Word);
    var c := SpanEnd(s, b, Space);
    if b > p && c < |s| && s[c] == '(' then Some(Groups(s[p..b], "")) else None
  }

  function QualifiedAt(s: string, p: nat): Option<Groups>
    requires p <= |s|
  {
    var b := SpanEnd(s, p, Word);
    if b > p && b < |s| && s[b] == '.' then
      var d := SpanEnd(s, b + 1, Word);
      if d > b + 1 then Some(Groups(s[p..b], s[b + 1..d])) else None
    else None
  }

  function DecoratorAt(s: string, p: nat, prefix: string, anchored: bool, verbs: seq<string>): Option<Groups>
    requires p <= |s|
  {
    if (anchored ==> p == 0) && StartsAtIgnoreCase(s, p, prefix) then DecoratorVerbAt(s, p + |prefix|, verbs)
    else None
  }

  /** The match of `m` at offset `p`, if it succeeds there. */
  function MatchAt(s: string, p: nat, m: Matcher): Option<Groups>
    requires p <= |s|
  {
    match m
    case Quoted(prefix, open, close, allowEmpty, after) => QuotedAt(s, p, prefix, open, close, allowEmpty, after)
    case KeyQuoted(key) => KeyQuotedAt(s, p, key)
    case Keywords(words) => KeywordsAt(s, p, words)
    case TypeStruct => TypeStructAt(s, p)
    case Binding(colon, rhs) => BindingAt(s, p, colon, rhs)
    case UseRoute => UseRouteAt(s, p)
    case Handler(dots) => HandlerAt(s, p, dots)
    case DotCall => DotCallAt(s, p)
    case JavaSignature => JavaSignatureAt(s, p)
    case WordCall => WordCallAt(s, p)
    case Qualified => QualifiedAt(s, p)
    case Decorator(prefix, anchored, verbs) => DecoratorAt(s, p, prefix, anchored, verbs)
  }

  /** The first present entry of `xs` at index `from` or later. */
  function FirstPresent<T>(xs: seq<Option<T>>, from: nat): Option<T>
    requires from <= |xs|
    decreases |xs| - from
  {
    if from == |xs| then None
    else if xs[from].Some? then xs[from]
    else FirstPresent(xs, from + 1)
  }

  /** `FirstPresent` answers the leftmost present entry, and nothing only when
      every entry is absent. */
  lemma {:induction false} FirstPresentLeftmost<T>(xs: seq<Option<T>>, from: nat)
    requires from <= |xs|
    ensures FirstPresent(xs, from).None? ==> forall p :: from <= p < |xs| ==> xs[p].None?
    ensures FirstPresent(xs, from).Some? ==>
      exists p :: from <= p < |xs| && xs[p] == FirstPresent(xs, from) && forall q :: from <= q < p ==> xs[q].None?
    decreases |xs| - from
  {
    if from < |xs| && xs[from].None? {
      FirstPresentLeftmost(xs, from + 1);
    }
  }

  /** The last present entry of `xs[..n]`: a backward search from `n - 1` down to 0. */
  function LastPresent<T>(xs: seq<Option<T>>, n: nat): Option<T>
    requires n <= |xs|
  {
    if n == 0 then None
    else if xs[n - 1].Some? then xs[n - 1]
    else LastPresent(xs, n - 1)
  }

  /** `LastPresent` answers the rightmost present entry below `n`, and nothing
      only when every entry below `n` is absent. */
  lemma {:induction false} LastPresentRightmost<T>(xs: seq<Option<T>>, n: nat)
    requires n <= |xs|
    ensures LastPresent(xs, n).None? ==> forall p :: 0 <= p < n ==> xs[p].None?
    ensures LastPresent(xs, n).Some? ==>
      exists p :: 0 <= p < n && xs[p] == LastPresent(xs, n) && forall q :: p < q < n ==> xs[q].None?
  {
    if n > 0 && xs[n - 1].None? {
      LastPresentRightmost(xs, n - 1);
    }
  }

  /** The first group of the last present entry below `n`, or `default`: the
      value a variable holds after a run of `if (match) { v = match[1]; }`. */
  function LastGroupOr(xs: seq<Option<Groups>>, n: nat, default: string): string
    requires n <= |xs|
  {
    match LastPresent(xs, n)
    case Some(g) => g.first
    case None => default
  }

  /** One more entry either overrides the value or leaves it. */
  lemma LastGroupOrStep(xs: seq<Option<Groups>>, n: nat, default: string)
    requires 0 < n <= |xs|
    ensures LastGroupOr(xs, n, default) == if xs[n - 1].Some? then xs[n - 1].value.first else LastGroupOr(xs, n - 1, default)
  {
  }

  /** The value is the default or the first group of an entry below `n`. */
  lemma LastGroupOrFrom(xs: seq<Option<Groups>>, n: nat, default: string)
    requires n <= |xs|
    ensures LastGroupOr(xs, n, default) == default
      || exists p :: 0 <= p < n && xs[p].Some? && xs[p].value.first == LastGroupOr(xs, n, default)
  {
    LastPresentRightmost(xs, n);
  }

  /** The outcome of trying `m` at every offset of `s`. */
  function Attempts(s: string, m: Matcher): (r: seq<Option<Groups>>)
    ensures |r| == |s| + 1
  {
    seq(|s| + 1, p requires 0 <= p <= |s| => MatchAt(s, p, m))
  }

  /** `s.match(re)`: the match at the leftmost offset where `m` succeeds. */
  function Find(s: string, m: Matcher): Option<Groups> {
    FirstPresent(Attempts(s, m), 0)
  }

  /** `Find` answers the leftmost successful attempt, and no match only when
      every attempt fails. */
  lemma FindLeftmost(s: string, m: Matcher)
    ensures Find(s, m).None? ==> forall p :: 0 <= p <= |s| ==> Attempts(s, m)[p].None?
    ensures Find(s, m).Some? ==> exists p :: 0 <= p <= |s| && Attempts(s, m)[p] == Find(s, m)
                                    && forall q :: 0 <= q < p ==> Attempts(s, m)[q].None?
  {
    FirstPresentLeftmost(Attempts(s, m), 0);
  }

  /** The first group of the match, or `default` when there is none. */
  function FirstGroupOr(s: string, m: Matcher, default: string): string {
    match Find(s, m)
    case Some(g) => g.first
    case None => default
  }

  /** A match anywhere makes `s.match(re)` succeed. */
  lemma MatchMakesFind(s: string, m: Matcher, p: nat)
    requires p <= |s| && MatchAt(s, p, m).Some?
    ensures Find(s, m).Some?
  {
    FindLeftmost(s, m);
    assert Attempts(s, m)[p] == MatchAt(s, p, m);
  }

  /** The offset `s.match(re)` matched at: the attempt there succeeds with the
      answer, and every attempt before it fails. */
  lemma FoundAt(s: string, m: Matcher) returns (p: nat)
    requires Find(s, m).Some?
    ensures p <= |s| && MatchAt(s, p, m) == Find(s, m)
    ensures forall q :: 0 <= q < p ==> MatchAt(s, q, m).None?
  {
    FindLeftmost(s, m);
    p :| 0 <= p <= |s| && Attempts(s, m)[p] == Find(s, m) && forall q :: 0 <= q < p ==> Attempts(s, m)[q].None?;
    assert Attempts(s, m)[p] == MatchAt(s, p, m);
    forall q | 0 <= q < p
      ensures MatchAt(s, q, m).None?
    {
      assert Attempts(s, m)[q] == MatchAt(s, q, m);
    }
  }

  /** `s.match(re)` fails only when every attempt fails. */
  lemma NotFound(s: string, m: Matcher, p: nat)
    requires Find(s, m).None? && p <= |s|
    ensures MatchAt(s, p, m).None?
  {
    FindLeftmost(s, m);
    assert Attempts(s, m)[p] == MatchAt(s, p, m);
  }

  // ---------------------------------------------------------------- what a match captures

  /** The quoted literal `prefix o g c` stands in `s` at offset `p`. */
  predicate LiteralStandsAt(s: string, p: int, prefix: string, open: set<char>, close: set<char>, g: string) {
    var a := p + |prefix|;
    && StartsAt(s, p, prefix) && a + |g| + 1 < |s|
    && s[a] in open && s[a + 1..a + 1 + |g|] == g && s[a + 1 + |g|] in close
  }

  /** A quoted literal's capture: non-empty unless the body may be empty, free of
      closing characters, and standing quoted in the text. */
  lemma QuotedFound(s: string, prefix: string, open: set<char>, close: set<char>, allowEmpty: bool, after: After)
    requires Find(s, Quoted(prefix, open, close, allowEmpty, after)).Some?
    ensures var g := Find(s, Quoted(prefix, open, close, allowEmpty, after)).value;
      && (allowEmpty || |g.first| > 0) && g.second == ""
      && (forall k :: 0 <= k < |g.first| ==> g.first[k] !in close)
      && exists p :: 0 <= p <= |s| && LiteralStandsAt(s, p, prefix, open, close, g.first)
  {
    var m := Quoted(prefix, open, close, allowEmpty, after);
    var p := FoundAt(s, m);
    var e := LiteralAt(s, p + |prefix|, open, close, allowEmpty).value;
    assert LiteralStandsAt(s, p, prefix, open, close, s[p + |prefix| + 1..e]);
  }

  /** `\s+\w+\s+(\w+)\s*\(` captures a non-empty word. */
  lemma JavaSignatureFound(s: string)
    requires Find(s, JavaSignature).Some?
    ensures |Find(s, JavaSignature).value.first| > 0
    ensures Find(s, JavaSignature).value.second == ""
  {
    var p := FoundAt(s, JavaSignature);
  }

  lemma KeyQuotedAtHoldsLiteral(s: string, p: nat, key: string) returns (b: nat)
    requires p <= |s| && KeyQuotedAt(s, p, key).Some?
    ensures b <= |s| && QuotedAt(s, b, "", DoubleQuote, DoubleQuote, false, Anything).Some?
  {
    var a := SpanEnd(s, p + |key|, Space);
    b := SpanEnd(s, a + 1, Space);
    assert StartsAt(s, b, "");
  }

  /** Whatever `key\s*=\s*"([^"]+)"` matches, the plain `"([^"]+)"` matches too. */
  lemma KeyQuotedImpliesQuoted(s: string, key: string)
    requires Find(s, KeyQuoted(key)).Some?
    ensures Find(s, Quoted("", DoubleQuote, DoubleQuote, false, Anything)).Some?
  {
    var p := FoundAt(s, KeyQuoted(key));
    var b := KeyQuotedAtHoldsLiteral(s, p, key);
    MatchMakesFind(s, Quoted("", DoubleQuote, DoubleQuote, false, Anything), b);
  }

  lemma BindingAtFound(s: string, p: nat, colon: bool, rhs: seq<string>)
    requires p <= |s| && BindingAt(s, p, colon, rhs).Some?
    ensures IsIdentifier(BindingAt(s, p, colon, rhs).value.first)
    ensures exists r :: r in rhs && Contains(s, r)
  {
    var b := SpanEnd(s, p, Word);
    var c := SpanEnd(s, b, Space);
    var d := if colon && c < |s| && s[c] == ':' then c + 1 else c;
    var e := SpanEnd(s, d + 1, Space);
    var r :| r in rhs && StartsAt(s, e, r);
    assert Contains(s, r);
  }

  /** `(\w+)\s*=\s*rhs` captures an identifier and the line holds one of the right-hand sides. */
  lemma BindingFound(s: string, colon: bool, rhs: seq<string>)
    requires Find(s, Binding(colon, rhs)).Some?
    ensures IsIdentifier(Find(s, Binding(colon, rhs)).value.first)
    ensures exists r :: r in rhs && Contains(s, r)
  {
    var p := FoundAt(s, Binding(colon, rhs));
    BindingAtFound(s, p, colon, rhs);
  }

  /** The handler of `,\s*(\w+)(?:\)|\s*,)` is an identifier, and the `[\w.]+`
      variant a non-empty run of word characters and dots. */
  lemma HandlerFound(s: string, dots: bool)
    requires Find(s, Handler(dots)).Some?
    ensures var h := Find(s, Handler(dots)).value.first;
      |h| > 0 && forall k :: 0 <= k < |h| ==> InClass(h[k], if dots then WordOrDot else Word)
  {
    var p := FoundAt(s, Handler(dots));
  }

  /** `\.(\w+)\(` captures an identifier. */
  lemma DotCallFound(s: string)
    requires Find(s, DotCall).Some?
    ensures IsIdentifier(Find(s, DotCall).value.first)
  {
    var p := FoundAt(s, DotCall);
  }

  /** `(\w+)\s*\(` captures an identifier. */
  lemma WordCallFound(s: string)
    requires Find(s, WordCall).Some?
    ensures IsIdentifier(Find(s, WordCall).value.first)
  {
    var p := FoundAt(s, WordCall);
  }

  /** `w1\s+...\s+(\w+)` captures an identifier. */
  lemma {:induction false} KeywordsAtFound(s: string, p: nat, words: seq<string>)
    requires p <= |s| && KeywordsAt(s, p, words).Some?
    ensures IsIdentifier(KeywordsAt(s, p, words).value.first)
    ensures KeywordsAt(s, p, words).value.second == ""
    decreases |words|
  {
    if |words| > 0 {
      var a := SpanEnd(s, p + |words[0]|, Space);
      KeywordsAtFound(s, a, words[1..]);
    }
  }

  lemma KeywordsFound(s: string, words: seq<string>)
    requires Find(s, Keywords(words)).Some?
    ensures IsIdentifier(Find(s, Keywords(words)).value.first)
    ensures Find(s, Keywords(words)).value.second == ""
  {
    var p := FoundAt(s, Keywords(words));
    KeywordsAtFound(s, p, words);
  }

  // ---------------------------------------------------------------- variables bound line by line

  /** The outcome of `m` on every trimmed line. */
  function Finds(lines: seq<string>, m: Matcher): (r: seq<Option<Groups>>)
    ensures |r| == |lines|
  {
    seq(|lines|, j requires 0 <= j < |lines| => Find(Trim(lines[j]), m))
  }

  /** A variable that starts as `default` and takes the first group of `m`
      on every line `m` matches: its value after the first `n` lines. */
  function Rebound(lines: seq<string>, m: Matcher, default: string, n: nat): string
    requires n <= |lines|
  {
    if n == 0 then default else FirstGroupOr(Trim(lines[n - 1]), m, Rebound(lines, m, default, n - 1))
  }

  /** Such a variable holds what the last matching line bound, or `default`. */
  lemma {:induction false} ReboundLatest(lines: seq<string>, m: Matcher, default: string, n: nat)
    requires n <= |lines|
    ensures Rebound(lines, m, default, n) == LastGroupOr(Finds(lines, m), n, default)
    decreases n
  {
    if n > 0 {
      ReboundLatest(lines, m, default, n - 1);
      LastGroupOrStep(Finds(lines, m), n, default);
    }
  }

  /** A run of values each of which a present entry overrides and an absent
      one leaves is, at every point, the last present entry's group. */
  lemma {:induction false} LatestFold(xs: seq<Option<Groups>>, vs: seq<string>, default: string, n: nat)
    requires |vs| == |xs| + 1 && vs[0] == default && n <= |xs|
    requires forall k :: 0 <= k < |xs| ==> vs[k + 1] == if xs[k].Some? then xs[k].value.first else vs[k]
    ensures vs[n] == LastGroupOr(xs, n, default)
    decreases n
  {
    if n > 0 {
      LatestFold(xs, vs, default, n - 1);
      LastGroupOrStep(xs, n, default);
    }
  }

  // ---------------------------------------------------------------- more captures

  /** A quoted literal after `a + b` is also one after `b`, found `|a|` further on. */
  lemma QuotedSuffixAt(s: string, p: nat, a: string, b: string, open: set<char>, close: set<char>, allowEmpty: bool, after: After)
    requires p <= |s| && QuotedAt(s, p, a + b, open, close, allowEmpty, after).Some?
    ensures p + |a| <= |s|
    ensures QuotedAt(s, p + |a|, b, open, close, allowEmpty, after) == QuotedAt(s, p, a + b, open, close, allowEmpty, after)
  {
    assert s[p..p + |a + b|] == a + b;
    assert s[p + |a|..p + |a| + |b|] == s[p..p + |a + b|][|a|..];
  }

  /** So whenever `a + b` followed by a literal occurs, `b` followed by one does. */
  lemma QuotedSuffixFound(s: string, a: string, b: string)
    requires Find(s, QuotedAfter(a + b)).Some?
    ensures Find(s, QuotedAfter(b)).Some?
  {
    var p := FoundAt(s, QuotedAfter(a + b));
    QuotedSuffixAt(s, p, a, b, Quotes, Quotes, false, Anything);
    MatchMakesFind(s, QuotedAfter(b), p + |a|);
  }

  /** `type\s+(\w+)\s+struct` captures an identifier. */
  lemma TypeStructFound(s: string)
    requires Find(s, TypeStruct).Some?
    ensures IsIdentifier(Find(s, TypeStruct).value.first)
  {
    var p := FoundAt(s, TypeStruct);
  }

  /** `(\w+)\.(\w+)` captures two identifiers. */
  lemma QualifiedFound(s: string)
    requires Find(s, Qualified).Some?
    ensures IsIdentifier(Find(s, Qualified).value.first) && IsIdentifier(Find(s, Qualified).value.second)
  {
    var p := FoundAt(s, Qualified);
  }

  // ---------------------------------------------------------------- decorators

  /** The verb alternation takes a verb of the list, spelt in any case, and a
      non-empty quoted literal free of quotes. */
  lemma {:induction false} DecoratorVerbAtFound(s: string, a: nat, verbs: seq<string>)
    requires a <= |s| && DecoratorVerbAt(s, a, verbs).Some?
    ensures var g := DecoratorVerbAt(s, a, verbs).value;
      && (exists v :: v in verbs && Lower(g.first) == Lower(v))
      && |g.second| > 0 && forall k :: 0 <= k < |g.second| ==> g.second[k] !in Quotes
    decreases |verbs|
  {
    var v := verbs[0];
    var g := DecoratorVerbAt(s, a, verbs).value;
    if g != DecoratorVerbAt(s, a, verbs[1..]).GetOr(Groups("", "")) || DecoratorVerbAt(s, a, verbs[1..]).None? {
      assert StartsAtIgnoreCase(s, a, v);
      assert g.first == s[a..a + |v|];
    } else {
      DecoratorVerbAtFound(s, a, verbs[1..]);
    }
  }

  /** What a decorator pattern captures: a listed verb in any case, and a
      non-empty literal free of quotes. */
  lemma DecoratorFound(s: string, prefix: string, anchored: bool, verbs: seq<string>)
    requires Find(s, Decorator(prefix, anchored, verbs)).Some?
    ensures var g := Find(s, Decorator(prefix, anchored, verbs)).value;
      && (exists v :: v in verbs && Lower(g.first) == Lower(v))
      && |g.second| > 0 && forall k :: 0 <= k < |g.second| ==> g.second[k] !in Quotes
  {
    var p := FoundAt(s, Decorator(prefix, anchored, verbs));
    DecoratorVerbAtFound(s, p + |prefix|, verbs);
  }

  /** An anchored decorator pattern matches only where the unanchored one does. */
  lemma AnchoredDecorator(s: string, prefix: string, verbs: seq<string>)
    requires Find(s, Decorator(prefix, true, verbs)).Some?
    ensures Find(s, Decorator(prefix, false, verbs)).Some?
  {
    var p := FoundAt(s, Decorator(prefix, true, verbs));
    MatchMakesFind(s, Decorator(prefix, false, verbs), p);
  }

  /** A run of values each of which a present entry sets to `f` of its group
      and an absent one leaves is, at every point, `f` of the last present
      entry's group, or `default` before any. */
  lemma {:induction false} LatestOf<T>(xs: seq<Option<Groups>>, vs: seq<T>, f: string -> T, default: T, n: nat)
    requires |vs| == |xs| + 1 && vs[0] == default && n <= |xs|
    requires forall k :: 0 <= k < |xs| ==> vs[k + 1] == if xs[k].Some? then f(xs[k].value.first) else vs[k]
    ensures vs[n] == match LastPresent(xs, n) case Some(g) => f(g.first) case None => default
    decreases n
  {
    if n > 0 {
      LatestOf(xs, vs, f, default, n - 1);
    }
  }
}
