/** The string operations the extension takes from JavaScript: `includes`,
    `startsWith`/`endsWith`, `trim`, `split`, `join`, case conversion, and
    the character classes `\s` and `\w` of its regular expressions. */
module Strings {

  /** JavaScript's white space, the set shared by `\s` and `String.prototype.trim`:
      the ASCII spaces, the line terminators, BOM and the Unicode `Zs` category. */
  predicate IsSpace(c: char) {
    || c == ' ' || c == '\t' || c == '\n' || c == '\r' || c == '\U{000B}' || c == '\U{000C}'
    || c == '\U{00A0}' || c == '\U{1680}' || ('\U{2000}' <= c <= '\U{200A}')
    || c == '\U{2028}' || c == '\U{2029}' || c == '\U{202F}' || c == '\U{205F}'
    || c == '\U{3000}' || c == '\U{FEFF}'
  }

  /** The characters `.` refuses to match in a JavaScript regular expression. */
  predicate IsLineTerminator(c: char) {
    c == '\n' || c == '\r' || c == '\U{2028}' || c == '\U{2029}'
  }

  /** `\w`: ASCII letters, digits and the underscore. */
  predicate IsWord(c: char) {
    ('a' <= c <= 'z') || ('A' <= c <= 'Z') || ('0' <= c <= '9') || c == '_'
  }

  /** A non-empty run of `\w` characters, as `(\w+)` captures. */
  predicate IsIdentifier(s: string) {
    |s| > 0 && forall i :: 0 <= i < |s| ==> IsWord(s[i])
  }

  /** A name as the scanners hold one: empty, or a run of word characters. */
  predicate NameOrEmpty(s: string) {
    s == "" || IsIdentifier(s)
  }

  /** A run of values each step of which keeps `NameOrEmpty` keeps it throughout. */
  lemma {:induction false} NamesThroughout(vs: seq<string>, n: nat)
    requires n < |vs| && vs[0] == ""
    requires forall k :: 0 <= k < |vs| - 1 && NameOrEmpty(vs[k]) ==> NameOrEmpty(vs[k + 1])
    ensures NameOrEmpty(vs[n])
    decreases n
  {
    if n > 0 {
      NamesThroughout(vs, n - 1);
    }
  }

  /** `t` occurs in `s` at offset `p`. */
  predicate StartsAt(s: string, p: int, t: string) {
    0 <= p && p + |t| <= |s| && s[p..p + |t|] == t
  }

  /** `s.includes(t)`. */
  predicate Contains(s: string, t: string) {
    exists p | 0 <= p <= |s| - |t| :: StartsAt(s, p, t)
  }

  /** `s.endsWith(t)`. */
  predicate EndsWith(s: string, t: string) {
    |t| <= |s| && s[|s| - |t|..] == t
  }

  /** A substring of a substring is a substring. */
  lemma ContainsTransitive(s: string, a: string, t: string)
    requires Contains(s, a) && Contains(a, t)
    ensures Contains(s, t)
  {
    var k :| 0 <= k <= |s| - |a| && StartsAt(s, k, a);
    var p :| 0 <= p <= |a| - |t| && StartsAt(a, p, t);
    assert a == s[k..k + |a|];
    forall i | 0 <= i < |t|
      ensures s[k + p + i] == t[i]
    {
      assert t[i] == a[p + i];
    }
    assert s[k + p..k + p + |t|] == t;
    assert StartsAt(s, k + p, t);
  }

  /** A substring draws its characters from the text. */
  lemma ContainsChars(s: string, t: string)
    requires Contains(s, t)
    ensures forall c :: c in t ==> c in s
  {
    var p :| 0 <= p <= |s| - |t| && StartsAt(s, p, t);
    forall c | c in t ensures c in s {
      var k :| 0 <= k < |t| && t[k] == c;
      assert s[p + k] == c;
    }
  }

  /** Every string contains its slices. */
  lemma ContainsSlice(s: string, i: int, j: int)
    requires 0 <= i <= j <= |s|
    ensures Contains(s, s[i..j])
  {
    assert StartsAt(s, i, s[i..j]);
  }

  // ---------------------------------------------------------------- trim

  function TrimStart(s: string): string {
    if |s| > 0 && IsSpace(s[0]) then TrimStart(s[1..]) else s
  }

  function TrimEnd(s: string): string {
    if |s| > 0 && IsSpace(s[|s| - 1]) then TrimEnd(s[..|s| - 1]) else s
  }

  /** `s.trim()`. */
  function Trim(s: string): string {
    TrimEnd(TrimStart(s))
  }

  lemma {:induction false} TrimStartSpec(s: string)
    ensures Contains(s, TrimStart(s))
    ensures |TrimStart(s)| > 0 ==> !IsSpace(TrimStart(s)[0])
    decreases |s|
  {
    if |s| > 0 && IsSpace(s[0]) {
      TrimStartSpec(s[1..]);
      ContainsSlice(s, 1, |s|);
      assert s[1..|s|] == s[1..];
      ContainsTransitive(s, s[1..], TrimStart(s[1..]));
    } else {
      ContainsSlice(s, 0, |s|);
      assert s[0..|s|] == s;
    }
  }

  /** Trimming the end keeps a first character that is not white space. */
  lemma {:induction false} TrimEndSpec(s: string)
    ensures Contains(s, TrimEnd(s))
    ensures |TrimEnd(s)| > 0 ==> !IsSpace(TrimEnd(s)[|TrimEnd(s)| - 1])
    ensures |s| > 0 && !IsSpace(s[0]) ==> |TrimEnd(s)| > 0 && TrimEnd(s)[0] == s[0]
    decreases |s|
  {
    if |s| > 0 && IsSpace(s[|s| - 1]) {
      TrimEndSpec(s[..|s| - 1]);
      ContainsSlice(s, 0, |s| - 1);
      assert s[0..|s| - 1] == s[..|s| - 1];
      ContainsTransitive(s, s[..|s| - 1], TrimEnd(s[..|s| - 1]));
    } else {
      ContainsSlice(s, 0, |s|);
      assert s[0..|s|] == s;
    }
  }

  /** `s.trim()` is a substring of `s` that neither starts nor ends with white space. */
  lemma TrimSpec(s: string)
    ensures Contains(s, Trim(s))
    ensures |Trim(s)| > 0 ==> !IsSpace(Trim(s)[0]) && !IsSpace(Trim(s)[|Trim(s)| - 1])
  {
    var a := TrimStart(s);
    TrimStartSpec(s);
    TrimEndSpec(a);
    ContainsTransitive(s, a, Trim(s));
  }

  // ---------------------------------------------------------------- split / join

  /** The first index of `c` in `s`. */
  function IndexOf(s: string, c: char): (k: nat)
    requires c in s
    ensures k < |s| && s[k] == c && c !in s[..k]
  {
    if s[0] == c then 0 else 1 + IndexOf(s[1..], c)
  }

  /** `s.split(sep)` for a one-character separator. */
  function Split(s: string, sep: char): (r: seq<string>)
    ensures |r| >= 1
    ensures forall i :: 0 <= i < |r| ==> sep !in r[i]
    decreases |s|
  {
    if sep !in s then [s]
    else
      var k := IndexOf(s, sep);
      [s[..k]] + Split(s[k + 1..], sep)
  }

  /** `parts.join(sep)`. */
  function Join(parts: seq<string>, sep: string): string {
    if |parts| == 0 then ""
    else if |parts| == 1 then parts[0]
    else parts[0] + sep + Join(parts[1..], sep)
  }

  /** Splitting and joining back with the separator gives the text back. */
  lemma {:induction false} JoinSplit(s: string, sep: char)
    ensures Join(Split(s, sep), [sep]) == s
    decreases |s|
  {
    if sep in s {
      var k := IndexOf(s, sep);
      var rest := Split(s[k + 1..], sep);
      JoinSplit(s[k + 1..], sep);
      assert Split(s, sep) == [s[..k]] + rest;
      assert Join([s[..k]] + rest, [sep]) == s[..k] + [sep] + Join(rest, [sep]);
      assert s == s[..k] + [sep] + s[k + 1..];
    }
  }

  /** Joining pieces free of the separator and splitting again gives the pieces back. */
  lemma {:induction false} SplitJoin(parts: seq<string>, sep: char)
    requires |parts| >= 1
    requires forall i :: 0 <= i < |parts| ==> sep !in parts[i]
    ensures Split(Join(parts, [sep]), sep) == parts
    decreases |parts|
  {
    if |parts| > 1 {
      var s := Join(parts, [sep]);
      var tail := Join(parts[1..], [sep]);
      assert s == parts[0] + [sep] + tail;
      assert s[|parts[0]|] == sep;
      assert s[..|parts[0]|] == parts[0];
      assert sep in s;
      var k := IndexOf(s, sep);
      if k < |parts[0]| {
        assert false;
      }
      assert k == |parts[0]|;
      assert s[k + 1..] == tail;
      SplitJoin(parts[1..], sep);
    }
  }

  /** Every piece of a split is a substring of the text. */
  lemma {:induction false} SplitPiecesInText(s: string, sep: char, i: int)
    requires 0 <= i < |Split(s, sep)|
    ensures Contains(s, Split(s, sep)[i])
    decreases |s|
  {
    if sep !in s {
      ContainsSlice(s, 0, |s|);
      assert s[0..|s|] == s;
    } else {
      var k := IndexOf(s, sep);
      if i == 0 {
        ContainsSlice(s, 0, k);
      } else {
        SplitPiecesInText(s[k + 1..], sep, i - 1);
        ContainsSlice(s, k + 1, |s|);
        assert s[k + 1..|s|] == s[k + 1..];
        ContainsTransitive(s, s[k + 1..], Split(s[k + 1..], sep)[i - 1]);
      }
    }
  }

  /** A text found in a trimmed line of `content.split('\n')` is found in `content`. */
  lemma FoundInLineIsInContent(content: string, i: int, t: string)
    requires 0 <= i < |Split(content, '\n')|
    requires Contains(Trim(Split(content, '\n')[i]), t)
    ensures Contains(content, t)
  {
    var line := Split(content, '\n')[i];
    SplitPiecesInText(content, '\n', i);
    TrimSpec(line);
    ContainsTransitive(line, Trim(line), t);
    ContainsTransitive(content, line, t);
  }

  // ---------------------------------------------------------------- case

  function LowerChar(c: char): char {
    if 'A' <= c <= 'Z' then (c as int + 32) as char else c
  }

  function UpperChar(c: char): char {
    if 'a' <= c <= 'z' then (c as int - 32) as char else c
  }

  /** `toLowerCase()` on the ASCII letters. */
  function Lower(s: string): (r: string)
    ensures |r| == |s|
  {
    seq(|s|, i requires 0 <= i < |s| => LowerChar(s[i]))
  }

  /** `toUpperCase()` on the ASCII letters. */
  function Upper(s: string): (r: string)
    ensures |r| == |s|
  {
    seq(|s|, i requires 0 <= i < |s| => UpperChar(s[i]))
  }

  /** Texts equal but for case upper-case to the same text. */
  lemma UpperIgnoresCase(x: string, y: string)
    requires Lower(x) == Lower(y)
    ensures Upper(x) == Upper(y)
  {
    assert |x| == |Lower(x)| == |Lower(y)| == |y|;
    forall i | 0 <= i < |x|
      ensures Upper(x)[i] == Upper(y)[i]
    {
      assert Lower(x)[i] == LowerChar(x[i]) && Lower(y)[i] == LowerChar(y[i]);
      assert UpperChar(x[i]) == UpperChar(LowerChar(x[i]));
      assert UpperChar(y[i]) == UpperChar(LowerChar(y[i]));
    }
  }

  /** Lower-casing forgets whatever case the text had. */
  lemma LowerForgetsCase(s: string)
    ensures Lower(Upper(s)) == Lower(s) && Lower(Lower(s)) == Lower(s)
  {
  }

  // ---------------------------------------------------------------- character runs

  /** The classes a greedy run in the extension's regular expressions can range over. */
  datatype CharClass = Space | Word | WordOrDot | NoneOf(chars: set<char>)

  predicate InClass(c: char, cls: CharClass) {
    match cls
    case Space => IsSpace(c)
    case Word => IsWord(c)
    case WordOrDot => IsWord(c) || c == '.'
    case NoneOf(cs) => c !in cs
  }

  /** Where a greedy run of `cls` characters starting at `i` ends. */
  function SpanEnd(s: string, i: nat, cls: CharClass): (e: nat)
    requires i <= |s|
    ensures i <= e <= |s|
    ensures forall k :: i <= k < e ==> InClass(s[k], cls)
    ensures e < |s| ==> !InClass(s[e], cls)
    decreases |s| - i
  {
    if i < |s| && InClass(s[i], cls) then SpanEnd(s, i + 1, cls) else i
  }

  /** `s` with every character of `cs` removed (`replace(/[...]/g, '')`). */
  function Without(s: string, cs: set<char>): (r: string)
    ensures forall i :: 0 <= i < |r| ==> r[i] !in cs
    ensures forall c :: c in r <==> c in s && c !in cs
    ensures (forall i :: 0 <= i < |s| ==> s[i] !in cs) ==> r == s
    ensures |r| <= |s|
  {
    if |s| == 0 then ""
    else if s[0] in cs then Without(s[1..], cs)
    else [s[0]] + Without(s[1..], cs)
  }

  /** Removing characters works piece by piece: the kept characters stay,
      in their order. */
  lemma {:induction false} WithoutConcat(a: string, b: string, cs: set<char>)
    ensures Without(a + b, cs) == Without(a, cs) + Without(b, cs)
    decreases |a|
  {
    if |a| == 0 {
      assert a + b == b;
    } else {
      assert (a + b)[0] == a[0] && (a + b)[1..] == a[1..] + b;
      WithoutConcat(a[1..], b, cs);
      if a[0] !in cs {
        assert [a[0]] + (Without(a[1..], cs) + Without(b, cs)) == ([a[0]] + Without(a[1..], cs)) + Without(b, cs);
      }
    }
  }
}
