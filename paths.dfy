/** `combinePath(...parts)`, which the provider and four scanners each carry an
    identical copy of: drop the parts that are empty or exactly `/`, strip the
    leading and trailing slashes of the others (`replace(/^\/+|\/+$/g, '')`) and
    join them with `/` behind a leading `/`. */
module Paths {
  import opened Strings

  /** `parts.filter(...)` keeps a part unless it is `/` or empty. */
  predicate Kept(part: string) {
    part != "/" && part != ""
  }

  function KeptParts(parts: seq<string>): seq<string> {
    if |parts| == 0 then []
    else if Kept(parts[0]) then [parts[0]] + KeptParts(parts[1..])
    else KeptParts(parts[1..])
  }

  /** The filter keeps exactly the kept parts, and no more of them than there were parts. */
  lemma {:induction false} KeptPartsSpec(parts: seq<string>)
    ensures |KeptParts(parts)| <= |parts|
    ensures forall i :: 0 <= i < |KeptParts(parts)| ==> Kept(KeptParts(parts)[i])
    ensures forall x :: x in KeptParts(parts) <==> x in parts && Kept(x)
    decreases |parts|
  {
    if |parts| > 0 {
      KeptPartsSpec(parts[1..]);
      assert forall x :: x in parts <==> x == parts[0] || x in parts[1..];
    }
  }

  predicate AllSlashes(s: string) {
    forall i | 0 <= i < |s| :: s[i] == '/'
  }

  /** The global replace removes `^\/+` at offset 0 and then the one `\/+$` run
      still left: the leading run, then the trailing run of what remains. */
  function DropLeading(s: string): (r: string)
    ensures |r| <= |s| && r == s[|s| - |r|..]
    ensures AllSlashes(s[..|s| - |r|])
    ensures |r| > 0 ==> r[0] != '/'
  {
    if |s| > 0 && s[0] == '/' then DropLeading(s[1..]) else s
  }

  function DropTrailing(s: string): (r: string)
    ensures |r| <= |s| && r == s[..|r|]
    ensures AllSlashes(s[|r|..])
    ensures |r| > 0 ==> r[|r| - 1] != '/'
  {
    if |s| > 0 && s[|s| - 1] == '/' then DropTrailing(s[..|s| - 1]) else s
  }

  /** One kept part after `part.replace(/^\/+|\/+$/g, '')`: empty exactly when
      the part is nothing but slashes, otherwise neither starting nor ending with one. */
  function StripSlashes(part: string): (r: string)
    ensures |r| > 0 ==> r[0] != '/' && r[|r| - 1] != '/'
    ensures (|r| == 0) <==> AllSlashes(part)
  {
    var a := DropLeading(part);
    StripKeepsNonSlash(part);
    DropTrailing(a)
  }

  lemma StripKeepsNonSlash(part: string)
    ensures var a := DropLeading(part); var r := DropTrailing(a);
      (|r| > 0 ==> r[0] == a[0]) && (|r| == 0 <==> AllSlashes(part))
  {
    DropLeadingEmpty(part);
    DropTrailingKeepsFirst(DropLeading(part));
  }

  lemma {:induction false} DropLeadingEmpty(s: string)
    ensures DropLeading(s) == "" <==> AllSlashes(s)
  {
    if |s| > 0 && s[0] == '/' {
      DropLeadingEmpty(s[1..]);
      assert AllSlashes(s) <==> AllSlashes(s[1..]) by {
        if AllSlashes(s[1..]) {
          forall i | 0 <= i < |s| ensures s[i] == '/' {
            if i > 0 { assert s[i] == s[1..][i - 1]; }
          }
        }
      }
    }
  }

  lemma {:induction false} DropTrailingKeepsFirst(s: string)
    requires |s| > 0 ==> s[0] != '/'
    ensures |s| > 0 ==> |DropTrailing(s)| > 0
    ensures |DropTrailing(s)| > 0 ==> DropTrailing(s)[0] == s[0]
  {
    if |s| > 0 && s[|s| - 1] == '/' {
      DropTrailingKeepsFirst(s[..|s| - 1]);
    }
  }

  function Strip(parts: seq<string>): (r: seq<string>)
    ensures |r| == |parts|
    ensures forall i :: 0 <= i < |r| ==> r[i] == StripSlashes(parts[i])
  {
    seq(|parts|, i requires 0 <= i < |parts| => StripSlashes(parts[i]))
  }

  /** The cleaned parts that are joined. */
  function CleanParts(parts: seq<string>): seq<string> {
    Strip(KeptParts(parts))
  }

  function CombinePath(parts: seq<string>): (r: string)
    ensures |r| >= 1 && r[0] == '/'
  {
    "/" + Join(CleanParts(parts), "/")
  }

  // ---------------------------------------------------------------- properties

  lemma {:induction false} KeptPartsConcat(a: seq<string>, b: seq<string>)
    ensures KeptParts(a + b) == KeptParts(a) + KeptParts(b)
    decreases |a|
  {
    if |a| > 0 {
      assert (a + b)[1..] == a[1..] + b;
      KeptPartsConcat(a[1..], b);
    } else {
      assert a + b == b;
    }
  }

  /** An empty or `/` part can be dropped from anywhere without changing the result. */
  lemma DropsUnkeptPart(a: seq<string>, part: string, b: seq<string>)
    requires !Kept(part)
    ensures CombinePath(a + [part] + b) == CombinePath(a + b)
  {
    KeptPartsConcat(a + [part], b);
    KeptPartsConcat(a, [part]);
    KeptPartsConcat(a, b);
    assert KeptParts([part]) == [];
    assert KeptParts(a + [part] + b) == KeptParts(a + b);
    assert CleanParts(a + [part] + b) == CleanParts(a + b);
  }

  /** The result is exactly `/` when nothing survives the filter, or the one
      survivor is made of slashes only. */
  lemma RootExactly(parts: seq<string>)
    ensures CombinePath(parts) == "/" <==>
      |KeptParts(parts)| == 0 || (|KeptParts(parts)| == 1 && AllSlashes(KeptParts(parts)[0]))
  {
    var clean := CleanParts(parts);
    if |clean| >= 2 {
      assert Join(clean, "/") == clean[0] + "/" + Join(clean[1..], "/");
      assert |CombinePath(parts)| >= 2;
    }
  }

  /** In particular, parts that are all `/` or empty give `/`. */
  lemma EmptyPartsGiveRoot(parts: seq<string>)
    requires forall i :: 0 <= i < |parts| ==> parts[i] == "/" || parts[i] == ""
    ensures CombinePath(parts) == "/"
  {
    KeptPartsSpec(parts);
    RootExactly(parts);
  }

  /** No two slashes in a row. */
  predicate NoDoubleSlash(s: string) {
    forall i | 0 <= i < |s| - 1 :: !(s[i] == '/' && s[i + 1] == '/')
  }

  /** A part that strips to a segment: it holds something besides slashes. */
  predicate Segment(s: string) {
    |s| > 0 && s[0] != '/' && s[|s| - 1] != '/'
  }

  lemma JoinTwo(a: string, b: string)
    requires Segment(a) && Segment(b)
    ensures Segment(a + "/" + b)
    ensures NoDoubleSlash(a) && NoDoubleSlash(b) ==> NoDoubleSlash(a + "/" + b)
  {
    var s := a + "/" + b;
    if NoDoubleSlash(a) && NoDoubleSlash(b) {
      forall i | 0 <= i < |s| - 1 ensures !(s[i] == '/' && s[i + 1] == '/') {
        if i + 1 < |a| {
          assert s[i] == a[i] && s[i + 1] == a[i + 1];
        } else if i > |a| {
          assert s[i] == b[i - |a| - 1] && s[i + 1] == b[i - |a|];
        }
      }
    }
  }

  /** Joining segments gives a segment, free of `//` when the segments are. */
  lemma {:induction false} JoinSegments(ps: seq<string>)
    requires |ps| > 0
    requires forall i :: 0 <= i < |ps| ==> Segment(ps[i])
    ensures Segment(Join(ps, "/"))
    ensures (forall i :: 0 <= i < |ps| ==> NoDoubleSlash(ps[i])) ==> NoDoubleSlash(Join(ps, "/"))
    decreases |ps|
  {
    if |ps| > 1 {
      JoinSegments(ps[1..]);
      JoinTwo(ps[0], Join(ps[1..], "/"));
    }
  }

  lemma NoDoubleSlashSlice(s: string, i: int, j: int)
    requires 0 <= i <= j <= |s| && NoDoubleSlash(s)
    ensures NoDoubleSlash(s[i..j])
  {
    var t := s[i..j];
    forall k | 0 <= k < |t| - 1 ensures !(t[k] == '/' && t[k + 1] == '/') {
      assert t[k] == s[i + k] && t[k + 1] == s[i + k + 1];
    }
  }

  /** Stripping a part free of `//` leaves it free of `//`. */
  lemma StripKeepsNoDoubleSlash(part: string)
    requires NoDoubleSlash(part)
    ensures NoDoubleSlash(StripSlashes(part))
  {
    var a := DropLeading(part);
    NoDoubleSlashSlice(part, |part| - |a|, |part|);
    NoDoubleSlashSlice(a, 0, |DropTrailing(a)|);
  }

  /** The parts hold something besides slashes wherever they survive the filter. */
  predicate Substantial(parts: seq<string>) {
    forall i :: 0 <= i < |parts| ==> Kept(parts[i]) ==> !AllSlashes(parts[i])
  }

  lemma CleanPartsAreSegments(parts: seq<string>)
    requires Substantial(parts)
    ensures forall i :: 0 <= i < |CleanParts(parts)| ==> Segment(CleanParts(parts)[i])
  {
    var kept := KeptParts(parts);
    KeptPartsSpec(parts);
    forall i | 0 <= i < |kept| ensures Segment(StripSlashes(kept[i])) {
      assert kept[i] in parts;
    }
  }

  /** When every surviving part holds something besides slashes and no `//`,
      the result has no `//` and ends in a slash only when it is `/`. */
  lemma WellFormedResult(parts: seq<string>)
    requires forall i :: 0 <= i < |parts| ==> Kept(parts[i]) ==> !AllSlashes(parts[i]) && NoDoubleSlash(parts[i])
    ensures var r := CombinePath(parts);
      NoDoubleSlash(r) && (r != "/" ==> r[|r| - 1] != '/')
  {
    var kept := KeptParts(parts);
    var clean := CleanParts(parts);
    KeptPartsSpec(parts);
    CleanPartsAreSegments(parts);
    if |clean| > 0 {
      forall i | 0 <= i < |clean| ensures NoDoubleSlash(clean[i]) {
        assert kept[i] in parts;
        StripKeepsNoDoubleSlash(kept[i]);
      }
      JoinSegments(clean);
      LeadingSlashOnSegment(Join(clean, "/"));
    }
  }

  /** A leading `/` before a segment without `//` makes no `//`. */
  lemma LeadingSlashOnSegment(j: string)
    requires Segment(j) && NoDoubleSlash(j)
    ensures NoDoubleSlash("/" + j) && ("/" + j)[|"/" + j| - 1] != '/'
  {
    var r := "/" + j;
    forall i | 0 <= i < |r| - 1 ensures !(r[i] == '/' && r[i + 1] == '/') {
      if i > 0 {
        assert r[i] == j[i - 1] && r[i + 1] == j[i];
      }
    }
  }

  /** Parts that survive as segments make the joiner idempotent. */
  lemma Idempotent(parts: seq<string>)
    requires Substantial(parts)
    ensures CombinePath([CombinePath(parts)]) == CombinePath(parts)
  {
    var clean := CleanParts(parts);
    var r := CombinePath(parts);
    if |clean| == 0 {
      assert !Kept(r);
    } else {
      CleanPartsAreSegments(parts);
      JoinSegments(clean);
      var j := Join(clean, "/");
      assert Kept(r);
      assert KeptParts([r]) == [r];
      assert r[1..] == j;
      assert DropLeading(r) == j;
      assert StripSlashes(r) == j;
    }
  }

  /** With segments free of inner slashes, splitting the result after its
      leading `/` gives back the cleaned parts. */
  lemma SegmentsOfResult(parts: seq<string>)
    requires |KeptParts(parts)| > 0
    requires forall i :: 0 <= i < |CleanParts(parts)| ==> '/' !in CleanParts(parts)[i]
    ensures Split(CombinePath(parts)[1..], '/') == CleanParts(parts)
  {
    SplitJoin(CleanParts(parts), '/');
    assert CombinePath(parts)[1..] == Join(CleanParts(parts), "/");
  }

  lemma StripsToNothing()
    ensures StripSlashes("//") == ""
  {
    var slashes := "//";
    assert slashes[1..] == "/" && "/"[1..] == "";
  }

  /** A part made of two or more slashes survives the filter and strips to
      nothing, so it leaves a `//` behind a leading part ... */
  lemma SlashRunLeading()
    ensures CombinePath(["//", "a"]) == "//a"
  {
    StripsToNothing();
    assert StripSlashes("a") == "a";
    KeptPartsConcat(["//"], ["a"]);
    assert CleanParts(["//", "a"]) == ["", "a"];
  }

  /** ... and a trailing slash behind a final one. */
  lemma SlashRunTrailing()
    ensures CombinePath(["a", "//"]) == "/a/"
  {
    StripsToNothing();
    assert StripSlashes("a") == "a";
    KeptPartsConcat(["a"], ["//"]);
    assert CleanParts(["a", "//"]) == ["a", ""];
  }

  /** A path literal joined to itself: `combinePath('', '/x', '/x')` is
      `/x/x`. */
  lemma DoubledPath()
    ensures CombinePath(["", "/x", "/x"]) == "/x/x"
  {
    assert StripSlashes("/x") == "x";
    KeptPartsConcat(["/x"], ["/x"]);
    KeptPartsConcat([""], ["/x", "/x"]);
    assert CleanParts(["", "/x", "/x"]) == ["x", "x"];
    assert Join(["x", "x"], "/") == "x/x";
  }
}
