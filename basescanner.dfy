/** What `BaseScanner` gives every scanner: the exclude filter over the files
    the workspace search found, and the size check over a file's content. */
module Base {
  import opened Optional
  import opened Strings

  /** A path is excluded when it contains any of the exclude patterns. */
  predicate Excluded(path: string, excludePatterns: seq<string>) {
    exists k :: 0 <= k < |excludePatterns| && Contains(path, excludePatterns[k])
  }

  /** `getFilesToScan`: the found files that no exclude pattern occurs in. */
  function FilesToScan(found: seq<string>, excludePatterns: seq<string>): seq<string> {
    if |found| == 0 then []
    else
      var last := found[|found| - 1];
      FilesToScan(found[..|found| - 1], excludePatterns) + if Excluded(last, excludePatterns) then [] else [last]
  }

  /** A file is kept exactly when it was found and is not excluded. */
  lemma {:induction false} FilesToScanMember(found: seq<string>, excludePatterns: seq<string>, f: string)
    ensures f in FilesToScan(found, excludePatterns) <==> f in found && !Excluded(f, excludePatterns)
    decreases |found|
  {
    if |found| > 0 {
      var init := found[..|found| - 1];
      FilesToScanMember(init, excludePatterns, f);
      assert found == init + [found[|found| - 1]];
    }
  }

  /** Filtering a concatenation filters each part in turn. */
  lemma {:induction false} FilesToScanConcat(a: seq<string>, b: seq<string>, excludePatterns: seq<string>)
    ensures FilesToScan(a + b, excludePatterns) == FilesToScan(a, excludePatterns) + FilesToScan(b, excludePatterns)
    decreases |b|
  {
    if |b| == 0 {
      assert a + b == a;
    } else {
      var b' := b[..|b| - 1];
      FilesToScanConcat(a, b', excludePatterns);
      assert (a + b)[..|a + b| - 1] == a + b';
    }
  }

  /** The kept files are the found files at strictly increasing positions:
      an order-preserving sublist. */
  lemma {:induction false} FilesToScanSublist(found: seq<string>, excludePatterns: seq<string>) returns (positions: seq<nat>)
    ensures |positions| == |FilesToScan(found, excludePatterns)|
    ensures forall k :: 0 <= k < |positions| ==>
      positions[k] < |found| && found[positions[k]] == FilesToScan(found, excludePatterns)[k]
    ensures forall k, l :: 0 <= k < l < |positions| ==> positions[k] < positions[l]
    decreases |found|
  {
    if |found| == 0 {
      positions := [];
    } else {
      var init := found[..|found| - 1];
      var last := found[|found| - 1];
      positions := FilesToScanSublist(init, excludePatterns);
      if !Excluded(last, excludePatterns) {
        positions := positions + [|found| - 1];
      }
    }
  }

  /** Nothing is kept when every found file is excluded. */
  lemma {:induction false} AllExcluded(found: seq<string>, excludePatterns: seq<string>)
    requires forall f :: f in found ==> Excluded(f, excludePatterns)
    ensures FilesToScan(found, excludePatterns) == []
    decreases |found|
  {
    if |found| > 0 {
      AllExcluded(found[..|found| - 1], excludePatterns);
      assert found[|found| - 1] in found;
    }
  }

  /** An empty exclude pattern occurs in every path and so excludes everything. */
  lemma EmptyPatternExcludesAll(found: seq<string>, excludePatterns: seq<string>)
    requires "" in excludePatterns
    ensures FilesToScan(found, excludePatterns) == []
  {
    var k :| 0 <= k < |excludePatterns| && excludePatterns[k] == "";
    forall f | f in found ensures Excluded(f, excludePatterns) {
      assert StartsAt(f, 0, excludePatterns[k]);
    }
    AllExcluded(found, excludePatterns);
  }

  /** `content.length`: JavaScript counts UTF-16 code units, two for a
      character beyond the Basic Multilingual Plane. */
  function Utf16Length(s: string): nat {
    if |s| == 0 then 0 else Utf16Length(s[..|s| - 1]) + if s[|s| - 1] as int > 0xFFFF then 2 else 1
  }

  /** A text has between one and two code units per character, and exactly
      one when no character lies beyond the Basic Multilingual Plane. */
  lemma {:induction false} Utf16LengthBounds(s: string)
    ensures |s| <= Utf16Length(s) <= 2 * |s|
    ensures (forall k :: 0 <= k < |s| ==> s[k] as int <= 0xFFFF) ==> Utf16Length(s) == |s|
    decreases |s|
  {
    if |s| > 0 {
      Utf16LengthBounds(s[..|s| - 1]);
    }
  }

  /** `validateFileSize`: no limit when the limit is unset or zero, and
      otherwise the content's length against the limit. */
  function ValidateFileSize(maxFileSizeBytes: Option<int>, content: string): bool {
    match maxFileSizeBytes
    case None => true
    case Some(limit) => limit == 0 || Utf16Length(content) <= limit
  }

  /** Under a non-zero limit a file passes when even two code units per
      character fit, and fails when one per character does not. */
  lemma SizeCheckBounds(limit: int, content: string)
    requires limit != 0
    ensures 2 * |content| <= limit ==> ValidateFileSize(Some(limit), content)
    ensures |content| > limit ==> !ValidateFileSize(Some(limit), content)
  {
    Utf16LengthBounds(content);
  }
}
