/** Every scanner yields, for each line of a file, the endpoints that line
    adds, and the file's endpoints are those lists one after the other. */
module Sequences {

  /** The lists of `xss`, concatenated in order. */
  function Flatten<T>(xss: seq<seq<T>>): seq<T> {
    if |xss| == 0 then [] else Flatten(xss[..|xss| - 1]) + xss[|xss| - 1]
  }

  /** Concatenation regroups freely. */
  lemma AppendRegroup<T>(a: seq<T>, b: seq<T>, c: seq<T>)
    ensures a + (b + c) == (a + b) + c
  {
  }

  /** One more list puts its elements at the end: the shape of a loop that
      appends each line's endpoints. */
  lemma FlattenStep<T>(xss: seq<seq<T>>, i: nat)
    requires i < |xss|
    ensures Flatten(xss[..i + 1]) == Flatten(xss[..i]) + xss[i]
  {
    assert xss[..i + 1][..i] == xss[..i];
  }

  /** An element of the concatenation is an element of one of the lists, and
      every element of every list is in the concatenation. */
  lemma {:induction false} FlattenMember<T>(xss: seq<seq<T>>, e: T)
    ensures e in Flatten(xss) <==> exists i :: 0 <= i < |xss| && e in xss[i]
    decreases |xss|
  {
    if |xss| > 0 {
      var init := xss[..|xss| - 1];
      FlattenMember(init, e);
      if e in Flatten(xss) && e !in xss[|xss| - 1] {
        var i :| 0 <= i < |init| && e in init[i];
        assert e in xss[i];
      }
      if exists i :: 0 <= i < |xss| && e in xss[i] {
        var i :| 0 <= i < |xss| && e in xss[i];
        if i < |xss| - 1 {
          assert e in init[i];
        }
      }
    }
  }

  /** The concatenation of a prefix is a prefix of the concatenation. */
  lemma {:induction false} FlattenPrefix<T>(xss: seq<seq<T>>, n: nat)
    requires n <= |xss|
    ensures Flatten(xss[..n]) <= Flatten(xss)
    decreases |xss| - n
  {
    if n < |xss| {
      FlattenPrefix(xss, n + 1);
      FlattenStep(xss, n);
    } else {
      assert xss[..n] == xss;
    }
  }

  /** The total length is the sum of the lengths, and in particular no more
      than `bound` times the number of lists when no list is longer than `bound`. */
  lemma {:induction false} FlattenLength<T>(xss: seq<seq<T>>, bound: nat)
    requires forall i :: 0 <= i < |xss| ==> |xss[i]| <= bound
    ensures |Flatten(xss)| <= bound * |xss|
    decreases |xss|
  {
    if |xss| > 0 {
      FlattenLength(xss[..|xss| - 1], bound);
    }
  }

  /** Keys that number the lists from `first` on come out in ascending order,
      each between `first` and `first + |xss| - 1`. */
  lemma {:induction false} FlattenNumbered<T>(xss: seq<seq<T>>, key: T -> int, first: int)
    requires forall i, e :: 0 <= i < |xss| && e in xss[i] ==> key(e) == first + i
    ensures forall a :: 0 <= a < |Flatten(xss)| ==> first <= key(Flatten(xss)[a]) < first + |xss|
    ensures forall a, b :: 0 <= a < b < |Flatten(xss)| ==> key(Flatten(xss)[a]) <= key(Flatten(xss)[b])
    decreases |xss|
  {
    if |xss| > 0 {
      var init := xss[..|xss| - 1];
      var last := xss[|xss| - 1];
      forall i, e | 0 <= i < |init| && e in init[i] ensures key(e) == first + i {
        assert init[i] == xss[i];
      }
      FlattenNumbered(init, key, first);
      var prev := Flatten(init);
      var r := Flatten(xss);
      assert r == prev + last;
      forall a | 0 <= a < |r|
        ensures first <= key(r[a]) < first + |xss|
        ensures a >= |prev| ==> key(r[a]) == first + |xss| - 1
      {
        if a < |prev| {
          assert r[a] == prev[a];
        } else {
          assert r[a] == last[a - |prev|] && r[a] in xss[|xss| - 1];
        }
      }
      forall a, b | 0 <= a < b < |r| ensures key(r[a]) <= key(r[b]) {
        if b < |prev| {
          assert r[a] == prev[a] && r[b] == prev[b];
        }
      }
    }
  }

  /** When no list holds more than one element, numbered keys come out in
      strictly ascending order. */
  lemma {:induction false} FlattenSingles<T>(xss: seq<seq<T>>, key: T -> int, first: int)
    requires forall i :: 0 <= i < |xss| ==> |xss[i]| <= 1
    requires forall i, e :: 0 <= i < |xss| && e in xss[i] ==> key(e) == first + i
    ensures forall a, b :: 0 <= a < b < |Flatten(xss)| ==> key(Flatten(xss)[a]) < key(Flatten(xss)[b])
    decreases |xss|
  {
    if |xss| > 0 {
      var init := xss[..|xss| - 1];
      var last := xss[|xss| - 1];
      forall i, e | 0 <= i < |init| && e in init[i] ensures key(e) == first + i {
        assert init[i] == xss[i];
      }
      forall i | 0 <= i < |init| ensures |init[i]| <= 1 {
        assert init[i] == xss[i];
      }
      FlattenSingles(init, key, first);
      FlattenNumbered(init, key, first);
      var prev := Flatten(init);
      var r := Flatten(xss);
      assert r == prev + last;
      forall a, b | 0 <= a < b < |r| ensures key(r[a]) < key(r[b]) {
        if b < |prev| {
          assert r[a] == prev[a] && r[b] == prev[b];
        } else {
          assert r[a] == prev[a];
          assert r[b] == last[b - |prev|] && r[b] in xss[|xss| - 1];
        }
      }
    }
  }

  // ---------------------------------------------------------------- a latch over lines

  /** Entry `j` opened a chain that entries `j + 1 .. n - 1` all carried on:
      none of them opens one of its own and each carries. */
  predicate Chain(opens: seq<bool>, carries: seq<bool>, j: int, n: nat)
    requires |opens| == |carries| && n <= |opens|
  {
    0 <= j < n && opens[j] && forall q :: j < q < n ==> !opens[q] && carries[q]
  }

  /** A run of values `vs` that takes `ls[k]` where an entry opens, keeps a
      value other than `none` where it carries on, and is `none` otherwise. */
  predicate Latched<T(==)>(opens: seq<bool>, carries: seq<bool>, ls: seq<T>, vs: seq<T>, none: T)
  {
    && |opens| == |carries| == |ls| && |vs| == |ls| + 1 && vs[0] == none
    && forall k :: 0 <= k < |ls| ==>
         vs[k + 1] == if opens[k] then ls[k] else if vs[k] != none && carries[k] then vs[k] else none
  }

  /** A value other than `none` was taken where the chain leading up to `n` opened. */
  lemma {:induction false} LatchedOpened<T>(opens: seq<bool>, carries: seq<bool>, ls: seq<T>, vs: seq<T>, none: T, n: nat)
    requires Latched(opens, carries, ls, vs, none) && n <= |ls|
    ensures vs[n] != none ==> exists j :: Chain(opens, carries, j, n) && vs[n] == ls[j]
    decreases n
  {
    if n > 0 {
      if opens[n - 1] {
        assert Chain(opens, carries, n - 1, n);
      } else if vs[n - 1] != none && carries[n - 1] {
        LatchedOpened(opens, carries, ls, vs, none, n - 1);
        var j :| Chain(opens, carries, j, n - 1) && vs[n - 1] == ls[j];
        assert Chain(opens, carries, j, n);
      }
    }
  }

  /** Where a chain leads up to `n` and opening never takes `none`, the value
      is what its opening entry took. */
  lemma {:induction false} LatchedLatest<T>(opens: seq<bool>, carries: seq<bool>, ls: seq<T>, vs: seq<T>, none: T, n: nat)
    requires Latched(opens, carries, ls, vs, none) && n <= |ls|
    requires forall k :: 0 <= k < |ls| && opens[k] ==> ls[k] != none
    ensures forall j :: Chain(opens, carries, j, n) ==> vs[n] == ls[j]
    decreases n
  {
    if n > 0 {
      LatchedLatest(opens, carries, ls, vs, none, n - 1);
      forall j | Chain(opens, carries, j, n) && j < n - 1 ensures Chain(opens, carries, j, n - 1) {
      }
    }
  }

  /** An entry that carries on without opening extends the chain. */
  lemma ChainExtend(opens: seq<bool>, carries: seq<bool>, j: int, n: nat)
    requires |opens| == |carries| && n < |opens| && Chain(opens, carries, j, n)
    requires !opens[n] && carries[n]
    ensures Chain(opens, carries, j, n + 1)
  {
  }
}
