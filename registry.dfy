/** `ScannerRegistry`: a `Map` from project type to scanner, kept in the order
    types were first registered. `Table` is a snapshot of the map, and
    `ScannerRegistry` the mutable map itself, proved to follow `Register`. */
module Registry {
  import opened Optional
  import opened Types

  /** The registered types in first-registration order, and their scanners. */
  datatype Table<S> = Table(types: seq<ProjectType>, scanners: map<ProjectType, S>)

  /** Each type once, and exactly the types of the map. */
  predicate WellFormed<S>(t: Table<S>) {
    && (forall i, j :: 0 <= i < j < |t.types| ==> t.types[i] != t.types[j])
    && (forall p :: p in t.scanners ==> p in t.types)
    && (forall i :: 0 <= i < |t.types| ==> t.types[i] in t.scanners)
  }

  /** `registerScanner`: `Map.set`, which keeps a present key in its place. */
  function Register<S>(t: Table<S>, p: ProjectType, s: S): (r: Table<S>)
    requires WellFormed(t)
    ensures WellFormed(r)
  {
    if p in t.scanners then Table(t.types, t.scanners[p := s]) else Table(t.types + [p], t.scanners[p := s])
  }

  /** `getScanner`: `undefined` is `None`. */
  function Lookup<S>(t: Table<S>, p: ProjectType): Option<S> {
    if p in t.scanners then Some(t.scanners[p]) else None
  }

  /** A run of registrations, from the empty map. */
  function RegisterAll<S>(regs: seq<(ProjectType, S)>): (r: Table<S>)
    ensures WellFormed(r)
  {
    if |regs| == 0 then Table([], map[])
    else Register(RegisterAll(regs[..|regs| - 1]), regs[|regs| - 1].0, regs[|regs| - 1].1)
  }

  // ---------------------------------------------------------------- the map itself

  class ScannerRegistry<S> {
    var types: seq<ProjectType>
    var scanners: map<ProjectType, S>

    function Snap(): Table<S>
      reads this
    {
      Table(types, scanners)
    }

    ghost predicate Valid()
      reads this
    {
      WellFormed(Snap())
    }

    constructor ()
      ensures Valid() && Snap() == Table([], map[])
    {
      types := [];
      scanners := map[];
    }

    /** `registerScanner`. */
    method RegisterScanner(p: ProjectType, s: S)
      requires Valid()
      modifies this
      ensures Valid() && Snap() == Register(old(Snap()), p, s)
    {
      if p !in scanners {
        types := types + [p];
      }
      scanners := scanners[p := s];
    }

    /** `getScanner`. */
    function GetScanner(p: ProjectType): (r: Option<S>)
      reads this
      ensures r.Some? <==> p in scanners
      ensures r.Some? ==> r.value == scanners[p]
    {
      if p in scanners then Some(scanners[p]) else None
    }

    /** `getSupportedTypes`. */
    function GetSupportedTypes(): (r: seq<ProjectType>)
      reads this
      ensures Valid() ==> forall p :: p in r <==> GetScanner(p).Some?
    {
      types
    }
  }

  // ---------------------------------------------------------------- properties

  /** After registering `s` for `p`, `p` looks up `s`, whatever was there
      before; every other type looks up what it did. */
  lemma LookupAfterRegister<S>(t: Table<S>, p: ProjectType, s: S, q: ProjectType)
    requires WellFormed(t)
    ensures Lookup(Register(t, p, s), p) == Some(s)
    ensures q != p ==> Lookup(Register(t, p, s), q) == Lookup(t, q)
  {
  }

  /** A type no registration names looks up nothing. */
  lemma {:induction false} NeverRegistered<S>(regs: seq<(ProjectType, S)>, p: ProjectType)
    requires forall k :: 0 <= k < |regs| ==> regs[k].0 != p
    ensures Lookup(RegisterAll(regs), p).None?
    decreases |regs|
  {
    if |regs| > 0 {
      NeverRegistered(regs[..|regs| - 1], p);
    }
  }

  /** A type looks up the scanner of its last registration. */
  lemma {:induction false} LastRegistrationWins<S>(regs: seq<(ProjectType, S)>, k: nat)
    requires k < |regs|
    requires forall l :: k < l < |regs| ==> regs[l].0 != regs[k].0
    ensures Lookup(RegisterAll(regs), regs[k].0) == Some(regs[k].1)
    decreases |regs|
  {
    if k < |regs| - 1 {
      LastRegistrationWins(regs[..|regs| - 1], k);
    }
  }

  /** The position of the first registration of `p` among `regs`. */
  function FirstIndex<S>(regs: seq<(ProjectType, S)>, p: ProjectType): (r: nat)
    ensures r <= |regs|
    ensures r < |regs| ==> regs[r].0 == p
    ensures forall k :: 0 <= k < r ==> regs[k].0 != p
  {
    if |regs| == 0 then 0
    else if regs[0].0 == p then 0
    else 1 + FirstIndex(regs[1..], p)
  }

  /** `getSupportedTypes` lists exactly the registered types. */
  lemma SupportedTypesExactly<S>(regs: seq<(ProjectType, S)>, p: ProjectType)
    ensures p in RegisterAll(regs).types <==> exists k :: 0 <= k < |regs| && regs[k].0 == p
  {
    SupportedTypesFirstSeen(regs);
    FirstSeenMember(regs, p);
    if exists k :: 0 <= k < |regs| && regs[k].0 == p {
      var k :| 0 <= k < |regs| && regs[k].0 == p;
      assert FirstIndex(regs, p) <= k;
    }
  }

  /** The registered types of a run, each once, in the order of their first
      registrations: a reference definition over lists, with no map. */
  function FirstSeen<S>(regs: seq<(ProjectType, S)>): seq<ProjectType> {
    if |regs| == 0 then []
    else
      var prev := FirstSeen(regs[..|regs| - 1]);
      if regs[|regs| - 1].0 in prev then prev else prev + [regs[|regs| - 1].0]
  }

  /** `getSupportedTypes` after a run of registrations is the run's types in
      first-seen order. */
  lemma {:induction false} SupportedTypesFirstSeen<S>(regs: seq<(ProjectType, S)>)
    ensures RegisterAll(regs).types == FirstSeen(regs)
    decreases |regs|
  {
    if |regs| > 0 {
      var init := regs[..|regs| - 1];
      SupportedTypesFirstSeen(init);
      var t := RegisterAll(init);
      assert regs[|regs| - 1].0 in t.scanners <==> regs[|regs| - 1].0 in t.types;
    }
  }

  /** `getSupportedTypes` lists each type once, in the order of the types'
      first registrations. */
  lemma SupportedTypesInOrder<S>(regs: seq<(ProjectType, S)>)
    ensures var ts := RegisterAll(regs).types;
      forall i, j :: 0 <= i < j < |ts| ==> FirstIndex(regs, ts[i]) < FirstIndex(regs, ts[j])
  {
    SupportedTypesFirstSeen(regs);
    FirstSeenInOrder(regs);
  }

  /** A type is first seen in a run exactly when the run registers it. */
  lemma {:induction false} FirstSeenMember<S>(regs: seq<(ProjectType, S)>, p: ProjectType)
    ensures p in FirstSeen(regs) <==> FirstIndex(regs, p) < |regs|
    decreases |regs|
  {
    if |regs| > 0 {
      var init := regs[..|regs| - 1];
      FirstSeenMember(init, p);
      FirstIndexPrefix(regs, p);
      if FirstIndex(init, p) == |init| && regs[|init|].0 == p {
        assert FirstIndex(regs, p) <= |init|;
      }
    }
  }

  lemma {:induction false} FirstSeenInOrder<S>(regs: seq<(ProjectType, S)>)
    ensures var ts := FirstSeen(regs);
      forall i, j :: 0 <= i < j < |ts| ==> FirstIndex(regs, ts[i]) < FirstIndex(regs, ts[j])
    decreases |regs|
  {
    if |regs| > 0 {
      var init := regs[..|regs| - 1];
      var last := regs[|regs| - 1].0;
      FirstSeenInOrder(init);
      var before := FirstSeen(init);
      var ts := FirstSeen(regs);
      forall i | 0 <= i < |before|
        ensures FirstIndex(regs, before[i]) == FirstIndex(init, before[i]) < |init|
      {
        FirstSeenMember(init, before[i]);
        FirstIndexPrefix(regs, before[i]);
      }
      if last !in before {
        FirstSeenMember(init, last);
        FirstIndexPrefix(regs, last);
        assert ts == before + [last];
        forall i, j | 0 <= i < j < |ts|
          ensures FirstIndex(regs, ts[i]) < FirstIndex(regs, ts[j])
        {
          assert ts[i] == before[i];
          if j < |before| {
            assert ts[j] == before[j];
            assert FirstIndex(init, before[i]) < FirstIndex(init, before[j]);
          }
        }
      } else {
        forall i, j | 0 <= i < j < |ts|
          ensures FirstIndex(regs, ts[i]) < FirstIndex(regs, ts[j])
        {
          assert FirstIndex(init, before[i]) < FirstIndex(init, before[j]);
        }
      }
    }
  }

  /** The first registration of a type within a prefix is its first overall. */
  lemma {:induction false} FirstIndexPrefix<S>(regs: seq<(ProjectType, S)>, p: ProjectType)
    requires |regs| > 0
    ensures var init := regs[..|regs| - 1];
      FirstIndex(init, p) < |init| ==> FirstIndex(regs, p) == FirstIndex(init, p)
    ensures var init := regs[..|regs| - 1];
      FirstIndex(init, p) == |init| ==> FirstIndex(regs, p) >= |init|
    decreases |regs|
  {
    var init := regs[..|regs| - 1];
    if |regs| > 1 && regs[0].0 != p {
      var tail := regs[1..];
      FirstIndexPrefix(tail, p);
      assert tail[..|tail| - 1] == init[1..];
      assert init[0] == regs[0];
      assert FirstIndex(init, p) == 1 + FirstIndex(init[1..], p);
      assert FirstIndex(regs, p) == 1 + FirstIndex(tail, p);
    }
  }
}
