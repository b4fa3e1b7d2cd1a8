/** The bounded content caches of `FileUtils.readFile` and of the provider's
    `readFileContent`: a `Map` from path to text, in insertion order, that is
    consulted first, and that drops its oldest key before a new entry once it
    holds 100 — unless that oldest key is the empty string, which the
    `if (firstKey)` test treats as absent.

    `Read` says what one read does to a snapshot of the map; `ContentCache`
    is the mutable map itself, proved to follow `Read`. */
module FileCache {
  import opened Optional

  const MaxCacheSize: nat := 100

  /** The map's keys in insertion order, and its entries. */
  datatype Snapshot = Snapshot(keys: seq<string>, entries: map<string, string>)

  const Empty: Snapshot := Snapshot([], map[])

  /** Each key once, and exactly the keys of the entries. */
  predicate WellFormed(c: Snapshot) {
    && (forall i, j :: 0 <= i < j < |c.keys| ==> c.keys[i] != c.keys[j])
    && (forall k :: k in c.entries ==> k in c.keys)
    && (forall i :: 0 <= i < |c.keys| ==> c.keys[i] in c.entries)
  }

  /** `if (cached) return cached`: a hit needs a non-empty text. */
  function Cached(c: Snapshot, path: string): Option<string> {
    if path in c.entries && c.entries[path] != "" then Some(c.entries[path]) else None
  }

  /** The key the overflow check deletes, if any. */
  function Victim(c: Snapshot): Option<string> {
    if |c.keys| >= MaxCacheSize && c.keys[0] != "" then Some(c.keys[0]) else None
  }

  /** The overflow check before a new entry. */
  function Evict(c: Snapshot): (r: Snapshot)
    requires WellFormed(c)
    ensures WellFormed(r)
  {
    match Victim(c)
    case Some(k) => Snapshot(c.keys[1..], c.entries - {k})
    case None => c
  }

  /** `Map.set`: a present key keeps its place, a new one goes last. */
  function Store(c: Snapshot, path: string, content: string): (r: Snapshot)
    requires WellFormed(c)
    ensures WellFormed(r)
  {
    if path in c.entries then Snapshot(c.keys, c.entries[path := content])
    else Snapshot(c.keys + [path], c.entries[path := content])
  }

  /** What a read answers, `None` when the read from disk fails, and the map after it. */
  datatype Outcome = Outcome(content: Option<string>, cache: Snapshot)

  /** One read of `path`, where `disk` is what reading the file would give. */
  function Read(c: Snapshot, path: string, disk: Option<string>): Outcome
    requires WellFormed(c)
  {
    match Cached(c, path)
    case Some(v) => Outcome(Some(v), c)
    case None =>
      match disk
      case None => Outcome(None, c)
      case Some(d) => Outcome(Some(d), Store(Evict(c), path, d))
  }

  // ---------------------------------------------------------------- the map itself

  class ContentCache {
    var keys: seq<string>
    var entries: map<string, string>

    function Snap(): Snapshot
      reads this
    {
      Snapshot(keys, entries)
    }

    ghost predicate Valid()
      reads this
    {
      WellFormed(Snap())
    }

    constructor ()
      ensures Valid() && Snap() == Empty
    {
      keys := [];
      entries := map[];
    }

    /** `readFile`. */
    method ReadFile(path: string, disk: Option<string>) returns (content: Option<string>)
      requires Valid()
      modifies this
      ensures Valid()
      ensures Outcome(content, Snap()) == Read(old(Snap()), path, disk)
    {
      if path in entries && entries[path] != "" {
        return Some(entries[path]);
      }
      if disk.None? {
        return None;
      }
      ghost var c := Snap();
      assert Cached(c, path).None?;
      if |keys| >= MaxCacheSize {
        var firstKey := keys[0];
        if firstKey != "" {
          keys, entries := keys[1..], entries - {firstKey};
        }
      }
      assert Snap() == Evict(c);
      if path !in entries {
        keys := keys + [path];
      }
      entries := entries[path := disk.value];
      assert Snap() == Store(Evict(c), path, disk.value);
      content := disk;
    }

    /** `clearCache`. */
    method Clear()
      modifies this
      ensures Valid() && Snap() == Empty
    {
      keys, entries := [], map[];
    }
  }

  // ---------------------------------------------------------------- properties

  /** A hit answers the cached text and leaves the map as it was. */
  lemma HitLeavesCache(c: Snapshot, path: string, disk: Option<string>)
    requires WellFormed(c) && path in c.entries && c.entries[path] != ""
    ensures Read(c, path, disk) == Outcome(Some(c.entries[path]), c)
  {
  }

  /** A failed read from disk answers nothing and leaves the map as it was. */
  lemma FailureLeavesCache(c: Snapshot, path: string)
    requires WellFormed(c) && Cached(c, path).None?
    ensures Read(c, path, None) == Outcome(None, c)
  {
  }

  /** After a read that answers a text, the map holds that text for the path. */
  lemma ReadCaches(c: Snapshot, path: string, disk: Option<string>)
    requires WellFormed(c) && Read(c, path, disk).content.Some?
    ensures var r := Read(c, path, disk);
      path in r.cache.entries && r.cache.entries[path] == r.content.value
    ensures var r := Read(c, path, disk);
      Cached(c, path).None? ==> r.content == disk
  {
  }

  /** A read touches no other entry than its own path's and the one it evicts. */
  lemma ReadKeepsOthers(c: Snapshot, path: string, disk: Option<string>, k: string)
    requires WellFormed(c) && k != path
    ensures var r := Read(c, path, disk);
      k in r.cache.entries ==> k in c.entries && r.cache.entries[k] == c.entries[k]
    ensures var r := Read(c, path, disk);
      k in c.entries && Victim(c) != Some(k) ==> k in r.cache.entries
  {
    if Cached(c, path).None? && disk.Some? {
      var ev := Evict(c);
      assert k in ev.entries ==> k in c.entries && ev.entries[k] == c.entries[k];
      assert k in c.entries && Victim(c) != Some(k) ==> k in ev.entries;
    }
  }

  /** On a miss with a full map the first-inserted key goes, unless it is
      empty; the other keys keep their order and the new path comes last. */
  lemma EvictsOldest(c: Snapshot, path: string, d: string)
    requires WellFormed(c) && Cached(c, path).None?
    requires |c.keys| >= MaxCacheSize && c.keys[0] != "" && c.keys[0] != path
    ensures var r := Read(c, path, Some(d)).cache;
      && c.keys[0] !in r.entries
      && r.keys == c.keys[1..] + (if path in c.keys[1..] then [] else [path])
  {
    assert path in c.entries <==> path in c.keys[1..] by {
      if path in c.keys {
        var i :| 0 <= i < |c.keys| && c.keys[i] == path;
        assert i > 0 && c.keys[1..][i - 1] == path;
      }
    }
  }

  /** A map of at most 100 entries, none of them under the empty path. */
  predicate Bounded(c: Snapshot) {
    |c.keys| <= MaxCacheSize && "" !in c.keys
  }

  /** Reads of non-empty paths keep the map bounded. */
  lemma ReadKeepsBound(c: Snapshot, path: string, disk: Option<string>)
    requires WellFormed(c) && Bounded(c) && path != ""
    ensures Bounded(Read(c, path, disk).cache)
  {
    if |c.keys| >= MaxCacheSize {
      assert c.keys[0] in c.keys;
      assert forall k :: k in c.keys[1..] ==> k in c.keys;
    }
  }

  /** With the empty path as the oldest key a full map is not trimmed: a new
      path makes it grow past 100. */
  lemma EmptyOldestOverflows(c: Snapshot, path: string, d: string)
    requires WellFormed(c) && |c.keys| >= MaxCacheSize && c.keys[0] == "" && path !in c.entries
    ensures |Read(c, path, Some(d)).cache.keys| == |c.keys| + 1
  {
  }
}
