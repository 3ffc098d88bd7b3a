/**
 * The analyzer's three caches (sample rates, durations and analysis
 * results, each a Python dict keyed by file path) and the operations that
 * keep them: the size limit that evicts the oldest keys, the
 * modification-time check, the clear operation and the statistics.
 */
module AnalysisCache {
  import opened Common

  /** No key occurs twice. */
  predicate Distinct(s: seq<string>) {
    forall i, j :: 0 <= i < j < |s| ==> s[i] != s[j]
  }

  /** The keys of `s` other than `k`, in their order. */
  function Without(s: seq<string>, k: string): (r: seq<string>)
    ensures forall x :: x in r <==> x in s && x != k
    ensures |r| <= |s|
  {
    if s == [] then []
    else if s[0] == k then Without(s[1..], k)
    else [s[0]] + Without(s[1..], k)
  }

  lemma {:induction false} WithoutAbsent(s: seq<string>, k: string)
    requires k !in s
    ensures Without(s, k) == s
  {
    if s != [] {
      WithoutAbsent(s[1..], k);
    }
  }

  lemma {:induction false} WithoutDistinct(s: seq<string>, k: string)
    requires Distinct(s)
    ensures Distinct(Without(s, k))
  {
    if s != [] {
      assert Distinct(s[1..]);
      assert s[0] !in s[1..];
      WithoutDistinct(s[1..], k);
    }
  }

  /** Deleting the oldest key of a distinct key list drops exactly its head. */
  lemma WithoutHead(s: seq<string>)
    requires Distinct(s) && s != []
    ensures Without(s, s[0]) == s[1..]
  {
    assert s[0] !in s[1..];
    WithoutAbsent(s[1..], s[0]);
  }

  /** A distinct key list has as many elements as the set of its keys. */
  lemma {:induction false} DistinctCardinality(s: seq<string>)
    requires Distinct(s)
    ensures |set x | x in s| == |s|
  {
    if s != [] {
      assert Distinct(s[1..]);
      DistinctCardinality(s[1..]);
      assert (set x | x in s) == (set x | x in s[1..]) + {s[0]};
      assert s[0] !in s[1..];
    }
  }

  /**
   * A Python dict: its keys in insertion order and the value of each.
   * Assigning to a present key keeps its position; a new key goes last.
   */
  class OrderedDict<V> {
    var keys: seq<string>
    var entries: map<string, V>

    ghost predicate Valid()
      reads this
    {
      Distinct(keys) && (forall k :: k in entries <==> k in keys)
    }

    constructor ()
      ensures Valid() && keys == [] && entries == map[]
    {
      keys := [];
      entries := map[];
    }

    /** `len(d)`: one per distinct key. */
    function Size(): (n: nat)
      requires Valid()
      reads this
      ensures n == |entries.Keys|
    {
      assert entries.Keys == set x | x in keys;
      DistinctCardinality(keys);
      |keys|
    }

    function Get(k: string): (r: Option<V>)
      reads this
      ensures r.Some? <==> k in entries
      ensures r.Some? ==> r.value == entries[k]
    {
      if k in entries then Some(entries[k]) else None
    }

    /** `d[k] = v`. */
    method Set(k: string, v: V)
      requires Valid()
      modifies this
      ensures Valid()
      ensures keys == if k in old(keys) then old(keys) else old(keys) + [k]
      ensures entries == old(entries)[k := v]
    {
      if k !in keys {
        keys := keys + [k];
      }
      entries := entries[k := v];
    }

    /** `del d[k]` for a present key. */
    method Delete(k: string)
      requires Valid() && k in entries
      modifies this
      ensures Valid()
      ensures keys == Without(old(keys), k)
      ensures entries == old(entries) - {k}
    {
      WithoutDistinct(keys, k);
      keys := Without(keys, k);
      entries := entries - {k};
    }

    /** `if k in d: del d[k]`. */
    method Discard(k: string)
      requires Valid()
      modifies this
      ensures Valid()
      ensures keys == Without(old(keys), k)
      ensures entries == old(entries) - {k}
    {
      if k in entries {
        Delete(k);
      } else {
        WithoutAbsent(keys, k);
      }
    }

    /** `d.clear()`. */
    method Clear()
      modifies this
      ensures Valid() && keys == [] && entries == map[]
    {
      keys := [];
      entries := map[];
    }

    /**
     * One cache's share of `_maintain_cache_size`: when it holds more than
     * `limit` keys, the oldest surplus keys are deleted one by one.
     */
    method TrimOldest(limit: nat)
      requires Valid()
      modifies this
      ensures Valid()
      ensures keys == Trimmed(old(keys), limit)
      ensures forall k :: k in entries ==> k in old(entries) && entries[k] == old(entries)[k]
    {
      if |keys| > limit {
        var surplus := |keys| - limit;
        var oldest := keys[..surplus];
        ghost var original := keys;
        for i := 0 to surplus
          invariant Valid()
          invariant keys == original[i..]
          invariant forall k :: k in entries ==> k in old(entries) && entries[k] == old(entries)[k]
        {
          assert keys[0] == oldest[i];
          WithoutHead(keys);
          Delete(oldest[i]);
        }
      }
    }
  }

  /** The keys left after the size limit: the newest `limit` when there are more, all of them otherwise. */
  function Trimmed(keys: seq<string>, limit: nat): (r: seq<string>)
  {
    if |keys| > limit then keys[|keys| - limit..] else keys
  }

  /**
   * After the limit a cache holds at most `limit` keys; the keys removed
   * are the oldest ones, the rest keep their order; a cache within the
   * limit is untouched.
   */
  lemma TrimmedKeepsNewest(keys: seq<string>, limit: nat)
    ensures |Trimmed(keys, limit)| == if |keys| <= limit then |keys| else limit
    ensures |keys| <= limit ==> Trimmed(keys, limit) == keys
    ensures keys == keys[..|keys| - |Trimmed(keys, limit)|] + Trimmed(keys, limit)
  {
  }

  /** What is kept per analysed file: the modification time and the keys of the cached results. */
  datatype Entry = Entry(mtime: Option<real>, results: set<string>)

  /**
   * `is_cache_valid` for an existing file: the answer and the entry the
   * path holds afterwards, given the entry it held before (if any).
   */
  function MtimeCheck(stored: Option<Entry>, current: real): (bool, Entry) {
    match stored
    case None => (false, Entry(Some(current), {}))
    case Some(e) =>
      if e.mtime.Some? && current <= e.mtime.value then (true, e)
      else (false, e.(mtime := Some(current)))
  }

  /**
   * The cache is valid exactly when a modification time is stored and the
   * file's is not later; otherwise the file's time is stored and the cached
   * results are kept.
   */
  lemma MtimeCheckAnswer(stored: Option<Entry>, current: real)
    ensures MtimeCheck(stored, current).0 <==>
      stored.Some? && stored.value.mtime.Some? && current <= stored.value.mtime.value
    ensures MtimeCheck(stored, current).0 ==> MtimeCheck(stored, current).1 == stored.value
    ensures !MtimeCheck(stored, current).0 ==> MtimeCheck(stored, current).1.mtime == Some(current)
    ensures stored.Some? ==> MtimeCheck(stored, current).1.results == stored.value.results
  {
  }

  /**
   * After a check the entry holds a modification time no earlier than the
   * file's: checking again with an unchanged time answers True, and a later
   * check answers True exactly up to that stored time.
   */
  lemma MtimeCheckTwice(stored: Option<Entry>, current: real)
    ensures var e := MtimeCheck(stored, current).1;
      && e.mtime.Some? && current <= e.mtime.value
      && MtimeCheck(Some(e), current).0
      && forall t :: MtimeCheck(Some(e), t).0 <==> t <= e.mtime.value
  {
  }

  /** The three caches of one analyzer and their shared size limit. */
  class Analyzer {
    const srCache: OrderedDict<int>
    const durationCache: OrderedDict<real>
    const analysisCache: OrderedDict<Entry>
    const maxCacheSize: nat

    ghost predicate Valid()
      reads this, srCache, durationCache, analysisCache
    {
      && srCache.Valid() && durationCache.Valid() && analysisCache.Valid()
      && srCache as object != durationCache as object
      && srCache as object != analysisCache as object
      && durationCache as object != analysisCache as object
    }

    constructor ()
      ensures Valid() && fresh(srCache) && fresh(durationCache) && fresh(analysisCache)
      ensures srCache.keys == [] && durationCache.keys == [] && analysisCache.keys == []
      ensures maxCacheSize == 20
    {
      srCache := new OrderedDict();
      durationCache := new OrderedDict();
      analysisCache := new OrderedDict();
      maxCacheSize := 20;
    }

    /**
     * `is_cache_valid`: False for a missing file, with nothing changed;
     * otherwise the answer of `MtimeCheck`, the path's entry replaced by the
     * one it leaves (a new path goes last).
     */
    method IsCacheValid(path: string, fileExists: bool, currentMtime: real) returns (valid: bool)
      requires Valid()
      modifies analysisCache
      ensures Valid()
      ensures !fileExists ==>
        !valid && analysisCache.keys == old(analysisCache.keys) && analysisCache.entries == old(analysisCache.entries)
      ensures fileExists ==>
        var r := MtimeCheck(old(analysisCache.Get(path)), currentMtime);
        && valid == r.0
        && analysisCache.entries == old(analysisCache.entries)[path := r.1]
        && analysisCache.keys == if path in old(analysisCache.keys) then old(analysisCache.keys) else old(analysisCache.keys) + [path]
    {
      if !fileExists {
        return false;
      }
      var stored := analysisCache.Get(path);
      if stored.None? || stored.value.mtime.None? {
        if stored.None? {
          analysisCache.Set(path, Entry(None, {}));
        }
        var e := analysisCache.entries[path];
        analysisCache.Set(path, e.(mtime := Some(currentMtime)));
        return false;
      }
      var cachedMtime := stored.value.mtime.value;
      if currentMtime > cachedMtime {
        analysisCache.Set(path, stored.value.(mtime := Some(currentMtime)));
        return false;
      }
      valid := true;
      assert analysisCache.entries == analysisCache.entries[path := stored.value];
    }

    /** `_maintain_cache_size`: each cache keeps its newest `maxCacheSize` keys, with their values. */
    method MaintainCacheSize()
      requires Valid()
      modifies srCache, durationCache, analysisCache
      ensures Valid()
      ensures srCache.keys == Trimmed(old(srCache.keys), maxCacheSize)
      ensures durationCache.keys == Trimmed(old(durationCache.keys), maxCacheSize)
      ensures analysisCache.keys == Trimmed(old(analysisCache.keys), maxCacheSize)
      ensures forall k :: k in srCache.entries ==> k in old(srCache.entries) && srCache.entries[k] == old(srCache.entries)[k]
      ensures forall k :: k in durationCache.entries ==> k in old(durationCache.entries) && durationCache.entries[k] == old(durationCache.entries)[k]
      ensures forall k :: k in analysisCache.entries ==> k in old(analysisCache.entries) && analysisCache.entries[k] == old(analysisCache.entries)[k]
    {
      srCache.TrimOldest(maxCacheSize);
      durationCache.TrimOldest(maxCacheSize);
      analysisCache.TrimOldest(maxCacheSize);
    }

    /**
     * `clear_cache`: a non-empty path is removed from every cache that holds
     * it; no path, or the empty one (both falsy in Python), clears all three.
     */
    method ClearCache(path: Option<string>)
      requires Valid()
      modifies srCache, durationCache, analysisCache
      ensures Valid()
      ensures path.None? || path.value == [] ==>
        srCache.entries == map[] && durationCache.entries == map[] && analysisCache.entries == map[]
      ensures path.Some? && path.value != [] ==>
        && srCache.entries == old(srCache.entries) - {path.value}
        && durationCache.entries == old(durationCache.entries) - {path.value}
        && analysisCache.entries == old(analysisCache.entries) - {path.value}
        && srCache.keys == Without(old(srCache.keys), path.value)
        && durationCache.keys == Without(old(durationCache.keys), path.value)
        && analysisCache.keys == Without(old(analysisCache.keys), path.value)
    {
      if path.Some? && path.value != [] {
        var p := path.value;
        srCache.Discard(p);
        durationCache.Discard(p);
        analysisCache.Discard(p);
      } else {
        srCache.Clear();
        durationCache.Clear();
        analysisCache.Clear();
      }
    }

    /** `get_cache_stats`: the number of files in each cache and the limit. */
    function CacheStats(): (s: Stats)
      requires Valid()
      reads this, srCache, durationCache, analysisCache
      ensures s.sampleRateCache == |srCache.entries.Keys|
      ensures s.durationCache == |durationCache.entries.Keys|
      ensures s.analysisCache == |analysisCache.entries.Keys|
      ensures s.maxCacheSize == maxCacheSize
    {
      Stats(srCache.Size(), durationCache.Size(), analysisCache.Size(), maxCacheSize)
    }
  }

  datatype Stats = Stats(sampleRateCache: nat, durationCache: nat, analysisCache: nat, maxCacheSize: nat)
}
