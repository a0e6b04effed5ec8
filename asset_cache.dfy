/**
 * The reference-counted caches of the asset managers: every cached name
 * has a count of at least one, a hit bumps the count, a release drops it
 * and evicts the entry when it reaches zero.
 */
module AssetCache {
  import opened Wrappers

  datatype Cache<T> = Cache(entries: map<string, T>, refs: map<string, int>)

  /** Both dictionaries have the same keys and every count is positive. */
  ghost predicate Valid<T>(c: Cache<T>)
  {
    c.entries.Keys == c.refs.Keys && forall k :: k in c.refs ==> c.refs[k] >= 1
  }

  function Empty<T>(): (c: Cache<T>)
    ensures Valid(c) && c.entries == map[]
  {
    Cache(map[], map[])
  }

  /** A cache hit: same object back, count + 1 (a missing count reads as 0). */
  function Hit<T>(c: Cache<T>, key: string): (r: (Cache<T>, T))
    requires key in c.entries
    ensures r.0.entries == c.entries && r.1 == c.entries[key]
    ensures key in r.0.refs && r.0.refs[key] == (if key in c.refs then c.refs[key] else 0) + 1
    ensures forall k :: k != key ==> (k in r.0.refs <==> k in c.refs) && (k in c.refs ==> r.0.refs[k] == c.refs[k])
  {
    (Cache(c.entries, c.refs[key := (if key in c.refs then c.refs[key] else 0) + 1]), c.entries[key])
  }

  /** A successful fresh load: the object is cached with count 1. */
  function Store<T>(c: Cache<T>, key: string, obj: T): (r: Cache<T>)
    ensures r.entries == c.entries[key := obj] && r.refs == c.refs[key := 1]
  {
    Cache(c.entries[key := obj], c.refs[key := 1])
  }

  /** Count - 1, and eviction of both entries at <= 0; unknown names are ignored. */
  function Release<T>(c: Cache<T>, key: string): (r: Cache<T>)
    requires Valid(c)
    ensures key !in c.refs ==> r == c
    ensures key in c.refs && c.refs[key] > 1 ==> r.entries == c.entries && r.refs == c.refs[key := c.refs[key] - 1]
    ensures key in c.refs && c.refs[key] <= 1 ==> r.entries == c.entries - {key} && r.refs == c.refs - {key}
  {
    if key !in c.refs then c
    else if c.refs[key] - 1 <= 0 then Cache(c.entries - {key}, c.refs - {key})
    else Cache(c.entries, c.refs[key := c.refs[key] - 1])
  }

  /** What a load does, given the loader's outcome on a miss. */
  function Load<T>(c: Cache<T>, key: string, loaded: Option<T>): (r: (Cache<T>, Option<T>))
  {
    if key in c.entries then var (c', obj) := Hit(c, key); (c', Some(obj))
    else if loaded.Some? then (Store(c, key, loaded.value), loaded)
    else (c, None)
  }

  lemma LoadKeepsValid<T>(c: Cache<T>, key: string, loaded: Option<T>)
    requires Valid(c)
    ensures Valid(Load(c, key, loaded).0)
    ensures key in c.entries ==> Load(c, key, loaded).1 == Some(c.entries[key])
    ensures key in c.entries ==> Load(c, key, loaded).0.refs[key] == c.refs[key] + 1
    ensures key !in c.entries && loaded.Some? ==> Load(c, key, loaded).0.refs[key] == 1
    ensures key !in c.entries && loaded.None? ==> Load(c, key, loaded).0 == c
  {
  }

  lemma ReleaseKeepsValid<T>(c: Cache<T>, key: string)
    requires Valid(c)
    ensures Valid(Release(c, key))
  {
  }

  /** A fresh load followed by one release leaves the cache as it was. */
  lemma StoreThenReleaseRestores<T>(c: Cache<T>, key: string, obj: T)
    requires Valid(c) && key !in c.entries
    ensures Release(Store(c, key, obj), key) == c
  {
    assert Store(c, key, obj).entries - {key} == c.entries;
    assert Store(c, key, obj).refs - {key} == c.refs;
  }

  /** A cache hit followed by one release leaves the cache as it was. */
  lemma HitThenReleaseRestores<T>(c: Cache<T>, key: string)
    requires Valid(c) && key in c.entries
    ensures Release(Hit(c, key).0, key) == c
  {
    assert c.refs[key := c.refs[key]] == c.refs;
  }

  /** n loads of a cached name need n releases before it is evicted. */
  lemma {:induction false} ReleasesUntilEvicted<T>(c: Cache<T>, key: string, n: nat)
    requires Valid(c) && key in c.refs && n < c.refs[key]
    ensures key in ReleaseTimes(c, key, n).entries
    ensures key in ReleaseTimes(c, key, n).refs && ReleaseTimes(c, key, n).refs[key] == c.refs[key] - n
    ensures Valid(ReleaseTimes(c, key, n))
  {
    if n > 0 {
      ReleasesUntilEvicted(c, key, n - 1);
    }
  }

  ghost function ReleaseTimes<T>(c: Cache<T>, key: string, n: nat): Cache<T>
    requires Valid(c)
    ensures Valid(ReleaseTimes(c, key, n))
  {
    if n == 0 then c else Release(ReleaseTimes(c, key, n - 1), key)
  }
}
