/** The renderer's cache of the home page's new releases: one value and the
    time it was stored, valid for a fixed time-to-live. The clock is a
    parameter. */
module ReleasesCache {
  import opened JsValues
  import Constants

  /** What a lookup at time `now` yields for a cache holding `cached` stored at `ts`. */
  function Lookup<T>(cached: Option<T>, ts: int, now: int): (r: Option<T>)
    ensures r.Some? <==> cached.Some? && now - ts < Constants.HOME_RELEASES_CACHE_TTL
    ensures r.Some? ==> r == cached
  {
    if cached.Some? && now - ts < Constants.HOME_RELEASES_CACHE_TTL then cached else None
  }

  /** A value just stored is returned for the whole time-to-live after it was stored. */
  lemma HitWithinTtl<T>(v: T, ts: int, now: int)
    requires ts <= now < ts + Constants.HOME_RELEASES_CACHE_TTL
    ensures Lookup(Some(v), ts, now) == Some(v)
  {
  }

  /** Once the time-to-live has elapsed since the last store, lookups miss. */
  lemma MissAfterTtl<T>(cached: Option<T>, ts: int, now: int)
    requires now >= ts + Constants.HOME_RELEASES_CACHE_TTL
    ensures Lookup(cached, ts, now).None?
  {
  }

  /** After invalidation every lookup misses until the next store. */
  lemma InvalidatedMisses<T>(now: int)
    ensures Lookup<T>(None, 0, now).None?
  {
  }

  class Cache<T> {
    var cached: Option<T>
    var ts: int

    constructor ()
      ensures cached.None? && ts == 0
    {
      cached := None;
      ts := 0;
    }

    /** `getCachedReleases`: reads the cache and changes nothing. */
    method GetCachedReleases(now: int) returns (r: Option<T>)
      ensures r == Lookup(cached, ts, now)
    {
      if cached.Some? && now - ts < Constants.HOME_RELEASES_CACHE_TTL {
        return cached;
      }
      return None;
    }

    /** `setCachedReleases`: stores the value and stamps the time. */
    method SetCachedReleases(releases: Option<T>, now: int)
      modifies this
      ensures cached == releases && ts == now
    {
      cached := releases;
      ts := now;
    }

    /** `invalidateReleasesCache`: empties the cache. */
    method InvalidateReleasesCache()
      modifies this
      ensures cached.None? && ts == 0
    {
      cached := None;
      ts := 0;
    }
  }

  /** Store, read back at once, expire, and invalidate. */
  method CacheScenario(v: seq<string>, t: int)
  {
    var c := new Cache<seq<string>>();
    c.SetCachedReleases(Some(v), t);
    var r1 := c.GetCachedReleases(t);
    HitWithinTtl(v, t, t);
    assert r1 == Some(v);
    var r2 := c.GetCachedReleases(t + Constants.HOME_RELEASES_CACHE_TTL);
    assert r2.None?;
    c.InvalidateReleasesCache();
    var r3 := c.GetCachedReleases(t);
    assert r3.None?;
  }
}
