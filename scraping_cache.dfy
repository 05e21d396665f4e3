/** `ScrapingCacheService` (`server/services/scrapingCache.ts`): a table of
    discovered listing urls per auction source, valid for 24 hours after each
    save. The current time is a parameter; a failing database call is a
    boolean parameter (the service catches every such error itself). */
module ScrapingCache {
  import opened FirearmsSchema
  import opened Sequences

  /** The time to live of a saved site map: 24 hours in milliseconds. */
  const TtlMs: int := 24 * 60 * 60 * 1000

  /** A `scraping_cache` row (its serial id is not modelled). The JSON list of
      urls and the two counters are nullable columns. */
  datatype CacheEntry = CacheEntry(
    sourceUrl: string,
    sourceName: string,
    discoveredUrls: Option<seq<string>>,
    lastScraped: int,
    expiresAt: int,
    auctionCount: Option<nat>,
    firearmsFound: Option<nat>
  )

  datatype CacheStats = CacheStats(total: nat, valid: nat, expired: nat, totalUrls: nat, totalFirearms: nat,
                                   sources: seq<CacheEntry>)

  /** At most one row per source url, the shape `saveSiteMap` maintains. */
  predicate OnePerSource(entries: seq<CacheEntry>) {
    forall i, j :: 0 <= i < |entries| && 0 <= j < |entries| && entries[i].sourceUrl == entries[j].sourceUrl ==> i == j
  }

  /** The position of the row for `sourceUrl`, if any. */
  function Find(entries: seq<CacheEntry>, sourceUrl: string): (k: Option<nat>)
    ensures k.Some? ==> k.value < |entries| && entries[k.value].sourceUrl == sourceUrl
    ensures k.None? <==> forall i :: 0 <= i < |entries| ==> entries[i].sourceUrl != sourceUrl
  {
    if entries == [] then None
    else if entries[|entries| - 1].sourceUrl == sourceUrl then Some(|entries| - 1)
    else Find(entries[..|entries| - 1], sourceUrl)
  }

  /** The first row for `sourceUrl` that has not expired at `now`
      (`expiresAt >= now`). */
  function Unexpired(entries: seq<CacheEntry>, sourceUrl: string, now: int): (r: Option<CacheEntry>)
    ensures r.Some? <==> exists i :: 0 <= i < |entries| && entries[i].sourceUrl == sourceUrl && entries[i].expiresAt >= now
    ensures r.Some? ==> r.value in entries && r.value.sourceUrl == sourceUrl && r.value.expiresAt >= now
  {
    if entries == [] then None
    else if entries[0].sourceUrl == sourceUrl && entries[0].expiresAt >= now then Some(entries[0])
    else
      var r := Unexpired(entries[1..], sourceUrl, now);
      assert forall i :: 1 <= i < |entries| ==> entries[i] == entries[1..][i - 1];
      assert r.Some? ==> exists i :: 1 <= i < |entries| && entries[i] == r.value;
      r
  }

  /** The row `saveSiteMap` writes for a new source. */
  function Fresh(sourceUrl: string, sourceName: string, urls: seq<string>, firearmsFound: nat, now: int): CacheEntry {
    CacheEntry(sourceUrl, sourceName, Some(urls), now, now + TtlMs, Some(|urls|), Some(firearmsFound))
  }

  /** The table after `saveSiteMap`: the existing row is refreshed (keeping its
      name), or a new row is appended. */
  function Saved(entries: seq<CacheEntry>, sourceUrl: string, sourceName: string, urls: seq<string>,
                 firearmsFound: nat, now: int): seq<CacheEntry>
  {
    match Find(entries, sourceUrl)
    case Some(k) =>
      entries[k := entries[k].(discoveredUrls := Some(urls), lastScraped := now, expiresAt := now + TtlMs,
                              auctionCount := Some(|urls|), firearmsFound := Some(firearmsFound))]
    case None => entries + [Fresh(sourceUrl, sourceName, urls, firearmsFound, now)]
  }

  /** After a save there is still one row per source; the saved source's row
      holds the new urls and counts, is valid for exactly 24 hours, and keeps
      the name it had; every other row is as it was. */
  lemma SavedEffect(entries: seq<CacheEntry>, sourceUrl: string, sourceName: string, urls: seq<string>,
                    firearmsFound: nat, now: int)
    requires OnePerSource(entries)
    ensures var s := Saved(entries, sourceUrl, sourceName, urls, firearmsFound, now);
      && OnePerSource(s)
      && Find(s, sourceUrl).Some?
      && var e := s[Find(s, sourceUrl).value];
      && e.discoveredUrls == Some(urls) && e.auctionCount == Some(|urls|) && e.firearmsFound == Some(firearmsFound)
      && e.lastScraped == now && e.expiresAt == now + TtlMs
      && e.sourceName == (if Find(entries, sourceUrl).Some? then entries[Find(entries, sourceUrl).value].sourceName
                          else sourceName)
      && forall u :: u != sourceUrl ==> Find(s, u) == Find(entries, u)
  {
    var s := Saved(entries, sourceUrl, sourceName, urls, firearmsFound, now);
    match Find(entries, sourceUrl)
    case Some(k) =>
      forall u | u != sourceUrl ensures Find(s, u) == Find(entries, u) {
        FindSame(entries, s, u);
      }
      FindUnique(s, sourceUrl, k);
    case None =>
      forall u | u != sourceUrl ensures Find(s, u) == Find(entries, u) {
        assert s[..|s| - 1] == entries;
      }
      FindUnique(s, sourceUrl, |entries|);
  }

  /** Two tables with the same source urls everywhere have the same positions. */
  lemma {:induction false} FindSame(a: seq<CacheEntry>, b: seq<CacheEntry>, u: string)
    requires |a| == |b| && forall i :: 0 <= i < |a| ==> (a[i].sourceUrl == u <==> b[i].sourceUrl == u)
    ensures Find(a, u) == Find(b, u)
  {
    if a != [] {
      FindSame(a[..|a| - 1], b[..|b| - 1], u);
    }
  }

  /** In a table with one row per source, `Find` names the only row. */
  lemma FindUnique(entries: seq<CacheEntry>, u: string, k: nat)
    requires OnePerSource(entries) && k < |entries| && entries[k].sourceUrl == u
    ensures Find(entries, u) == Some(k)
  {
  }

  /** `getSiteMap` right after a save returns the saved row until it expires. */
  lemma SavedIsServed(entries: seq<CacheEntry>, sourceUrl: string, sourceName: string, urls: seq<string>,
                      firearmsFound: nat, now: int, later: int)
    requires OnePerSource(entries) && later <= now + TtlMs
    ensures var s := Saved(entries, sourceUrl, sourceName, urls, firearmsFound, now);
      Unexpired(s, sourceUrl, later).Some? && Unexpired(s, sourceUrl, later).value.discoveredUrls == Some(urls)
  {
    SavedEffect(entries, sourceUrl, sourceName, urls, firearmsFound, now);
    var s := Saved(entries, sourceUrl, sourceName, urls, firearmsFound, now);
    var k := Find(s, sourceUrl).value;
    assert s[k].sourceUrl == sourceUrl && s[k].expiresAt >= later;
  }

  /** The urls of `current` that a cached list does not know, in order. */
  function Unknown(current: seq<string>, known: seq<string>): seq<string> {
    Filter(current, u => u !in known)
  }

  /** `getNewUrls`: everything when there is no usable cache, else the urls
      not in the cached list. */
  function NewUrls(cached: Option<CacheEntry>, current: seq<string>): seq<string> {
    if cached.None? || cached.value.discoveredUrls.None? then current
    else Unknown(current, cached.value.discoveredUrls.value)
  }

  /** The new urls are drawn from `current` in order, and a url is new iff it
      is current and not known to a usable cache. */
  lemma NewUrlsMeaning(cached: Option<CacheEntry>, current: seq<string>)
    ensures Subsequence(NewUrls(cached, current), current)
    ensures forall u :: u in NewUrls(cached, current) <==>
      u in current && (cached.None? || cached.value.discoveredUrls.None? || u !in cached.value.discoveredUrls.value)
  {
    if cached.Some? && cached.value.discoveredUrls.Some? {
      FilterIsSubsequence(current, u => u !in cached.value.discoveredUrls.value);
      FilterMembers(current, u => u !in cached.value.discoveredUrls.value);
    } else {
      SubsequenceOfItself(current);
    }
  }

  lemma {:induction false} SubsequenceOfItself(s: seq<string>)
    ensures Subsequence(s, s)
  {
    if s != [] {
      SubsequenceOfItself(s[1..]);
    }
  }

  /** `n || 0` for a nullable counter. */
  function OrZero(n: Option<nat>): nat {
    if n.Some? then n.value else 0
  }

  /** The sum of `auctionCount || 0` over the rows. */
  function TotalUrls(entries: seq<CacheEntry>): nat {
    if entries == [] then 0
    else TotalUrls(entries[..|entries| - 1]) + OrZero(entries[|entries| - 1].auctionCount)
  }

  /** The sum of `firearmsFound || 0` over the rows. */
  function TotalFirearms(entries: seq<CacheEntry>): nat {
    if entries == [] then 0
    else TotalFirearms(entries[..|entries| - 1]) + OrZero(entries[|entries| - 1].firearmsFound)
  }

  /** `getStats` at `now`: a row counts as valid when it expires strictly
      after `now`, and as expired otherwise. */
  function Stats(entries: seq<CacheEntry>, now: int): CacheStats {
    CacheStats(|entries|, Count(entries, (e: CacheEntry) => e.expiresAt > now), Count(entries, (e: CacheEntry) => e.expiresAt <= now),
               TotalUrls(entries), TotalFirearms(entries), entries)
  }

  /** Every row is either valid or expired, never both. */
  lemma {:induction false} CountSplit(entries: seq<CacheEntry>, now: int)
    ensures Count(entries, (e: CacheEntry) => e.expiresAt > now) + Count(entries, (e: CacheEntry) => e.expiresAt <= now) == |entries|
  {
    if entries != [] {
      CountSplit(entries[1..], now);
    }
  }

  /** The totals of `getStats`: valid and expired rows partition the table. */
  lemma StatsPartition(entries: seq<CacheEntry>, now: int)
    ensures Stats(entries, now).valid + Stats(entries, now).expired == Stats(entries, now).total
  {
    CountSplit(entries, now);
  }

  /** A row that expires exactly at `now` is still served by `getSiteMap`
      (`>=`) but counted as expired by `getStats` (`>`). */
  lemma BoundaryRow(e: CacheEntry, now: int)
    requires e.expiresAt == now
    ensures Unexpired([e], e.sourceUrl, now) == Some(e)
    ensures Stats([e], now).valid == 0 && Stats([e], now).expired == 1
  {
    FilterSingle(e, (x: CacheEntry) => x.expiresAt > now);
    FilterSingle(e, (x: CacheEntry) => x.expiresAt <= now);
  }

  /** The table after `invalidate`: every row of the source expires at the
      epoch (0); no row is removed. */
  function Invalidated(entries: seq<CacheEntry>, sourceUrl: string): (r: seq<CacheEntry>)
    ensures |r| == |entries|
  {
    seq(|entries|, i requires 0 <= i < |entries| =>
      if entries[i].sourceUrl == sourceUrl then entries[i].(expiresAt := 0) else entries[i])
  }

  /** After `invalidate`, the source has no site map at any time after the
      epoch, and every other source's site map is as before. */
  lemma InvalidatedEffect(entries: seq<CacheEntry>, sourceUrl: string, now: int)
    requires now > 0
    ensures Unexpired(Invalidated(entries, sourceUrl), sourceUrl, now).None?
    ensures forall u :: u != sourceUrl ==> Unexpired(Invalidated(entries, sourceUrl), u, now) == Unexpired(entries, u, now)
  {
    forall u | u != sourceUrl
      ensures Unexpired(Invalidated(entries, sourceUrl), u, now) == Unexpired(entries, u, now)
    {
      UnexpiredSame(entries, Invalidated(entries, sourceUrl), u, now);
    }
  }

  /** Rows of the source `u` that agree give the same lookup. */
  lemma {:induction false} UnexpiredSame(a: seq<CacheEntry>, b: seq<CacheEntry>, u: string, now: int)
    requires |a| == |b|
    requires forall i :: 0 <= i < |a| ==> (a[i].sourceUrl == u || b[i].sourceUrl == u ==> a[i] == b[i])
    ensures Unexpired(a, u, now) == Unexpired(b, u, now)
  {
    if a != [] {
      UnexpiredSame(a[1..], b[1..], u, now);
    }
  }

  class ScrapingCacheService {
    /** The `scraping_cache` table. */
    var entries: seq<CacheEntry>

    ghost predicate Valid()
      reads this
    {
      OnePerSource(entries)
    }

    constructor()
      ensures Valid() && entries == []
    {
      entries := [];
    }

    /** `getSiteMap(sourceUrl)` at `now`; a failed lookup gives null. */
    method GetSiteMap(sourceUrl: string, now: int, lookupFails: bool) returns (r: Option<CacheEntry>)
      ensures r == if lookupFails then None else Unexpired(entries, sourceUrl, now)
      ensures r.Some? ==> !lookupFails && r.value in entries && r.value.sourceUrl == sourceUrl && r.value.expiresAt >= now
      ensures r.None? <==> lookupFails || forall i :: 0 <= i < |entries| ==>
                             entries[i].sourceUrl != sourceUrl || entries[i].expiresAt < now
    {
      if lookupFails {
        return None;
      }
      r := Unexpired(entries, sourceUrl, now);
    }

    /** `saveSiteMap`: upserts the source's row; a failed query leaves the
        table as it was. */
    method SaveSiteMap(sourceUrl: string, sourceName: string, urls: seq<string>, firearmsFound: nat, now: int,
                       fails: bool)
      requires Valid()
      modifies this
      ensures Valid()
      ensures entries == if fails then old(entries) else Saved(old(entries), sourceUrl, sourceName, urls, firearmsFound, now)
    {
      if fails {
        return;
      }
      SavedEffect(entries, sourceUrl, sourceName, urls, firearmsFound, now);
      var existing := Find(entries, sourceUrl);
      if existing.Some? {
        var k := existing.value;
        entries := entries[k := entries[k].(discoveredUrls := Some(urls), lastScraped := now, expiresAt := now + TtlMs,
                                            auctionCount := Some(|urls|), firearmsFound := Some(firearmsFound))];
      } else {
        entries := entries + [Fresh(sourceUrl, sourceName, urls, firearmsFound, now)];
      }
    }

    /** `getNewUrls(sourceUrl, currentUrls)` at `now`. */
    method GetNewUrls(sourceUrl: string, current: seq<string>, now: int, lookupFails: bool) returns (r: seq<string>)
      ensures Subsequence(r, current)
      ensures lookupFails ==> r == current
      ensures !lookupFails ==> r == NewUrls(Unexpired(entries, sourceUrl, now), current)
    {
      var cached := GetSiteMap(sourceUrl, now, lookupFails);
      r := NewUrls(cached, current);
      NewUrlsMeaning(cached, current);
    }

    /** `isValid(sourceUrl)` at `now`. */
    method IsValid(sourceUrl: string, now: int, lookupFails: bool) returns (b: bool)
      ensures b <==> !lookupFails && exists i :: 0 <= i < |entries| && entries[i].sourceUrl == sourceUrl
                                                 && entries[i].expiresAt >= now
    {
      var cached := GetSiteMap(sourceUrl, now, lookupFails);
      b := cached.Some?;
    }

    /** `invalidate(sourceUrl)`; a failed update changes nothing. */
    method Invalidate(sourceUrl: string, fails: bool)
      requires Valid()
      modifies this
      ensures Valid()
      ensures entries == if fails then old(entries) else Invalidated(old(entries), sourceUrl)
    {
      if !fails {
        entries := Invalidated(entries, sourceUrl);
      }
    }

    /** `getStats()` at `now`; a failed query reports an empty table. */
    method GetStats(now: int, fails: bool) returns (s: CacheStats)
      ensures s.valid + s.expired == s.total
      ensures s == if fails then CacheStats(0, 0, 0, 0, 0, []) else Stats(entries, now)
    {
      if fails {
        return CacheStats(0, 0, 0, 0, 0, []);
      }
      StatsPartition(entries, now);
      s := Stats(entries, now);
    }
  }
}
