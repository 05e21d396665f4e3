/** The scrape coordinator (`server/services/firearmScraper.ts`): scrapes each
    configured auction house in turn, saves new listings (queueing them for
    enrichment) and refreshes the bid of listings it has seen before, keeping
    per-source statistics and a progress record. The page scrape and the
    structured extraction are an oracle: `ScrapeOutcome`. */
module FirearmScraper {
  import opened FirearmsSchema
  import opened Sequences
  import opened AuctionStore
  import opened EnrichmentQueue

  datatype Source = Source(name: string, state: string, city: string, url: string)

  /** The configured auction houses, Texas first, then Oklahoma, then
      Louisiana. */
  function Sources(): (r: seq<Source>)
  {
    TexasSources() + OklahomaSources() + LouisianaSources()
  }

  /** The 24 Texas auction houses. */
  function TexasSources(): (r: seq<Source>)
  {
    [ Source("Heritage Auctions (Arms & Armor)", "TX", "Dallas", "https://historical.ha.com/"),
      Source("Western Sportsman LLC", "TX", "Fort Worth", "https://www.westernsportsman.auction/"),
      Source("Warren Liquidation Auction & Resale (WLAR)", "TX", "Fort Worth", "https://www.warrenliquidation.com/auction/list"),
      Source("Rock Island Auction Company – Texas Facility", "TX", "Bedford (DFW)", "https://www.rockislandauction.com/"),
      Source("Texas Auction Realty", "TX", "Weatherford (DFW West)", "https://www.texasauctionrealty.com/"),
      Source("Lone Star Auctioneers (LSO)", "TX", "Arlington (DFW)", "https://www.lso.cc/"),
      Source("HiBid – Dallas-area Firearms", "TX", "Dallas (area hub)", "https://dallas.hibid.com/auctions/40228/sporting-goods/firearms---weapons"),
      Source("Right To Bear Arms Auction Co.", "TX", "Chico (North TX)", "https://www.r2baauctions.com/"),
      Source("Central Texas Auction Services", "TX", "Belton / Central TX", "https://www.centraltexasauctionservices.com/"),
      Source("A & S Auction Company", "TX", "Waco", "https://asauctions.com/"),
      Source("Brand Used Works", "TX", "Henderson (East TX)", "https://hibid.com/company/63519/brand-used-works"),
      Source("Asset Marketing Pros / Trinity Auction Gallery", "TX", "Trinity (East TX)", "https://amp-tag.com/"),
      Source("TexMax Auctions", "TX", "Houston", "https://www.texmax.net/"),
      Source("Webster's Auction Palace", "TX", "Humble (Houston)", "https://webstersauction.com/"),
      Source("Lewis & Maese Antiques & Auctions", "TX", "Houston", "https://www.lmauctionco.com/"),
      Source("Burley Auction Group", "TX", "New Braunfels (Hill Country)", "https://www.burleyauction.com/"),
      Source("Vogt Auction", "TX", "San Antonio", "https://vogtauction.com/category/firearms-militaria"),
      Source("Dury's Guns (Auctions)", "TX", "San Antonio", "https://durysguns.com/"),
      Source("South Texas Auction Company, LLC", "TX", "Brownsville (South TX)", "https://hibid.com/company/138293/south-texas-auction-company--llc"),
      Source("René Bates Auctioneers", "TX", "Houston / Statewide", "https://www.renebates.com/"),
      Source("Clark Auction Company", "TX", "Belton / Temple", "https://www.clarkauctioncompany.com/"),
      Source("Spanky's Online Auction", "TX", "Lubbock", "https://spankysonline.com/"),
      Source("Ward Real Estate & Auction", "TX", "Corpus Christi / South TX", "https://www.wardrealestateauctions.com/"),
      Source("Canyon Auctions", "TX", "Amarillo / Canyon", "https://www.canyonauctions.com/")
    ]
  }

  /** The 6 Oklahoma auction houses. */
  function OklahomaSources(): (r: seq<Source>)
  {
    [ Source("Chupps Auction & Real Estate", "OK", "Pawnee / Tulsa area", "https://chuppsauction.hibid.com/"),
      Source("Wiggins Auctioneers", "OK", "Enid / North OK", "https://www.wigginsauctioneers.com/"),
      Source("Smith & Co. Auction & Realty", "OK", "Woodward / NW OK", "https://www.smithcoauctions.com/"),
      Source("Pickens Auction", "OK", "Mustang / OKC", "https://www.pickensauctions.com/"),
      Source("Aline Auction", "OK", "Aline / NW OK", "https://www.alineauction.com/"),
      Source("Ball Auction Service", "OK", "Stillwater", "https://ballauctionservice.com/")
    ]
  }

  /** The 4 Louisiana auction houses. */
  function LouisianaSources(): (r: seq<Source>)
  {
    [ Source("Bonnette Auctions", "LA", "Alexandria", "https://bonnetteauctions.com/"),
      Source("Lawler Auction Company", "LA", "Shreveport", "https://www.lawlerauction.com/"),
      Source("Henderson Auctions", "LA", "Baton Rouge / Livingston", "https://www.hendersonauctions.com/"),
      Source("Stokes & Hubbell Auctioneers", "LA", "Lafayette / Acadiana", "https://www.stokesandhubbell.com/")
    ]
  }

  /** The extracted `auction_date` text: absent or empty, a date that parses to
      a timestamp, or text that `new Date` turns into an invalid date. */
  datatype DateText = NoDate | ValidDate(ms: int) | InvalidDate

  /** One auction as the extraction schema returns it (`title` and `url` are
      required by the schema). */
  datatype Candidate = Candidate(
    title: string,
    url: string,
    description: Option<string>,
    auctionDate: DateText,
    manufacturer: Option<string>,
    model: Option<string>,
    caliber: Option<string>,
    category: Option<string>,
    condition: Option<string>,
    lotNumber: Option<string>,
    startingBid: Option<real>,
    currentBid: Option<real>,
    estimateLow: Option<real>,
    estimateHigh: Option<real>,
    city: Option<string>,
    state: Option<string>)

  /** A candidate together with whether the database call saving it throws. */
  datatype Offer = Offer(candidate: Candidate, storeFails: bool)

  /** What scraping and extracting one page gave: no page data, an exception,
      or the extracted candidates. */
  datatype ScrapeOutcome = NoData | Threw(message: string) | Extracted(offers: seq<Offer>)

  datatype ScraperStats = ScraperStats(
    scrapeId: string,
    sourceName: string,
    discoveredUrls: nat,
    processedUrls: nat,
    successfulSaves: nat,
    failedScrapes: nat,
    failedSaves: nat,
    duration: int,
    timestamp: int,
    missingUrls: seq<string>)

  datatype Progress = Progress(
    isActive: bool,
    currentSource: string,
    completedSources: nat,
    totalSources: nat,
    currentSourceProgress: nat)

  /** The row inserted for a new candidate: every extracted value is kept when
      truthy and stored as null otherwise, city and state fall back to the
      given defaults, and the listing starts pending enrichment and active.
      Columns the insert does not name take their defaults. */
  function NewListing(c: Candidate, url: string, sourceWebsite: string,
                      city: Option<string>, state: Option<string>, now: int): Listing
  {
    Listing(
      id := 0, title := c.title, url := url, sourceWebsite := sourceWebsite,
      description := Or(c.description, "", None),
      manufacturer := Or(c.manufacturer, "", None), model := Or(c.model, "", None),
      caliber := Or(c.caliber, "", None), serialNumber := None, yearManufactured := None,
      condition := Or(c.condition, "", None), boreCondition := None, finishPercentage := None,
      originalParts := None, mechanicalFunction := None,
      category := Or(c.category, "", None), subCategory := None,
      auctionHouse := None,
      auctionDate := if c.auctionDate.ValidDate? then Some(c.auctionDate.ms) else None,
      lotNumber := Or(c.lotNumber, "", None),
      startingBid := Or(c.startingBid, 0.0, None), currentBid := Or(c.currentBid, 0.0, None),
      estimateLow := Or(c.estimateLow, 0.0, None), estimateHigh := Or(c.estimateHigh, 0.0, None),
      city := Or(c.city, "", city), state := Or(c.state, "", state),
      transferType := None, nfaItem := Some(false),
      provenance := None, rarity := None, desirability := None, investmentGrade := None,
      isEstateSale := Some(false), estateSize := None, collectionName := None,
      includedAccessories := None, originalBox := None, paperwork := None,
      enrichmentStatus := Pending, enrichedAt := None,
      status := Active, scrapedAt := now, updatedAt := now)
  }

  /** A new listing is pending enrichment and active, keeps the page's title
      and url, never stores a falsy text or bid, and takes city and state from
      the candidate when they are truthy and from the defaults otherwise. */
  lemma NewListingProperties(c: Candidate, url: string, sourceWebsite: string,
                             city: Option<string>, state: Option<string>, now: int)
    ensures var l := NewListing(c, url, sourceWebsite, city, state, now);
      && l.enrichmentStatus == Pending && l.status == Active
      && l.title == c.title && l.url == url && l.sourceWebsite == sourceWebsite
      && (Truthy(c.manufacturer, "") ==> l.manufacturer == c.manufacturer)
      && (!Truthy(c.manufacturer, "") ==> l.manufacturer == None)
      && (Truthy(c.currentBid, 0.0) ==> l.currentBid == c.currentBid)
      && (!Truthy(c.currentBid, 0.0) ==> l.currentBid == None)
      && (l.currentBid == None || l.currentBid.value != 0.0)
      && (l.startingBid == None || l.startingBid.value != 0.0)
      && l.city == (if Truthy(c.city, "") then c.city else city)
      && l.state == (if Truthy(c.state, "") then c.state else state)
      && l.auctionDate.Some? == c.auctionDate.ValidDate?
  {
  }

  /** The update of a listing seen again: `currentBid` takes the new bid when it
      is truthy and keeps the stored one otherwise, and `updatedAt` is `now`. */
  function Refreshed(l: Listing, c: Candidate, now: int): Listing {
    l.(currentBid := Or(c.currentBid, 0.0, l.currentBid), updatedAt := now)
  }

  /** Re-scraping changes nothing but the bid and the update time, and the bid
      only when the page shows a non-zero one. */
  lemma RefreshedChangesOnlyBid(l: Listing, c: Candidate, now: int)
    ensures Refreshed(l, c, now).(currentBid := l.currentBid, updatedAt := l.updatedAt) == l
    ensures Refreshed(l, c, now).currentBid == if Truthy(c.currentBid, 0.0) then c.currentBid else l.currentBid
    ensures Refreshed(l, c, now).updatedAt == now
    ensures Refreshed(l, c, now).url == l.url && Refreshed(l, c, now).id == l.id
  {
  }

  /** A scrape-statistics record as `scrapeSingleSource` leaves it: a failed
      scrape has nothing else counted; otherwise every extracted candidate is
      processed and is either saved or missing. */
  predicate StatsWellFormed(st: ScraperStats) {
    && st.failedScrapes <= 1
    && (st.failedScrapes == 1 ==>
          st.discoveredUrls == 0 && st.processedUrls == 0 && st.successfulSaves == 0
          && st.failedSaves == 0 && st.missingUrls == [])
    && st.discoveredUrls == st.processedUrls
    && st.successfulSaves + st.failedSaves == st.processedUrls
    && |st.missingUrls| == st.failedSaves
  }

  /** The effect of saving one offer from `source` on the table (`rows` to
      `rows'`) and the queue (`q` to `q'`), and what the save returns: a
      throwing database call changes nothing; a known url gets its row's bid
      refreshed and returns the row as it was; a new url is inserted with the
      next id, the source's name as website and the source's city and state as
      fallbacks, and queued at normal priority, unless its auction date is
      unparsable, which fails the insert. */
  ghost predicate SaveEffect(o: Offer, source: Source, now: int, rows: seq<Listing>, rows': seq<Listing>,
                             q: seq<QueueItem>, q': seq<QueueItem>, saved: Option<Listing>)
  {
    var c := o.candidate;
    if o.storeFails then
      saved == None && rows' == rows && q' == q
    else if exists k :: 0 <= k < |rows| && rows[k].url == c.url then
      var k := IndexOfUrl(rows, c.url);
      saved == Some(rows[k]) && rows' == rows[k := Refreshed(rows[k], c, now)] && q' == q
    else if c.auctionDate == InvalidDate then
      saved == None && rows' == rows && q' == q
    else
      var row := NewListing(c, c.url, source.name, Some(source.city), Some(source.state), now).(id := |rows| + 1);
      saved == Some(row) && rows' == rows + [row] && q' == Enqueued(q, row.id, Normal, now)
  }

  /** Refreshing the row holding the offer's url is the save's effect. */
  lemma RefreshEffect(o: Offer, source: Source, now: int, rows: seq<Listing>, k: nat, q: seq<QueueItem>)
    requires !o.storeFails && k < |rows| && rows[k].url == o.candidate.url && UniqueUrls(rows)
    ensures SaveEffect(o, source, now, rows, rows[k := Refreshed(rows[k], o.candidate, now)], q, q, Some(rows[k]))
    ensures StoreGrew(rows, rows[k := Refreshed(rows[k], o.candidate, now)])
  {
    assert IndexOfUrl(rows, o.candidate.url) == k;
    RefreshedIsSameExceptBid(rows[k], o.candidate, now);
    StoreGrewUpdate(rows, k, Refreshed(rows[k], o.candidate, now));
  }

  /** Inserting a new row for an offer whose url is not stored, and queueing
      it, is the save's effect. */
  lemma InsertEffect(o: Offer, source: Source, now: int, rows: seq<Listing>, q: seq<QueueItem>)
    requires !o.storeFails && o.candidate.auctionDate != InvalidDate
    requires forall k :: 0 <= k < |rows| ==> rows[k].url != o.candidate.url
    requires WellFormed(q)
    ensures var c := o.candidate;
      var row := NewListing(c, c.url, source.name, Some(source.city), Some(source.state), now).(id := |rows| + 1);
      var q' := Enqueued(q, |rows| + 1, Normal, now);
      && SaveEffect(o, source, now, rows, rows + [row], q, q', Some(row))
      && StoreGrew(rows, rows + [row]) && NewRowsQueued(rows, rows + [row], q') && KeepsIds(q, q')
  {
    var c := o.candidate;
    var row := NewListing(c, c.url, source.name, Some(source.city), Some(source.state), now).(id := |rows| + 1);
    EnqueuedKeepsIds(q, |rows| + 1, Normal, now);
    EnqueuedProperties(q, |rows| + 1, Normal, now);
    StoreGrewAppend(rows, row);
    assert (rows + [row])[|rows|] == row;
  }

  /** The store part of `scrapeByUrl` for candidate `c`: a stored url gives
      its first row and changes nothing; otherwise an unparsable auction date
      fails and changes nothing, and any other candidate is inserted as a
      manual entry for the url and queued at normal priority. */
  ghost predicate ManualEffect(c: Candidate, url: string, now: int, rows: seq<Listing>, rows': seq<Listing>,
                               q: seq<QueueItem>, q': seq<QueueItem>, r: Result<Listing>)
  {
    if exists k :: 0 <= k < |rows| && rows[k].url == url then
      r == Ok(rows[IndexOfUrl(rows, url)]) && rows' == rows && q' == q
    else if c.auctionDate == InvalidDate then
      r.Err? && rows' == rows && q' == q
    else
      var row := NewListing(c, url, "Manual Entry", None, None, now).(id := |rows| + 1);
      r == Ok(row) && rows' == rows + [row] && q' == Enqueued(q, row.id, Normal, now)
  }

  lemma ManualFoundEffect(c: Candidate, url: string, now: int, rows: seq<Listing>, q: seq<QueueItem>, found: Listing)
    requires UniqueUrls(rows) && found in rows && found.url == url
    ensures ManualEffect(c, url, now, rows, rows, q, q, Ok(found))
  {
    var k :| 0 <= k < |rows| && rows[k] == found;
    assert IndexOfUrl(rows, url) == k;
  }

  lemma ManualInsertEffect(c: Candidate, url: string, now: int, rows: seq<Listing>, q: seq<QueueItem>)
    requires forall k :: 0 <= k < |rows| ==> rows[k].url != url
    requires c.auctionDate != InvalidDate
    ensures var row := NewListing(c, url, "Manual Entry", None, None, now).(id := |rows| + 1);
      ManualEffect(c, url, now, rows, rows + [row], q, Enqueued(q, |rows| + 1, Normal, now), Ok(row))
  {
  }

  lemma RefreshedIsSameExceptBid(l: Listing, c: Candidate, now: int)
    ensures SameExceptBid(l, Refreshed(l, c, now))
  {
  }

  /** The statistics record of one source in run `scrapeId`: well formed,
      naming the source, failed exactly when the page gave no extraction, and
      otherwise counting every extracted auction, with every missing url one
      of theirs. */
  ghost predicate StatsFor(st: ScraperStats, scrapeId: string, source: Source, outcome: ScrapeOutcome, now: int) {
    && StatsWellFormed(st)
    && st.scrapeId == scrapeId && st.sourceName == source.name && st.timestamp == now
    && (st.failedScrapes == 1 <==> !outcome.Extracted?)
    && (outcome.Extracted? ==>
          && st.discoveredUrls == |outcome.offers|
          && (forall m :: m in st.missingUrls ==> exists j :: 0 <= j < |outcome.offers| && outcome.offers[j].candidate.url == m))
  }

  /** One more record pushed by `scrapeSingleSource` keeps every earlier one
      and adds the total of saves. */
  lemma StatsPushed(before: seq<ScraperStats>, after: seq<ScraperStats>, scrapeId: string,
                    sources: seq<Source>, outcomes: nat -> ScrapeOutcome, now: int)
    requires |before| < |sources| && |after| == |before| + 1 && after[..|before|] == before
    requires forall j :: 0 <= j < |before| ==> StatsFor(before[j], scrapeId, sources[j], outcomes(j), now)
    requires StatsFor(after[|before|], scrapeId, sources[|before|], outcomes(|before|), now)
    ensures forall j :: 0 <= j < |after| ==> StatsFor(after[j], scrapeId, sources[j], outcomes(j), now)
    ensures TotalSaves(after) == TotalSaves(before) + after[|before|].successfulSaves
  {
    forall j | 0 <= j < |after| ensures StatsFor(after[j], scrapeId, sources[j], outcomes(j), now) {
      if j < |before| {
        assert after[j] == after[..|before|][j];
      }
    }
    assert after[..|after| - 1] == before;
  }

  /** A listing that differs from `before` at most in its bid and update time. */
  predicate SameExceptBid(before: Listing, after: Listing) {
    after.(currentBid := before.currentBid, updatedAt := before.updatedAt) == before
  }

  /** What a save did to the table: the rows before are kept up to their bid
      and update time, and rows added since are new pending, active listings. */
  ghost predicate StoreGrew(before: seq<Listing>, after: seq<Listing>) {
    && |before| <= |after|
    && (forall k :: 0 <= k < |before| ==> SameExceptBid(before[k], after[k]))
    && (forall k :: |before| <= k < |after| ==> after[k].enrichmentStatus == Pending && after[k].status == Active)
  }

  lemma StoreGrewRefl(rows: seq<Listing>)
    ensures StoreGrew(rows, rows)
  {
    forall k | 0 <= k < |rows| ensures SameExceptBid(rows[k], rows[k]) {
      assert rows[k].(currentBid := rows[k].currentBid, updatedAt := rows[k].updatedAt) == rows[k];
    }
  }

  lemma StoreGrewAppend(rows: seq<Listing>, row: Listing)
    requires row.enrichmentStatus == Pending && row.status == Active
    ensures StoreGrew(rows, rows + [row])
  {
    StoreGrewRefl(rows);
    forall k | 0 <= k < |rows| ensures SameExceptBid(rows[k], (rows + [row])[k]) {
      assert (rows + [row])[k] == rows[k];
    }
  }

  lemma StoreGrewUpdate(rows: seq<Listing>, k: nat, row: Listing)
    requires k < |rows| && SameExceptBid(rows[k], row)
    ensures StoreGrew(rows, rows[k := row])
  {
    StoreGrewRefl(rows);
  }

  lemma StoreGrewTransitive(a: seq<Listing>, b: seq<Listing>, c: seq<Listing>)
    requires StoreGrew(a, b) && StoreGrew(b, c)
    ensures StoreGrew(a, c)
  {
    forall k | 0 <= k < |a| ensures SameExceptBid(a[k], c[k]) {
      assert SameExceptBid(a[k], b[k]) && SameExceptBid(b[k], c[k]);
    }
  }

  /** Every listing added since `before` is in the enrichment queue. */
  ghost predicate NewRowsQueued(before: seq<Listing>, after: seq<Listing>, q: seq<QueueItem>) {
    forall k :: |before| <= k < |after| ==> after[k].id in Ids(q)
  }

  /** The ids of `q` are all still in `q'`. */
  ghost predicate KeepsIds(q: seq<QueueItem>, q': seq<QueueItem>) {
    forall id :: id in Ids(q) ==> id in Ids(q')
  }

  lemma KeepsIdsTransitive(q: seq<QueueItem>, q': seq<QueueItem>, q'': seq<QueueItem>)
    requires KeepsIds(q, q') && KeepsIds(q', q'')
    ensures KeepsIds(q, q'')
  {
  }

  lemma NewRowsQueuedTransitive(a: seq<Listing>, b: seq<Listing>, c: seq<Listing>, q: seq<QueueItem>, q': seq<QueueItem>)
    requires StoreGrew(a, b) && StoreGrew(b, c)
    requires NewRowsQueued(a, b, q) && NewRowsQueued(b, c, q') && KeepsIds(q, q')
    ensures NewRowsQueued(a, c, q')
  {
    forall k | |a| <= k < |c| ensures c[k].id in Ids(q') {
      if k < |b| {
        assert SameExceptBid(b[k], c[k]);
        assert c[k].id == b[k].id;
        assert b[k].id in Ids(q);
      }
    }
  }

  /** Where the save loop stands: the table, the queue, the rows returned so
      far and the urls reported missing so far. */
  datatype SaveState = SaveState(rows: seq<Listing>, queue: seq<QueueItem>, saved: seq<Listing>, missing: seq<string>)

  /** One turn of the save loop for an offer of `source`, as `SaveEffect`
      describes it: a throwing database call reports the url missing; a
      stored url has its row's bid refreshed and returns the row as it was; a
      new url with an unparsable date is reported missing; any other new url
      is inserted with the next id and queued at normal priority. */
  function SaveOne(o: Offer, source: Source, now: int, st: SaveState): SaveState {
    var c := o.candidate;
    if o.storeFails then st.(missing := st.missing + [c.url])
    else if exists k :: 0 <= k < |st.rows| && st.rows[k].url == c.url then
      var k := IndexOfUrl(st.rows, c.url);
      st.(rows := st.rows[k := Refreshed(st.rows[k], c, now)], saved := st.saved + [st.rows[k]])
    else if c.auctionDate == InvalidDate then st.(missing := st.missing + [c.url])
    else
      var row := NewListing(c, c.url, source.name, Some(source.city), Some(source.state), now).(id := |st.rows| + 1);
      SaveState(st.rows + [row], Enqueued(st.queue, row.id, Normal, now), st.saved + [row], st.missing)
  }

  /** The save loop of `scrapeSingleSource` over `offers`, in order, from `st`. */
  function SaveAll(offers: seq<Offer>, source: Source, now: int, st: SaveState): SaveState {
    if offers == [] then st
    else SaveOne(offers[|offers| - 1], source, now, SaveAll(offers[..|offers| - 1], source, now, st))
  }

  /** Saving one offer more continues the fold from where it stood. */
  lemma SaveAllNext(offers: seq<Offer>, i: nat, source: Source, now: int, st: SaveState)
    requires i < |offers|
    ensures SaveAll(offers[..i + 1], source, now, st) == SaveOne(offers[i], source, now, SaveAll(offers[..i], source, now, st))
  {
    assert offers[..i + 1][..i] == offers[..i];
  }

  predicate HasUrl(rows: seq<Listing>, u: string) {
    exists k :: 0 <= k < |rows| && rows[k].url == u
  }

  /** An offer that would be inserted were its url new: its database call
      works and its auction date parses. */
  predicate Stores(o: Offer) {
    !o.storeFails && o.candidate.auctionDate != InvalidDate
  }

  /** Url `u` is stored once `prefix` has been saved over `rows0`: it was
      stored already, or one of the offers of `prefix` that would be inserted
      has it. */
  predicate Known(u: string, rows0: seq<Listing>, prefix: seq<Offer>) {
    HasUrl(rows0, u) || exists i :: 0 <= i < |prefix| && Stores(prefix[i]) && prefix[i].candidate.url == u
  }

  /** Offer `j` is reported missing: its database call throws, or its url is
      not stored by then and its auction date does not parse. */
  predicate Missed(offers: seq<Offer>, j: nat, rows0: seq<Listing>)
    requires j < |offers|
  {
    offers[j].storeFails
    || (offers[j].candidate.auctionDate == InvalidDate && !Known(offers[j].candidate.url, rows0, offers[..j]))
  }

  /** The urls of the missed offers, in offer order. */
  function MissedUrls(offers: seq<Offer>, rows0: seq<Listing>): seq<string> {
    if offers == [] then []
    else
      var j := |offers| - 1;
      MissedUrls(offers[..j], rows0) + (if Missed(offers, j, rows0) then [offers[j].candidate.url] else [])
  }

  /** A save with the effect `SaveEffect` describes is one turn of `SaveOne`. */
  lemma SaveOneIsEffect(o: Offer, source: Source, now: int, st: SaveState,
                        rows': seq<Listing>, q': seq<QueueItem>, saved: Option<Listing>)
    requires SaveEffect(o, source, now, st.rows, rows', st.queue, q', saved)
    ensures SaveOne(o, source, now, st) ==
      if saved.Some? then SaveState(rows', q', st.saved + [saved.value], st.missing)
      else SaveState(rows', q', st.saved, st.missing + [o.candidate.url])
  {
  }

  /** One turn stores exactly the urls stored before and the offer's url when
      it would be inserted; it either returns a row or reports the url missing. */
  lemma SaveOneUrls(o: Offer, source: Source, now: int, st: SaveState)
    ensures forall u :: HasUrl(SaveOne(o, source, now, st).rows, u) <==> HasUrl(st.rows, u) || (Stores(o) && o.candidate.url == u)
    ensures SaveOne(o, source, now, st).missing ==
      st.missing + if o.storeFails || (o.candidate.auctionDate == InvalidDate && !HasUrl(st.rows, o.candidate.url))
                   then [o.candidate.url] else []
    ensures |SaveOne(o, source, now, st).saved| + |SaveOne(o, source, now, st).missing| == |st.saved| + |st.missing| + 1
  {
    var st' := SaveOne(o, source, now, st);
    var c := o.candidate;
    if !o.storeFails && HasUrl(st.rows, c.url) {
      var k := IndexOfUrl(st.rows, c.url);
      assert st'.rows == st.rows[k := Refreshed(st.rows[k], c, now)];
      assert forall j :: 0 <= j < |st.rows| ==> st'.rows[j].url == st.rows[j].url;
    } else if Stores(o) {
      var row := NewListing(c, c.url, source.name, Some(source.city), Some(source.state), now).(id := |st.rows| + 1);
      assert st'.rows == st.rows + [row];
      assert st'.rows[|st.rows|].url == c.url;
      forall u | HasUrl(st.rows, u) ensures HasUrl(st'.rows, u) {
        var k :| 0 <= k < |st.rows| && st.rows[k].url == u;
        assert st'.rows[k] == st.rows[k];
      }
    }
  }

  /** The save loop returns a row or reports the url of every offer; it
      reports exactly the missed offers' urls, in order; and afterwards the
      stored urls are those stored before and those of the offers that would
      be inserted. */
  lemma SaveAllOutcome(offers: seq<Offer>, source: Source, now: int, st: SaveState)
    ensures var t := SaveAll(offers, source, now, st);
      && |t.saved| + |t.missing| == |st.saved| + |st.missing| + |offers|
      && t.missing == st.missing + MissedUrls(offers, st.rows)
      && forall u :: HasUrl(t.rows, u) <==> Known(u, st.rows, offers)
  {
    SaveAllUrls(offers, source, now, st);
    SaveAllMissing(offers, source, now, st);
  }

  /** Known urls grow by the last offer's url when it would be inserted. */
  lemma KnownSnoc(u: string, rows0: seq<Listing>, offers: seq<Offer>)
    requires offers != []
    ensures var init, last := offers[..|offers| - 1], offers[|offers| - 1];
      Known(u, rows0, offers) <==> Known(u, rows0, init) || (Stores(last) && last.candidate.url == u)
  {
    var j := |offers| - 1;
    var init := offers[..j];
    if Known(u, rows0, offers) && !HasUrl(rows0, u) {
      var i :| 0 <= i < |offers| && Stores(offers[i]) && offers[i].candidate.url == u;
      if i < j {
        assert init[i] == offers[i];
      }
    }
    if Known(u, rows0, init) && !HasUrl(rows0, u) {
      var i :| 0 <= i < |init| && Stores(init[i]) && init[i].candidate.url == u;
      assert offers[i] == init[i];
    }
  }

  lemma {:induction false} SaveAllUrls(offers: seq<Offer>, source: Source, now: int, st: SaveState)
    ensures forall u :: HasUrl(SaveAll(offers, source, now, st).rows, u) <==> Known(u, st.rows, offers)
  {
    if offers != [] {
      var init, last := offers[..|offers| - 1], offers[|offers| - 1];
      SaveAllUrls(init, source, now, st);
      SaveOneUrls(last, source, now, SaveAll(init, source, now, st));
      forall u ensures Known(u, st.rows, offers) <==> Known(u, st.rows, init) || (Stores(last) && last.candidate.url == u) {
        KnownSnoc(u, st.rows, offers);
      }
    }
  }

  lemma {:induction false} SaveAllMissing(offers: seq<Offer>, source: Source, now: int, st: SaveState)
    ensures var t := SaveAll(offers, source, now, st);
      && |t.saved| + |t.missing| == |st.saved| + |st.missing| + |offers|
      && t.missing == st.missing + MissedUrls(offers, st.rows)
  {
    if offers != [] {
      var init, last := offers[..|offers| - 1], offers[|offers| - 1];
      SaveAllMissing(init, source, now, st);
      var t0 := SaveAll(init, source, now, st);
      SaveAllUrls(init, source, now, st);
      SaveOneUrls(last, source, now, t0);
      assert Known(last.candidate.url, st.rows, init) <==> HasUrl(t0.rows, last.candidate.url);
    }
  }

  /** A url is reported missing exactly when it is the url of a missed offer. */
  lemma {:induction false} MissedUrlsMembers(offers: seq<Offer>, rows0: seq<Listing>)
    ensures forall m :: m in MissedUrls(offers, rows0) <==>
      exists j :: 0 <= j < |offers| && Missed(offers, j, rows0) && offers[j].candidate.url == m
  {
    if offers != [] {
      var n := |offers| - 1;
      var init := offers[..n];
      MissedUrlsMembers(init, rows0);
      forall j | 0 <= j < n ensures Missed(init, j, rows0) == Missed(offers, j, rows0) {
        assert init[..j] == offers[..j];
      }
    }
  }

  /** Saving `offers` from a state with rows already returned or urls already
      reported appends to them what saving from empty lists would give. */
  lemma {:induction false} SaveAllShift(offers: seq<Offer>, source: Source, now: int, st: SaveState)
    ensures var t := SaveAll(offers, source, now, st.(saved := [], missing := []));
      SaveAll(offers, source, now, st) == SaveState(t.rows, t.queue, st.saved + t.saved, st.missing + t.missing)
  {
    if offers != [] {
      var init, last := offers[..|offers| - 1], offers[|offers| - 1];
      SaveAllShift(init, source, now, st);
      SaveOneAfter(last, source, now, SaveAll(init, source, now, st),
                   SaveAll(init, source, now, st.(saved := [], missing := [])), st.saved, st.missing);
    }
  }

  /** One more source in the fold: the state after scraping source `i` from
      the fold's table and queue is the fold over `i + 1` sources, whose saved
      rows gain exactly that source's saved rows. */
  lemma ScrapeFoldNext(sources: seq<Source>, outcomes: nat -> ScrapeOutcome, now: int, start: SaveState, i: nat,
                       rows': seq<Listing>, queue': seq<QueueItem>, auctions: seq<Listing>)
    requires i < |sources|
    requires var f := ScrapeFold(sources, outcomes, now, start, i);
      outcomes(i).Extracted? ==>
        var t := SaveAll(outcomes(i).offers, sources[i], now, SaveState(f.rows, f.queue, [], []));
        rows' == t.rows && queue' == t.queue && auctions == t.saved
    requires var f := ScrapeFold(sources, outcomes, now, start, i);
      !outcomes(i).Extracted? ==> auctions == [] && rows' == f.rows && queue' == f.queue
    ensures var f, g := ScrapeFold(sources, outcomes, now, start, i), ScrapeFold(sources, outcomes, now, start, i + 1);
      rows' == g.rows && queue' == g.queue && g.saved == f.saved + auctions
  {
    var f := ScrapeFold(sources, outcomes, now, start, i);
    if outcomes(i).Extracted? {
      SaveAllShift(outcomes(i).offers, sources[i], now, f);
      assert f.(saved := [], missing := []) == SaveState(f.rows, f.queue, [], []);
    } else {
      assert f.saved + auctions == f.saved;
    }
  }

  /** One turn from a state whose lists carry `saved` and `missing` in front
      appends to them what the same turn appends without them. */
  lemma SaveOneAfter(o: Offer, source: Source, now: int, x: SaveState, t: SaveState,
                     saved: seq<Listing>, missing: seq<string>)
    requires x == SaveState(t.rows, t.queue, saved + t.saved, missing + t.missing)
    ensures var u := SaveOne(o, source, now, t);
      SaveOne(o, source, now, x) == SaveState(u.rows, u.queue, saved + u.saved, missing + u.missing)
  {
    forall l: Listing ensures saved + t.saved + [l] == saved + (t.saved + [l]) { }
    forall m: string ensures missing + t.missing + [m] == missing + (t.missing + [m]) { }
  }

  /** The table, queue and results of `scrapeAllSources` after its first `n`
      sources, where scraping source `i` gives `outcomes(i)`: a source
      whose page gave extracted auctions has them saved in turn, and any other
      changes nothing. */
  function ScrapeFold(sources: seq<Source>, outcomes: nat -> ScrapeOutcome, now: int, st: SaveState, n: nat): SaveState
    requires n <= |sources|
  {
    if n == 0 then st
    else
      var prev := ScrapeFold(sources, outcomes, now, st, n - 1);
      if outcomes(n - 1).Extracted? then SaveAll(outcomes(n - 1).offers, sources[n - 1], now, prev) else prev
  }

  /** Some offer extracted from one of the first `n` sources has url `u`
      and would be inserted. */
  predicate ExtractedStores(u: string, outcomes: nat -> ScrapeOutcome, n: nat) {
    exists i :: 0 <= i < n && outcomes(i).Extracted? && Known(u, [], outcomes(i).offers)
  }

  /** Url `u` is stored after the first `n` sources of a run exactly when it
      was stored before or some offer extracted from one of them would be
      inserted. */
  lemma {:induction false} ScrapeFoldUrls(sources: seq<Source>, outcomes: nat -> ScrapeOutcome, now: int, st: SaveState, n: nat)
    requires n <= |sources|
    ensures forall u :: HasUrl(ScrapeFold(sources, outcomes, now, st, n).rows, u) <==>
      HasUrl(st.rows, u) || ExtractedStores(u, outcomes, n)
  {
    if n > 0 {
      ScrapeFoldUrls(sources, outcomes, now, st, n - 1);
      var prev := ScrapeFold(sources, outcomes, now, st, n - 1);
      var o := outcomes(n - 1);
      if o.Extracted? {
        SaveAllOutcome(o.offers, sources[n - 1], now, prev);
      }
      forall u ensures ExtractedStores(u, outcomes, n) <==>
        ExtractedStores(u, outcomes, n - 1) || (o.Extracted? && Known(u, [], o.offers))
      {
        if ExtractedStores(u, outcomes, n) {
          var i :| 0 <= i < n && outcomes(i).Extracted? && Known(u, [], outcomes(i).offers);
          if i < n - 1 {
            assert ExtractedStores(u, outcomes, n - 1);
          }
        }
      }
    }
  }

  class FirearmScraperService {
    const store: AuctionTable
    const queue: EnrichmentQueue
    const sources: seq<Source>
    var lastScrapeStats: seq<ScraperStats>
    var currentScrapeId: string
    var progress: Progress

    ghost predicate Valid()
      reads this, store, queue
    {
      && store.Valid() && queue.Valid() && !queue.isProcessing
      && (forall i :: 0 <= i < |lastScrapeStats| ==> StatsWellFormed(lastScrapeStats[i]))
    }

    /** The service over the given table and queue, scraping `sources` (the
        deployed service uses `Sources()`). */
    constructor(store: AuctionTable, queue: EnrichmentQueue, sources: seq<Source>)
      requires store.Valid() && queue.Valid() && !queue.isProcessing
      ensures Valid()
      ensures this.store == store && this.queue == queue && this.sources == sources
      ensures lastScrapeStats == [] && currentScrapeId == ""
      ensures progress == Progress(false, "", 0, 35, 0)
    {
      this.store := store;
      this.queue := queue;
      this.sources := sources;
      lastScrapeStats := [];
      currentScrapeId := "";
      progress := Progress(false, "", 0, 35, 0);
    }

    /** `getLastScrapeStats()`. */
    function LastScrapeStats(): (r: seq<ScraperStats>)
      reads this, store, queue
      requires Valid()
      ensures r == lastScrapeStats && forall i :: 0 <= i < |r| ==> StatsWellFormed(r[i])
    {
      lastScrapeStats
    }

    /** `getScrapeProgress()`. */
    function ScrapeProgress(): (r: Progress)
      reads this
      ensures r == progress
    {
      progress
    }

    /** The insert branch of the save loop: a candidate whose url is not yet
        stored becomes a new row and is queued for enrichment at normal
        priority; an unparsable auction date makes the insert fail. */
    method InsertOffer(o: Offer, source: Source, now: int) returns (saved: Option<Listing>)
      requires Valid() && !o.storeFails
      requires forall k :: 0 <= k < |store.rows| ==> store.rows[k].url != o.candidate.url
      modifies store, queue
      ensures Valid()
      ensures SaveEffect(o, source, now, old(store.rows), store.rows, old(queue.queue), queue.queue, saved)
      ensures StoreGrew(old(store.rows), store.rows)
      ensures NewRowsQueued(old(store.rows), store.rows, queue.queue)
      ensures KeepsIds(old(queue.queue), queue.queue)
    {
      var c := o.candidate;
      if c.auctionDate == InvalidDate {
        StoreGrewRefl(store.rows);
        return None;
      }
      InsertEffect(o, source, now, store.rows, queue.queue);
      var r := store.Insert(NewListing(c, c.url, source.name, Some(source.city), Some(source.state), now));
      queue.Add(r.id, Normal, now);
      saved := Some(r);
    }

    /** The update branch of the save loop: the stored row gets the new bid
        (when truthy) and a new update time; the row as it was is returned. */
    method RefreshOffer(o: Offer, source: Source, existing: Listing, now: int) returns (saved: Option<Listing>)
      requires Valid() && !o.storeFails
      requires existing in store.rows && existing.url == o.candidate.url
      modifies store
      ensures Valid()
      ensures SaveEffect(o, source, now, old(store.rows), store.rows, queue.queue, queue.queue, saved)
      ensures StoreGrew(old(store.rows), store.rows)
    {
      ValidTableHasUniqueUrls(store.rows, store.urlIndex);
      assert store.rows[existing.id - 1] == existing;
      RefreshEffect(o, source, now, store.rows, existing.id - 1, queue.queue);
      store.Update(Refreshed(existing, o.candidate, now));
      saved := Some(existing);
    }

    /** The body of the save loop for one candidate of `source`: look the url
        up; insert a new listing and queue it, or refresh the bid of the one
        found. A throwing database call or an unparsable auction date (on
        insert) is a failed save that changes nothing. */
    method SaveOffer(o: Offer, source: Source, now: int) returns (saved: Option<Listing>)
      requires Valid()
      modifies store, queue
      ensures Valid()
      ensures SaveEffect(o, source, now, old(store.rows), store.rows, old(queue.queue), queue.queue, saved)
      ensures StoreGrew(old(store.rows), store.rows)
      ensures NewRowsQueued(old(store.rows), store.rows, queue.queue)
      ensures KeepsIds(old(queue.queue), queue.queue)
    {
      if o.storeFails {
        StoreGrewRefl(store.rows);
        return None;
      }
      var existing := store.FindByUrl(o.candidate.url);
      if existing.None? {
        saved := InsertOffer(o, source, now);
      } else {
        saved := RefreshOffer(o, source, existing.value, now);
      }
    }

    /** One turn of the save loop: offer `i` is saved, and the table, the
        queue and the two lists become what `SaveAll` gives for one offer
        more; the table and queue keep the properties the loop started from. */
    method SaveNext(offers: seq<Offer>, i: nat, source: Source, now: int, saved: seq<Listing>, missing: seq<string>,
                    ghost rows0: seq<Listing>, ghost queue0: seq<QueueItem>)
        returns (saved': seq<Listing>, missing': seq<string>)
      requires Valid() && i < |offers|
      requires StoreGrew(rows0, store.rows) && NewRowsQueued(rows0, store.rows, queue.queue) && KeepsIds(queue0, queue.queue)
      requires SaveState(store.rows, queue.queue, saved, missing) ==
        SaveAll(offers[..i], source, now, SaveState(rows0, queue0, [], []))
      modifies store, queue
      ensures Valid()
      ensures SaveState(store.rows, queue.queue, saved', missing') ==
        SaveAll(offers[..i + 1], source, now, SaveState(rows0, queue0, [], []))
      ensures StoreGrew(rows0, store.rows) && NewRowsQueued(rows0, store.rows, queue.queue) && KeepsIds(queue0, queue.queue)
    {
      ghost var before := SaveState(store.rows, queue.queue, saved, missing);
      ghost var rowsBefore := store.rows;
      ghost var queueBefore := queue.queue;
      var r := SaveOffer(offers[i], source, now);
      SaveOneIsEffect(offers[i], source, now, before, store.rows, queue.queue, r);
      SaveAllNext(offers, i, source, now, SaveState(rows0, queue0, [], []));
      NewRowsQueuedTransitive(rows0, rowsBefore, store.rows, queueBefore, queue.queue);
      StoreGrewTransitive(rows0, rowsBefore, store.rows);
      KeepsIdsTransitive(queue0, queueBefore, queue.queue);
      if r.Some? {
        saved', missing' := saved + [r.value], missing;
      } else {
        saved', missing' := saved, missing + [offers[i].candidate.url];
      }
    }

    /** The save loop of `scrapeSingleSource`: every offer is saved in turn,
        as `SaveAll` folds `SaveOne` over them; each either counts as a save
        (its row is returned) or puts its url on the missing list. */
    method SaveOffers(offers: seq<Offer>, source: Source, now: int) returns (saved: seq<Listing>, missing: seq<string>)
      requires Valid()
      modifies store, queue
      ensures Valid()
      ensures SaveState(store.rows, queue.queue, saved, missing) ==
        SaveAll(offers, source, now, SaveState(old(store.rows), old(queue.queue), [], []))
      ensures |saved| + |missing| == |offers|
      ensures forall m :: m in missing ==> exists j :: 0 <= j < |offers| && offers[j].candidate.url == m
      ensures StoreGrew(old(store.rows), store.rows)
      ensures NewRowsQueued(old(store.rows), store.rows, queue.queue)
      ensures KeepsIds(old(queue.queue), queue.queue)
    {
      saved, missing := [], [];
      ghost var start := SaveState(store.rows, queue.queue, [], []);
      StoreGrewRefl(store.rows);
      var i := 0;
      while i < |offers|
        invariant 0 <= i <= |offers|
        invariant Valid()
        invariant SaveState(store.rows, queue.queue, saved, missing) == SaveAll(offers[..i], source, now, start)
        invariant StoreGrew(start.rows, store.rows)
        invariant NewRowsQueued(start.rows, store.rows, queue.queue)
        invariant KeepsIds(start.queue, queue.queue)
      {
        saved, missing := SaveNext(offers, i, source, now, saved, missing, start.rows, start.queue);
        i := i + 1;
      }
      assert offers[..i] == offers;
      SaveAllOutcome(offers, source, now, start);
      MissedUrlsMembers(offers, start.rows);
    }

    /** `scrapeSingleSource(source)` with the page scrape and extraction giving
        `outcome`: pushes exactly one statistics record, which `StatsFor`
        describes, and returns the rows saved (for a known url, the row as it
        was before the bid refresh). A page without data or a throwing scrape
        saves nothing. */
    method ScrapeSingleSource(source: Source, outcome: ScrapeOutcome, now: int) returns (saved: seq<Listing>)
      requires Valid()
      modifies this, store, queue
      ensures Valid()
      ensures progress == old(progress) && currentScrapeId == old(currentScrapeId)
      ensures |lastScrapeStats| == |old(lastScrapeStats)| + 1
      ensures lastScrapeStats[..|old(lastScrapeStats)|] == old(lastScrapeStats)
      ensures StatsFor(lastScrapeStats[|old(lastScrapeStats)|], currentScrapeId, source, outcome, now)
      ensures lastScrapeStats[|old(lastScrapeStats)|].successfulSaves == |saved|
      ensures !outcome.Extracted? ==> saved == [] && store.rows == old(store.rows) && queue.queue == old(queue.queue)
      ensures outcome.Extracted? ==>
        var t := SaveAll(outcome.offers, source, now, SaveState(old(store.rows), old(queue.queue), [], []));
        store.rows == t.rows && queue.queue == t.queue && saved == t.saved
        && lastScrapeStats[|old(lastScrapeStats)|].missingUrls == t.missing
      ensures StoreGrew(old(store.rows), store.rows)
      ensures NewRowsQueued(old(store.rows), store.rows, queue.queue)
      ensures KeepsIds(old(queue.queue), queue.queue)
    {
      var stats;
      if outcome.Extracted? {
        var missing;
        saved, missing := SaveOffers(outcome.offers, source, now);
        stats := ScraperStats(currentScrapeId, source.name, |outcome.offers|, |outcome.offers|,
                              |saved|, 0, |missing|, 0, now, missing);
      } else {
        StoreGrewRefl(store.rows);
        saved := [];
        stats := ScraperStats(currentScrapeId, source.name, 0, 0, 0, 1, 0, 0, now, []);
      }
      lastScrapeStats := lastScrapeStats + [stats];
    }

    /** `scrapeAllSources()`, where `outcomes(i)` is what scraping source `i`
        gives: a fresh statistics list with one record per source in source
        order, progress advanced past every source, and the saved rows of all
        sources concatenated. */
    method ScrapeAllSources(scrapeId: string, outcomes: nat -> ScrapeOutcome, now: int) returns (results: seq<Listing>)
      requires Valid()
      modifies this, store, queue
      ensures Valid()
      ensures currentScrapeId == scrapeId
      ensures |lastScrapeStats| == |sources|
      ensures forall i :: 0 <= i < |sources| ==> StatsFor(lastScrapeStats[i], scrapeId, sources[i], outcomes(i), now)
      ensures |results| == TotalSaves(lastScrapeStats)
      ensures progress.isActive == false
      ensures progress.completedSources == progress.totalSources == |sources|
      ensures progress.currentSource == if sources == [] then "Starting..." else sources[|sources| - 1].name
      ensures var f := ScrapeFold(sources, outcomes, now, SaveState(old(store.rows), old(queue.queue), [], []), |sources|);
        store.rows == f.rows && queue.queue == f.queue && results == f.saved
      ensures StoreGrew(old(store.rows), store.rows)
      ensures NewRowsQueued(old(store.rows), store.rows, queue.queue)
    {
      currentScrapeId := scrapeId;
      lastScrapeStats := [];
      progress := Progress(true, "Starting...", 0, |sources|, 0);
      results := [];
      ghost var start := SaveState(store.rows, queue.queue, [], []);
      StoreGrewRefl(store.rows);
      var i := 0;
      while i < |sources|
        invariant i <= |sources| && Scraped(i, scrapeId, outcomes, now, start, results)
        invariant progress == Progress(true, if i == 0 then "Starting..." else sources[i - 1].name, i, |sources|, 0)
      {
        results := ScrapeNext(i, scrapeId, outcomes, now, start, results);
        i := i + 1;
      }
      progress := progress.(isActive := false);
    }

    /** Where `scrapeAllSources` stands after its first `i` sources, from
        the table and queue of `start`: a record per source so far, the
        table, queue and results `ScrapeFold` gives, and new rows queued. */
    ghost predicate Scraped(i: nat, scrapeId: string, outcomes: nat -> ScrapeOutcome, now: int, start: SaveState,
                            results: seq<Listing>)
      reads this, store, queue
    {
      && i <= |sources| && Valid() && currentScrapeId == scrapeId
      && |lastScrapeStats| == i
      && (forall j :: 0 <= j < i ==> StatsFor(lastScrapeStats[j], scrapeId, sources[j], outcomes(j), now))
      && |results| == TotalSaves(lastScrapeStats)
      && store.rows == ScrapeFold(sources, outcomes, now, start, i).rows
      && queue.queue == ScrapeFold(sources, outcomes, now, start, i).queue
      && results == ScrapeFold(sources, outcomes, now, start, i).saved
      && StoreGrew(start.rows, store.rows) && NewRowsQueued(start.rows, store.rows, queue.queue)
      && KeepsIds(start.queue, queue.queue)
    }

    /** One turn of the loop of `scrapeAllSources`: source `i` is reported as
        current, scraped, and counted as completed, and its saved rows are
        added to the results. */
    method ScrapeNext(i: nat, scrapeId: string, outcomes: nat -> ScrapeOutcome, now: int, ghost start: SaveState,
                      results: seq<Listing>) returns (results': seq<Listing>)
      requires i < |sources| && Scraped(i, scrapeId, outcomes, now, start, results)
      modifies this, store, queue
      ensures Scraped(i + 1, scrapeId, outcomes, now, start, results')
      ensures progress == old(progress).(currentSource := sources[i].name, completedSources := i + 1)
    {
      progress := progress.(currentSource := sources[i].name, completedSources := i);
      ghost var rowsBefore := store.rows;
      ghost var queueBefore := queue.queue;
      ghost var statsBefore := lastScrapeStats;
      var auctions := ScrapeSingleSource(sources[i], outcomes(i), now);
      ScrapeFoldNext(sources, outcomes, now, start, i, store.rows, queue.queue, auctions);
      NewRowsQueuedTransitive(start.rows, rowsBefore, store.rows, queueBefore, queue.queue);
      StoreGrewTransitive(start.rows, rowsBefore, store.rows);
      KeepsIdsTransitive(start.queue, queueBefore, queue.queue);
      StatsPushed(statsBefore, lastScrapeStats, scrapeId, sources, outcomes, now);
      results' := results + auctions;
      progress := progress.(completedSources := i + 1);
    }

    /** `scrapeByUrl(url)`: fails when the page has no data or no first
        extracted auction (or when scraping throws); returns an existing row for
        the url unchanged; otherwise inserts the first auction as a manual entry
        for this url, with no source fallback for city and state, and queues it. */
    method ScrapeByUrl(url: string, outcome: ScrapeOutcome, storeError: Option<string>, now: int)
      returns (r: Result<Listing>)
      requires Valid()
      modifies store, queue
      ensures Valid()
      ensures outcome.NoData? ==> r == Err("Failed to scrape URL")
      ensures outcome.Threw? ==> r == Err(outcome.message)
      ensures outcome.Extracted? && outcome.offers == [] ==> r == Err("No auction data found at URL")
      ensures r.Err? ==> store.rows == old(store.rows) && queue.queue == old(queue.queue)
      ensures outcome.Extracted? && outcome.offers != [] && storeError.None? ==>
        ManualEffect(outcome.offers[0].candidate, url, now, old(store.rows), store.rows, old(queue.queue), queue.queue, r)
      ensures storeError.Some? && outcome.Extracted? && outcome.offers != [] ==> r == Err(storeError.value)
    {
      match outcome
      case NoData =>
        return Err("Failed to scrape URL");
      case Threw(message) =>
        return Err(message);
      case Extracted(offers) =>
        if offers == [] {
          return Err("No auction data found at URL");
        }
        if storeError.Some? {
          return Err(storeError.value);
        }
        r := SaveManualEntry(offers[0].candidate, url, now);
    }

    /** The store part of `scrapeByUrl`: a url already stored returns its row
        unchanged; otherwise the candidate is inserted as a manual entry for
        the url, with no city or state fallback, and queued at normal
        priority. An unparsable auction date makes the insert fail. */
    method SaveManualEntry(c: Candidate, url: string, now: int) returns (r: Result<Listing>)
      requires Valid()
      modifies store, queue
      ensures Valid()
      ensures ManualEffect(c, url, now, old(store.rows), store.rows, old(queue.queue), queue.queue, r)
    {
      var existing := store.FindByUrl(url);
      if existing.Some? {
        ValidTableHasUniqueUrls(store.rows, store.urlIndex);
        r := Ok(existing.value);
        ManualFoundEffect(c, url, now, old(store.rows), queue.queue, existing.value);
        return;
      }
      if c.auctionDate == InvalidDate {
        r := Err("Invalid time value");
        return;
      }
      ManualInsertEffect(c, url, now, store.rows, queue.queue);
      var row := store.Insert(NewListing(c, url, "Manual Entry", None, None, now));
      queue.Add(row.id, Normal, now);
      r := Ok(row);
    }
  }

  /** The number of rows saved across a run's statistics records. */
  function TotalSaves(stats: seq<ScraperStats>): nat {
    if stats == [] then 0 else TotalSaves(stats[..|stats| - 1]) + stats[|stats| - 1].successfulSaves
  }

  /** The index of the first row with the given url. */
  function IndexOfUrl(rows: seq<Listing>, url: string): (k: nat)
    requires exists k :: 0 <= k < |rows| && rows[k].url == url
    ensures k < |rows| && rows[k].url == url
    ensures forall j :: 0 <= j < k ==> rows[j].url != url
  {
    if rows[0].url == url then 0
    else
      var k :| 0 <= k < |rows| && rows[k].url == url;
      assert rows[1..][k - 1].url == url;
      1 + IndexOfUrl(rows[1..], url)
  }
}
