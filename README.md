# Firearms auction intelligence — a Dafny model of the service core

The system watches firearms auction houses and estate-sale sites. It scrapes
their listings into a `firearms_auctions` table. A language model then fills in
each listing's identification, condition, value and legal details. The system
matches new listings against users' saved alerts and computes price analytics
over a `price_history` table: comparable sales, undervalued "opportunities",
daily trends and competitor metrics. This project models these server services
as Dafny modules and proves what each one promises:

- `EnrichmentQueue` (`server/services/enrichmentQueue.ts`): the in-memory
  priority queue of auctions waiting for enrichment, with its retrying batch
  processor. It is a class whose `queue`, `isProcessing` and `stats` fields the
  methods update.
- `FirearmScraper` (`server/services/firearmScraper.ts`): scrapes the
  configured auction houses and saves what it finds. New listings are
  inserted; known urls only get their bid refreshed. Every new row is queued
  for enrichment, and each source's run is recorded as a statistics record.
- `FirearmEnrichment` (`server/services/firearmEnrichment.ts`): maps the
  model's JSON reply onto a listing, runs `enrichBatch` in chunks, and counts
  rows per enrichment status.
- `PriceAnalytics` (`server/services/priceAnalytics.ts`): comparables and
  their statistics, opportunities, competitor metrics and market shares,
  price trends by day, and recording a sale.
- `AlertEngine` (`server/services/alertEngine.ts`): criteria matching with
  reasons, checking active alerts against the listings of the last 24 hours,
  and stamping `lastTriggered`.
- `ScrapingCache` (`server/services/scrapingCache.ts`): the per-source site
  map cache with its 24-hour time to live.
- `RateLimiter` (`createRateLimiter` in `server/routes.ts`): the fixed-window
  request limiter. The dashboard's `avgDeviation` is in `PriceAnalytics`.
- `EstateMonitor` (`server/services/estateMonitor.ts`): scanning estate-sale
  sites, monitoring one url, and flagging high-value estates.

Shared modules:

- `FirearmsSchema` holds the rows of `shared/firearms-schema.ts`, plus
  JavaScript truthiness (`Truthy`, `Or`) for `x || y`.
- `AuctionStore` holds the `firearms_auctions` table as a class. Ids are
  serial and urls unique.
- `Text` holds `toLowerCase`, `trim` and `includes`.
- `Sequences` holds filter, sum, min/max, a stable sort and subsequences.

The outside world appears as parameters:

- the clock is an integer `now` in milliseconds;
- the page scraper, the extraction and the language model are functions from
  a url or text to a reply, or outcomes given per source, per attempt or per
  position;
- database failures are booleans saying whether a given query throws, or,
  where the thrown error is passed on to the caller (`scrapeByUrl`), the
  driver's message.

Where the description of the system and the code disagree, the model follows
the code:

- `getSiteMap` serves a row whose `expiresAt` equals the current time
  (`gte`), while `getStats` counts that row as expired (`>`). The model keeps
  both comparisons; `ScrapingCache.BoundaryRow` shows the boundary row.
- The scraper's initial progress says 35 sources, while the configured list
  has 34 (24 in Texas, 6 in Oklahoma, 4 in Louisiana). A run resets the count
  to the length of the list.
- `processAlerts` reports `errors == 0` on every run. `sendAlert` catches
  every error itself, and a match whose alert has disappeared still counts as
  sent.
- `enrichmentQueue`'s `processed` counts attempts, retries included, not
  auctions.

## Model

| member | source | states |
|---|---|---|
| Text.Lower | server/services/alertEngine.ts:80 | lower-casing keeps the length and maps each character on its own |
| Text.LowerIsLower | server/services/alertEngine.ts:80 | a lower-cased string is left alone by lower-casing again |
| Text.Trim | server/services/priceAnalytics.ts:83-84 | the trimmed string neither starts nor ends with white space |
| Text.TrimSpaceAround | server/services/priceAnalytics.ts:83-84 | the trimmed string occurs in the input right after its leading white space, and only white space comes before and after it |
| Text.Normalize | server/services/priceAnalytics.ts:83-84 | the comparability key `toLowerCase().trim()` is lower case |
| Text.LowerOfNormalize | server/services/priceAnalytics.ts:92-93 | SQL `LOWER` over a stored key changes nothing, so the comparable query is equality of keys |
| Text.NormalizeIdempotent | server/services/priceAnalytics.ts:317-319 | normalizing a key that is already normalized changes nothing |
| Text.ContainsIff | server/services/alertEngine.ts:80 | `includes` holds exactly when the needle occurs at some offset |
| Text.DecimalRoundTrip | server/services/firearmEnrichment.ts:175 | the id written in the not-found message reads back as the same number |
| Sequences.FilterMembers | server/services/estateMonitor.ts:211-216 | an element survives `filter` exactly when it is in the input and satisfies the predicate |
| Sequences.FilterIsSubsequence | server/services/estateMonitor.ts:211-216 | `filter` keeps the input order |
| Sequences.SortBy | server/services/priceAnalytics.ts:120 | the numeric sort returns a sorted permutation of its input |
| Sequences.SortByStable | server/services/priceAnalytics.ts:205 | the sort is stable: the elements with any one key come out in their input order |
| Sequences.MeanBetweenMinAndMax | server/services/priceAnalytics.ts:119-123 | the mean of the prices lies between `Math.min` and `Math.max` |
| AuctionStore.ValidTableHasUniqueUrls | shared/firearms-schema.ts:14 | the table with its url index never holds two rows with the same url |
| AuctionStore.AuctionTable.RowById | shared/firearms-schema.ts:9-14 | a row with a given id exists exactly for ids 1 to the row count, and it carries that id |
| AuctionStore.AuctionTable.FindByUrl | server/services/firearmScraper.ts:227-230 | the lookup by url finds a row exactly when one holds that url, and returns it |
| AuctionStore.AuctionTable.Insert | server/services/firearmScraper.ts:234-254 | an insert appends the row with the next serial id and keeps urls unique |
| AuctionStore.AuctionTable.Update | server/services/firearmScraper.ts:265-270 | an update by id replaces that one row and nothing else |
| EnrichmentQueue.SortByPriorityIsSorted | server/services/enrichmentQueue.ts:49-52 | after the sort, high comes before normal and normal before low |
| EnrichmentQueue.SortByPriorityPermutes | server/services/enrichmentQueue.ts:49-52 | the sort neither adds nor drops items |
| EnrichmentQueue.SortByPriorityKeepsTiers | server/services/enrichmentQueue.ts:49-52 | the sort is stable: each priority keeps its items in queue order |
| EnrichmentQueue.SortOfSorted | server/services/enrichmentQueue.ts:49-52 | a queue already in priority order is not changed by the sort |
| EnrichmentQueue.SortAfterAppend | server/services/enrichmentQueue.ts:41-52 | pushing an item onto a sorted queue and sorting inserts it after every item of the same or higher priority |
| EnrichmentQueue.EnqueuedProperties | server/services/enrichmentQueue.ts:33-55 | `add` keeps the queue free of duplicates and sorted; an id already queued leaves the queue unchanged; a new id goes in at its priority position with no retries |
| EnrichmentQueue.EnqueuedKeepsTierOrder | server/services/enrichmentQueue.ts:33-55 | a new id joins the end of its priority tier: first come, first served |
| EnrichmentQueue.EnqueuedKeepsIds | server/services/enrichmentQueue.ts:33-55 | `add` never removes a queued auction, and adds no auction other than its own |
| EnrichmentQueue.EnqueuedAllProperties | server/services/enrichmentQueue.ts:60-63 | after `addBatch` an id is in the queue exactly when it was given or queued before, each once, in priority order |
| EnrichmentQueue.ErrorText | server/services/enrichmentQueue.ts:151 | the recorded error is the error's message when that is non-empty, and is never empty |
| EnrichmentQueue.FateFrom | server/services/enrichmentQueue.ts:137-157 | an item succeeds on an attempt whose outcome is success, within `maxRetries + 1` attempts, or gives up with the message of its last failed attempt |
| EnrichmentQueue.GivesUpIffAllAttemptsThrow | server/services/enrichmentQueue.ts:143-154 | an item gives up exactly when every one of its `maxRetries + 1` attempts throws; otherwise every attempt before the successful one threw |
| EnrichmentQueue.Finished | server/services/enrichmentQueue.ts:132-170 | once nothing is pending, every auction either succeeded or is in the error list, exactly once; attempts per auction match its fate, and the first pass follows queue order |
| EnrichmentQueue.EnrichmentQueue.constructor | server/services/enrichmentQueue.ts:24-28 | a new queue is empty, idle, and has no statistics |
| EnrichmentQueue.EnrichmentQueue.Add | server/services/enrichmentQueue.ts:33-55 | the queue becomes `Enqueued` of the old queue, and the flag and statistics are kept |
| EnrichmentQueue.EnrichmentQueue.AddBatch | server/services/enrichmentQueue.ts:60-63 | the queue becomes `EnqueuedAll` of the old queue, which adds the ids one at a time |
| EnrichmentQueue.EnrichmentQueue.Status | server/services/enrichmentQueue.ts:68-78 | the status reports the queue length, the processing flag and the last run's statistics |
| EnrichmentQueue.EnrichmentQueue.GetQueue | server/services/enrichmentQueue.ts:210-212 | returns the queued items as they are |
| EnrichmentQueue.EnrichmentQueue.Clear | server/services/enrichmentQueue.ts:202-205 | the queue becomes empty; the flag and statistics are kept |
| EnrichmentQueue.EnrichmentQueue.ProcessQueue | server/services/enrichmentQueue.ts:100-181 | during a run it returns the current statistics and changes nothing; an empty queue gives all-zero statistics; otherwise the queue is drained and left idle, successful + failed == total, total <= processed <= (maxRetries + 1) * total, every queued auction either succeeded or is in the error list exactly once as its attempts decide, each auction is attempted as often as its fate says, and the first pass follows the queue's priority order |
| EnrichmentQueue.EnrichmentQueue.RunBatch | server/services/enrichmentQueue.ts:133-158 | one batch taken off the front of the queue is attempted item by item: each attempt keeps every queued auction accounted for (pending, succeeded or in the error list, once) with its attempts and fate, keeps the counters in step with the attempt log, and spends at least one unit of the retry budget |
| EnrichmentQueue.ErrorsAreGiveUps | server/services/enrichmentQueue.ts:137-156 | when each queued auction is a success or an error, successes succeed and errors give up, an auction is in the error list exactly when its attempts give up |
| EnrichmentQueue.EnrichmentQueue.StartProcessing | server/services/enrichmentQueue.ts:100-197 | while a run is going on, nothing changes; otherwise the queue is drained and the processor left idle. An empty queue leaves the statistics as they were. Otherwise the run's statistics are left: all queued auctions counted, started and ended at `now`, successes plus failures equal to the total, one error per failure, processed at most `MaxRetries + 1` times the total, and an auction in the error list exactly when all its attempts fail, with its last message |
| FirearmScraper.NewListingProperties | server/services/firearmScraper.ts:232-254 | an inserted row is pending and active with the candidate's title and url; optional fields are the candidate's when truthy and null otherwise, so a stored bid is never 0; city and state fall back to the source's; a date is stored exactly for a parsable date |
| FirearmScraper.RefreshedChangesOnlyBid | server/services/firearmScraper.ts:263-270 | re-scraping a known url changes only the bid and `updatedAt`; the bid changes only when the page shows a truthy one |
| FirearmScraper.RefreshEffect | server/services/firearmScraper.ts:263-274 | refreshing the row that holds the offer's url is a successful save that returns the row as it was before |
| FirearmScraper.StatsPushed | server/services/firearmScraper.ts:282-283 | pushing one statistics record keeps the earlier ones and adds its saves to the run total |
| FirearmScraper.StoreGrewTransitive | server/services/firearmScraper.ts:224-280 | saves compose: earlier rows are kept except for bid and update time, and added rows are pending and active |
| FirearmScraper.NewRowsQueuedTransitive | server/services/firearmScraper.ts:256-262 | across several saves, every inserted row is in the enrichment queue |
| FirearmScraper.SaveAllOutcome | server/services/firearmScraper.ts:223-280 | after saving the offers one after another, each offer is either returned or reported missing; the missing urls are those of the offers whose store throws or whose new url has no parsable date, in offer order; a url is in the table exactly when it was before or an offer that stores has it |
| FirearmScraper.MissedUrlsMembers | server/services/firearmScraper.ts:232-278 | a url is reported missing exactly when some offer with that url is missed |
| FirearmScraper.ScrapeFoldUrls | server/services/firearmScraper.ts:139-157 | after a run over the first n sources a url is in the table exactly when it was before or an offer extracted from one of them stores it |
| FirearmScraper.FirearmScraperService.constructor | server/services/firearmScraper.ts:56-68 | no statistics, an empty scrape id, and initial progress idle with 35 sources |
| FirearmScraper.FirearmScraperService.LastScrapeStats | server/services/firearmScraper.ts:114-116 | returns the records of the last run; each is well formed: processed equals discovered, and saves plus failed saves equal processed |
| FirearmScraper.FirearmScraperService.ScrapeProgress | server/services/firearmScraper.ts:119-121 | returns the current progress record |
| FirearmScraper.FirearmScraperService.InsertOffer | server/services/firearmScraper.ts:232-262 | a new url is inserted as a pending, active row and queued for enrichment at normal priority; an unparsable auction date makes the insert fail |
| FirearmScraper.FirearmScraperService.RefreshOffer | server/services/firearmScraper.ts:263-274 | a known url gets its bid refreshed and is reported as saved |
| FirearmScraper.FirearmScraperService.SaveOffer | server/services/firearmScraper.ts:225-279 | one candidate is saved by insert or refresh, or counted as missing when the database throws; the table only grows as described, and new rows are queued |
| FirearmScraper.FirearmScraperService.SaveOffers | server/services/firearmScraper.ts:223-280 | the table, the queue, the rows returned and the missing urls are what saving the offers one after another gives (`SaveAll`); each offer is either returned or reported missing, and each missing url is an offer's url |
| FirearmScraper.FirearmScraperService.ScrapeSingleSource | server/services/firearmScraper.ts:182-293 | exactly one statistics record is pushed, matching the scrape outcome; on extracted auctions the table, queue, rows returned and missing urls are those of `SaveAll` over them and the saves equal the rows returned; a failed page saves nothing and changes no table |
| FirearmScraper.FirearmScraperService.ScrapeAllSources | server/services/firearmScraper.ts:124-179 | one statistics record per source, in order; the table, queue and rows returned are those of saving each source's extracted auctions in source order (`ScrapeFold`); progress ends inactive with every source completed and the last source named |
| FirearmScraper.FirearmScraperService.ScrapeByUrl | server/services/firearmScraper.ts:296-365 | fails with "Failed to scrape URL", "No auction data found at URL", the scraper's thrown error or the database driver's error, and then changes nothing; a known url returns its first row and changes nothing; otherwise the first candidate is inserted as "Manual Entry" without a source fallback for city and state, and queued at normal priority |
| FirearmScraper.FirearmScraperService.SaveManualEntry | server/services/firearmScraper.ts:321-359 | a url already stored returns its first row and changes nothing; otherwise the candidate becomes a new "Manual Entry" row for that url, with no city or state fallback, queued at normal priority; an unparsable auction date fails and changes nothing |
| FirearmScraper.IndexOfUrl | server/services/firearmScraper.ts:322-325 | `LIMIT 1` on the url picks the first row holding it |
| FirearmEnrichment.NullDefaults | server/services/firearmEnrichment.ts:217-266 | each null-defaulted field is null exactly when the reply's value is falsy, and otherwise the reply's value |
| FirearmEnrichment.FalseAndEmptyDefaults | server/services/firearmEnrichment.ts:238-261 | the false-defaulted flags are true exactly when the reply says true; a missing list becomes empty, and a given one is kept |
| FirearmEnrichment.FlagDefault | server/services/firearmEnrichment.ts:238 | `flag \|\| false` is true exactly for a present `true` |
| FirearmEnrichment.AuctionFallbacks | server/services/firearmEnrichment.ts:247-252 | the auction fields come from the reply when truthy and from the stored listing otherwise; a known bid is never lost |
| FirearmEnrichment.StatusAfter | server/services/firearmEnrichment.ts:302 | the status becomes sold or active exactly when the reply says so; otherwise it is the status before |
| FirearmEnrichment.EnrichedProperties | server/services/firearmEnrichment.ts:270-308 | the enriched row is completed at `now` and keeps the listing's identity, place and date; an empty accessory list is stored as null |
| FirearmEnrichment.NotFoundEffect | server/services/firearmEnrichment.ts:174-176 | an unknown id fails with the not-found message and changes no row |
| FirearmEnrichment.FailedEffect | server/services/firearmEnrichment.ts:311-323 | a failed model call marks the row failed at `now` and passes the error on |
| FirearmEnrichment.CompletedEffect | server/services/firearmEnrichment.ts:214-310 | a reply completes the row with the mapped result, which is returned |
| FirearmEnrichment.EnrichEffectOutcome | server/services/firearmEnrichment.ts:343-353 | an enrichment fails exactly when the batch records an error for that id, with the same message |
| FirearmEnrichment.BatchError | server/services/firearmEnrichment.ts:347-352 | an id gets an error entry exactly when it has no row or the model call fails |
| FirearmEnrichment.BatchErrorsAreFailures | server/services/firearmEnrichment.ts:341-359 | an id is in the batch's error list exactly when it fails at some position of the batch |
| FirearmEnrichment.StatsPartition | server/services/firearmEnrichment.ts:372-384 | the four status counts plus the rows with any other status add up to the total, so the four never exceed it, and equal it when every row has one of the four |
| FirearmEnrichment.CountStatusUpdate | server/services/firearmEnrichment.ts:179-181 | changing one row's status moves exactly one unit between two counts |
| FirearmEnrichment.FirearmEnrichmentService.constructor | server/services/firearmEnrichment.ts:163 | the service works on the given table |
| FirearmEnrichment.FirearmEnrichmentService.EnrichFirearmAuction | server/services/firearmEnrichment.ts:167-324 | not found, failed and completed as in the three effect lemmas above; the table stays valid |
| FirearmEnrichment.FirearmEnrichmentService.EnrichChunk | server/services/firearmEnrichment.ts:342-356 | one chunk carries the counters and error list forward: errors as `BatchErrors`, failures counted, successes plus failures equal the ids done; the table is the fold of the enrichments over the ids done |
| FirearmEnrichment.FirearmEnrichmentService.EnrichNext | server/services/firearmEnrichment.ts:344-353 | one id of a chunk fails exactly when `BatchError` gives it an entry, with the message, and the table gains that id's enrichment |
| FirearmEnrichment.FirearmEnrichmentService.EnrichBatch | server/services/firearmEnrichment.ts:329-360 | successes plus failures equal the number of ids, the error list is every failing id in order; the new table is `EnrichAll` of the old one, each id enriched in turn with its own reply, so rows of other ids are unchanged and every enriched row ends completed or failed |
| FirearmEnrichment.FoldRowsUnchanged | server/services/firearmEnrichment.ts:341-356 | a row whose id is not in the batch is left as it was |
| FirearmEnrichment.FoldRowsLast | server/services/firearmEnrichment.ts:341-356 | the row of an id ends as its last enrichment in the batch leaves it, starting from the row as the earlier ids left it |
| FirearmEnrichment.EnrichAllOnce | server/services/firearmEnrichment.ts:343-353 | an id that occurs once in a batch ends as its own reply leaves its original row: completed with the result mapped from that reply at `now`, or failed at `now` when the model call fails |
| FirearmEnrichment.EnrichAllSettles | server/services/firearmEnrichment.ts:341-356 | after a batch the rows of other ids are as they were, and every row of an id in the batch is completed or failed |
| PriceAnalytics.MatchingRecords | server/services/priceAnalytics.ts:87-99 | every returned row is in the history and matches both keys and the condition |
| PriceAnalytics.MatchingRecordsComplete | server/services/priceAnalytics.ts:87-99 | every matching row of the history is returned |
| PriceAnalytics.Selected | server/services/priceAnalytics.ts:101-103 | the rows read are matches, newest first, `min(2 * limit, matches)` of them, and no match left out is newer than one read |
| PriceAnalytics.FindComparables | server/services/priceAnalytics.ts:76-148 | the sample has at most `2 * limit` rows, and at most `limit` comparables are shown |
| PriceAnalytics.ComparablesSelection | server/services/priceAnalytics.ts:101-115 | the sample size is the number of matches capped at 2 * limit; the comparables are the first selected rows, newest first; without matches every figure is zero |
| PriceAnalytics.ComparablesStatistics | server/services/priceAnalytics.ts:117-136 | the average is the sum over the sample size; the median is the middle of the sorted prices; minimum and maximum are prices of the sample; average and median lie between them |
| PriceAnalytics.MedianBounds | server/services/priceAnalytics.ts:120-121 | the middle element of the sorted prices lies between the minimum and the maximum |
| PriceAnalytics.DayMonotone | server/services/priceAnalytics.ts:138 | a later timestamp never has an earlier calendar day |
| PriceAnalytics.RecordedSaleMatches | server/services/priceAnalytics.ts:305-327 | a recorded sale is found by a later comparables query whose manufacturer and model normalize to the same keys |
| PriceAnalytics.OpportunityFrom | server/services/priceAnalytics.ts:180-201 | a listing is an opportunity exactly when it has at least 3 comparables and a deviation at or above the threshold; the item carries the listing's id, url and bid and the average as estimate |
| PriceAnalytics.Opportunity | server/services/priceAnalytics.ts:168-201 | an opportunity comes only from a listing with manufacturer, model and bid, and clears the threshold |
| PriceAnalytics.OpportunityIsUndervalued | server/services/priceAnalytics.ts:180-201 | an opportunity has at least 3 comparables, a non-zero bid and the average as estimate; with at least 3 comparables and a positive average, a listing is an opportunity exactly when its bid is at most `(1 - threshold/100)` times the average |
| PriceAnalytics.BelowAverage | server/services/priceAnalytics.ts:186-189 | the deviation test is the same as comparing the bid with a fraction of the average |
| PriceAnalytics.Opportunities | server/services/priceAnalytics.ts:166-202 | every collected item clears the threshold |
| PriceAnalytics.OpportunitiesMembers | server/services/priceAnalytics.ts:168-202 | an item is collected exactly when some listing yields it |
| PriceAnalytics.AvgDeviationAtLeastThreshold | server/routes.ts:518-520 | the dashboard's average deviation is 0 without opportunities, and otherwise at least the threshold |
| PriceAnalytics.SoldItems | server/services/priceAnalytics.ts:217-228 | an item is selected exactly when it is a listing sold by that house, in that category, within the date range |
| PriceAnalytics.SalePrices | server/services/priceAnalytics.ts:235-237 | the prices are the bids of the items that have one, in item order |
| PriceAnalytics.Realization | server/services/priceAnalytics.ts:248-251 | 100 when the estimate midpoint is not positive; otherwise at least, exactly or below 100 as the bid is at least, exactly or below the midpoint, and negative exactly for a negative bid |
| PriceAnalytics.MetricForProperties | server/services/priceAnalytics.ts:234-264 | the row counts every sold item with the given house, category and range; the average price is defined exactly when some item has a bid and lies between the least and the greatest bid; the realization rate lies between the least and greatest realization, and is 100 when no item has an estimate |
| PriceAnalytics.RealizationAtEstimate | server/services/priceAnalytics.ts:246-253 | items that all sold at their estimate midpoint give a realization rate of exactly 100 |
| PriceAnalytics.GroupKeys | server/services/priceAnalytics.ts:285-286 | the groups are the distinct (house, category) pairs of the metrics, each once |
| PriceAnalytics.InCategory | server/services/priceAnalytics.ts:281-283 | a metric is read exactly when it is of the category, or every metric is read without a category |
| PriceAnalytics.CompetitorComparison | server/services/priceAnalytics.ts:270-300 | with a category filter, every row is of that category (the figures of each row: `CompetitorRowFields`) |
| PriceAnalytics.CompetitorGroups | server/services/priceAnalytics.ts:281-287 | with a category filter, every group is of that category (the grouping itself: `CompetitorGroupsByKey`) |
| PriceAnalytics.InGroupMembers | server/services/priceAnalytics.ts:285-286 | a metric belongs to a group exactly when it has the group's (house, category) key |
| PriceAnalytics.GroupsByKey | server/services/priceAnalytics.ts:285-286 | one group per distinct key, in key order, each the aggregate of that key's metrics, no two groups alike |
| PriceAnalytics.CompetitorGroupsByKey | server/services/priceAnalytics.ts:271-287 | the groups are a rearrangement of `Groups` of the category's metrics: every key present among them has exactly one group, and each group is the average price, summed volume and average realization rate of exactly that key's metrics |
| PriceAnalytics.CompetitorRowFields | server/services/priceAnalytics.ts:290-299 | each output row carries its group's house, category, average price, volume and realization rate, and its share is its volume over the output's total volume, times 100 (undefined when the total is 0) |
| PriceAnalytics.CompetitorShares | server/services/priceAnalytics.ts:285-299 | rows are ordered by volume, largest first; with a positive total volume every share is defined and the shares add up to 100 |
| PriceAnalytics.InWindow | server/services/priceAnalytics.ts:52-62 | a history row is read exactly when it is dated at or after the cutoff |
| PriceAnalytics.BucketsProperties | server/services/priceAnalytics.ts:63-64 | grouping rows sorted by day gives non-empty groups in strictly ascending day order, each holding exactly the rows of its day, with every row's day present |
| PriceAnalytics.PriceTrendsProperties | server/services/priceAnalytics.ts:48-71 | the trend dates ascend strictly and are exactly the days of the window rows; each day's volume is its number of window rows and its average price their mean sale price; the volumes add up to the rows in the window |
| PriceAnalytics.PriceAnalyticsService.constructor | server/services/priceAnalytics.ts:44 | the service starts with empty price history and metrics tables |
| PriceAnalytics.PriceAnalyticsService.FindOpportunities | server/services/priceAnalytics.ts:154-206 | the result is a permutation of the opportunities of the active, enriched listings, highest deviation first, each clearing the threshold; opportunities with equal deviation keep their listing order |
| PriceAnalytics.PriceAnalyticsService.UpdateCompetitorMetrics | server/services/priceAnalytics.ts:211-265 | with no sold items nothing is written; otherwise exactly one metrics row for them is appended |
| PriceAnalytics.PriceAnalyticsService.RecordSale | server/services/priceAnalytics.ts:305-327 | appends exactly the sale with its normalized keys; nothing else changes |
| AlertEngine.IndexOf | server/services/alertEngine.ts:134-136 | `indexOf` gives the first position of the value, or -1 exactly when it is absent |
| AlertEngine.Checks | server/services/alertEngine.ts:78-159 | there are nine criteria, evaluated in source order |
| AlertEngine.EvaluateMeaning | server/services/alertEngine.ts:78-164 | any failed criterion gives "no match" with no reasons; otherwise the reasons are those of the passed checks in order, and it is a match exactly when there is at least one |
| AlertEngine.TextCheckMeaning | server/services/alertEngine.ts:79-103 | a text criterion passes exactly when the listing field contains it, ignoring case; a missing field fails; an empty criterion is skipped |
| AlertEngine.FlagMeaning | server/services/alertEngine.ts:146-159 | a requested flag passes exactly when the listing's flag is true |
| AlertEngine.CheckOutcomes | server/services/alertEngine.ts:78-159 | each check fails exactly when its criterion is violated, including the price test only when both bound and bid are truthy, and rarity with a missing rarity read as "Common" |
| AlertEngine.CheckApplies | server/services/alertEngine.ts:78-159 | each check takes part exactly when its criterion is truthy |
| AlertEngine.ChecksHold | server/services/alertEngine.ts:78-159 | no check fails exactly when every criterion holds |
| AlertEngine.ChecksApply | server/services/alertEngine.ts:161-164 | without a failure, some reason is pushed exactly when some criterion applies |
| AlertEngine.PassedReasonsEmpty | server/services/alertEngine.ts:161-164 | no reasons exactly when no check passed |
| AlertEngine.MatchesCriteriaMeaning | server/services/alertEngine.ts:72-165 | a listing matches exactly when every criterion holds and at least one applies; a match always has reasons and a non-match none |
| AlertEngine.EmptyCriteriaMatchNothing | server/services/alertEngine.ts:161-164 | an alert without criteria matches no listing |
| AlertEngine.ColtBudgetAlert | server/services/alertEngine.ts:79-130 | "Colt" with a 1000 limit matches a "Colt Firearms" listing bidding 900 and not one bidding 1100 |
| AlertEngine.RarityEdges | server/services/alertEngine.ts:133-143 | an unknown minimum rarity (-1) admits every listing; an unknown listing rarity meets no known minimum |
| AlertEngine.ActiveAlerts | server/services/alertEngine.ts:29-32 | an alert is checked exactly when it is active |
| AlertEngine.RecentListings | server/services/alertEngine.ts:39-45 | a listing is checked exactly when it was scraped in the last 24 hours |
| AlertEngine.AlertMatchesMembers | server/services/alertEngine.ts:53-63 | a match of an alert is exactly a matching listing with the reasons of its evaluation |
| AlertEngine.AllMatchesMembers | server/services/alertEngine.ts:50-64 | the matches of all alerts are exactly the matches of each alert |
| AlertEngine.AllMatchesCount | server/services/alertEngine.ts:50-64 | the number of matches is the number of matching (alert, listing) pairs |
| AlertEngine.StampAllEffect | server/services/alertEngine.ts:197-200 | stamping changes only `lastTriggered`: it becomes `now` on exactly the alerts whose id was sent, and other alerts are unchanged |
| AlertEngine.SentStep | server/services/alertEngine.ts:230-238 | sending the next match stamps its alert unless the send fails |
| AlertEngine.AlertEngineService.constructor | shared/firearms-schema.ts:143-154 | the engine works on the given `user_alerts` rows |
| AlertEngine.AlertEngineService.CheckAlerts | server/services/alertEngine.ts:27-67 | the matches of every active alert against the recent listings, alert by alert, in listing order; their number is the number of matching pairs |
| AlertEngine.AlertEngineService.MatchAlert | server/services/alertEngine.ts:53-63 | one alert's matches are exactly those of `AlertMatches`: a match for each recent listing that meets the criteria, with that evaluation's reasons, in listing order |
| AlertEngine.AlertEngineService.SendAlert | server/services/alertEngine.ts:171-215 | a successful send stamps the alert's `lastTriggered`; a failure or a missing alert changes nothing |
| AlertEngine.AlertEngineService.ProcessAlerts | server/services/alertEngine.ts:220-245 | `totalMatches` is the number of matching pairs; `alertsSent` equals it; `errors` is 0; the alerts of the sends that did not fail are stamped |
| ScrapingCache.Find | server/services/scrapingCache.ts:42-45 | finds a row of the source exactly when one exists |
| ScrapingCache.Unexpired | server/services/scrapingCache.ts:9-21 | a site map is served exactly when a row of the source has not expired (`expiresAt >= now`) |
| ScrapingCache.SavedEffect | server/services/scrapingCache.ts:31-75 | the source keeps a single row holding the new urls and counts, lastScraped now and expiry 24 hours later; an existing row keeps its name; other sources are untouched |
| ScrapingCache.SavedIsServed | server/services/scrapingCache.ts:38-39 | a saved site map is served until its 24 hours run out |
| ScrapingCache.NewUrlsMeaning | server/services/scrapingCache.ts:80-93 | new urls keep the current order, and a url is new exactly when it is current and not in a usable cached list |
| ScrapingCache.StatsPartition | server/services/scrapingCache.ts:126-141 | valid plus expired equals total |
| ScrapingCache.BoundaryRow | server/services/scrapingCache.ts:126-132 | a row expiring exactly now is counted as expired by `getStats` (`>`) but still served by `getSiteMap` (`gte`) |
| ScrapingCache.InvalidatedEffect | server/services/scrapingCache.ts:111-121 | after invalidation, no site map of the source is served after the epoch; other sources are unchanged |
| ScrapingCache.Invalidated | server/services/scrapingCache.ts:113-115 | invalidation removes no row |
| ScrapingCache.ScrapingCacheService.constructor | server/services/scrapingCache.ts:5 | the cache starts empty |
| ScrapingCache.ScrapingCacheService.GetSiteMap | server/services/scrapingCache.ts:9-26 | returns an unexpired row of the source when there is one, and null when there is none or the lookup throws |
| ScrapingCache.ScrapingCacheService.SaveSiteMap | server/services/scrapingCache.ts:31-75 | the table becomes the upsert `Saved`, or stays as it was when the query throws |
| ScrapingCache.ScrapingCacheService.GetNewUrls | server/services/scrapingCache.ts:80-98 | the result keeps the current urls' order; all of them when the lookup fails; otherwise those the served cache does not know |
| ScrapingCache.ScrapingCacheService.IsValid | server/services/scrapingCache.ts:103-106 | true exactly when an unexpired row of the source exists and the lookup succeeds |
| ScrapingCache.ScrapingCacheService.Invalidate | server/services/scrapingCache.ts:111-121 | the table becomes `Invalidated`, or stays as it was when the update throws |
| ScrapingCache.ScrapingCacheService.GetStats | server/services/scrapingCache.ts:126-153 | the statistics of the table, all zero when the query throws; valid plus expired equals total |
| RateLimiter.ClientKey | server/routes.ts:17 | the client key is never empty, and is the ip, the remote address or "unknown" |
| RateLimiter.ClientKeyShared | server/routes.ts:17 | a request with an ip is keyed by it whatever its remote address; two requests with ips share a key exactly when the ips are equal; all requests with neither share the one "unknown" key |
| RateLimiter.StepBounded | server/routes.ts:21-34 | each entry counts between 1 and the limit (1 when the limit is 0); a refused request leaves the entry unchanged |
| RateLimiter.WithinWindow | server/routes.ts:26-34 | inside an open window with `count` requests, at most `max - count` more are allowed |
| RateLimiter.FixedWindowBound | server/routes.ts:13-36 | once a window opens at `t0`, at most `maxRequests` requests (at least the first, when the limit is 0) are allowed up to `t0 + windowMs` |
| RateLimiter.ScrapingLimit | server/routes.ts:40 | the scraping limiter lets a client through at most 10 times in the minute after its window opens |
| RateLimiter.ExpiredWindowAllows | server/routes.ts:21-24 | a client whose window has run out is let through, and a new window starts |
| RateLimiter.Limiter.constructor | server/routes.ts:13-14 | a new limiter has an empty map and the given limits |
| RateLimiter.Limiter.Handle | server/routes.ts:16-35 | the request is allowed as `Step` decides; only the requesting client's entry changes, and all entries stay bounded |
| EstateMonitor.CeilDivBounds | server/services/estateMonitor.ts:142 | `Math.ceil(a / d)` is the least whole number of `d`s that covers `a` |
| EstateMonitor.DaysUntilSaleMeaning | server/services/estateMonitor.ts:141-143 | a sale `n` days away, to the millisecond, gives `daysUntilSale` `n`; a future sale is at least one day away and a past one zero or fewer |
| EstateMonitor.AnalysisAlerts | server/services/estateMonitor.ts:134-151 | a reply's alerts are each converted with their days until sale; a failed call or a reply without a list yields none |
| EstateMonitor.SearchUrl | server/services/estateMonitor.ts:45-48 | the url starts with the site's base url, and is exactly the base url when there is no state |
| EstateMonitor.SearchUrlInjective | server/services/estateMonitor.ts:45-48 | two states give the same search url exactly when they are the same state |
| EstateMonitor.ScanMembers | server/services/estateMonitor.ts:40-71 | an alert is in the scan exactly when some site's analysis reported it; a failing site takes nothing from the others |
| EstateMonitor.FlaggedMeaning | server/services/estateMonitor.ts:211-216 | the flagged alerts are the high-value alerts of the scan, in scan order |
| EstateMonitor.MonitorAgreesWithScan | server/services/estateMonitor.ts:157-177 | monitoring a site's url finds the first alert a scan without a state reports for it, and nothing exactly when the scan finds nothing there |
| EstateMonitor.ScanEstateSales | server/services/estateMonitor.ts:37-74 | the alerts of every site in turn, skipping failed pages |
| EstateMonitor.FlagHighValueEstates | server/services/estateMonitor.ts:208-217 | the call throws exactly when a scanned alert without notable items fails the other two tests; otherwise the result is exactly `Filter(scan, HighValue)` over the scan without a state: the high-value alerts, in scan order, repeats kept |

## Left out

- Floating point is modelled as exact reals:
  - `toFixed` rounding is not modelled;
  - neither are the standard deviation (`Math.sqrt`) and `priceDeviation` of
    `findComparables`;
  - a NaN the code can produce is modelled as `None`: a competitor with no
    priced sale, and a market share over a total volume of 0.
- PriceAnalytics.OpportunityFrom: an average price of 0 gives no
  opportunity. In the source the deviation is then NaN for a bid of 0 and
  -Infinity for a positive bid, which the `>=` test rejects, but +Infinity
  for a negative bid, which it accepts. That last case is not modelled.
- The listing `status` column is modelled as the three values its schema
  comment names (active, sold, cancelled). Other text, which no service
  writes, is not modelled. The `enrichmentStatus` column has an `Unknown`
  case for null and any other text.
- `findComparables` adds the condition filter with a second `.where`. The
  model takes it as a conjunction with the key filter, which is evidently
  what the code intends. Whether the query builder combines the two filters
  or lets the second replace the manufacturer and model filter depends on
  the library and cannot be settled from this code. In the second case a
  query with a condition would filter by condition alone.
- Rows that SQL returns in an unspecified order (ties in `ORDER BY`, and rows
  without an order) are taken in table order.
- "The last 24 hours" of `checkAlerts` and the trend cutoff of
  `getPriceTrends` use fixed millisecond offsets (24 hours, `days` days).
  Daylight-saving shifts of `setHours`/`setDate` are not modelled.
- Days are UTC calendar days.
- `getPriceTrends` ignores its `category` argument, and so does the model.
- Lower-casing is modelled on ASCII letters only, and `trim` on the common
  white-space characters.
- Concurrency is modelled sequentially:
  - `Promise.all` batches run in order;
  - retried queue items are re-queued in batch order, not completion order;
  - `startProcessing` runs to completion instead of in the background;
  - a request or an `add` arriving during a run is not modelled.
- `EnrichmentQueue.EnrichmentQueue.Add` requires that no run is going on,
  because an `add` during a run is not modelled.
- `FirearmEnrichment.FirearmEnrichmentService.EnrichBatch` requires a
  positive `concurrency`. With 0 and a non-empty list the source loops for ever.
- Logging, the one-second delay between queue batches, and all console
  output are left out.
- The random scrape id (`Date.now()` plus `Math.random`) is a parameter of
  `ScrapeAllSources`.
- The scraper is built with its source list as a parameter. The deployed
  service uses `FirearmScraper.Sources()`, the 34 configured auction houses.
- Scrape durations and statistics timestamps are not modelled.
- The Firecrawl client, the extraction schema and the language-model
  prompts are outside the model. Their replies are parameters.
- `JSON.parse` failures of the model's reply count as a failed call.
- `aiExtractedData` (the raw reply stored on the row) is not modelled.
- Database failures are modelled as a flag where the source catches them.
  The uncaught failures of `recordSale`, `updateCompetitorMetrics` and the
  comparison queries are not modelled.
- Serial ids other than the auction ids, `createdAt` columns and the
  `scraping_cache` id are not modelled.
- The `scraping_cache` table is not defined in `shared/firearms-schema.ts`.
  Its row shape is taken from its use in `server/services/scrapingCache.ts`.
- The reason strings of `matchesCriteria` are modelled as a `Reason`
  datatype carrying the same values, not as formatted text.
- An estate-sale date that does not parse (an invalid `Date`, `NaN` days)
  is not modelled: dates are given already parsed or absent.
- `enrichAllPendingAuctions`, `reEnrichAllAuctions` and `addToQueue` in
  `server/services/enrichmentQueue.ts` are not modelled. They are
  database-driven wrappers around `addBatch` and `processQueue`; the
  scraper's `addToQueue` calls are modelled as `Add` at normal priority.
- `getUpcomingEstateSales` is not modelled. It is a plain projection of
  estate-sale rows.
- The alert CRUD routes and the other HTTP routes of `server/routes.ts` are
  not modelled, apart from the rate limiter and `avgDeviation`.
- The `requests` map of the rate limiter is never pruned, in the source or
  in the model.
