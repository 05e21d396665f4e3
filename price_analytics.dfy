/** `PriceAnalyticsService` (`server/services/priceAnalytics.ts`): comparable
    sales, undervalued opportunities, auction-house metrics and price trends
    over the `price_history` and `competitor_metrics` tables, plus the
    dashboard's average deviation (`server/routes.ts`). JavaScript numbers are
    modelled as reals; `toFixed` rounding and the standard deviation are not
    part of the model. Timestamps are milliseconds since the epoch. */
module PriceAnalytics {
  import opened FirearmsSchema
  import opened Text
  import opened Sequences

  /** Milliseconds in a day. */
  const DayMs: int := 86400000

  /** The calendar day (days since the epoch, UTC) of a timestamp: SQL
      `DATE(...)` and the date part of `toISOString()`. */
  function Day(ms: int): int {
    ms / DayMs
  }

  // ---------------------------------------------------------------------
  // price_history rows and comparable sales

  /** A `price_history` row (the serial id and `createdAt` are not read by
      the service and are not modelled). */
  datatype PriceRecord = PriceRecord(
    manufacturer: string,
    manufacturerNormalized: Option<string>,
    model: string,
    modelNormalized: Option<string>,
    caliber: Option<string>,
    condition: Option<string>,
    salePrice: real,
    auctionDate: int,
    auctionHouse: Option<string>,
    sourceUrl: Option<string>
  )

  datatype ComparableSale = ComparableSale(
    date: int,
    manufacturer: string,
    model: string,
    caliber: string,
    condition: string,
    salePrice: real,
    auctionHouse: string,
    sourceUrl: string
  )

  /** The result of `findComparables`, without `priceDeviation`. */
  datatype PriceAnalysis = PriceAnalysis(
    averagePrice: real,
    medianPrice: real,
    minPrice: real,
    maxPrice: real,
    sampleSize: nat,
    comparables: seq<ComparableSale>
  )

  /** `a || ''` for nullable text. */
  function TextOr(a: Option<string>): string {
    if a.Some? then a.value else ""
  }

  function Min(a: int, b: int): int {
    if a <= b then a else b
  }

  /** The query filter of `findComparables`: the stored normalized keys,
      lower-cased by SQL, equal the normalized arguments, and the condition
      is equal when one is given. A null key never matches. */
  predicate Matches(r: PriceRecord, mfgKey: string, modelKey: string, condition: Option<string>) {
    && r.manufacturerNormalized.Some? && Lower(r.manufacturerNormalized.value) == mfgKey
    && r.modelNormalized.Some? && Lower(r.modelNormalized.value) == modelKey
    && (Truthy(condition, "") ==> r.condition == condition)
  }

  /** The matching rows, in table order. */
  function MatchingRecords(history: seq<PriceRecord>, mfgKey: string, modelKey: string, condition: Option<string>)
    : (r: seq<PriceRecord>)
    ensures |r| <= |history|
    ensures forall i :: 0 <= i < |r| ==> r[i] in history && Matches(r[i], mfgKey, modelKey, condition)
  {
    if history == [] then []
    else
      var last := history[|history| - 1];
      var rest := MatchingRecords(history[..|history| - 1], mfgKey, modelKey, condition);
      rest + (if Matches(last, mfgKey, modelKey, condition) then [last] else [])
  }

  /** Every matching row of the table is among the matches. */
  lemma {:induction false} MatchingRecordsComplete(history: seq<PriceRecord>, mfgKey: string, modelKey: string,
                                                   condition: Option<string>)
    ensures forall x :: x in history && Matches(x, mfgKey, modelKey, condition) ==>
      x in MatchingRecords(history, mfgKey, modelKey, condition)
  {
    if history != [] {
      MatchingRecordsComplete(history[..|history| - 1], mfgKey, modelKey, condition);
      assert history == history[..|history| - 1] + [history[|history| - 1]];
    }
  }

  /** Sort key for `ORDER BY auctionDate DESC`. */
  function NegDate(r: PriceRecord): real {
    -(r.auctionDate as real)
  }

  predicate NewestFirst(rs: seq<PriceRecord>) {
    forall i, j :: 0 <= i < j < |rs| ==> rs[i].auctionDate >= rs[j].auctionDate
  }

  /** The rows `findComparables` reads: the `2 * limit` newest matches (all
      of them when there are fewer), newest first. Every match left out is
      dated no later than every match read. */
  function Selected(history: seq<PriceRecord>, mfgKey: string, modelKey: string, condition: Option<string>,
                    limit: nat): (r: seq<PriceRecord>)
    ensures |r| == Min(2 * limit, |MatchingRecords(history, mfgKey, modelKey, condition)|)
    ensures forall i :: 0 <= i < |r| ==> r[i] in history && Matches(r[i], mfgKey, modelKey, condition)
    ensures NewestFirst(r)
    ensures multiset(r) <= multiset(MatchingRecords(history, mfgKey, modelKey, condition))
    ensures forall i, x :: 0 <= i < |r| && x in multiset(MatchingRecords(history, mfgKey, modelKey, condition)) - multiset(r)
              ==> x.auctionDate <= r[i].auctionDate
  {
    var matching := MatchingRecords(history, mfgKey, modelKey, condition);
    var sorted := SortBy(matching, NegDate);
    var k := Min(2 * limit, |sorted|);
    NewestPrefix(sorted, k);
    var r := sorted[..k];
    forall i | 0 <= i < |r| ensures r[i] in history && Matches(r[i], mfgKey, modelKey, condition) {
      assert r[i] in multiset(matching);
    }
    r
  }

  /** A prefix of rows sorted newest first is newest first, and the rows
      after it are dated no later than any row of it. */
  lemma NewestPrefix(sorted: seq<PriceRecord>, k: nat)
    requires SortedBy(sorted, NegDate) && k <= |sorted|
    ensures NewestFirst(sorted[..k])
    ensures multiset(sorted[..k]) <= multiset(sorted)
    ensures forall i, x :: 0 <= i < k && x in multiset(sorted) - multiset(sorted[..k]) ==> x.auctionDate <= sorted[i].auctionDate
  {
    assert sorted == sorted[..k] + sorted[k..];
    assert multiset(sorted) == multiset(sorted[..k]) + multiset(sorted[k..]);
    forall i, x | 0 <= i < k && x in multiset(sorted) - multiset(sorted[..k])
      ensures x.auctionDate <= sorted[i].auctionDate
    {
      assert x in sorted[k..];
      var j :| 0 <= j < |sorted[k..]| && sorted[k..][j] == x;
      assert NegDate(sorted[i]) <= NegDate(sorted[k + j]);
    }
  }

  function Prices(rs: seq<PriceRecord>): (p: seq<real>)
    ensures |p| == |rs| && forall i :: 0 <= i < |rs| ==> p[i] == rs[i].salePrice
  {
    seq(|rs|, i requires 0 <= i < |rs| => rs[i].salePrice)
  }

  function Identity(x: real): real {
    x
  }

  /** The row as a `ComparableSale`, null text becoming "". */
  function Comparable(r: PriceRecord): ComparableSale {
    ComparableSale(Day(r.auctionDate), r.manufacturer, r.model, TextOr(r.caliber), TextOr(r.condition),
                   r.salePrice, TextOr(r.auctionHouse), TextOr(r.sourceUrl))
  }

  /** `findComparables(manufacturer, model, condition, limit)`. */
  function FindComparables(history: seq<PriceRecord>, manufacturer: string, model: string,
                           condition: Option<string>, limit: nat): (a: PriceAnalysis)
    ensures a.sampleSize <= 2 * limit && |a.comparables| == Min(limit, a.sampleSize)
  {
    SampleAnalysis(Selected(history, Normalize(manufacturer), Normalize(model), condition, limit), limit)
  }

  /** The figures of one sample, and its first `limit` rows as comparables. */
  function SampleAnalysis(rows: seq<PriceRecord>, limit: nat): (a: PriceAnalysis)
    ensures a.sampleSize == |rows| && |a.comparables| == Min(limit, |rows|)
  {
    if rows == [] then PriceAnalysis(0.0, 0.0, 0.0, 0.0, 0, [])
    else
      var prices := Prices(rows);
      var sorted := SortBy(prices, Identity);
      PriceAnalysis(Sum(prices) / |prices| as real, sorted[|sorted| / 2], MinOf(prices), MaxOf(prices), |rows|,
                    seq(Min(limit, |rows|), i requires 0 <= i < Min(limit, |rows|) => Comparable(rows[i])))
  }

  /** The sample is the `2 * limit` newest matching sales, or all of them; the
      comparables are the first `limit` of those, newest first, and each one
      matches the normalized manufacturer and model. With no sample all the
      figures are zero. */
  lemma ComparablesSelection(history: seq<PriceRecord>, manufacturer: string, model: string,
                             condition: Option<string>, limit: nat)
    ensures var a := FindComparables(history, manufacturer, model, condition, limit);
      var rows := Selected(history, Normalize(manufacturer), Normalize(model), condition, limit);
      && a.sampleSize == Min(2 * limit, |MatchingRecords(history, Normalize(manufacturer), Normalize(model), condition)|)
      && (forall i :: 0 <= i < |a.comparables| ==> a.comparables[i] == Comparable(rows[i]))
      && (forall i, j :: 0 <= i < j < |a.comparables| ==> a.comparables[i].date >= a.comparables[j].date)
      && (a.sampleSize == 0 ==> a == PriceAnalysis(0.0, 0.0, 0.0, 0.0, 0, []))
  {
    SampleComparables(Selected(history, Normalize(manufacturer), Normalize(model), condition, limit), limit);
  }

  /** The comparables of a sample newest first are its first rows, by day newest first. */
  lemma SampleComparables(rows: seq<PriceRecord>, limit: nat)
    requires NewestFirst(rows)
    ensures var a := SampleAnalysis(rows, limit);
      && (forall i :: 0 <= i < |a.comparables| ==> a.comparables[i] == Comparable(rows[i]))
      && (forall i, j :: 0 <= i < j < |a.comparables| ==> a.comparables[i].date >= a.comparables[j].date)
      && (rows == [] ==> a == PriceAnalysis(0.0, 0.0, 0.0, 0.0, 0, []))
  {
    forall i, j | 0 <= i < j < |rows| ensures Day(rows[i].auctionDate) >= Day(rows[j].auctionDate) {
      DayMonotone(rows[j].auctionDate, rows[i].auctionDate);
    }
  }

  lemma DayMonotone(a: int, b: int)
    requires a <= b
    ensures Day(a) <= Day(b)
  {
  }

  /** The statistics of a non-empty sample: the median is the element at
      position `n / 2` of the ascending prices, the upper middle one, and
      both the median and the mean lie between the minimum and the maximum,
      which are sale prices of the sample. */
  lemma ComparablesStatistics(history: seq<PriceRecord>, manufacturer: string, model: string,
                              condition: Option<string>, limit: nat)
    ensures var a := FindComparables(history, manufacturer, model, condition, limit);
      var prices := Prices(Selected(history, Normalize(manufacturer), Normalize(model), condition, limit));
      a.sampleSize > 0 ==>
        && a.averagePrice == Sum(prices) / a.sampleSize as real
        && a.medianPrice == SortBy(prices, Identity)[a.sampleSize / 2]
        && a.minPrice in prices && a.maxPrice in prices
        && a.minPrice <= a.medianPrice <= a.maxPrice
        && a.minPrice <= a.averagePrice <= a.maxPrice
  {
    var prices := Prices(Selected(history, Normalize(manufacturer), Normalize(model), condition, limit));
    if |prices| > 0 {
      MedianBounds(prices);
      MeanBetweenMinAndMax(prices);
    }
  }

  lemma MedianBounds(prices: seq<real>)
    requires |prices| > 0
    ensures var sorted := SortBy(prices, Identity);
      MinOf(prices) <= sorted[|sorted| / 2] <= MaxOf(prices)
  {
    var sorted := SortBy(prices, Identity);
    var m := sorted[|sorted| / 2];
    assert m in multiset(sorted);
    assert m in prices;
  }

  /** A sale that `recordSale` stores is found again by `findComparables`
      for any spelling of the manufacturer and model that normalizes to the
      same keys, when no condition is asked for. */
  lemma RecordedSaleMatches(manufacturer: string, model: string, caliber: string, condition: string,
                            salePrice: real, auctionDate: int, auctionHouse: string, sourceUrl: string,
                            queryManufacturer: string, queryModel: string)
    requires Normalize(queryManufacturer) == Normalize(manufacturer)
    requires Normalize(queryModel) == Normalize(model)
    ensures Matches(Recorded(manufacturer, model, caliber, condition, salePrice, auctionDate, auctionHouse, sourceUrl),
                    Normalize(queryManufacturer), Normalize(queryModel), None)
  {
    LowerOfNormalize(manufacturer);
    LowerOfNormalize(model);
  }

  /** The row `recordSale` inserts. */
  function Recorded(manufacturer: string, model: string, caliber: string, condition: string,
                    salePrice: real, auctionDate: int, auctionHouse: string, sourceUrl: string): PriceRecord {
    PriceRecord(manufacturer, Some(Normalize(manufacturer)), model, Some(Normalize(model)), Some(caliber),
                Some(condition), salePrice, auctionDate, Some(auctionHouse), Some(sourceUrl))
  }

  // ---------------------------------------------------------------------
  // Opportunities

  datatype OpportunityItem = OpportunityItem(
    id: nat,
    title: string,
    manufacturer: string,
    model: string,
    currentBid: real,
    estimate: real,
    deviation: real,
    auctionDate: int,
    url: string
  )

  /** The listings `findOpportunities` reads: active and enriched. */
  predicate OpenAndEnriched(l: Listing) {
    l.status == Active && l.enrichmentStatus == Completed
  }

  /** Percentage by which a bid lies below the average comparable price. */
  function Deviation(average: real, bid: real): real
    requires average != 0.0
  {
    (average - bid) / average * 100.0
  }

  /** The listing has the identification and bid the comparison needs. */
  predicate Assessable(l: Listing) {
    Truthy(l.manufacturer, "") && Truthy(l.model, "") && Truthy(l.currentBid, 0.0)
  }

  /** The analysis `findOpportunities` asks for: default limit 10, and the
      listing's condition when it is non-empty. Listings that are skipped
      before the query get the empty analysis. */
  function AnalysisFor(l: Listing, history: seq<PriceRecord>): PriceAnalysis {
    if Assessable(l) then FindComparables(history, l.manufacturer.value, l.model.value, Or(l.condition, "", None), 10)
    else PriceAnalysis(0.0, 0.0, 0.0, 0.0, 0, [])
  }

  /** `findComparables` over a fixed price history, as a function of the listing. */
  function Analyzer(history: seq<PriceRecord>): Listing -> PriceAnalysis {
    l => AnalysisFor(l, history)
  }

  /** The item `findOpportunities` pushes for a listing. */
  function ItemFor(l: Listing, estimate: real, deviation: real, now: int): OpportunityItem
    requires Assessable(l)
  {
    OpportunityItem(l.id, l.manufacturer.value + " " + l.model.value, l.manufacturer.value, l.model.value,
                    l.currentBid.value, estimate, deviation, if l.auctionDate.Some? then l.auctionDate.value else now,
                    l.url)
  }

  /** The decision for a listing, given its comparables analysis. An average
      of 0 makes the JavaScript deviation NaN, -Infinity or, for a negative
      bid, +Infinity; the model has no infinite numbers and reports no
      opportunity for any of them. */
  function OpportunityFrom(l: Listing, a: PriceAnalysis, threshold: real, now: int): (o: Option<OpportunityItem>)
    requires Assessable(l)
    ensures o.Some? <==>
      a.sampleSize >= 3 && a.averagePrice != 0.0 && Deviation(a.averagePrice, l.currentBid.value) >= threshold
    ensures o.Some? ==> o.value.id == l.id && o.value.url == l.url && o.value.deviation >= threshold
    ensures o.Some? ==> o.value.estimate == a.averagePrice && o.value.currentBid == l.currentBid.value
  {
    if a.sampleSize < 3 || a.averagePrice == 0.0 then None
    else
      var d := Deviation(a.averagePrice, l.currentBid.value);
      if d >= threshold then Some(ItemFor(l, a.averagePrice, d, now)) else None
  }

  /** What one listing contributes to `findOpportunities`, `analyze` giving
      its comparables analysis. */
  function Opportunity(l: Listing, analyze: Listing -> PriceAnalysis, threshold: real, now: int)
    : (o: Option<OpportunityItem>)
    ensures o.Some? ==> Assessable(l) && o.value.deviation >= threshold
  {
    if !Assessable(l) then None else OpportunityFrom(l, analyze(l), threshold, now)
  }

  /** An opportunity is a listing with a non-zero bid, at least three
      comparable sales and a bid at least `threshold` percent below their
      average when that average is positive; its estimate is that average.
      Conversely every such listing is an opportunity. */
  lemma OpportunityIsUndervalued(l: Listing, a: PriceAnalysis, threshold: real, now: int)
    requires Assessable(l)
    ensures var o := OpportunityFrom(l, a, threshold, now);
      && (o.Some? ==> a.sampleSize >= 3 && o.value.estimate == a.averagePrice && o.value.currentBid != 0.0)
      && (o.Some? && a.averagePrice > 0.0 ==> o.value.currentBid <= a.averagePrice * (1.0 - threshold / 100.0))
      && (a.sampleSize >= 3 && a.averagePrice > 0.0 && l.currentBid.value <= a.averagePrice * (1.0 - threshold / 100.0)
          ==> o.Some?)
  {
    if a.sampleSize >= 3 && a.averagePrice > 0.0 {
      BelowAverage(a.averagePrice, l.currentBid.value, threshold);
    }
  }

  /** A bid whose deviation from a positive average reaches `threshold` is at
      most `(1 - threshold / 100)` times the average, and conversely. */
  lemma BelowAverage(average: real, bid: real, threshold: real)
    requires average > 0.0
    ensures Deviation(average, bid) >= threshold <==> bid <= average * (1.0 - threshold / 100.0)
  {
    var d := Deviation(average, bid);
    assert d * average == (average - bid) * 100.0;
  }

  /** The opportunities of `listings`, in their order, before sorting. */
  function Opportunities(listings: seq<Listing>, analyze: Listing -> PriceAnalysis, threshold: real, now: int)
    : (r: seq<OpportunityItem>)
    ensures forall i :: 0 <= i < |r| ==> r[i].deviation >= threshold
  {
    if listings == [] then []
    else
      var o := Opportunity(listings[|listings| - 1], analyze, threshold, now);
      Opportunities(listings[..|listings| - 1], analyze, threshold, now) + (if o.Some? then [o.value] else [])
  }

  /** An item is an opportunity of the listings exactly when some listing
      yields it. */
  lemma {:induction false} OpportunitiesMembers(listings: seq<Listing>, analyze: Listing -> PriceAnalysis, threshold: real,
                                                now: int)
    ensures forall x :: x in Opportunities(listings, analyze, threshold, now) <==>
      exists i :: 0 <= i < |listings| && Opportunity(listings[i], analyze, threshold, now) == Some(x)
  {
    if listings != [] {
      var init := listings[..|listings| - 1];
      OpportunitiesMembers(init, analyze, threshold, now);
      forall x | (exists i :: 0 <= i < |listings| && Opportunity(listings[i], analyze, threshold, now) == Some(x))
        ensures x in Opportunities(listings, analyze, threshold, now)
      {
        var i :| 0 <= i < |listings| && Opportunity(listings[i], analyze, threshold, now) == Some(x);
        if i < |init| {
          assert init[i] == listings[i];
        }
      }
      forall x | x in Opportunities(init, analyze, threshold, now)
        ensures exists i :: 0 <= i < |listings| && Opportunity(listings[i], analyze, threshold, now) == Some(x)
      {
        var i :| 0 <= i < |init| && Opportunity(init[i], analyze, threshold, now) == Some(x);
        assert listings[i] == init[i];
      }
    }
  }

  lemma OpportunitiesStep(s: seq<Listing>, i: nat, analyze: Listing -> PriceAnalysis, threshold: real, now: int)
    requires i < |s|
    ensures var o := Opportunity(s[i], analyze, threshold, now);
      Opportunities(s[..i + 1], analyze, threshold, now)
        == Opportunities(s[..i], analyze, threshold, now) + (if o.Some? then [o.value] else [])
  {
    assert s[..i + 1][..i] == s[..i];
  }

  function NegDeviation(o: OpportunityItem): real {
    -o.deviation
  }

  predicate HighestFirst(r: seq<OpportunityItem>) {
    forall i, j :: 0 <= i < j < |r| ==> r[i].deviation >= r[j].deviation
  }

  /** The dashboard's `avgDeviation`: the mean deviation of the
      opportunities, or 0 when there are none. */
  function AvgDeviation(opportunities: seq<OpportunityItem>): real {
    if |opportunities| > 0 then Sum(Deviations(opportunities)) / |opportunities| as real else 0.0
  }

  function Deviations(opportunities: seq<OpportunityItem>): (d: seq<real>)
    ensures |d| == |opportunities| && forall i :: 0 <= i < |d| ==> d[i] == opportunities[i].deviation
  {
    seq(|opportunities|, i requires 0 <= i < |opportunities| => opportunities[i].deviation)
  }

  /** When every opportunity clears the threshold, so does the dashboard
      average, unless there are none and it is 0. */
  lemma AvgDeviationAtLeastThreshold(opportunities: seq<OpportunityItem>, threshold: real)
    requires forall i :: 0 <= i < |opportunities| ==> opportunities[i].deviation >= threshold
    ensures |opportunities| == 0 ==> AvgDeviation(opportunities) == 0.0
    ensures |opportunities| > 0 ==> AvgDeviation(opportunities) >= threshold
  {
    if |opportunities| > 0 {
      var d := Deviations(opportunities);
      SumAtLeast(d, threshold);
      QuotientAtLeast(Sum(d), |d| as real, threshold);
    }
  }

  // ---------------------------------------------------------------------
  // Auction-house metrics

  /** A `competitor_metrics` row. `avgSalePrice` is `None` where the source
      computes 0 / 0 (no sold item has a bid) and stores NaN. The serial id
      and `createdAt` are not modelled. */
  datatype CompetitorMetric = CompetitorMetric(
    auctionHouse: string,
    category: string,
    avgSalePrice: Option<real>,
    totalVolume: nat,
    realizationRate: real,
    dateRangeStart: int,
    dateRangeEnd: int
  )

  /** The filter of `updateCompetitorMetrics`. */
  predicate SoldIn(l: Listing, house: string, category: string, start: int, end: int) {
    && l.auctionHouse == Some(house) && l.category == Some(category) && l.status == Sold
    && l.auctionDate.Some? && start <= l.auctionDate.value <= end
  }

  /** The sold items of the house and category in the date range, in table
      order: exactly the listings that pass the filter. */
  function SoldItems(listings: seq<Listing>, house: string, category: string, start: int, end: int)
    : (r: seq<Listing>)
    ensures |r| <= |listings|
    ensures forall x :: x in r <==> x in listings && SoldIn(x, house, category, start, end)
  {
    if listings == [] then []
    else
      var init, last := listings[..|listings| - 1], listings[|listings| - 1];
      assert listings == init + [last];
      SoldItems(init, house, category, start, end)
        + (if SoldIn(last, house, category, start, end) then [last] else [])
  }

  predicate HasBid(l: Listing) {
    l.currentBid.Some?
  }

  /** `item.estimateLow !== null && item.currentBid !== null`. */
  predicate Rated(l: Listing) {
    l.estimateLow.Some? && l.currentBid.Some?
  }

  /** The bids of the items that have one: the `i`-th price is the bid of the
      `i`-th item with a bid. */
  function SalePrices(items: seq<Listing>): (p: seq<real>)
    ensures |p| == |Filter(items, HasBid)|
    ensures forall i :: 0 <= i < |p| ==> Filter(items, HasBid)[i].currentBid == Some(p[i])
  {
    if items == [] then []
    else
      var init, last := items[..|items| - 1], items[|items| - 1];
      assert items == init + [last];
      FilterSnoc(init, last, HasBid);
      SalePrices(init) + (if last.currentBid.Some? then [last.currentBid.value] else [])
  }

  /** The midpoint of an item's estimate, a missing high estimate counting as 0. */
  function Midpoint(l: Listing): real
    requires l.estimateLow.Some?
  {
    (l.estimateLow.value + (if l.estimateHigh.Some? then l.estimateHigh.value else 0.0)) / 2.0
  }

  /** One item's price as a percentage of its estimate midpoint: at least 100
      exactly when the bid reaches the midpoint, exactly 100 when it equals
      it, negative exactly when the bid is; 100 when the midpoint is not
      positive. */
  function Realization(l: Listing): (x: real)
    requires Rated(l)
    ensures Midpoint(l) <= 0.0 ==> x == 100.0
    ensures Midpoint(l) > 0.0 ==> (x >= 100.0 <==> l.currentBid.value >= Midpoint(l))
    ensures Midpoint(l) > 0.0 ==> (x == 100.0 <==> l.currentBid.value == Midpoint(l))
    ensures Midpoint(l) > 0.0 ==> (x < 0.0 <==> l.currentBid.value < 0.0)
  {
    var midpoint := Midpoint(l);
    if midpoint > 0.0 then
      PercentOf(l.currentBid.value, midpoint);
      l.currentBid.value / midpoint * 100.0
    else 100.0
  }

  lemma PercentOf(b: real, m: real)
    requires m > 0.0
    ensures b / m * 100.0 >= 100.0 <==> b >= m
    ensures b / m * 100.0 == 100.0 <==> b == m
    ensures b / m * 100.0 < 0.0 <==> b < 0.0
  {
    assert (b / m) * m == b;
  }

  /** The realizations of the items that have a low estimate and a bid: the
      `i`-th one is the realization of the `i`-th such item. */
  function Realizations(items: seq<Listing>): (p: seq<real>)
    ensures |p| == |Filter(items, Rated)|
    ensures forall i :: 0 <= i < |p| ==> p[i] == Realization(Filter(items, Rated)[i])
  {
    if items == [] then []
    else
      var init, last := items[..|items| - 1], items[|items| - 1];
      assert items == init + [last];
      FilterSnoc(init, last, Rated);
      Realizations(init) + (if Rated(last) then [Realization(last)] else [])
  }

  /** The mean realization, or 100 when no item has an estimate. */
  function RealizationRate(items: seq<Listing>): real {
    var p := Realizations(items);
    if |p| > 0 then Sum(p) / |p| as real else 100.0
  }

  /** The row `updateCompetitorMetrics` inserts for the sold items. */
  function MetricFor(sold: seq<Listing>, house: string, category: string, start: int, end: int): CompetitorMetric {
    var prices := SalePrices(sold);
    CompetitorMetric(house, category, if |prices| > 0 then Some(Sum(prices) / |prices| as real) else None,
                     |sold|, RealizationRate(sold), start, end)
  }

  /** The inserted row counts every sold item; it has an average price
      exactly when some item has a bid, and that average lies between the
      lowest and the highest bid; the realization rate lies between the
      lowest and the highest realization, and is 100 when no item has an
      estimate. */
  lemma MetricForProperties(sold: seq<Listing>, house: string, category: string, start: int, end: int)
    ensures var m := MetricFor(sold, house, category, start, end);
      var prices, p := SalePrices(sold), Realizations(sold);
      && m.totalVolume == |sold| && m.auctionHouse == house && m.category == category
      && m.dateRangeStart == start && m.dateRangeEnd == end
      && (m.avgSalePrice.Some? <==> exists i :: 0 <= i < |sold| && sold[i].currentBid.Some?)
      && (m.avgSalePrice.Some? ==> MinOf(prices) <= m.avgSalePrice.value <= MaxOf(prices))
      && (|p| > 0 ==> MinOf(p) <= m.realizationRate <= MaxOf(p))
      && (|p| == 0 ==> m.realizationRate == 100.0)
  {
    var prices := SalePrices(sold);
    var p := Realizations(sold);
    FilterMembers(sold, HasBid);
    if |prices| > 0 {
      MeanBetweenMinAndMax(prices);
      assert Filter(sold, HasBid)[0] in Filter(sold, HasBid);
    } else {
      forall i | 0 <= i < |sold| ensures sold[i].currentBid.None? {
        assert sold[i] in sold;
      }
    }
    if |p| > 0 {
      MeanBetweenMinAndMax(p);
    }
  }

  lemma QuotientAtLeast(a: real, n: real, lo: real)
    requires n > 0.0 && n * lo <= a
    ensures a / n >= lo
  {
    assert a == (a / n) * n;
  }

  /** Items that all sold at their estimate midpoint (or have no positive
      midpoint) give a realization rate of exactly 100. */
  lemma {:induction false} RealizationAtEstimate(items: seq<Listing>)
    requires forall i :: 0 <= i < |items| && Rated(items[i]) ==> Realization(items[i]) == 100.0
    ensures RealizationRate(items) == 100.0
  {
    AllHundred(items);
    var p := Realizations(items);
    if |p| > 0 {
      SumBounds(p, 100.0, 100.0);
      DivideBounds(Sum(p), |p| as real, 100.0, 100.0);
    }
  }

  lemma {:induction false} AllHundred(items: seq<Listing>)
    requires forall i :: 0 <= i < |items| && Rated(items[i]) ==> Realization(items[i]) == 100.0
    ensures forall i :: 0 <= i < |Realizations(items)| ==> Realizations(items)[i] == 100.0
  {
    if items != [] {
      AllHundred(items[..|items| - 1]);
    }
  }

  // ---------------------------------------------------------------------
  // Auction-house comparison

  /** One group of `getCompetitorComparison`'s query: the `(auctionHouse,
      category)` key, AVG of the prices (NaN poisons it), SUM of the volumes
      and AVG of the realization rates. */
  datatype GroupRow = GroupRow(auctionHouse: string, category: string, avgSalePrice: Option<real>,
                               totalVolume: nat, avgRealizationRate: real)

  /** A row of the comparison; `marketShare` is `None` where the source
      divides by a total volume of 0 (NaN). */
  datatype CompetitorRow = CompetitorRow(name: string, category: string, avgSalePrice: Option<real>,
                                         totalVolume: nat, marketShare: Option<real>, realizationRate: real)

  function Key(m: CompetitorMetric): (string, string) {
    (m.auctionHouse, m.category)
  }

  /** The distinct group keys in order of first appearance. */
  function GroupKeys(ms: seq<CompetitorMetric>): (keys: seq<(string, string)>)
    ensures Distinct(keys)
    ensures forall k :: k in keys <==> exists i :: 0 <= i < |ms| && Key(ms[i]) == k
  {
    if ms == [] then []
    else
      var init := ms[..|ms| - 1];
      var keys := GroupKeys(init);
      var k := Key(ms[|ms| - 1]);
      if k in keys then
        keys
      else
        DistinctAppend(keys, k);
        keys + [k]
  }

  lemma DistinctAppend<T>(s: seq<T>, x: T)
    requires Distinct(s) && x !in s
    ensures Distinct(s + [x])
  {
  }

  /** The rows of one group, in table order. */
  function InGroup(ms: seq<CompetitorMetric>, key: (string, string)): (g: seq<CompetitorMetric>)
    ensures forall i :: 0 <= i < |g| ==> Key(g[i]) == key
  {
    if ms == [] then []
    else
      var last := ms[|ms| - 1];
      InGroup(ms[..|ms| - 1], key) + (if Key(last) == key then [last] else [])
  }

  function VolumeOf(ms: seq<CompetitorMetric>): nat {
    if ms == [] then 0 else VolumeOf(ms[..|ms| - 1]) + ms[|ms| - 1].totalVolume
  }

  function RatesOf(ms: seq<CompetitorMetric>): (r: seq<real>)
    ensures |r| == |ms|
  {
    seq(|ms|, i requires 0 <= i < |ms| => ms[i].realizationRate)
  }

  /** AVG over the prices: `None` (NaN) if any price is NaN. */
  function AvgPrice(ms: seq<CompetitorMetric>): Option<real>
    requires |ms| > 0
  {
    if exists i :: 0 <= i < |ms| && ms[i].avgSalePrice.None? then None
    else Some(Sum(seq(|ms|, i requires 0 <= i < |ms| => ms[i].avgSalePrice.value)) / |ms| as real)
  }

  function Group(ms: seq<CompetitorMetric>, key: (string, string)): GroupRow
    requires |InGroup(ms, key)| > 0
  {
    var g := InGroup(ms, key);
    GroupRow(key.0, key.1, AvgPrice(g), VolumeOf(g), Sum(RatesOf(g)) / |g| as real)
  }

  lemma {:induction false} InGroupNonEmpty(ms: seq<CompetitorMetric>, i: nat)
    requires i < |ms|
    ensures |InGroup(ms, Key(ms[i]))| > 0
  {
    if i < |ms| - 1 {
      InGroupNonEmpty(ms[..|ms| - 1], i);
    }
  }

  function Groups(ms: seq<CompetitorMetric>): (r: seq<GroupRow>)
    ensures |r| == |GroupKeys(ms)|
  {
    var keys := GroupKeys(ms);
    seq(|keys|, i requires 0 <= i < |keys| =>
      assert keys[i] in keys;
      var j :| 0 <= j < |ms| && Key(ms[j]) == keys[i];
      InGroupNonEmpty(ms, j);
      Group(ms, keys[i]))
  }

  function NegVolume(g: GroupRow): real {
    -(g.totalVolume as real)
  }

  /** The metrics the comparison reads: all of them, or exactly those of a
      non-empty category, in table order. */
  function InCategory(ms: seq<CompetitorMetric>, category: Option<string>): (r: seq<CompetitorMetric>)
    ensures forall x :: x in r <==> x in ms && (Truthy(category, "") ==> x.category == category.value)
    ensures !Truthy(category, "") ==> r == ms
  {
    if ms == [] then []
    else
      var init, last := ms[..|ms| - 1], ms[|ms| - 1];
      assert ms == init + [last];
      InCategory(init, category)
        + (if !Truthy(category, "") || last.category == category.value then [last] else [])
  }

  function GroupVolume(rows: seq<GroupRow>): nat {
    if rows == [] then 0 else GroupVolume(rows[..|rows| - 1]) + rows[|rows| - 1].totalVolume
  }

  function Share(volume: nat, total: nat): Option<real> {
    if total > 0 then Some(volume as real / total as real * 100.0) else None
  }

  function Row(g: GroupRow, total: nat): CompetitorRow {
    CompetitorRow(g.auctionHouse, g.category, g.avgSalePrice, g.totalVolume, Share(g.totalVolume, total),
                  g.avgRealizationRate)
  }

  /** `getCompetitorComparison(category)`. */
  function CompetitorComparison(ms: seq<CompetitorMetric>, category: Option<string>): (r: seq<CompetitorRow>)
    ensures forall i :: 0 <= i < |r| ==> Truthy(category, "") ==> r[i].category == category.value
  {
    var groups := CompetitorGroups(ms, category);
    var total := GroupVolume(groups);
    seq(|groups|, i requires 0 <= i < |groups| => Row(groups[i], total))
  }

  /** The groups of the category's metrics, largest volume first. */
  function CompetitorGroups(ms: seq<CompetitorMetric>, category: Option<string>): (r: seq<GroupRow>)
    ensures forall i :: 0 <= i < |r| ==> Truthy(category, "") ==> r[i].category == category.value
  {
    var selected := InCategory(ms, category);
    var groups := SortBy(Groups(selected), NegVolume);
    GroupsCategory(selected, groups, category);
    groups
  }

  /** Grouping rows of one category, in any order, keeps that category. */
  lemma GroupsCategory(selected: seq<CompetitorMetric>, groups: seq<GroupRow>, category: Option<string>)
    requires forall i :: 0 <= i < |selected| ==> Truthy(category, "") ==> selected[i].category == category.value
    requires multiset(groups) == multiset(Groups(selected))
    ensures forall i :: 0 <= i < |groups| ==> Truthy(category, "") ==> groups[i].category == category.value
  {
    forall i | 0 <= i < |groups| && Truthy(category, "") ensures groups[i].category == category.value {
      assert groups[i] in multiset(Groups(selected));
      GroupCategory(selected, groups[i], category);
    }
  }

  lemma GroupCategory(selected: seq<CompetitorMetric>, g: GroupRow, category: Option<string>)
    requires forall i :: 0 <= i < |selected| ==> Truthy(category, "") ==> selected[i].category == category.value
    requires g in Groups(selected)
    ensures Truthy(category, "") ==> g.category == category.value
  {
    var groups := Groups(selected);
    var keys := GroupKeys(selected);
    var i :| 0 <= i < |groups| && groups[i] == g;
    assert keys[i] in keys;
    var j :| 0 <= j < |selected| && Key(selected[j]) == keys[i];
  }

  /** The `(auctionHouse, category)` key of a group. */
  function GroupKey(g: GroupRow): (string, string) {
    (g.auctionHouse, g.category)
  }

  /** A row is in a group exactly when it has the group's key; the group
      keeps table order. */
  lemma {:induction false} InGroupMembers(ms: seq<CompetitorMetric>, key: (string, string))
    ensures forall x :: x in InGroup(ms, key) <==> x in ms && Key(x) == key
  {
    if ms != [] {
      var init := ms[..|ms| - 1];
      assert ms == init + [ms[|ms| - 1]];
      InGroupMembers(init, key);
    }
  }

  /** `Groups` has one row per key, in key order, aggregating that key's rows. */
  lemma GroupsByKey(sel: seq<CompetitorMetric>)
    ensures var groups, keys := Groups(sel), GroupKeys(sel);
      forall i :: 0 <= i < |groups| ==>
        |InGroup(sel, keys[i])| > 0 && groups[i] == Group(sel, keys[i]) && GroupKey(groups[i]) == keys[i]
    ensures Distinct(Groups(sel))
  {
    var groups, keys := Groups(sel), GroupKeys(sel);
    forall i | 0 <= i < |groups|
      ensures |InGroup(sel, keys[i])| > 0 && groups[i] == Group(sel, keys[i]) && GroupKey(groups[i]) == keys[i]
    {
      assert keys[i] in keys;
      var j :| 0 <= j < |sel| && Key(sel[j]) == keys[i];
      InGroupNonEmpty(sel, j);
    }
    forall i, j | 0 <= i < j < |groups| ensures groups[i] != groups[j] {
      assert GroupKey(groups[i]) == keys[i] && GroupKey(groups[j]) == keys[j];
    }
  }

  /** `getCompetitorComparison(category)` groups the category's metrics by
      `(auctionHouse, category)`: its groups are those of `Groups`, rearranged,
      one per key present, each the aggregate of exactly its key's rows. */
  lemma CompetitorGroupsByKey(ms: seq<CompetitorMetric>, category: Option<string>)
    ensures var sel, groups := InCategory(ms, category), CompetitorGroups(ms, category);
      && multiset(groups) == multiset(Groups(sel))
      && (forall i :: 0 <= i < |groups| ==>
            && GroupKey(groups[i]) in GroupKeys(sel)
            && |InGroup(sel, GroupKey(groups[i]))| > 0
            && groups[i] == Group(sel, GroupKey(groups[i])))
      && (forall k :: k in GroupKeys(sel) ==> exists i :: 0 <= i < |groups| && GroupKey(groups[i]) == k)
      && (forall i, j :: 0 <= i < j < |groups| ==> GroupKey(groups[i]) != GroupKey(groups[j]))
  {
    var sel := InCategory(ms, category);
    GroupsByKey(sel);
    RearrangedGroups(sel, CompetitorGroups(ms, category));
  }

  /** Any rearrangement of `Groups(sel)` has one group per key, each the
      aggregate of its key's rows. */
  lemma RearrangedGroups(sel: seq<CompetitorMetric>, groups: seq<GroupRow>)
    requires multiset(groups) == multiset(Groups(sel))
    ensures forall i :: 0 <= i < |groups| ==>
      && GroupKey(groups[i]) in GroupKeys(sel)
      && |InGroup(sel, GroupKey(groups[i]))| > 0
      && groups[i] == Group(sel, GroupKey(groups[i]))
    ensures forall k :: k in GroupKeys(sel) ==> exists i :: 0 <= i < |groups| && GroupKey(groups[i]) == k
    ensures forall i, j :: 0 <= i < j < |groups| ==> GroupKey(groups[i]) != GroupKey(groups[j])
  {
    var all, keys := Groups(sel), GroupKeys(sel);
    GroupsByKey(sel);
    forall i | 0 <= i < |groups|
      ensures GroupKey(groups[i]) in keys && |InGroup(sel, GroupKey(groups[i]))| > 0
      ensures groups[i] == Group(sel, GroupKey(groups[i]))
    {
      assert groups[i] in multiset(all);
      var a :| 0 <= a < |all| && all[a] == groups[i];
    }
    forall k | k in keys ensures exists i :: 0 <= i < |groups| && GroupKey(groups[i]) == k {
      var a :| 0 <= a < |keys| && keys[a] == k;
      assert all[a] in multiset(groups);
      var i :| 0 <= i < |groups| && groups[i] == all[a];
    }
    DistinctPermutation(all, groups);
    forall i, j | 0 <= i < j < |groups| ensures GroupKey(groups[i]) != GroupKey(groups[j]) {
      assert groups[i] != groups[j];
    }
  }

  /** Each output row of `getCompetitorComparison` carries its group's
      figures, its share being the group's volume over the total volume of the
      output. */
  lemma CompetitorRowFields(ms: seq<CompetitorMetric>, category: Option<string>)
    ensures var groups, r := CompetitorGroups(ms, category), CompetitorComparison(ms, category);
      && |r| == |groups|
      && forall i :: 0 <= i < |r| ==>
        && r[i].name == groups[i].auctionHouse && r[i].category == groups[i].category
        && r[i].avgSalePrice == groups[i].avgSalePrice && r[i].totalVolume == groups[i].totalVolume
        && r[i].realizationRate == groups[i].avgRealizationRate
        && r[i].marketShare == Share(r[i].totalVolume, Volumes(r))
  {
    var groups := CompetitorGroups(ms, category);
    VolumesAgree(groups, GroupVolume(groups));
  }

  /** The rows are ordered by volume, largest first, and when the total volume
      is positive every share is defined and the shares add up to 100. */
  lemma CompetitorShares(ms: seq<CompetitorMetric>, category: Option<string>)
    ensures var r := CompetitorComparison(ms, category);
      && (forall i, j :: 0 <= i < j < |r| ==> r[i].totalVolume >= r[j].totalVolume)
      && (Volumes(r) > 0 ==> (forall i :: 0 <= i < |r| ==> r[i].marketShare.Some?) && ShareSum(r) == 100.0)
  {
    var selected := InCategory(ms, category);
    var groups := SortBy(Groups(selected), NegVolume);
    var total := GroupVolume(groups);
    var r := CompetitorComparison(ms, category);
    assert |r| == |groups|;
    VolumesAgree(groups, total);
    if total > 0 {
      SharesAddUp(r, total);
    }
  }

  lemma DivAdd(a: real, b: real, t: real)
    requires t > 0.0
    ensures a / t * 100.0 + b / t * 100.0 == (a + b) / t * 100.0
  {
    var qa, qb := a / t, b / t;
    assert qa * t == a && qb * t == b;
    assert (qa + qb) * t == a + b;
  }

  function Volumes(r: seq<CompetitorRow>): nat {
    if r == [] then 0 else Volumes(r[..|r| - 1]) + r[|r| - 1].totalVolume
  }

  function ShareSum(r: seq<CompetitorRow>): real {
    if r == [] then 0.0
    else ShareSum(r[..|r| - 1]) + (if r[|r| - 1].marketShare.Some? then r[|r| - 1].marketShare.value else 0.0)
  }

  lemma {:induction false} VolumesAgree(groups: seq<GroupRow>, total: nat)
    ensures Volumes(seq(|groups|, i requires 0 <= i < |groups| => Row(groups[i], total))) == GroupVolume(groups)
  {
    if groups != [] {
      var init := groups[..|groups| - 1];
      VolumesAgree(init, total);
      var r := seq(|groups|, i requires 0 <= i < |groups| => Row(groups[i], total));
      assert r[..|r| - 1] == seq(|init|, i requires 0 <= i < |init| => Row(init[i], total));
    }
  }

  lemma {:induction false} SharesAddUp(r: seq<CompetitorRow>, total: nat)
    requires total > 0 && Volumes(r) == total
    requires forall i :: 0 <= i < |r| ==> r[i].marketShare == Share(r[i].totalVolume, total)
    ensures forall i :: 0 <= i < |r| ==> r[i].marketShare.Some?
    ensures ShareSum(r) == 100.0
  {
    SharesScale(r, total);
    DivSelf(total as real);
  }

  lemma DivSelf(t: real)
    requires t != 0.0
    ensures t / t == 1.0
  {
  }

  lemma {:induction false} SharesScale(r: seq<CompetitorRow>, total: nat)
    requires total > 0
    requires forall i :: 0 <= i < |r| ==> r[i].marketShare == Share(r[i].totalVolume, total)
    ensures ShareSum(r) == Volumes(r) as real / total as real * 100.0
  {
    if r != [] {
      SharesScale(r[..|r| - 1], total);
      var t := total as real;
      var a, b := Volumes(r[..|r| - 1]) as real, r[|r| - 1].totalVolume as real;
      DivAdd(a, b, t);
    }
  }

  // ---------------------------------------------------------------------
  // Price trends

  datatype PriceTrend = PriceTrend(date: int, avgPrice: real, volume: nat)

  /** The running total of one day's group. */
  datatype Bucket = Bucket(day: int, total: real, volume: nat)

  /** The rows dated at or after the cutoff, in table order: exactly the
      rows of the history that are that recent. */
  function InWindow(history: seq<PriceRecord>, cutoff: int): (r: seq<PriceRecord>)
    ensures |r| <= |history|
    ensures forall x :: x in r <==> x in history && x.auctionDate >= cutoff
  {
    if history == [] then []
    else
      var init, last := history[..|history| - 1], history[|history| - 1];
      assert history == init + [last];
      InWindow(init, cutoff) + (if last.auctionDate >= cutoff then [last] else [])
  }

  function DayKey(r: PriceRecord): real {
    Day(r.auctionDate) as real
  }

  /** Counts one more sale: into the last bucket when it is of the same day,
      otherwise into a new bucket. */
  function AddSale(b: seq<Bucket>, day: int, price: real): (b': seq<Bucket>)
    ensures |b'| > 0 && b'[|b'| - 1].day == day
  {
    if |b| > 0 && b[|b| - 1].day == day then
      var g := b[|b| - 1];
      b[..|b| - 1] + [Bucket(g.day, g.total + price, g.volume + 1)]
    else
      b + [Bucket(day, price, 1)]
  }

  /** Groups rows sorted by day into one bucket per day. */
  function Buckets(rs: seq<PriceRecord>): (b: seq<Bucket>)
    ensures rs != [] ==> |b| > 0 && b[|b| - 1].day == Day(rs[|rs| - 1].auctionDate)
  {
    if rs == [] then [] else AddSale(Buckets(rs[..|rs| - 1]), Day(rs[|rs| - 1].auctionDate), rs[|rs| - 1].salePrice)
  }

  function BucketVolume(b: seq<Bucket>): nat {
    if b == [] then 0 else BucketVolume(b[..|b| - 1]) + b[|b| - 1].volume
  }

  predicate DaysAscending(b: seq<Bucket>) {
    forall i, j :: 0 <= i < j < |b| ==> b[i].day < b[j].day
  }

  predicate NoEmptyBucket(b: seq<Bucket>) {
    forall i :: 0 <= i < |b| ==> b[i].volume >= 1
  }

  /** Adding a sale no earlier than the last bucket's day keeps the days
      ascending and the buckets non-empty, and counts exactly one more sale. */
  lemma AddSaleStep(b: seq<Bucket>, day: int, price: real)
    requires DaysAscending(b) && NoEmptyBucket(b)
    requires |b| > 0 ==> b[|b| - 1].day <= day
    ensures DaysAscending(AddSale(b, day, price)) && NoEmptyBucket(AddSale(b, day, price))
    ensures BucketVolume(AddSale(b, day, price)) == BucketVolume(b) + 1
  {
    if |b| > 0 && b[|b| - 1].day == day {
      MergeStep(b, price);
    } else {
      AppendStep(b, day, price);
    }
  }

  lemma AppendStep(b: seq<Bucket>, day: int, price: real)
    requires DaysAscending(b) && NoEmptyBucket(b)
    requires |b| > 0 ==> b[|b| - 1].day < day
    ensures DaysAscending(b + [Bucket(day, price, 1)]) && NoEmptyBucket(b + [Bucket(day, price, 1)])
    ensures BucketVolume(b + [Bucket(day, price, 1)]) == BucketVolume(b) + 1
  {
    AppendAscending(b, Bucket(day, price, 1));
    AppendNonEmpty(b, Bucket(day, price, 1));
    AppendVolume(b, Bucket(day, price, 1));
  }

  lemma AppendNonEmpty(b: seq<Bucket>, x: Bucket)
    requires NoEmptyBucket(b) && x.volume >= 1
    ensures NoEmptyBucket(b + [x])
  {
    forall i | 0 <= i < |b + [x]| ensures (b + [x])[i].volume >= 1 {
      if i < |b| {
        assert (b + [x])[i] == b[i];
      }
    }
  }

  lemma AppendVolume(b: seq<Bucket>, x: Bucket)
    ensures BucketVolume(b + [x]) == BucketVolume(b) + x.volume
  {
    assert (b + [x])[..|b|] == b;
  }

  lemma AppendAscending(b: seq<Bucket>, x: Bucket)
    requires DaysAscending(b)
    requires |b| > 0 ==> b[|b| - 1].day < x.day
    ensures DaysAscending(b + [x])
  {
    var b' := b + [x];
    forall i, j | 0 <= i < j < |b'| ensures b'[i].day < b'[j].day {
      if j < |b| {
        assert b'[i] == b[i] && b'[j] == b[j];
      } else {
        assert b'[i] == b[i] && b'[j] == x;
        assert b[i].day <= b[|b| - 1].day;
      }
    }
  }

  lemma MergeStep(b: seq<Bucket>, price: real)
    requires |b| > 0 && DaysAscending(b) && NoEmptyBucket(b)
    ensures var init, g := b[..|b| - 1], b[|b| - 1];
      var b' := init + [Bucket(g.day, g.total + price, g.volume + 1)];
      DaysAscending(b') && NoEmptyBucket(b') && BucketVolume(b') == BucketVolume(b) + 1
  {
    var init, g := b[..|b| - 1], b[|b| - 1];
    var g' := Bucket(g.day, g.total + price, g.volume + 1);
    PrefixBuckets(b);
    AppendAscending(init, g');
    AppendNonEmpty(init, g');
    AppendVolume(init, g');
  }

  lemma PrefixBuckets(b: seq<Bucket>)
    requires |b| > 0 && DaysAscending(b) && NoEmptyBucket(b)
    ensures var init := b[..|b| - 1];
      DaysAscending(init) && NoEmptyBucket(init) && (|init| > 0 ==> init[|init| - 1].day < b[|b| - 1].day)
  {
    var init := b[..|b| - 1];
    assert forall i :: 0 <= i < |init| ==> init[i] == b[i];
  }

  /** The keeper of the rows of day `d`. */
  function OnDay(d: int): PriceRecord -> bool {
    (r: PriceRecord) => Day(r.auctionDate) == d
  }

  /** The rows of `rs` sold on day `d`, in order: one SQL `DATE(...)` group. */
  function OfDay(rs: seq<PriceRecord>, d: int): seq<PriceRecord> {
    Filter(rs, OnDay(d))
  }

  /** A bucket counts and totals exactly the rows of its day. */
  predicate BucketOf(rs: seq<PriceRecord>, g: Bucket) {
    g.volume == |OfDay(rs, g.day)| && g.total == Sum(Prices(OfDay(rs, g.day)))
  }

  predicate BucketsOf(rs: seq<PriceRecord>, b: seq<Bucket>) {
    forall i :: 0 <= i < |b| ==> BucketOf(rs, b[i])
  }

  /** Every row's day has a bucket. */
  predicate DaysCovered(rs: seq<PriceRecord>, b: seq<Bucket>) {
    forall x :: x in rs ==> exists i :: 0 <= i < |b| && b[i].day == Day(x.auctionDate)
  }

  lemma SumPricesSnoc(rs: seq<PriceRecord>, x: PriceRecord)
    ensures Sum(Prices(rs + [x])) == Sum(Prices(rs)) + x.salePrice
  {
    assert Prices(rs + [x]) == Prices(rs) + [x.salePrice];
    SumAppend(Prices(rs), [x.salePrice]);
    assert Sum([x.salePrice]) == x.salePrice + Sum([]);
  }

  /** A row of another day leaves a bucket as it is. */
  lemma OtherDayBucket(rs: seq<PriceRecord>, x: PriceRecord, g: Bucket)
    requires BucketOf(rs, g) && g.day != Day(x.auctionDate)
    ensures BucketOf(rs + [x], g)
  {
    FilterSnoc(rs, x, OnDay(g.day));
    assert OfDay(rs + [x], g.day) == OfDay(rs, g.day) + [] == OfDay(rs, g.day);
  }

  /** A row of the bucket's day is counted and added to its total. */
  lemma SameDayBucket(rs: seq<PriceRecord>, x: PriceRecord, g: Bucket)
    requires BucketOf(rs, g) && g.day == Day(x.auctionDate)
    ensures BucketOf(rs + [x], Bucket(g.day, g.total + x.salePrice, g.volume + 1))
  {
    FilterSnoc(rs, x, OnDay(g.day));
    SumPricesSnoc(OfDay(rs, g.day), x);
  }

  /** The first row of a day makes a bucket of its own. */
  lemma NewDayBucket(rs: seq<PriceRecord>, x: PriceRecord)
    requires forall k :: 0 <= k < |rs| ==> Day(rs[k].auctionDate) != Day(x.auctionDate)
    ensures BucketOf(rs + [x], Bucket(Day(x.auctionDate), x.salePrice, 1))
  {
    var d := Day(x.auctionDate);
    FilterNone(rs, OnDay(d));
    FilterSnoc(rs, x, OnDay(d));
    SumPricesSnoc([], x);
    assert [] + [x] == [x];
  }

  /** Adding a row no earlier than the last bucket's day keeps every bucket
      the count and total of its day, and every day covered. */
  lemma AddSaleBuckets(rs: seq<PriceRecord>, x: PriceRecord, b: seq<Bucket>)
    requires DaysAscending(b) && BucketsOf(rs, b) && DaysCovered(rs, b)
    requires |b| > 0 ==> b[|b| - 1].day <= Day(x.auctionDate)
    ensures BucketsOf(rs + [x], AddSale(b, Day(x.auctionDate), x.salePrice))
    ensures DaysCovered(rs + [x], AddSale(b, Day(x.auctionDate), x.salePrice))
  {
    var d := Day(x.auctionDate);
    if |b| > 0 && b[|b| - 1].day == d {
      MergeBucketsOf(rs, x, b);
      MergeCovered(rs, x, b);
    } else {
      forall i | 0 <= i < |b| ensures b[i].day < d {
        assert b[i].day <= b[|b| - 1].day;
      }
      NewDayFresh(rs, b, d);
      NewBucketsOf(rs, x, b);
      NewCovered(rs, x, b);
    }
  }

  lemma MergeBucketsOf(rs: seq<PriceRecord>, x: PriceRecord, b: seq<Bucket>)
    requires DaysAscending(b) && BucketsOf(rs, b)
    requires |b| > 0 && b[|b| - 1].day == Day(x.auctionDate)
    ensures BucketsOf(rs + [x], AddSale(b, Day(x.auctionDate), x.salePrice))
  {
    var n := |b|;
    var b' := AddSale(b, Day(x.auctionDate), x.salePrice);
    forall i | 0 <= i < |b'| ensures BucketOf(rs + [x], b'[i]) {
      if i < n - 1 {
        assert b'[i] == b[i] && b[i].day < b[n - 1].day;
        OtherDayBucket(rs, x, b[i]);
      } else {
        SameDayBucket(rs, x, b[n - 1]);
      }
    }
  }

  lemma MergeCovered(rs: seq<PriceRecord>, x: PriceRecord, b: seq<Bucket>)
    requires DaysCovered(rs, b)
    requires |b| > 0 && b[|b| - 1].day == Day(x.auctionDate)
    ensures DaysCovered(rs + [x], AddSale(b, Day(x.auctionDate), x.salePrice))
  {
    var n := |b|;
    var b' := AddSale(b, Day(x.auctionDate), x.salePrice);
    forall y | y in rs + [x] ensures exists i :: 0 <= i < |b'| && b'[i].day == Day(y.auctionDate) {
      if y in rs {
        var i :| 0 <= i < n && b[i].day == Day(y.auctionDate);
        assert b'[i].day == b[i].day;
      } else {
        assert b'[n - 1].day == Day(x.auctionDate);
      }
    }
  }

  /** A day later than every bucket's day is the day of no row. */
  lemma NewDayFresh(rs: seq<PriceRecord>, b: seq<Bucket>, d: int)
    requires DaysCovered(rs, b)
    requires forall i :: 0 <= i < |b| ==> b[i].day < d
    ensures forall k :: 0 <= k < |rs| ==> Day(rs[k].auctionDate) != d
  {
    forall k | 0 <= k < |rs| ensures Day(rs[k].auctionDate) != d {
      assert rs[k] in rs;
    }
  }

  lemma NewBucketsOf(rs: seq<PriceRecord>, x: PriceRecord, b: seq<Bucket>)
    requires BucketsOf(rs, b)
    requires forall i :: 0 <= i < |b| ==> b[i].day < Day(x.auctionDate)
    requires forall k :: 0 <= k < |rs| ==> Day(rs[k].auctionDate) != Day(x.auctionDate)
    ensures BucketsOf(rs + [x], AddSale(b, Day(x.auctionDate), x.salePrice))
  {
    var n := |b|;
    var b' := AddSale(b, Day(x.auctionDate), x.salePrice);
    assert b' == b + [Bucket(Day(x.auctionDate), x.salePrice, 1)];
    forall i | 0 <= i < |b'| ensures BucketOf(rs + [x], b'[i]) {
      if i < n {
        assert b'[i] == b[i];
        OtherDayBucket(rs, x, b[i]);
      } else {
        NewDayBucket(rs, x);
      }
    }
  }

  lemma NewCovered(rs: seq<PriceRecord>, x: PriceRecord, b: seq<Bucket>)
    requires DaysCovered(rs, b)
    requires forall i :: 0 <= i < |b| ==> b[i].day < Day(x.auctionDate)
    ensures DaysCovered(rs + [x], AddSale(b, Day(x.auctionDate), x.salePrice))
  {
    var n := |b|;
    var b' := AddSale(b, Day(x.auctionDate), x.salePrice);
    assert b' == b + [Bucket(Day(x.auctionDate), x.salePrice, 1)];
    forall y | y in rs + [x] ensures exists i :: 0 <= i < |b'| && b'[i].day == Day(y.auctionDate) {
      if y in rs {
        var i :| 0 <= i < n && b[i].day == Day(y.auctionDate);
        assert b'[i] == b[i];
      } else {
        assert b'[n].day == Day(x.auctionDate);
      }
    }
  }

  /** Over rows sorted by day, the buckets are one per day in strictly
      ascending order: each counts and totals exactly the rows of its day,
      none is empty, every row's day has one, and together they count every
      row. */
  lemma BucketsProperties(rs: seq<PriceRecord>)
    requires SortedBy(rs, DayKey)
    ensures var b := Buckets(rs);
      && DaysAscending(b) && NoEmptyBucket(b) && BucketVolume(b) == |rs|
      && BucketsOf(rs, b) && DaysCovered(rs, b)
  {
    BucketsShape(rs);
    BucketsContents(rs);
  }

  /** Dropping the last of rows sorted by day leaves them sorted, and the
      dropped row's day is the latest. */
  lemma SortedByDayInit(rs: seq<PriceRecord>)
    requires SortedBy(rs, DayKey) && rs != []
    ensures SortedBy(rs[..|rs| - 1], DayKey)
    ensures |rs| > 1 ==> Day(rs[|rs| - 2].auctionDate) <= Day(rs[|rs| - 1].auctionDate)
  {
    var init := rs[..|rs| - 1];
    forall i, j | 0 <= i < j < |init| ensures DayKey(init[i]) <= DayKey(init[j]) {
      assert init[i] == rs[i] && init[j] == rs[j];
    }
    if |rs| > 1 {
      assert DayKey(rs[|rs| - 2]) <= DayKey(rs[|rs| - 1]);
    }
  }

  lemma {:induction false} BucketsShape(rs: seq<PriceRecord>)
    requires SortedBy(rs, DayKey)
    ensures DaysAscending(Buckets(rs)) && NoEmptyBucket(Buckets(rs)) && BucketVolume(Buckets(rs)) == |rs|
  {
    if rs != [] {
      var init, last := rs[..|rs| - 1], rs[|rs| - 1];
      SortedByDayInit(rs);
      BucketsShape(init);
      AddSaleStep(Buckets(init), Day(last.auctionDate), last.salePrice);
    }
  }

  lemma {:induction false} BucketsContents(rs: seq<PriceRecord>)
    requires SortedBy(rs, DayKey)
    ensures BucketsOf(rs, Buckets(rs)) && DaysCovered(rs, Buckets(rs))
  {
    if rs != [] {
      var init, last := rs[..|rs| - 1], rs[|rs| - 1];
      assert rs == init + [last];
      SortedByDayInit(rs);
      BucketsShape(init);
      BucketsContents(init);
      AddSaleBuckets(init, last, Buckets(init));
    }
  }

  function Trend(g: Bucket): PriceTrend
    requires g.volume > 0
  {
    PriceTrend(g.day, g.total / g.volume as real, g.volume)
  }

  /** The window of `getPriceTrends(category, days)` at time `now`: rows
      dated no earlier than `days` days before `now`. The category argument
      takes no part in the query. */
  function TrendWindow(history: seq<PriceRecord>, days: int, now: int): seq<PriceRecord> {
    InWindow(history, now - days * DayMs)
  }

  /** `getPriceTrends(category, days)`: one entry per day of the window, days
      ascending, with the average price and number of sales of that day. */
  function GetPriceTrends(history: seq<PriceRecord>, category: string, days: int, now: int): (r: seq<PriceTrend>)
  {
    var sorted := SortBy(TrendWindow(history, days, now), DayKey);
    BucketsProperties(sorted);
    TrendsOf(Buckets(sorted))
  }

  /** One trend entry per bucket. */
  function TrendsOf(b: seq<Bucket>): (r: seq<PriceTrend>)
    requires NoEmptyBucket(b)
    ensures |r| == |b| && forall i :: 0 <= i < |b| ==> r[i] == Trend(b[i])
  {
    seq(|b|, i requires 0 <= i < |b| => Trend(b[i]))
  }

  function TrendVolume(r: seq<PriceTrend>): nat {
    if r == [] then 0 else TrendVolume(r[..|r| - 1]) + r[|r| - 1].volume
  }

  /** The trend has one entry for each day on which some window row was
      sold, and no other, dates strictly ascending; each entry's volume is the
      number of window rows of its day and its price their mean sale price;
      the volumes add up to the number of sales in the window. */
  lemma PriceTrendsProperties(history: seq<PriceRecord>, category: string, days: int, now: int)
    ensures var r := GetPriceTrends(history, category, days, now);
      var w := TrendWindow(history, days, now);
      && (forall i, j :: 0 <= i < j < |r| ==> r[i].date < r[j].date)
      && (forall i :: 0 <= i < |r| ==> r[i].volume == |OfDay(w, r[i].date)| && r[i].volume >= 1)
      && (forall i :: 0 <= i < |r| ==> r[i].avgPrice == Sum(Prices(OfDay(w, r[i].date))) / r[i].volume as real)
      && (forall i :: 0 <= i < |r| ==> exists x :: x in w && Day(x.auctionDate) == r[i].date)
      && (forall x :: x in w ==> exists i :: 0 <= i < |r| && r[i].date == Day(x.auctionDate))
      && TrendVolume(r) == |w|
  {
    var w := TrendWindow(history, days, now);
    var sorted := SortBy(w, DayKey);
    BucketsProperties(sorted);
    var b := Buckets(sorted);
    var r := TrendsOf(b);
    TrendVolumeOfBuckets(b);
    forall i | 0 <= i < |r|
      ensures r[i].volume == |OfDay(w, r[i].date)| && r[i].volume >= 1
      ensures r[i].avgPrice == Sum(Prices(OfDay(w, r[i].date))) / r[i].volume as real
      ensures exists x :: x in w && Day(x.auctionDate) == r[i].date
    {
      TrendEntry(w, sorted, b[i]);
    }
    TrendCovers(w, sorted, b);
  }

  /** A bucket of the sorted window describes the window's rows of its day:
      their number, their mean price, and that there is at least one. */
  lemma TrendEntry(w: seq<PriceRecord>, sorted: seq<PriceRecord>, g: Bucket)
    requires multiset(sorted) == multiset(w) && BucketOf(sorted, g) && g.volume >= 1
    ensures Trend(g).volume == |OfDay(w, g.day)|
    ensures Trend(g).avgPrice == Sum(Prices(OfDay(w, g.day))) / g.volume as real
    ensures exists x :: x in w && Day(x.auctionDate) == g.day
  {
    DayGroupPermutation(sorted, w, g.day);
    var group := OfDay(w, g.day);
    FilterMembers(w, OnDay(g.day));
    assert group[0] in group;
  }

  /** Every window row's day has a trend entry. */
  lemma TrendCovers(w: seq<PriceRecord>, sorted: seq<PriceRecord>, b: seq<Bucket>)
    requires multiset(sorted) == multiset(w) && DaysCovered(sorted, b) && NoEmptyBucket(b)
    ensures forall x :: x in w ==> exists i :: 0 <= i < |TrendsOf(b)| && TrendsOf(b)[i].date == Day(x.auctionDate)
  {
    var r := TrendsOf(b);
    forall x | x in w ensures exists i :: 0 <= i < |r| && r[i].date == Day(x.auctionDate) {
      assert x in multiset(sorted);
      var i :| 0 <= i < |b| && b[i].day == Day(x.auctionDate);
      assert r[i].date == b[i].day;
    }
  }

  /** Permuted rows have day groups of the same size and total. */
  lemma DayGroupPermutation(a: seq<PriceRecord>, b: seq<PriceRecord>, d: int)
    requires multiset(a) == multiset(b)
    ensures |OfDay(a, d)| == |OfDay(b, d)|
    ensures Sum(Prices(OfDay(a, d))) == Sum(Prices(OfDay(b, d)))
  {
    FilterPermutation(a, b, OnDay(d));
    assert |multiset(OfDay(a, d))| == |OfDay(a, d)|;
    assert |multiset(OfDay(b, d))| == |OfDay(b, d)|;
    PriceSumPermutation(OfDay(a, d), OfDay(b, d));
  }

  /** The total of the sale prices does not depend on the order of the rows. */
  lemma {:induction false} PriceSumPermutation(a: seq<PriceRecord>, b: seq<PriceRecord>)
    requires multiset(a) == multiset(b)
    ensures Sum(Prices(a)) == Sum(Prices(b))
    decreases |a|
  {
    if a == [] {
      assert |multiset(b)| == 0;
    } else {
      assert a[0] in multiset(b);
      var k :| 0 <= k < |b| && b[k] == a[0];
      RemoveOne(a, b, k);
      PriceSumPermutation(a[1..], b[..k] + b[k + 1..]);
      SumPricesWithout(b, k);
      assert Prices(a)[1..] == Prices(a[1..]);
    }
  }

  lemma RemoveOne<T>(a: seq<T>, b: seq<T>, k: nat)
    requires multiset(a) == multiset(b) && a != [] && k < |b| && b[k] == a[0]
    ensures multiset(a[1..]) == multiset(b[..k] + b[k + 1..])
  {
    var rest := b[..k] + b[k + 1..];
    assert b == b[..k] + [b[k]] + b[k + 1..];
    assert multiset(b) == multiset(b[..k]) + multiset{b[k]} + multiset(b[k + 1..]);
    assert multiset(rest) == multiset(b[..k]) + multiset(b[k + 1..]);
    assert a == [a[0]] + a[1..];
    assert multiset(a) == multiset{a[0]} + multiset(a[1..]);
    assert multiset(a[1..]) == multiset(a) - multiset{a[0]};
    assert multiset(rest) == multiset(b) - multiset{a[0]};
  }

  lemma SumPricesWithout(b: seq<PriceRecord>, k: nat)
    requires k < |b|
    ensures Sum(Prices(b)) == Sum(Prices(b[..k] + b[k + 1..])) + b[k].salePrice
  {
    var before, after := Prices(b[..k]), Prices(b[k + 1..]);
    assert Prices(b) == before + [b[k].salePrice] + after;
    assert Prices(b[..k] + b[k + 1..]) == before + after;
    SumAppend(before + [b[k].salePrice], after);
    SumAppend(before, [b[k].salePrice]);
    SumAppend(before, after);
    assert Sum([b[k].salePrice]) == b[k].salePrice + Sum([]);
  }

  lemma {:induction false} TrendVolumeOfBuckets(b: seq<Bucket>)
    requires NoEmptyBucket(b)
    ensures TrendVolume(TrendsOf(b)) == BucketVolume(b)
  {
    if b != [] {
      var init := b[..|b| - 1];
      TrendVolumeOfBuckets(init);
      var r := TrendsOf(b);
      assert r[..|r| - 1] == TrendsOf(init);
    }
  }

  // ---------------------------------------------------------------------
  // The service over its two tables

  class PriceAnalyticsService {
    /** The `price_history` table. */
    var history: seq<PriceRecord>
    /** The `competitor_metrics` table. */
    var metrics: seq<CompetitorMetric>

    constructor()
      ensures history == [] && metrics == []
    {
      history := [];
      metrics := [];
    }

    /** `findOpportunities(threshold)` over the listings table at time `now`:
        the opportunities of the active, enriched listings, sorted by
        deviation, highest first. */
    method FindOpportunities(listings: seq<Listing>, threshold: real, now: int) returns (r: seq<OpportunityItem>)
      ensures multiset(r) == multiset(Opportunities(Filter(listings, OpenAndEnriched), Analyzer(history), threshold, now))
      ensures HighestFirst(r)
      ensures forall i :: 0 <= i < |r| ==> r[i].deviation >= threshold
      ensures forall d ::
        Filter(r, HasKey(NegDeviation, d)) == Filter(Opportunities(Filter(listings, OpenAndEnriched), Analyzer(history), threshold, now), HasKey(NegDeviation, d))
    {
      var active := Filter(listings, OpenAndEnriched);
      var opportunities: seq<OpportunityItem> := [];
      for i := 0 to |active|
        invariant opportunities == Opportunities(active[..i], Analyzer(history), threshold, now)
      {
        OpportunitiesStep(active, i, Analyzer(history), threshold, now);
        var auction := active[i];
        if Assessable(auction) {
          var analysis := FindComparables(history, auction.manufacturer.value, auction.model.value,
                                          Or(auction.condition, "", None), 10);
          assert analysis == Analyzer(history)(auction);
          if analysis.sampleSize >= 3 && analysis.averagePrice != 0.0 {
            var deviation := Deviation(analysis.averagePrice, auction.currentBid.value);
            if deviation >= threshold {
              opportunities := opportunities + [ItemFor(auction, analysis.averagePrice, deviation, now)];
            }
          }
        }
      }
      assert active[..|active|] == active;
      r := SortBy(opportunities, NegDeviation);
      forall i | 0 <= i < |r| ensures r[i].deviation >= threshold {
        assert r[i] in multiset(opportunities);
      }
      forall d ensures Filter(r, HasKey(NegDeviation, d)) == Filter(opportunities, HasKey(NegDeviation, d)) {
        SortByStable(opportunities, NegDeviation, d);
      }
    }

    /** `updateCompetitorMetrics(auctionHouse, category, dateRange)`: nothing
        when no listing of the house and category sold in the range,
        otherwise one new metrics row for the sold items. */
    method UpdateCompetitorMetrics(listings: seq<Listing>, house: string, category: string, start: int, end: int)
      modifies this
      ensures history == old(history)
      ensures SoldItems(listings, house, category, start, end) == [] ==> metrics == old(metrics)
      ensures SoldItems(listings, house, category, start, end) != [] ==>
        metrics == old(metrics) + [MetricFor(SoldItems(listings, house, category, start, end), house, category, start, end)]
    {
      var sold := SoldItems(listings, house, category, start, end);
      if |sold| == 0 {
        return;
      }
      metrics := metrics + [MetricFor(sold, house, category, start, end)];
    }

    /** `recordSale(...)`: appends the sale with its normalized manufacturer
        and model. */
    method RecordSale(manufacturer: string, model: string, caliber: string, condition: string,
                      salePrice: real, auctionDate: int, auctionHouse: string, sourceUrl: string)
      modifies this
      ensures metrics == old(metrics)
      ensures history == old(history) + [Recorded(manufacturer, model, caliber, condition, salePrice, auctionDate,
                                                   auctionHouse, sourceUrl)]
    {
      history := history + [Recorded(manufacturer, model, caliber, condition, salePrice, auctionDate,
                                     auctionHouse, sourceUrl)];
    }
  }
}
