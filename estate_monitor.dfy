/** `EstateMonitorService` (`server/services/estateMonitor.ts`): scanning
    estate-sale sites for firearms sales, and flagging the high-value ones.
    The page scraper and the language-model analysis are function parameters
    (`scrape` from url to page, `analyze` from page text to reply); the clock
    is the parameter `now`. */
module EstateMonitor {
  import opened FirearmsSchema
  import opened Sequences

  const DayMs: int := 1000 * 60 * 60 * 24

  /** An `EstateSaleAlert` (the contact fields are kept as given; the
      notable items are absent when the reply leaves them out). */
  datatype EstateSaleAlert = EstateSaleAlert(
    url: string,
    title: string,
    location: string,
    estimatedFirearms: int,
    collectionQuality: string,
    notableItems: Option<seq<string>>,
    handler: string,
    phone: Option<string>,
    email: Option<string>,
    saleDate: Option<int>,
    daysUntilSale: int
  )

  /** One alert as the analysis reports it: the sale date already parsed
      (absent when the reply's date is empty or null). */
  datatype RawAlert = RawAlert(
    url: string,
    title: string,
    location: string,
    estimatedFirearms: int,
    collectionQuality: string,
    notableItems: Option<seq<string>>,
    handler: string,
    phone: Option<string>,
    email: Option<string>,
    saleDate: Option<int>
  )

  /** The analysis: a failed call, a reply without an `alerts` list, or the list. */
  datatype AiReply = AiError | NoAlertsField | Alerts(alerts: seq<RawAlert>)

  /** A scraped page: nothing (the scrape failed or returned no data), or its
      markdown and html renderings. */
  datatype Page = NoPage | Page(markdown: Option<string>, html: Option<string>)

  datatype Source = Source(name: string, url: string)

  /** The monitored sites, in scanning order. */
  const Sources: seq<Source> := [
    Source("EstateSales.net", "https://www.estatesales.net"),
    Source("AuctionZip", "https://www.auctionzip.com"),
    Source("EstateSale.com", "https://www.estatesale.com")
  ]

  /** `Math.ceil(a / d)` for a positive divisor. */
  function CeilDiv(a: int, d: int): int
    requires d > 0
  {
    -((-a) / d)
  }

  /** The ceiling is the least whole number of divisors that covers `a`. */
  lemma CeilDivBounds(a: int, d: int)
    requires d > 0
    ensures (CeilDiv(a, d) - 1) * d < a <= CeilDiv(a, d) * d
  {
    var q := (-a) / d;
    assert q * d <= -a < q * d + d;
  }

  /** `daysUntilSale`: whole days, rounded up, from `now` to the sale, or 0
      without a date. */
  function DaysUntilSale(saleDate: Option<int>, now: int): int {
    if saleDate.Some? then CeilDiv(saleDate.value - now, DayMs) else 0
  }

  /** A sale `n` days away (up to the millisecond) is `n` days until sale:
      a future sale is at least one day away, a past one zero or fewer. */
  lemma DaysUntilSaleMeaning(saleDate: int, now: int)
    ensures var n := DaysUntilSale(Some(saleDate), now);
      && (n - 1) * DayMs < saleDate - now <= n * DayMs
      && (saleDate > now ==> n >= 1)
      && (saleDate <= now ==> n <= 0)
  {
    CeilDivBounds(saleDate - now, DayMs);
  }

  function ToAlert(raw: RawAlert, now: int): EstateSaleAlert {
    EstateSaleAlert(raw.url, raw.title, raw.location, raw.estimatedFirearms, raw.collectionQuality, raw.notableItems,
                    raw.handler, raw.phone, raw.email, raw.saleDate, DaysUntilSale(raw.saleDate, now))
  }

  /** The alerts an analysis yields. A failed call yields none; so does a
      reply without a list, whose callers fail on it and skip it. */
  function AnalysisAlerts(reply: AiReply, now: int): (r: seq<EstateSaleAlert>)
    ensures reply.Alerts? ==> |r| == |reply.alerts|
    ensures reply.Alerts? ==> forall i :: 0 <= i < |r| ==> r[i] == ToAlert(reply.alerts[i], now)
    ensures !reply.Alerts? ==> r == []
  {
    if reply.Alerts? then seq(|reply.alerts|, i requires 0 <= i < |reply.alerts| => ToAlert(reply.alerts[i], now))
    else []
  }

  /** `response.data.markdown || response.data.html || ''`. */
  function PageText(markdown: Option<string>, html: Option<string>): string {
    if Truthy(markdown, "") then markdown.value else if Truthy(html, "") then html.value else ""
  }

  /** The page scanned for a source: its home page, or its search for
      firearms in the given state. */
  function SearchUrl(base: string, state: Option<string>): (u: string)
    ensures |u| >= |base| && u[..|base|] == base
    ensures u == base <==> !Truthy(state, "")
  {
    if Truthy(state, "") then base + "/search?state=" + state.value + "&keywords=firearms+guns" else base
  }

  /** The state can be read back from a site's search url: two states give
      the same url only when they are the same state. */
  lemma SearchUrlInjective(base: string, state: Option<string>, state': Option<string>)
    requires Truthy(state, "") && Truthy(state', "")
    ensures SearchUrl(base, state) == SearchUrl(base, state') <==> state == state'
  {
    var p, k := base + "/search?state=", "&keywords=firearms+guns";
    var u, u' := p + state.value + k, p + state'.value + k;
    if u == u' {
      assert |state.value| == |state'.value|;
      assert u[|p|..|p| + |state.value|] == state.value;
      assert u'[|p|..|p| + |state'.value|] == state'.value;
    }
  }

  /** What one page contributes: nothing when it could not be scraped, else
      its analysis. */
  function PageAlerts(page: Page, analyze: string -> AiReply, now: int): seq<EstateSaleAlert> {
    match page
    case NoPage => []
    case Page(markdown, html) => AnalysisAlerts(analyze(PageText(markdown, html)), now)
  }

  function SourceAlerts(src: Source, state: Option<string>, scrape: string -> Page, analyze: string -> AiReply,
                        now: int): seq<EstateSaleAlert>
  {
    PageAlerts(scrape(SearchUrl(src.url, state)), analyze, now)
  }

  /** The alerts of the sources, source by source. */
  function ScanResult(sources: seq<Source>, state: Option<string>, scrape: string -> Page,
                      analyze: string -> AiReply, now: int): seq<EstateSaleAlert>
  {
    if sources == [] then []
    else
      ScanResult(sources[..|sources| - 1], state, scrape, analyze, now)
        + SourceAlerts(sources[|sources| - 1], state, scrape, analyze, now)
  }

  /** An alert is in the scan iff some site's analysis reported it: a site
      that fails takes nothing away from the others. */
  lemma {:induction false} ScanMembers(sources: seq<Source>, state: Option<string>, scrape: string -> Page,
                                       analyze: string -> AiReply, now: int)
    ensures forall a :: a in ScanResult(sources, state, scrape, analyze, now) <==>
      exists i :: 0 <= i < |sources| && a in SourceAlerts(sources[i], state, scrape, analyze, now)
  {
    if sources != [] {
      var init := sources[..|sources| - 1];
      ScanMembers(init, state, scrape, analyze, now);
      assert forall i :: 0 <= i < |init| ==> sources[i] == init[i];
    }
  }

  /** Large or fine enough to flag without looking at the notable items. */
  predicate LargeOrFine(a: EstateSaleAlert) {
    a.collectionQuality == "Museum" || a.collectionQuality == "High" || a.estimatedFirearms >= 20
  }

  /** A high-value estate: museum or high quality, at least 20 firearms, or
      at least three notable items. */
  predicate HighValue(a: EstateSaleAlert) {
    LargeOrFine(a) || (a.notableItems.Some? && |a.notableItems.value| >= 3)
  }

  /** The filter reads the notable items' length only when the first three
      tests fail, and that read throws when the reply left them out. */
  predicate FilterThrows(a: EstateSaleAlert) {
    !LargeOrFine(a) && a.notableItems.None?
  }

  /** The flagged alerts are those of the scan that are high-value, in scan
      order. */
  lemma FlaggedMeaning(alerts: seq<EstateSaleAlert>)
    ensures Subsequence(Filter(alerts, HighValue), alerts)
    ensures forall a :: a in Filter(alerts, HighValue) <==> a in alerts && HighValue(a)
  {
    FilterIsSubsequence(alerts, HighValue);
    FilterMembers(alerts, HighValue);
  }

  /** `monitorUrl(url)`: the first alert of the page, or null. */
  function MonitorUrl(url: string, scrape: string -> Page, analyze: string -> AiReply, now: int): Option<EstateSaleAlert> {
    var alerts := PageAlerts(scrape(url), analyze, now);
    if |alerts| > 0 then Some(alerts[0]) else None
  }

  /** Monitoring a site's url finds the first alert a scan without a state
      filter reports for that site, and nothing exactly when the scan reports
      nothing for it. */
  lemma MonitorAgreesWithScan(src: Source, scrape: string -> Page, analyze: string -> AiReply, now: int)
    ensures var alerts := SourceAlerts(src, None, scrape, analyze, now);
      && (MonitorUrl(src.url, scrape, analyze, now).Some? <==> alerts != [])
      && (alerts != [] ==> MonitorUrl(src.url, scrape, analyze, now) == Some(alerts[0]))
  {
    assert SearchUrl(src.url, None) == src.url;
  }

  /** `scanEstateSales(state)`: every site in turn, skipping the ones that
      fail, collecting their alerts. */
  method ScanEstateSales(state: Option<string>, scrape: string -> Page, analyze: string -> AiReply, now: int)
    returns (alerts: seq<EstateSaleAlert>)
    ensures alerts == ScanResult(Sources, state, scrape, analyze, now)
  {
    alerts := [];
    for i := 0 to |Sources|
      invariant alerts == ScanResult(Sources[..i], state, scrape, analyze, now)
    {
      assert Sources[..i + 1][..i] == Sources[..i];
      var source := Sources[i];
      var page := scrape(SearchUrl(source.url, state));
      if page.NoPage? {
        continue;
      }
      var analysis := AnalysisAlerts(analyze(PageText(page.markdown, page.html)), now);
      if |analysis| > 0 {
        alerts := alerts + analysis;
      }
    }
    assert Sources[..|Sources|] == Sources;
  }

  /** `flagHighValueEstates()`: the high-value alerts of a scan of every
      site without a state filter. The filter is not guarded: it fails, and
      so does the call, when it reaches an alert that passes none of the
      first three tests and has no notable items. */
  method FlagHighValueEstates(scrape: string -> Page, analyze: string -> AiReply, now: int)
    returns (flagged: Result<seq<EstateSaleAlert>>)
    ensures var all := ScanResult(Sources, None, scrape, analyze, now);
      flagged.Err? <==> exists a :: a in all && FilterThrows(a)
    ensures flagged.Ok? ==> flagged.value == Filter(ScanResult(Sources, None, scrape, analyze, now), HighValue)
    ensures flagged.Ok? ==> Subsequence(flagged.value, ScanResult(Sources, None, scrape, analyze, now))
    ensures flagged.Ok? ==> forall a :: a in flagged.value <==> a in ScanResult(Sources, None, scrape, analyze, now) && HighValue(a)
  {
    var all := ScanEstateSales(None, scrape, analyze, now);
    if exists a :: a in all && FilterThrows(a) {
      return Err("Cannot read properties of undefined (reading 'length')");
    }
    flagged := Ok(Filter(all, HighValue));
    FlaggedMeaning(all);
  }
}
