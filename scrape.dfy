/** `scrapeHotel` of the Playwright, Puppeteer and daily services: the
    details reader, then the pricing reader, inside a `try` whose `catch`
    turns a throw into a failed record. Both readers catch their own
    errors; in the browser services what can still throw is opening the
    browser or a page, or closing it, which happen outside those `try`
    blocks. The daily readers catch everything, so the daily record always
    succeeds. The log lines are left out. */
module StrictScrape {

  import opened Wrappers
  import opened JsonValues
  import opened Variants
  import opened Entries
  import opened Sorting
  import opened Calendar
  import opened Names
  import opened Daily
  import opened Batch

  /** `ScrapedHotel` and `ScrapingResult` of these services: the hotel is
      the details record. */
  datatype StrictHotel = StrictHotel(hotel: Details, pricing: seq<PriceEntry>, scrapedAt: string)

  datatype StrictResult = StrictResult(success: bool, data: Option<StrictHotel>,
                                       error: Option<string>, url: string)

  /** What one browser `scrapeHotel` meets: the message of what threw
      outside the readers, if anything did; the details page (`None` when
      the reader caught an error); the captured bodies and page texts of the
      pricing reader; the day; and the `scrapedAt` stamp. */
  datatype BrowserVisit = BrowserVisit(failure: Option<string>, details: Option<DetailsPage>,
                                       bodies: seq<Json>, page: seq<PageText>,
                                       today: string, scrapedAt: string)

  /** The record built from the two readers' results, or the caught
      message. */
  function Record(url: string, failure: Option<string>, hotel: Details,
                  pricing: seq<PriceEntry>, scrapedAt: string): (r: StrictResult)
    ensures r.url == url
    ensures r.success <==> failure.None?
    ensures r.success ==> r.data == Some(StrictHotel(hotel, pricing, scrapedAt)) && r.error.None?
    ensures !r.success ==> r.data.None? && r.error == failure
  {
    match failure
    case Some(msg) => StrictResult(false, None, Some(msg), url)
    case None => StrictResult(true, Some(StrictHotel(hotel, pricing, scrapedAt)), None, url)
  }

  /** `scrapeHotel` of the Playwright and Puppeteer services. */
  function BrowserScrapeHotel(v: Variant, p: Patterns, url: string, visit: BrowserVisit): (r: StrictResult)
    ensures r.url == url
    ensures r.success <==> visit.failure.None?
    ensures r.success ==> r.data.Some? && r.data.value.hotel.url == url
                          && r.data.value.pricing == StrictPricing(v, visit.bodies, visit.page, visit.today)
  {
    Record(url, visit.failure, BrowserDetails(visit.details, url, RemovalList(v, p)),
           StrictPricing(v, visit.bodies, visit.page, visit.today), visit.scrapedAt)
  }

  /** A successful browser record carries date-sorted prices, none `NaN`,
      no (price, date) pair twice; a details page that could not be read
      still gives a successful record, under the default name. */
  lemma BrowserScrapeCorrect(v: Variant, p: Patterns, url: string, visit: BrowserVisit)
    ensures var r := BrowserScrapeHotel(v, p, url, visit);
      r.success ==>
        SortedBy(r.data.value.pricing, DateKey)
        && NoRepeatedKey(r.data.value.pricing)
        && (forall e :: e in r.data.value.pricing ==> e.price.Some?)
    ensures var r := BrowserScrapeHotel(v, p, url, visit);
      visit.failure.None? && visit.details.None? ==>
        r.success && r.data.value.hotel == Details("Unknown Hotel", url, None, None, None)
  {
    StrictPricingCorrect(v, visit.bodies, visit.page, visit.today);
  }

  /** `scrapeHotel` of the daily service: `hotel` is what its details reader
      returned and `page` what its pricing reader fetched. */
  function DailyScrapeHotel(url: string, hotel: Details, page: Option<DailyPage>,
                            today: string, scrapedAt: string): (r: StrictResult)
    ensures r.url == url && r.success && r.error.None?
    ensures r.data == Some(StrictHotel(hotel, DailyPricing(page, today), scrapedAt))
  {
    Record(url, None, hotel, DailyPricing(page, today), scrapedAt)
  }

  /** A daily record never repeats a (price, date) pair and holds no `NaN`
      price. */
  lemma DailyScrapeCorrect(url: string, hotel: Details, page: Option<DailyPage>, today: string, scrapedAt: string)
    ensures var pricing := DailyScrapeHotel(url, hotel, page, today, scrapedAt).data.value.pricing;
      NoRepeatedKey(pricing) && forall e :: e in pricing ==> e.price.Some?
  {
    if page.Some? {
      DailyPricingCorrect(page.value, today);
    }
  }

  /** `scrapeMultipleHotels` over a `scrapeHotel` that answers every URL
      with a record for that URL, failing exactly on the visits `threw`
      holds for. */
  method ScrapeAll<V>(v: Variant, urls: seq<string>, visits: seq<V>,
                      scrape: (string, V) -> StrictResult, threw: V -> bool)
    returns (b: BatchResult<StrictResult>, delays: seq<nat>)
    requires |visits| == |urls|
    requires forall u, x :: scrape(u, x).url == u && (scrape(u, x).success <==> !threw(x))
    ensures |b.results| == |urls| && b.totalHotels == |urls|
    ensures forall i :: 0 <= i < |urls| ==> b.results[i] == scrape(urls[i], visits[i])
    ensures forall i :: 0 <= i < |urls| ==> b.results[i].url == urls[i]
    ensures forall i :: 0 <= i < |urls| ==> (b.results[i].success <==> !threw(visits[i]))
    ensures b.successfulScrapes + b.failedScrapes == |urls|
    ensures b.failedScrapes == 0 <==> forall i :: 0 <= i < |urls| ==> !threw(visits[i])
    ensures delays == Waits(v, Gaps(|urls|))
  {
    var items := seq(|urls|, i requires 0 <= i < |urls| => (urls[i], visits[i]));
    var ok := (r: StrictResult) => r.success;
    b, delays := ScrapeMultipleHotels(v, items, (it: (string, V)) => scrape(it.0, it.1), ok);
    assert forall i :: 0 <= i < |urls| ==> b.results[i] == scrape(urls[i], visits[i]);
    CountOkBounds(b.results, ok);
  }

  /** `scrapeMultipleHotels` of the Playwright and Puppeteer services with
      their `scrapeHotel`: the i-th record answers the i-th URL, succeeds
      exactly when nothing threw on its visit, and the batch reports no
      failure exactly when no visit threw. */
  method BrowserBatch(v: Variant, p: Patterns, urls: seq<string>, visits: seq<BrowserVisit>)
    returns (b: BatchResult<StrictResult>, delays: seq<nat>)
    requires |visits| == |urls|
    ensures |b.results| == |urls| && b.totalHotels == |urls|
    ensures forall i :: 0 <= i < |urls| ==> b.results[i] == BrowserScrapeHotel(v, p, urls[i], visits[i])
    ensures forall i :: 0 <= i < |urls| ==> b.results[i].url == urls[i]
    ensures forall i :: 0 <= i < |urls| ==> (b.results[i].success <==> visits[i].failure.None?)
    ensures b.successfulScrapes + b.failedScrapes == |urls|
    ensures b.failedScrapes == 0 <==> forall i :: 0 <= i < |urls| ==> visits[i].failure.None?
    ensures delays == Waits(v, Gaps(|urls|))
  {
    b, delays := ScrapeAll(v, urls, visits, (u, x) => BrowserScrapeHotel(v, p, u, x),
                           (x: BrowserVisit) => x.failure.Some?);
  }

  /** What one daily `scrapeHotel` meets: the details record its reader
      returned, the page its pricing reader fetched, the day and the
      `scrapedAt` stamp. */
  datatype DailyVisit = DailyVisit(hotel: Details, page: Option<DailyPage>, today: string, scrapedAt: string)

  /** `scrapeMultipleHotels` of the daily service: the i-th record answers
      the i-th URL, and since nothing can throw, every scrape succeeds. */
  method DailyBatch(urls: seq<string>, visits: seq<DailyVisit>)
    returns (b: BatchResult<StrictResult>, delays: seq<nat>)
    requires |visits| == |urls|
    ensures |b.results| == |urls| && b.totalHotels == |urls|
    ensures forall i :: 0 <= i < |urls| ==> b.results[i].url == urls[i] && b.results[i].success
    ensures forall i :: 0 <= i < |urls| ==>
              b.results[i].data == Some(StrictHotel(visits[i].hotel, DailyPricing(visits[i].page, visits[i].today),
                                                    visits[i].scrapedAt))
    ensures b.successfulScrapes == |urls| && b.failedScrapes == 0
    ensures delays == Waits(Variant.Daily, Gaps(|urls|))
  {
    b, delays := ScrapeAll(Variant.Daily, urls, visits,
                           (u, x: DailyVisit) => DailyScrapeHotel(u, x.hotel, x.page, x.today, x.scrapedAt),
                           (x: DailyVisit) => false);
  }
}
