/** One visit of the lenient scrapers (`ScraperService` of the backend and
    `HotelScraper` of the package): the capture list `graphqlResponses`,
    emptied at the start of a visit and filled by the response listeners
    registered on the long-lived page, and the result record built from
    the visit. The page is abstract: the traffic it receives, the failure
    (if any) of navigation, and what the name, city and page-text readers
    see. */
module Visit {

  import opened Wrappers
  import opened Text
  import opened JsonValues
  import opened Variants
  import opened Entries
  import opened Calendar
  import opened Names

  /** A network response seen by the page; `body` is `None` when its text
      is not JSON. */
  datatype NetResponse = NetResponse(url: string, body: Option<Json>)

  /** What one listener keeps: GraphQL endpoint responses whose body
      parses. */
  predicate Captured(r: NetResponse) {
    Includes(r.url, "/dml/graphql") && r.body.Some?
  }

  function Repeat(x: Json, k: nat): (r: seq<Json>)
    ensures |r| == k && forall i :: 0 <= i < k ==> r[i] == x
  {
    if k == 0 then [] else Repeat(x, k - 1) + [x]
  }

  /** The capture list after `traffic` when `listeners` listeners are
      registered: each listener pushes every captured body, so a body
      appears once per listener. */
  function Captures(traffic: seq<NetResponse>, listeners: nat): (r: seq<Json>)
    ensures forall j :: j in r ==> exists i :: 0 <= i < |traffic| && Captured(traffic[i]) && traffic[i].body == Some(j)
    ensures listeners > 0 ==> forall i :: 0 <= i < |traffic| && Captured(traffic[i]) ==> traffic[i].body.value in r
    ensures listeners == 0 ==> r == []
  {
    if traffic == [] then []
    else
      var last := traffic[|traffic| - 1];
      var before := Captures(traffic[..|traffic| - 1], listeners);
      assert forall i :: 0 <= i < |traffic| - 1 ==> traffic[..|traffic| - 1][i] == traffic[i];
      before + (if Captured(last) then Repeat(last.body.value, listeners) else [])
  }

  datatype HotelData = HotelData(name: string, url: string, city: Option<string>)

  datatype ScrapedHotel = ScrapedHotel(hotel: HotelData, pricing: seq<PriceEntry>, scrapedAt: string)

  datatype ScrapingResult = ScrapingResult(success: bool, data: Option<ScrapedHotel>,
                                           error: Option<string>, url: string)

  /** What a visit meets: the traffic the page receives; the message of the
      error navigation throws, if it does; the address the page ends up
      on; and what the name, city and page-price readers see. */
  datatype PageVisit = PageVisit(traffic: seq<NetResponse>, failure: Option<string>, pageUrl: string,
                                 names: NamePage, citySlug: Option<string>, location: Option<string>,
                                 pageTexts: seq<PageText>, today: string, scrapedAt: string)

  /** The record a visit returns, given the capture list it ended with. The
      backend's details carry a city; the package's do not. */
  function VisitResult(v: Variant, patterns: Patterns, url: string, visit: PageVisit, captured: seq<Json>): (r: ScrapingResult)
    ensures r.url == url
    ensures r.success <==> visit.failure.None?
    ensures r.success ==> r.data.Some? && r.error.None?
    ensures !r.success ==> r.data.None? && r.error == visit.failure
  {
    match visit.failure
    case Some(msg) => ScrapingResult(false, None, Some(msg), url)
    case None =>
      var hotel := HotelData(HotelName(visit.names, RemovalList(v, patterns)), visit.pageUrl,
                             if v == Backend then Some(City(visit.citySlug, visit.location)) else None);
      var pricing := LenientPricing(v, captured, visit.pageTexts, visit.today);
      ScrapingResult(true, Some(ScrapedHotel(hotel, pricing, visit.scrapedAt)), None, url)
  }

  /** The message the package scraper throws when `initialize` was not
      called. */
  const NotInitialised := "Browser not initialized. Call initialize() first."

  class LenientScraper {
    const variant: Variant
    const patterns: Patterns
    /** How a visit and the captures it ended with become the returned
      record: `VisitResult` for this scraper's variant and patterns. */
    const record: (string, PageVisit, seq<Json>) -> ScrapingResult
    /** Whether `initialize` has opened the page. */
    var pageReady: bool
    /** Response listeners registered on the current page. */
    var listeners: nat
    var graphqlResponses: seq<Json>

    constructor(v: Variant, p: Patterns)
      requires v.IsLenient()
      ensures variant == v && patterns == p
      ensures forall u, visit, c :: record(u, visit, c) == VisitResult(v, p, u, visit, c)
      ensures !pageReady && listeners == 0 && graphqlResponses == []
    {
      variant := v;
      patterns := p;
      record := (u, visit, c) => VisitResult(v, p, u, visit, c);
      pageReady := false;
      listeners := 0;
      graphqlResponses := [];
    }

    /** `initialize`: a fresh page, with no listener on it. */
    method Initialize()
      modifies this
      ensures pageReady && listeners == 0
      ensures graphqlResponses == old(graphqlResponses)
    {
      pageReady := true;
      listeners := 0;
    }

    /** `scrapeHotel` as written: a listener is added at every visit and
      never removed, so on the k-th visit of the same page every captured
      response is recorded k times. The package scraper throws (outside its
      try) when the page is missing; the backend one initialises it. */
    method ScrapeHotel(url: string, visit: PageVisit) returns (r: Result<ScrapingResult>)
      modifies this
      ensures variant == Package && !old(pageReady) ==>
                r == Failure(NotInitialised) && listeners == old(listeners)
                && graphqlResponses == old(graphqlResponses) && !pageReady
      ensures variant != Package || old(pageReady) ==>
                && pageReady
                && listeners == (if old(pageReady) then old(listeners) else 0) + 1
                && graphqlResponses == Captures(visit.traffic, listeners)
                && r == Success(record(url, visit, graphqlResponses))
    {
      if !pageReady {
        if variant == Package {
          return Failure(NotInitialised);
        }
        Initialize();
      }
      graphqlResponses := [];
      listeners := listeners + 1;
      Receive(visit.traffic);
      return Success(record(url, visit, graphqlResponses));
    }

    /** `scrapeHotel` with the listener registered once per page: every
      visit records each captured response once, whatever happened
      before. */
    method ScrapeHotelOnce(url: string, visit: PageVisit) returns (r: Result<ScrapingResult>)
      modifies this
      ensures variant == Package && !old(pageReady) ==>
                r == Failure(NotInitialised) && unchanged(this)
      ensures variant != Package || old(pageReady) ==>
                && pageReady && listeners == 1
                && graphqlResponses == Captures(visit.traffic, 1)
                && r == Success(record(url, visit, Captures(visit.traffic, 1)))
    {
      if !pageReady {
        if variant == Package {
          return Failure(NotInitialised);
        }
        Initialize();
      }
      graphqlResponses := [];
      listeners := 1;
      Receive(visit.traffic);
      return Success(record(url, visit, graphqlResponses));
    }

    /** The listeners at work while the traffic arrives: each of them, in
      registration order, pushes every captured body. */
    method Receive(traffic: seq<NetResponse>)
      modifies this
      ensures graphqlResponses == old(graphqlResponses) + Captures(traffic, listeners)
      ensures listeners == old(listeners) && pageReady == old(pageReady)
    {
      ghost var start := graphqlResponses;
      for i := 0 to |traffic|
        invariant listeners == old(listeners) && pageReady == old(pageReady)
        invariant graphqlResponses == start + Captures(traffic[..i], listeners)
      {
        assert traffic[..i + 1][..i] == traffic[..i];
        var response := traffic[i];
        ghost var before := graphqlResponses;
        if Includes(response.url, "/dml/graphql") && response.body.Some? {
          for k := 0 to listeners
            invariant listeners == old(listeners) && pageReady == old(pageReady)
            invariant graphqlResponses == before + Repeat(response.body.value, k)
          {
            graphqlResponses := graphqlResponses + [response.body.value];
          }
        }
      }
      assert traffic[..|traffic|] == traffic;
    }
  }

  /** One listener keeps each captured body once, in arrival order. */
  lemma {:induction false} SingleListenerKeepsOrder(traffic: seq<NetResponse>, r: NetResponse)
    ensures Captures(traffic + [r], 1) == Captures(traffic, 1) + (if Captured(r) then [r.body.value] else [])
  {
    assert (traffic + [r])[..|traffic|] == traffic;
    if Captured(r) {
      assert Repeat(r.body.value, 1) == [r.body.value];
    }
  }

  lemma CapturesOfOne(r: NetResponse, k: nat)
    requires Captured(r)
    ensures Captures([r], k) == Repeat(r.body.value, k)
  {
    assert [r][..0] == [];
  }

  lemma ParseOne(v: Variant, b: Json)
    ensures ParseAll(v, [b]) == LenientParse(v, b)
  {
    assert [b][..0] == [];
    var f := x => LenientParse(v, x);
    assert ParseEach([b], f) == ParseEach([], f) + f(b);
  }

  /** The as-written visit on a page that already has a listener: a single
      captured response yields every one of its prices twice, so the
      result differs from a first visit as soon as that response has a
      price. */
  lemma SecondVisitDoubles(v: Variant, r: NetResponse, pageTexts: seq<PageText>, today: string)
    requires Captured(r)
    ensures Captures([r], 2) == [r.body.value, r.body.value]
    ensures ParseAll(v, Captures([r], 2)) == LenientParse(v, r.body.value) + LenientParse(v, r.body.value)
    ensures LenientParse(v, r.body.value) != [] ==>
              |LenientPricing(v, Captures([r], 2), pageTexts, today)|
              == 2 * |LenientPricing(v, Captures([r], 1), pageTexts, today)|
  {
    var b := r.body.value;
    CapturesOfOne(r, 2);
    CapturesOfOne(r, 1);
    assert Repeat(b, 2) == [b, b] && Repeat(b, 1) == [b];
    ParseEachAppend([b], [b], x => LenientParse(v, x));
    assert [b] + [b] == [b, b];
    ParseOne(v, b);
  }

  /** With the listener registered once, two visits that meet the same
      page give the same record: nothing is carried over from the first. */
  method TwoVisits(s: LenientScraper, url: string, visit: PageVisit) returns (first: Result<ScrapingResult>, second: Result<ScrapingResult>)
    requires s.variant == Backend
    modifies s
    ensures first == second
    ensures first.Success?
  {
    first := s.ScrapeHotelOnce(url, visit);
    second := s.ScrapeHotelOnce(url, visit);
  }
}
