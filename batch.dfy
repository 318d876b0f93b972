/** The batch orchestrators (`scrapeMultipleHotels`): a sequential loop
    that scrapes each URL, keeps every result in input order, counts
    successes and failures, and waits between consecutive items. Delays
    are recorded, not waited for. */
module Batch {

  import opened Wrappers
  import opened JsonValues
  import opened Variants
  import opened Names
  import opened Visit

  datatype BatchResult<R> = BatchResult(results: seq<R>, totalHotels: nat,
                                        successfulScrapes: nat, failedScrapes: nat)

  /** How many results count as successes. */
  function CountOk<R>(rs: seq<R>, ok: R -> bool): (n: nat)
    ensures n <= |rs|
  {
    if rs == [] then 0
    else CountOk(rs[..|rs| - 1], ok) + (if ok(rs[|rs| - 1]) then 1 else 0)
  }

  /** Every result counts iff all succeeded; none counts iff all failed. */
  lemma {:induction false} CountOkBounds<R>(rs: seq<R>, ok: R -> bool)
    ensures CountOk(rs, ok) == |rs| <==> forall i :: 0 <= i < |rs| ==> ok(rs[i])
    ensures CountOk(rs, ok) == 0 <==> forall i :: 0 <= i < |rs| ==> !ok(rs[i])
  {
    if rs != [] {
      var init := rs[..|rs| - 1];
      CountOkBounds(init, ok);
      assert forall i :: 0 <= i < |init| ==> init[i] == rs[i];
    }
  }

  /** `k` waits of the variant's delay. */
  function Waits(v: Variant, k: nat): (d: seq<nat>)
    ensures |d| == k
    ensures forall i :: 0 <= i < k ==> d[i] == v.BatchDelay()
  {
    if k == 0 then [] else Waits(v, k - 1) + [v.BatchDelay()]
  }

  /** The delays of a batch of `n` items: one after every item but the
      last. */
  function Gaps(n: nat): nat {
    if n == 0 then 0 else n - 1
  }

  /** The waits recorded after the first `i` of `n` items. */
  function WaitsSoFar(v: Variant, i: nat, n: nat): seq<nat> {
    Waits(v, if i < n then i else Gaps(n))
  }

  /** `scrapeMultipleHotels` of the Playwright, Puppeteer and daily
      services, whose `scrapeHotel` opens a fresh page per URL: `scrape`
      stands for it. */
  method ScrapeMultipleHotels<T, R>(v: Variant, urls: seq<T>, scrape: T -> R, ok: R -> bool)
    returns (b: BatchResult<R>, delays: seq<nat>)
    ensures |b.results| == |urls| && b.totalHotels == |urls|
    ensures forall i :: 0 <= i < |urls| ==> b.results[i] == scrape(urls[i])
    ensures b.successfulScrapes == CountOk(b.results, ok)
    ensures b.successfulScrapes + b.failedScrapes == b.totalHotels
    ensures delays == Waits(v, Gaps(|urls|))
  {
    var results: seq<R> := [];
    var succeeded, failed := 0, 0;
    delays := [];
    for i := 0 to |urls|
      invariant |results| == i
      invariant forall j :: 0 <= j < i ==> results[j] == scrape(urls[j])
      invariant succeeded == CountOk(results, ok) && succeeded + failed == i
      invariant delays == WaitsSoFar(v, i, |urls|)
    {
      var r := scrape(urls[i]);
      assert (results + [r])[..i] == results;
      results := results + [r];
      if ok(r) {
        succeeded := succeeded + 1;
      } else {
        failed := failed + 1;
      }
      if i < |urls| - 1 {
        delays := delays + [v.BatchDelay()];
      }
    }
    b := BatchResult(results, |urls|, succeeded, failed);
  }

  predicate Succeeded(r: ScrapingResult) { r.success }

  /** The records of a batch of visits on one page that starts with `base`
      listeners: the i-th visit (from 0) has `base + i + 1` of them.
      `record(url, page, captures)` builds the record of one visit from the
      responses it captured. */
  function Visits(urls: seq<string>, visits: seq<PageVisit>, base: nat,
                  record: (string, PageVisit, seq<Json>) -> ScrapingResult): (r: seq<ScrapingResult>)
    requires |visits| == |urls|
    ensures |r| == |urls|
  {
    if urls == [] then []
    else
      var n := |urls| - 1;
      Visits(urls[..n], visits[..n], base, record)
        + [record(urls[n], visits[n], Captures(visits[n].traffic, base + n + 1))]
  }

  /** Item by item: each record is the visit of its own URL, with one more
      listener than the one before. */
  lemma {:induction false} VisitsAt(urls: seq<string>, visits: seq<PageVisit>, base: nat,
                                    record: (string, PageVisit, seq<Json>) -> ScrapingResult, i: nat)
    requires |visits| == |urls| && i < |urls|
    ensures Visits(urls, visits, base, record)[i] == record(urls[i], visits[i], Captures(visits[i].traffic, base + i + 1))
  {
    var n := |urls| - 1;
    if i < n {
      VisitsAt(urls[..n], visits[..n], base, record, i);
      assert urls[..n][i] == urls[i] && visits[..n][i] == visits[i];
    }
  }

  lemma NextVisit(urls: seq<string>, visits: seq<PageVisit>, base: nat,
                  record: (string, PageVisit, seq<Json>) -> ScrapingResult, i: nat)
    requires |visits| == |urls| && i < |urls|
    ensures Visits(urls[..i + 1], visits[..i + 1], base, record)
            == Visits(urls[..i], visits[..i], base, record)
               + [record(urls[i], visits[i], Captures(visits[i].traffic, base + i + 1))]
  {
    assert urls[..i + 1][..i] == urls[..i] && visits[..i + 1][..i] == visits[..i];
  }

  /** What a batch on one shared page has gathered after its first `i`
      visits: their records, the success and failure counts and the waits. */
  ghost predicate Progress(v: Variant, urls: seq<string>, visits: seq<PageVisit>, base: nat,
                           record: (string, PageVisit, seq<Json>) -> ScrapingResult, i: nat,
                           results: seq<ScrapingResult>, succeeded: nat, failed: nat, delays: seq<nat>)
    requires |visits| == |urls| && i <= |urls|
  {
    && results == Visits(urls[..i], visits[..i], base, record)
    && succeeded == CountOk(results, Succeeded) && succeeded + failed == i
    && delays == WaitsSoFar(v, i, |urls|)
  }

  /** One more visit, counted and followed by a wait unless it was the
      last, keeps the batch's progress. */
  lemma ProgressStep(v: Variant, urls: seq<string>, visits: seq<PageVisit>, base: nat,
                     record: (string, PageVisit, seq<Json>) -> ScrapingResult, i: nat,
                     results: seq<ScrapingResult>, succeeded: nat, failed: nat, delays: seq<nat>)
    requires |visits| == |urls| && i < |urls|
    requires Progress(v, urls, visits, base, record, i, results, succeeded, failed, delays)
    ensures var r := record(urls[i], visits[i], Captures(visits[i].traffic, base + i + 1));
      Progress(v, urls, visits, base, record, i + 1, results + [r],
               if r.success then succeeded + 1 else succeeded,
               if r.success then failed else failed + 1,
               if i < |urls| - 1 then delays + [v.BatchDelay()] else delays)
  {
    var r := record(urls[i], visits[i], Captures(visits[i].traffic, base + i + 1));
    NextVisit(urls, visits, base, record, i);
    assert (results + [r])[..|results|] == results;
  }

  /** The summary and the waits of a whole batch on one shared page: one
      record per URL, each with its own listener count, the successes
      counted, and a wait between consecutive items. */
  ghost predicate Batched(v: Variant, urls: seq<string>, visits: seq<PageVisit>, base: nat,
                          record: (string, PageVisit, seq<Json>) -> ScrapingResult,
                          b: BatchResult<ScrapingResult>, delays: seq<nat>)
    requires |visits| == |urls|
  {
    && b.results == Visits(urls, visits, base, record)
    && b.totalHotels == |urls|
    && b.successfulScrapes == CountOk(b.results, Succeeded)
    && b.successfulScrapes + b.failedScrapes == |urls|
    && delays == Waits(v, Gaps(|urls|))
  }

  /** After the last visit, the progress is the whole batch's. */
  lemma ProgressDone(v: Variant, urls: seq<string>, visits: seq<PageVisit>, base: nat,
                     record: (string, PageVisit, seq<Json>) -> ScrapingResult,
                     results: seq<ScrapingResult>, succeeded: nat, failed: nat, delays: seq<nat>)
    requires |visits| == |urls|
    requires Progress(v, urls, visits, base, record, |urls|, results, succeeded, failed, delays)
    ensures Batched(v, urls, visits, base, record, BatchResult(results, |urls|, succeeded, failed), delays)
  {
    assert urls[..|urls|] == urls && visits[..|urls|] == visits;
  }

  /** One visit of the backend batch: the scraper is ready afterwards and
      the record is that of a visit with `k` listeners. */
  method BackendVisit(s: LenientScraper, url: string, visit: PageVisit, ghost k: nat)
    returns (result: ScrapingResult)
    requires s.variant == Backend
    requires k == (if s.pageReady then s.listeners else 0) + 1
    modifies s
    ensures s.pageReady && s.listeners == k
    ensures result == s.record(url, visit, Captures(visit.traffic, k))
  {
    var r := s.ScrapeHotel(url, visit);
    result := r.value;
  }

  /** `scrapeMultipleHotels` of the backend `ScraperService` as written: one
      page for the whole batch, so every visit adds a listener. `visits[i]`
      is what the visit of `urls[i]` meets. */
  method BackendBatch(s: LenientScraper, urls: seq<string>, visits: seq<PageVisit>)
    returns (b: BatchResult<ScrapingResult>, delays: seq<nat>)
    requires s.variant == Backend && |visits| == |urls|
    modifies s
    ensures |urls| > 0 ==> s.pageReady
    ensures Batched(Backend, urls, visits, if old(s.pageReady) then old(s.listeners) else 0, s.record, b, delays)
  {
    ghost var base := if s.pageReady then s.listeners else 0;
    var results: seq<ScrapingResult> := [];
    var succeeded, failed := 0, 0;
    delays := [];
    for i := 0 to |urls|
      invariant i > 0 ==> s.pageReady && s.listeners == base + i
      invariant i == 0 ==> s.pageReady == old(s.pageReady) && s.listeners == old(s.listeners)
      invariant Progress(Backend, urls, visits, base, s.record, i, results, succeeded, failed, delays)
    {
      var result := BackendVisit(s, urls[i], visits[i], base + i + 1);
      ProgressStep(Backend, urls, visits, base, s.record, i, results, succeeded, failed, delays);
      results := results + [result];
      if result.success {
        succeeded := succeeded + 1;
      } else {
        failed := failed + 1;
      }
      if i < |urls| - 1 {
        delays := delays + [Backend.BatchDelay()];
      }
    }
    ProgressDone(Backend, urls, visits, base, s.record, results, succeeded, failed, delays);
    b := BatchResult(results, |urls|, succeeded, failed);
  }

  /** `HotelMonitoringScraper` of the package: a `HotelScraper` and the
      records handed to the backend API for saving. */
  class Monitor {
    const scraper: LenientScraper
    var saved: seq<ScrapedHotel>

    constructor(s: LenientScraper)
      ensures scraper == s && saved == []
    {
      scraper := s;
      saved := [];
    }

    /** `scrapeSingleHotel`: a save is attempted only for a successful
      result that carries data, and the result is returned unchanged. */
    method ScrapeSingleHotel(url: string, visit: PageVisit) returns (r: Result<ScrapingResult>)
      requires scraper.variant == Package
      modifies this, scraper
      ensures scraper.pageReady == old(scraper.pageReady)
      ensures !old(scraper.pageReady) ==> r == Failure(NotInitialised) && saved == old(saved)
      ensures old(scraper.pageReady) ==>
                && scraper.listeners == old(scraper.listeners) + 1
                && r == Success(scraper.record(url, visit, Captures(visit.traffic, scraper.listeners)))
                && saved == old(saved) + Saved(r.value)
    {
      r := scraper.ScrapeHotel(url, visit);
      if r.Success? && r.value.success && r.value.data.Some? {
        saved := saved + [r.value.data.value];
      }
    }

    /** `scrapeMultipleHotels` of the package. The error thrown by a missing
      page is not caught: the whole batch fails with it. */
    method ScrapeMultipleHotels(urls: seq<string>, visits: seq<PageVisit>)
      returns (r: Result<BatchResult<ScrapingResult>>, delays: seq<nat>)
      requires scraper.variant == Package && |visits| == |urls|
      modifies this, scraper
      ensures !old(scraper.pageReady) && |urls| > 0 ==> r == Failure(NotInitialised) && saved == old(saved)
      ensures old(scraper.pageReady) || |urls| == 0 ==>
                && r.Success?
                && Batched(Package, urls, visits, old(scraper.listeners), scraper.record, r.value, delays)
                && saved == old(saved) + SavedAll(r.value.results)
    {
      ghost var base, saved0 := scraper.listeners, saved;
      var results: seq<ScrapingResult> := [];
      var succeeded, failed := 0, 0;
      delays := [];
      for i := 0 to |urls|
        invariant scraper.pageReady == old(scraper.pageReady)
        invariant !scraper.pageReady ==> i == 0
        invariant scraper.listeners == base + i
        invariant Progress(Package, urls, visits, base, scraper.record, i, results, succeeded, failed, delays)
        invariant saved == saved0 + SavedAll(results)
      {
        var single;
        single, results, succeeded, failed, delays := ScrapeNext(urls, visits, i, base, results, succeeded, failed, delays);
        if single.Failure? {
          return Failure(single.error), delays;
        }
      }
      ProgressDone(Package, urls, visits, base, scraper.record, results, succeeded, failed, delays);
      r := Success(BatchResult(results, |urls|, succeeded, failed));
    }

    /** One turn of the loop of `scrapeMultipleHotels`: the i-th hotel is
      scraped (and saved), counted, and followed by a wait unless it is
      the last. A failed scrape leaves everything as it was. */
    method ScrapeNext(urls: seq<string>, visits: seq<PageVisit>, i: nat, ghost base: nat,
                      results: seq<ScrapingResult>, succeeded: nat, failed: nat, delays: seq<nat>)
      returns (single: Result<ScrapingResult>, results': seq<ScrapingResult>, succeeded': nat, failed': nat, delays': seq<nat>)
      requires scraper.variant == Package && |visits| == |urls| && i < |urls|
      requires scraper.listeners == base + i
      requires Progress(Package, urls, visits, base, scraper.record, i, results, succeeded, failed, delays)
      modifies this, scraper
      ensures scraper.pageReady == old(scraper.pageReady)
      ensures single.Failure? <==> !old(scraper.pageReady)
      ensures single.Failure? ==> single.error == NotInitialised && saved == old(saved) && delays' == delays
      ensures single.Success? ==>
                && scraper.listeners == base + i + 1
                && Progress(Package, urls, visits, base, scraper.record, i + 1, results', succeeded', failed', delays')
                && saved == old(saved) + Saved(single.value)
                && results' == results + [single.value]
    {
      single := ScrapeSingleHotel(urls[i], visits[i]);
      if single.Failure? {
        results', succeeded', failed', delays' := results, succeeded, failed, delays;
      } else {
        var r := single.value;
        ProgressStep(Package, urls, visits, base, scraper.record, i, results, succeeded, failed, delays);
        results' := results + [r];
        succeeded' := if r.success then succeeded + 1 else succeeded;
        failed' := if r.success then failed else failed + 1;
        delays' := if i < |urls| - 1 then delays + [Package.BatchDelay()] else delays;
      }
    }
  }

  /** Saving one more result appends its data, if any. */
  lemma SavedAllStep(rs: seq<ScrapingResult>, r: ScrapingResult)
    ensures SavedAll(rs + [r]) == SavedAll(rs) + Saved(r)
  {
    assert (rs + [r])[..|rs|] == rs;
  }

  /** The data a result hands to the API: present only on success. */
  function Saved(r: ScrapingResult): (d: seq<ScrapedHotel>)
    ensures |d| <= 1 && (d != [] ==> r.success)
  {
    if r.success && r.data.Some? then [r.data.value] else []
  }

  /** The data a batch hands to the API, in result order. */
  function SavedAll(rs: seq<ScrapingResult>): seq<ScrapedHotel>
  {
    if rs == [] then []
    else SavedAll(rs[..|rs| - 1]) + Saved(rs[|rs| - 1])
  }

  /** At most one save per successful result. */
  lemma {:induction false} SavedAtMostSucceeded(rs: seq<ScrapingResult>)
    ensures |SavedAll(rs)| <= CountOk(rs, Succeeded)
  {
    if rs != [] {
      SavedAtMostSucceeded(rs[..|rs| - 1]);
    }
  }

  /** Every saved record is the data of a successful result of the batch. */
  lemma {:induction false} SavedFromSuccess(rs: seq<ScrapingResult>)
    ensures forall d :: d in SavedAll(rs) ==> exists r :: r in rs && r.success && r.data == Some(d)
  {
    if rs != [] {
      var init := rs[..|rs| - 1];
      SavedFromSuccess(init);
      forall d | d in SavedAll(rs)
        ensures exists r :: r in rs && r.success && r.data == Some(d)
      {
        if d in SavedAll(init) {
          var r :| r in init && r.success && r.data == Some(d);
          assert r in rs;
        } else {
          assert rs[|rs| - 1] in rs;
        }
      }
    }
  }
}
