# Hotel price scraping and competitive analysis, in Dafny

This project models the core of a hotel price-monitoring application. Browser
scrapers open a hotel's Booking.com page and click its date picker. While the
page loads they capture the GraphQL responses, then read each day's price from
the availability calendar. When no response carries prices, they fall back to
the prices written in the page text. Other parts of the core:

- a plain-HTML daily scraper;
- a one-page Booking.com details reader;
- the storage service, which saves a hotel and its new daily prices;
- the front end's competitive-analysis chart, hotel legend and price-trend
  table.

The repository holds five versions of the scraping pipeline, modelled as one
`Variant` with five cases:

- `Backend` is the backend `ScraperService`;
- `Package` is the `HotelScraper` of the scraper package, together with its
  `HotelMonitoringScraper`;
- `Playwright`, `Puppeteer` and `Daily` are the other three backend services.

These versions differ in small but observable ways:

- which currency signs the price normaliser strips;
- whether the normaliser knows millions;
- when a calendar day counts;
- whether results are de-duplicated and sorted;
- the delay between two hotels.

The model keeps each difference.

## Code shape

Pure computations are functions on datatypes, proved by lemmas:

- JSON values (`JsonValues`);
- text helpers (`Text`) and number parsing (`Numbers`);
- the normaliser (`Normaliser`) and the price entries (`Entries`);
- the name and city cleaning (`Names`);
- the page analysis (`Analysis`), the legend (`Legend`) and the trend table (`Trend`).

The `scrapeHotel` of the Playwright, Puppeteer and daily services is a function
(`StrictScrape`) over what its two readers return.

Loops of the source are methods proved against those functions. The objects
the source mutates are classes:

- `Visit.LenientScraper` is the scraper with its page, its response listeners
  and its response buffer;
- `Batch.Monitor` is the package's monitor, holding the records handed to the
  API;
- `Storage.PriceStore` is the two database tables.

The browser, the network, the DOM and the clock are inputs. A page visit is
given as the network traffic it produces, the texts that the page's selectors
would return, and whether navigation failed. "Today" and "now" are strings
passed in.

## Model

| member | source | states |
|---|---|---|
| Text.Trim | apps/backend/src/scraper/scraper.service.ts:413 | the result has no leading or trailing white space |
| Text.CollapseSpaces | apps/backend/src/scraper/scraper.service.ts:413 | every white-space character left is a single space, and no two white-space characters are adjacent |
| Text.CollapseAndTrim | apps/backend/src/scraper/scraper.service.ts:413 | `.replace(/\s+/g, ' ').trim()` yields well-spaced text: no edge space, single inner spaces |
| Text.TrimKeepsSpacing | apps/backend/src/scraper/scraper.service.ts:413 | trimming keeps collapsed spacing well spaced |
| Text.CollapseAndTrimIdempotent | apps/backend/src/scraper/scraper.service.ts:413 | collapsing and trimming twice equals doing it once |
| Text.CollapseNoop | apps/backend/src/scraper/scraper.service.ts:413 | text with only single spaces is left unchanged by the collapse |
| Text.IndexOf | apps/backend/src/scraper/scraper.service.ts:592 | returns the first position where the pattern occurs, or none exactly when it never occurs |
| Text.ReplaceFirst | apps/backend/src/scraper/scraper.service.ts:592 | a string replace leaves text without the pattern unchanged; otherwise the result is as long as the text with one occurrence swapped for the replacement |
| Text.ReplaceFirstAtFirst | apps/backend/src/scraper/scraper.service.ts:592 | at the pattern's first occurrence, the replacement keeps the text before it, puts the replacement in its place and keeps the text after it |
| Text.RemoveWhere | apps/backend/src/scraper/scraper.service.ts:588 | a global character replace by '' keeps every other character and drops every matching one |
| Text.RemoveWhereAppend | apps/backend/src/scraper/scrape-booking.ts:47 | character removal distributes over concatenation |
| Text.Split | apps/backend/src/scraper/scraper.service.ts:274 | the pieces contain no separator and join back to the input |
| Text.SplitLast | apps/backend/src/scraper/scraper.service.ts:274-276 | the last piece is the text after the last separator |
| Text.SplitNoSeparator | apps/backend/src/scraper/scrape-booking.ts:78-79 | text without the separator splits into itself alone |
| Numbers.DigitValue | apps/backend/src/scraper/scraperDaily.service.ts:253 | a digit's value is below the radix; in radix 10, exactly '0'-'9' are digits |
| Numbers.NatToString | apps/backend/src/scraper/scraperDaily.service.ts:254 | a number prints as a non-empty run of digits without a leading zero |
| Numbers.NatRoundTrip | apps/backend/src/scraper/scraperDaily.service.ts:253-254 | `parseInt` and `parseFloat` read a printed number back as itself |
| Numbers.IntRoundTrip | apps/backend/src/scraper/scraperDaily.service.ts:253-254 | `parseInt` in base 10 reads any printed integer back as itself, a negative one included |
| Numbers.MinusDigits | apps/backend/src/scraper/scraperDaily.service.ts:253 | a minus sign before digits parses as the negated value |
| Numbers.ParseFloatDigits | apps/backend/src/scraper/scraper.service.ts:598 | `parseFloat` of a digit run followed by a non-number reads the run's value |
| Numbers.ParseIntDigits | apps/backend/src/scraper/scrape-booking.ts:39 | `parseInt(_, 10)` of a digit run is its value |
| Numbers.ParseFloatNoDigits | apps/backend/src/scraper/scraper.service.ts:598 | `parseFloat` of text without digits is NaN |
| JsonValues.Lookup | apps/backend/src/scraper/scraper.service.ts:507 | a property read finds the key's value, or nothing exactly when the key is absent |
| JsonValues.LookupIsLastBinding | apps/backend/src/scraper/scraper.service.ts:507 | a found value is that of the key's last binding: no later field binds the key again |
| JsonValues.Get | apps/backend/src/scraper/scraper.service.ts:507 | optional chaining yields a value only from an object |
| JsonValues.Or | apps/backend/src/scraper/scraper.service.ts:545-547 | `a \|\| b` is `a` when `a` is truthy, and `b` otherwise |
| JsonValues.ParseFloatOf | apps/backend/src/scraper/scraper.service.ts:554 | `parseFloat` of a number is the number, of a string is the text's leading number, and of anything else is NaN |
| JsonValues.OrElse | apps/backend/src/scraper/scraper.service.ts:523 | a default applies exactly when the value is falsy |
| JsonValues.Iterate | apps/backend/src/scraper/scraper.service.ts:550 | `for…of` succeeds on arrays and strings only, and walks an array's items |
| Normaliser.Strip | apps/backend/src/scraper/scraper.service.ts:588 | no currency sign or white space remains |
| Normaliser.StripUnchanged | apps/backend/src/scraper/scraper.service.ts:588 | text without currency signs or spaces is not changed |
| Normaliser.NormaliseAfterPrefix | apps/backend/src/scraper/scraper.service.ts:588-598 | a leading run of currency signs and spaces does not affect the price read |
| Normaliser.PlainPrice | apps/backend/src/scraper/scraper.service.ts:597-598 | "€ 123" reads 123 in every variant |
| Normaliser.KiloPrice | apps/backend/src/scraper/scraper.service.ts:591-593 | "123K" reads 123000 in every variant |
| Normaliser.MegaPrice | apps/backend/src/scraper/scraper.service.ts:594-596 | "2M" reads 2000000 in the backend and package normalisers; the Playwright, Puppeteer and daily normalisers have no 'M' branch and read 2 |
| Normaliser.KiloBeforeMega | apps/backend/src/scraper/scraper.service.ts:591-596 | 'K' is tested first, so "2MK" reads 2000 |
| Normaliser.OnlyFirstKilo | apps/backend/src/scraper/scraper.service.ts:592 | only the first 'K' is removed: "1K2K" reads 12000 |
| Normaliser.NoDigitsIsNaN | apps/backend/src/scraper/scraper.service.ts:585-599 | text without digits normalises to NaN |
| Normaliser.DefaultPriceIsZero | apps/backend/src/scraper/scraper.service.ts:523-524 | the default '€0' of a calendar day normalises to 0 |
| Entries.StandardEntry | apps/backend/src/scraper/scraper.service.ts:621-627 | the entry for a date has currency EUR, is available, has room Standard and no minimum stay |
| Entries.FindIndex | apps/backend/src/scraper/scraperPlaywright.service.ts:226 | `findIndex` returns the first entry with the same (price, date) key, or none when no entry has it |
| Entries.FindIndexFirst | apps/backend/src/scraper/scraperPlaywright.service.ts:226 | an entry whose key does not occur earlier is the one kept |
| Entries.DedupCorrect | apps/backend/src/scraper/scraperPlaywright.service.ts:225-227 | the de-duplicated list: is a subsequence of the input; has no repeated key; holds no NaN price; represents every priced key; keeps every first occurrence |
| Entries.DedupPriced | apps/backend/src/scraper/scraperPlaywright.service.ts:225-227 | every kept entry is an input entry with a price (NaN never survives) |
| Entries.DedupRepresents | apps/backend/src/scraper/scraperPlaywright.service.ts:225-227 | every priced (price, date) pair of the input has a kept entry with the same pair |
| Entries.DedupKeepsFirst | apps/backend/src/scraper/scraperPlaywright.service.ts:225-227 | the first entry of each priced pair is kept |
| Entries.DedupNoop | apps/backend/src/scraper/scraperPlaywright.service.ts:225-227 | a list without repeats or NaN is not changed |
| Entries.DedupIdempotent | apps/backend/src/scraper/scraperPlaywright.service.ts:225-227 | de-duplicating twice equals de-duplicating once |
| Entries.NoRepeatedKeyPermuted | apps/backend/src/scraper/scraperPlaywright.service.ts:224-229 | any reordering of a list with no NaN price and no repeated (price, date) pair, such as the sort after the filter, repeats no pair either |
| Entries.UniqueByDateCorrect | apps/backend/src/scraper/scraperPlaywright.service.ts:224-229 | the final list is sorted by date, is a permutation of the de-duplicated list, repeats no (price, date) pair, and represents every priced key of the input |
| Sorting.SortByCorrect | apps/backend/src/scraper/scraperPlaywright.service.ts:229 | the sort returns a sorted permutation of its input |
| Sorting.SortBySortedNoop | apps/frontend/hotel-intel/src/pages/AnalyseConcurentiellePage.tsx:49-51 | sorting an already sorted list leaves it as it is |
| Calendar.NormaliseValue | apps/backend/src/scraper/scraper.service.ts:523-524 | a string is normalised; any other value gives NaN |
| Calendar.Collect | apps/backend/src/scraper/scraper.service.ts:520-537 | each entry comes from one day, and there are at most as many entries as days |
| Calendar.CollectDays | apps/backend/src/scraper/scraper.service.ts:520-537 | the day loop yields the entries and the throw of the day-by-day specification |
| Calendar.CollectStops | apps/backend/src/scraper/scraper.service.ts:578-580 | once a day throws, later days change nothing |
| Calendar.CollectKeepsPartial | apps/backend/src/scraper/scraper.service.ts:578-582 | a throw keeps the entries pushed before it |
| Calendar.CollectNoThrow | apps/backend/src/scraper/scraper.service.ts:520-537 | without a throwing day, the result is every emitted entry |
| Calendar.ParseGraphQLResponse | apps/backend/src/scraper/scraper.service.ts:502-583 | the parse returns the lenient parse of the response |
| Calendar.CalendarEntries | apps/backend/src/scraper/scraper.service.ts:507-541 | each calendar entry: comes from an available day; carries its checkin date and its normalised price (default '€0'); is EUR, Standard and available |
| Calendar.UnavailableDaySkipped | apps/backend/src/scraper/scraper.service.ts:521 | a day whose `available` is false gives nothing |
| Calendar.MissingPriceSkipped | apps/backend/src/scraper/scraper.service.ts:523-526 | a day without a formatted price gives nothing |
| Calendar.CalendarShadowsAlternates | apps/backend/src/scraper/scraper.service.ts:507-542 | when a calendar is present, only the calendar decides the result |
| Calendar.AlternateDayEntry | apps/backend/src/scraper/scraper.service.ts:550-559 | an availability day gives an entry exactly when it has a price and a date; the entry keeps the date and the availability, and defaults to EUR and Standard |
| Calendar.AvailabilityNeedsNesting | apps/backend/src/scraper/scraper.service.ts:545-549 | without `data.availability` or `availability`, the alternate shapes give nothing |
| Calendar.LenientPageEntries | apps/backend/src/scraper/scraper.service.ts:606-640 | the page fallback yields at most one entry per text, each dated today in EUR |
| Calendar.StrictPageEntries | apps/backend/src/scraper/scraperPlaywright.service.ts:171-221 | the strict page fallback keeps only positive prices, dated today |
| Calendar.CommaIsThousands | apps/backend/src/scraper/scraper.service.ts:619-623 | the page regex reads "1,234" as 1234 |
| Calendar.NormaliserStopsAtComma | apps/backend/src/scraper/scraper.service.ts:585-599 | the normaliser reads "1,234" as 1 |
| Calendar.ParseEachAppend | apps/backend/src/scraper/scraper.service.ts:482-486 | parsing responses distributes over concatenation |
| Calendar.ExtractPricingData | apps/backend/src/scraper/scraper.service.ts:471-500 | the method yields the response entries, or the page entries when the responses give none |
| Calendar.PageOnlyWhenEmpty | apps/backend/src/scraper/scraper.service.ts:489-497 | when the responses give prices, the page is ignored |
| Calendar.PageWhenEmpty | apps/backend/src/scraper/scraper.service.ts:489-497 | when the responses give none, the page entries are the result, all dated today |
| Calendar.CaptureStrict | apps/backend/src/scraper/scraperPlaywright.service.ts:141-164 | the capture loop gathers exactly the strict capture's entries, and reports a throw exactly when the specification throws |
| Calendar.ReadStrictPage | apps/backend/src/scraper/scraperPlaywright.service.ts:166-221 | the page fallback gives exactly the strict page entries: text with a euro sign and a positive captured price, dated today |
| Calendar.ExtractPricingStrict | apps/backend/src/scraper/scraperPlaywright.service.ts:119-238 | the strict pipeline returns the strict pricing specification |
| Calendar.StrictCaptureStops | apps/backend/src/scraper/scraperPlaywright.service.ts:240-242 | a throw in any captured body makes the whole extraction throw, keeping the entries gathered before it |
| Calendar.StrictDayEntry | apps/backend/src/scraper/scraperPlaywright.service.ts:148-160 | a strict day: must be `available === true` and not '€ 0'; gives a positive price; has minimum stay 1 by default |
| Calendar.StrictImpliesLenient | apps/backend/src/scraper/scraperPlaywright.service.ts:148-161 | a day the strict scraper keeps, the lenient one keeps too, with the same price and date |
| Calendar.StrictPricingCorrect | apps/backend/src/scraper/scraperPlaywright.service.ts:224-229 | the strict result: is empty on a throw; otherwise is date-sorted, repeats no (price, date) pair, is drawn from the source entries, and keeps every priced key |
| Daily.Walk | apps/backend/src/scraper/scraperDaily.service.ts:209-246 | the recursive walk yields only standard entries dated today, and only from objects and arrays |
| Daily.NumericPrice | apps/backend/src/scraper/scraperDaily.service.ts:216-223 | a numeric `price` gives an entry exactly when it is positive |
| Daily.StringPrice | apps/backend/src/scraper/scraperDaily.service.ts:224-234 | a string `price` always gives an entry with its normalised value |
| Daily.ZeroStringPrice | apps/backend/src/scraper/scraperDaily.service.ts:224-234 | "€0" as a string is kept with price 0, unlike the number 0 |
| Daily.NestedPrice | apps/backend/src/scraper/scraperDaily.service.ts:239-241 | a `price` key holding an object or array is walked into |
| Daily.PriceOfValue | apps/backend/src/scraper/scraperDaily.service.ts:52 | a JSON-LD numeric price reads as itself |
| Daily.SelectorEntries | apps/backend/src/scraper/scraperDaily.service.ts:128-142 | selector texts give only positive, standard entries dated today |
| Daily.DomStrategy | apps/backend/src/scraper/scraperDaily.service.ts:123-146 | the DOM pass keeps the earlier entries as a prefix and adds only positive standard entries |
| Daily.ExtractPricingFromHtml | apps/backend/src/scraper/scraperDaily.service.ts:20-204 | the method returns the four-strategy daily pricing |
| Daily.SelectorLoop | apps/backend/src/scraper/scraperDaily.service.ts:128-142 | the loop over one selector's elements returns its entries |
| Daily.ConcatLoop | apps/backend/src/scraper/scraperDaily.service.ts:41-81 | the loop over scripts concatenates their entries |
| Daily.DomStopsAtFirst | apps/backend/src/scraper/scraperDaily.service.ts:144 | with entries found earlier, the first selector with elements is the last one tried |
| Daily.DomContinuesWhileEmpty | apps/backend/src/scraper/scraperDaily.service.ts:123-146 | with no entries yet, a selector that yields nothing moves on to the next |
| Daily.DailyPricingCorrect | apps/backend/src/scraper/scraperDaily.service.ts:187-190 | the daily result has no repeated key and no NaN, is a subsequence of the strategies' output, and represents every priced key |
| Daily.HotelId | apps/backend/src/scraper/scraperDaily.service.ts:248-284 | failure carries the message "hotelId not found in HTML or URL" |
| Daily.FirstScriptId | apps/backend/src/scraper/scraperDaily.service.ts:266-275 | the first script with an id decides, with the assignment form tried before the JSON member; none exactly when no script has one |
| Daily.ScanScripts | apps/backend/src/scraper/scraperDaily.service.ts:266-275 | the loop over the scripts returns the first capture, the assignment pattern before the JSON-member one, or nothing exactly when no script has either |
| Daily.ExtractHotelId | apps/backend/src/scraper/scraperDaily.service.ts:248-284 | the method returns the tiered hotel id |
| Daily.BHidDecides | apps/backend/src/scraper/scraperDaily.service.ts:250-254 | a base-36 `b_hid` decides the id, and the id reads back as the base-36 value |
| Daily.BaseDigits | apps/backend/src/scraper/scraperDaily.service.ts:253 | `parseInt(_, 36)` of base-36 digits is their value |
| Names.CleanName | apps/backend/src/scraper/scraper.service.ts:390-416 | a cleaned name is well spaced |
| Names.RemovalList | apps/backend/src/scraper/scraperPlaywright.service.ts:391-403 | the shared patterns come first; the browser variants add only the Booking.com suffix |
| Names.BookingSuffixLast | apps/backend/src/scraper/scraperPlaywright.service.ts:402-409 | in the browser variants, the Booking.com suffix is removed after the shared patterns |
| Names.CleanNameSettled | apps/backend/src/scraper/scraper.service.ts:390-416 | collapsing a cleaned name again changes nothing |
| Names.JsonName | apps/backend/src/scraper/scraper.service.ts:355-388 | the first JSON capture longer than 3 after trimming wins, or none exactly when no capture qualifies |
| Names.ExtractHotelNameFromJson | apps/backend/src/scraper/scraper.service.ts:373-383 | the pattern loop returns the JSON name |
| Names.SelectorName | apps/backend/src/scraper/scraper.service.ts:310-324 | the first selector text longer than 3 wins, or none exactly when no text qualifies |
| Names.FirstKeyword | apps/backend/src/scraper/scraper.service.ts:331-339 | the first text of a tag mentioning a hotel keyword is returned |
| Names.HeadingName | apps/backend/src/scraper/scraper.service.ts:326-344 | a heading name mentions a keyword; none exactly when no heading does |
| Names.HotelName | apps/backend/src/scraper/scraper.service.ts:288-353 | the extracted name is well spaced |
| Names.FindSelectorName | apps/backend/src/scraper/scraper.service.ts:310-324 | the selector loop returns the first text longer than three characters, or nothing when there is none |
| Names.FindHeadingName | apps/backend/src/scraper/scraper.service.ts:326-343 | the heading loops return the first `h1` or `h2` text naming a hotel, hostel or inn, or nothing |
| Names.ExtractHotelName | apps/backend/src/scraper/scraper.service.ts:288-353 | the method returns the tiered name |
| Names.JsonTierFirst | apps/backend/src/scraper/scraper.service.ts:293-297 | a qualifying JSON capture decides the name whatever the selectors and headings say |
| Names.SelectorTierSecond | apps/backend/src/scraper/scraper.service.ts:310-324 | with no JSON capture, a long selector text decides the name, whatever the headings |
| Names.NoTierNoName | apps/backend/src/scraper/scraper.service.ts:346-347 | with no tier matching, the name is '' |
| Names.SelectorLengthUntrimmed | apps/backend/src/scraper/scraper.service.ts:315 | the length test is on the untrimmed text, so padding counts |
| Names.TrimAll | apps/backend/src/scraper/scraper.service.ts:274 | every piece is trimmed |
| Names.CityFromSlug | apps/backend/src/scraper/scraper.service.ts:263-266 | the URL slug gives the city, minus '.fr.html' or '.com.html' |
| Names.CityFromLocation | apps/backend/src/scraper/scraper.service.ts:269-277 | without a slug, the city is the trimmed last comma piece of the location |
| Names.TrailingCommaEmptyCity | apps/backend/src/scraper/scraper.service.ts:274-276 | a location ending in a comma gives the empty city |
| Names.CityUnknown | apps/backend/src/scraper/scraper.service.ts:281 | without a slug or a location, the city is "Unknown" |
| Names.ClickDatePicker | apps/backend/src/scraper/scraper.service.ts:425-461 | the main selector wins; otherwise the second container is clicked, or the first when it is alone; nothing is clicked exactly when nothing is found |
| Names.FindDateSelector | apps/backend/src/scraper/scraperPlaywright.service.ts:98-112 | the first present selector is found, or none exactly when none is present |
| Names.FirstText | apps/backend/src/scraper/scraperPlaywright.service.ts:278-285 | the first non-blank trimmed text wins, or '' exactly when all are blank |
| Names.FirstCapture | apps/backend/src/scraper/scraperPlaywright.service.ts:310-321 | the first matching capture wins, or none exactly when nothing matched |
| Names.NonZero | apps/backend/src/scraper/scraperPlaywright.service.ts:346-347 | `x \|\| undefined` drops exactly the zero value |
| Names.BrowserDetails | apps/backend/src/scraper/scraperPlaywright.service.ts:251-373 | the details keep the URL; a failed page gives "Unknown Hotel" with nothing else |
| Names.UnknownHotelDefault | apps/backend/src/scraper/scraperPlaywright.service.ts:344-352 | with no name text, the name is the cleaned "Unknown Hotel" |
| Names.DetailsNameFromSelector | apps/backend/src/scraper/scraperPlaywright.service.ts:278-285 | a non-blank name text becomes the cleaned name |
| Names.ZeroCountsDropped | apps/backend/src/scraper/scraperPlaywright.service.ts:343-348 | a zero rating and a missing review count are both left undefined |
| Visit.Captures | apps/backend/src/scraper/scraper.service.ts:161-179 | only GraphQL JSON bodies are captured; with at least one listener, every one is |
| Visit.VisitResult | apps/backend/src/scraper/scraper.service.ts:53-109 | the result succeeds exactly when navigation did, with data on success and the error on failure |
| Visit.LenientScraper.constructor | apps/backend/src/scraper/scraper.service.ts:6-10 | a new scraper has no page, no listener and no responses |
| Visit.LenientScraper.Initialize | apps/backend/src/scraper/scraper.service.ts:12-51 | initialisation opens a page without listeners |
| Visit.LenientScraper.ScrapeHotel | apps/backend/src/scraper/scraper.service.ts:53-109 | the package fails without a page; otherwise the buffer is reset, one more listener is added, and the buffer holds each response once per listener |
| Visit.LenientScraper.ScrapeHotelOnce | apps/backend/src/scraper/scraper.service.ts:61-66 | the corrected visit keeps exactly one listener |
| Visit.LenientScraper.Receive | apps/backend/src/scraper/scraper.service.ts:161-179 | each listener appends each GraphQL response it sees |
| Visit.SingleListenerKeepsOrder | apps/backend/src/scraper/scraper.service.ts:161-167 | with one listener, responses are buffered once, in arrival order |
| Visit.SecondVisitDoubles | apps/backend/src/scraper/scraper.service.ts:62-66 | on a second visit, each price of a response is recorded twice |
| Visit.TwoVisits | apps/backend/src/scraper/scraper.service.ts:61-66 | with the corrected visit, two visits of the same page give the same result |
| Batch.CountOk | apps/backend/src/scraper/scraperPlaywright.service.ts:456-472 | the success count never exceeds the number of results |
| Batch.CountOkBounds | apps/backend/src/scraper/scraperPlaywright.service.ts:466-472 | all results succeed exactly when the count is the total, and none exactly when it is 0 |
| Batch.Waits | apps/backend/src/scraper/scraperPlaywright.service.ts:474-478 | one delay per gap between hotels |
| Batch.ScrapeMultipleHotels | apps/backend/src/scraper/scraperPlaywright.service.ts:452-498 | one result per URL in order; successes plus failures equal the total; a delay between consecutive hotels only |
| Batch.Visits | apps/backend/src/scraper/scraper.service.ts:119-137 | one result per URL |
| Batch.VisitsAt | apps/backend/src/scraper/scraper.service.ts:119-124 | the i-th hotel is visited with i more listeners than the first |
| Batch.BackendVisit | apps/backend/src/scraper/scraper.service.ts:123 | a visit adds one listener and returns the visit's result |
| Batch.BackendBatch | apps/backend/src/scraper/scraper.service.ts:111-155 | the backend batch's results follow listener accumulation; the counts add up; there is a 1000 ms delay between hotels |
| Variants.Variant.BatchDelay | apps/backend/src/scraper/scraper.service.ts:135 | the backend waits 1000 ms between hotels; the package (packages/scraper/src/index.ts:65) and the Playwright, Puppeteer and daily services (apps/backend/src/scraper/scraperPlaywright.service.ts:477, apps/backend/src/scraper/scraperPuppeteer.service.ts:460, apps/backend/src/scraper/scraperDaily.service.ts:509) wait 2000 ms |
| StrictScrape.Record | apps/backend/src/scraper/scraperPlaywright.service.ts:418-448 | the record answers its URL; it succeeds with the two readers' results exactly when nothing threw, and otherwise carries the caught message and no data |
| StrictScrape.BrowserScrapeHotel | apps/backend/src/scraper/scraperPlaywright.service.ts:414-450 | the Playwright record (and the Puppeteer one, apps/backend/src/scraper/scraperPuppeteer.service.ts:397-432) answers its URL, succeeds exactly when nothing threw outside the readers, and then holds details for that URL and the strict pricing |
| StrictScrape.BrowserScrapeCorrect | apps/backend/src/scraper/scraperPlaywright.service.ts:419-426 | a successful record's prices are date-sorted, repeat no (price, date) pair, and none is NaN; a details page that could not be read still gives a successful record named "Unknown Hotel" |
| StrictScrape.DailyScrapeHotel | apps/backend/src/scraper/scraperDaily.service.ts:443-479 | the daily record answers its URL and always succeeds, with the given details and the daily pricing |
| StrictScrape.DailyScrapeCorrect | apps/backend/src/scraper/scraperDaily.service.ts:449-455 | a daily record never repeats a (price, date) pair and holds no NaN price |
| StrictScrape.BrowserBatch | apps/backend/src/scraper/scraperPlaywright.service.ts:452-498 | the i-th record answers the i-th URL and succeeds exactly when its visit did not throw; the batch reports no failure exactly when no visit threw |
| StrictScrape.DailyBatch | apps/backend/src/scraper/scraperDaily.service.ts:481-530 | the i-th record answers the i-th URL with its daily pricing; every scrape succeeds, so the batch reports no failure |
| Batch.Monitor.constructor | packages/scraper/src/index.ts:9-12 | the monitor starts with nothing saved |
| Batch.Monitor.ScrapeSingleHotel | packages/scraper/src/index.ts:25-39 | a successful result with data is saved once, and the result is returned unchanged |
| Batch.Monitor.ScrapeMultipleHotels | packages/scraper/src/index.ts:41-85 | with no page, the batch fails before saving; otherwise it visits in order, saves every success, and waits 2000 ms between hotels |
| Batch.Saved | packages/scraper/src/index.ts:30-36 | only successful results are saved |
| Batch.SavedAtMostSucceeded | packages/scraper/src/index.ts:53 | a batch saves at most one record per successful result |
| Batch.SavedFromSuccess | packages/scraper/src/index.ts:53 | every saved record is the data of a successful result of the batch |
| Storage.NewRow | apps/backend/src/scraper/price-storage.service.ts:41-51 | the new row matches the daily price and is stamped with the time |
| Storage.Inserted | apps/backend/src/scraper/price-storage.service.ts:30-54 | inserted rows belong to the hotel, have no room category, and carry the time |
| Storage.HotelIndex | apps/backend/src/scraper/price-storage.service.ts:18-19 | the upsert finds the first row with the URL, or none exactly when there is no such row |
| Storage.PriceStore.constructor | apps/backend/src/scraper/price-storage.service.ts:9 | the store starts empty and valid |
| Storage.PriceStore.Upsert | apps/backend/src/scraper/price-storage.service.ts:18-28 | an existing URL's row is updated in place and keeps its id; a new URL gets a new row with a fresh id |
| Storage.PriceStore.FindFirst | apps/backend/src/scraper/price-storage.service.ts:32-39 | finds a row with the same hotel, date and price, or none exactly when there is none |
| Storage.PriceStore.SaveHotelAndPrices | apps/backend/src/scraper/price-storage.service.ts:16-55 | the URL's row has the returned id and isCompetitor = !isMyHotel; a stored URL's row gets the new name and city and keeps its id, otherwise a row is created with the next id; every other hotel row is unchanged; exactly the new prices are appended |
| Storage.PriceStore.InsertPrices | apps/backend/src/scraper/price-storage.service.ts:31-54 | the price loop appends exactly the unseen prices and leaves the hotels alone |
| Storage.UpsertedRow | apps/backend/src/scraper/price-storage.service.ts:18-28 | after the upsert, every row with the URL has the returned id and the competitor flag |
| Storage.AllRecorded | apps/backend/src/scraper/price-storage.service.ts:30-54 | after saving, every daily price given is recorded |
| Storage.NothingNew | apps/backend/src/scraper/price-storage.service.ts:40 | prices already recorded insert nothing |
| Storage.SaveIdempotent | apps/backend/src/scraper/price-storage.service.ts:30-54 | saving the same prices again, at any later time, inserts nothing |
| Storage.NewPriceInserted | apps/backend/src/scraper/price-storage.service.ts:40-51 | an unseen price inserts exactly its row |
| Storage.RepeatedOnce | apps/backend/src/scraper/price-storage.service.ts:31-53 | a price repeated in one call is inserted once |
| Storage.InsertedFresh | apps/backend/src/scraper/price-storage.service.ts:30-54 | each inserted row was unseen when it was inserted |
| Booking.OrElse | apps/backend/src/scraper/scrape-booking.ts:17-19 | `a \|\| b` on texts is empty only when both are |
| Booking.ReviewCountOf | apps/backend/src/scraper/scrape-booking.ts:29-49 | the body-text count, commas removed, is read only when the first reading is falsy, and replaces it only when its pattern matched |
| Booking.MatchAt | apps/backend/src/scraper/scrape-booking.ts:73 | a postcode match captures a non-empty city group |
| Booking.CityOf | apps/backend/src/scraper/scrape-booking.ts:69-83 | the city is trimmed, and an empty address gives an empty city |
| Booking.FirstDigit | apps/backend/src/scraper/scrape-booking.ts:92 | the first digit found, or none exactly when the text has no digit |
| Booking.StarsOf | apps/backend/src/scraper/scrape-booking.ts:87-95 | the count of star icons wins; otherwise the rating is a single digit |
| Booking.FirstFive | apps/backend/src/scraper/scrape-booking.ts:131-134 | at most five non-empty image sources |
| Booking.ImagesOf | apps/backend/src/scraper/scrape-booking.ts:130-140 | at most five images |
| Booking.AtlasOf | apps/backend/src/scraper/scrape-booking.ts:144 | a map box is present exactly when the attribute is non-empty |
| Booking.PushTexts | apps/backend/src/scraper/scrape-booking.ts:107-110 | the loop appends every non-empty trimmed text |
| Booking.PushImages | apps/backend/src/scraper/scrape-booking.ts:131-134 | the `each` loop visits every element and pushes a non-empty source only while fewer than five are kept, so it keeps the first five |
| Booking.ReadName | apps/backend/src/scraper/scrape-booking.ts:17-19 | the reader returns the name, the first non-empty of its readings (Booking.NameTiers) |
| Booking.ChainOfTwo | apps/backend/src/scraper/scrape-booking.ts:17-19 | `a \|\| b` on texts is the first non-empty of the two, and empty exactly when both are |
| Booking.ChainExtended | apps/backend/src/scraper/scrape-booking.ts:17-19 | one more `\|\|` keeps a chain the first non-empty of its candidates |
| Booking.ChainOfThree | apps/backend/src/scraper/scrape-booking.ts:23-25 | a chain of three `\|\|` gives the first non-empty candidate, or empty exactly when all are |
| Booking.ChainOfFour | apps/backend/src/scraper/scrape-booking.ts:53-66 | a chain of four `\|\|` gives the first non-empty candidate, or empty exactly when all are |
| Booking.NameTiers | apps/backend/src/scraper/scrape-booking.ts:17-19 | the name is the title heading, else the name heading, else the page title before its en dash, each trimmed; it is empty exactly when all three are |
| Booking.UserRatingTiers | apps/backend/src/scraper/scrape-booking.ts:23-25 | the user rating is the rating badge, else the plain badge, else the component's second child, each trimmed and used only when all before it are empty; it is empty exactly when all three are |
| Booking.AddressTiers | apps/backend/src/scraper/scrape-booking.ts:53-66 | the address is the wrapper text (empty when the wrapper is missing), else the span, else the subtitle, else the map link, each trimmed and used only when all before it are empty; it is empty exactly when all four are |
| Booking.ReadUserRating | apps/backend/src/scraper/scrape-booking.ts:23-25 | the reader returns the user rating, the first non-empty of its readings (Booking.UserRatingTiers) |
| Booking.ReadReviewCount | apps/backend/src/scraper/scrape-booking.ts:29-49 | the reader returns the review count |
| Booking.ReadAddress | apps/backend/src/scraper/scrape-booking.ts:53-66 | the reader returns the address, the first non-empty of its readings (Booking.AddressTiers) |
| Booking.ReadCity | apps/backend/src/scraper/scrape-booking.ts:70-83 | the reader returns the city |
| Booking.ReadStars | apps/backend/src/scraper/scrape-booking.ts:87-95 | the reader returns the star rating |
| Booking.ReadIconAmenities | apps/backend/src/scraper/scrape-booking.ts:100-112 | the loop over the facility icons pushes the non-empty child texts of each icon's following `div`, in order |
| Booking.ReadAmenities | apps/backend/src/scraper/scrape-booking.ts:99-126 | the reader returns the tiered amenities |
| Booking.ReadImages | apps/backend/src/scraper/scrape-booking.ts:130-140 | the reader returns the images |
| Booking.ScrapeBooking | apps/backend/src/scraper/scrape-booking.ts:4-158 | fails exactly when the URL does not contain booking.com; otherwise returns the page's details |
| Booking.AmenitiesNonEmpty | apps/backend/src/scraper/scrape-booking.ts:99-126 | no amenity is an empty text |
| Booking.NameFromTitle | apps/backend/src/scraper/scrape-booking.ts:19 | with no heading, the name is the title before its en dash |
| Booking.GroupedReviews | apps/backend/src/scraper/scrape-booking.ts:43-48 | "1,234" in the body gives 1234 reviews |
| Booking.ZeroReviewsFallBack | apps/backend/src/scraper/scrape-booking.ts:38-47 | a "0" in the review block falls back to the body count |
| Booking.CityAfterPostcode | apps/backend/src/scraper/scrape-booking.ts:73-75 | the word after a five-digit postcode is the city |
| Booking.CityFromLastPiece | apps/backend/src/scraper/scrape-booking.ts:77-81 | without a postcode, the city is the trimmed last comma piece |
| Booking.NoCityWithoutComma | apps/backend/src/scraper/scrape-booking.ts:78-81 | without a postcode or a comma, the city is '' |
| Booking.StarsFromLabel | apps/backend/src/scraper/scrape-booking.ts:88-94 | with no icons, the first digit of the label is the star rating |
| Booking.FirstFiveIsPrefix | apps/backend/src/scraper/scrape-booking.ts:131-134 | the images are the first five non-empty sources, in order |
| Booking.GalleryFirst | apps/backend/src/scraper/scrape-booking.ts:130-140 | the gallery's images win; any image is used only when the gallery has none |
| Booking.AmenityTiers | apps/backend/src/scraper/scrape-booking.ts:99-126 | section amenities win, then grouped items, then list items |
| Analysis.Day | apps/frontend/hotel-intel/src/pages/AnalyseConcurrentiellePage.tsx:44 | the day is the date's first ten characters |
| Analysis.Record | apps/frontend/hotel-intel/src/pages/AnalyseConcurrentiellePage.tsx:45-54 | one step keeps the per-day map consistent with its day list |
| Analysis.ByDayOf | apps/frontend/hotel-intel/src/pages/AnalyseConcurrentiellePage.tsx:42-55 | the per-day map stays consistent |
| Analysis.ValuesIn | apps/frontend/hotel-intel/src/pages/AnalyseConcurrentiellePage.tsx:57 | one value per day |
| Analysis.GetLatestPricePerDay | apps/frontend/hotel-intel/src/pages/AnalyseConcurrentiellePage.tsx:38-60 | the loop returns the per-day latest prices, sorted |
| Analysis.ByDayFacts | apps/frontend/hotel-intel/src/pages/AnalyseConcurrentiellePage.tsx:43-55 | each kept price is the latest for its day |
| Analysis.RecordStep | apps/frontend/hotel-intel/src/pages/AnalyseConcurrentiellePage.tsx:47-54 | one step keeps, for each day, the price with the latest `scrapedAt`, or the first of the day when none of that day's prices is stamped |
| Analysis.LatestPricePerDayCorrect | apps/frontend/hotel-intel/src/pages/AnalyseConcurrentiellePage.tsx:38-60 | the result: is sorted by date; has one price per day and a price for every day; each price is that day's latest stamped one, or the first of the day when none is stamped |
| Analysis.FirstUnstampedKept | apps/frontend/hotel-intel/src/pages/AnalyseConcurrentiellePage.tsx:46-53 | of two unstamped prices of one day, the map keeps the first |
| Analysis.FirstUnstampedShown | apps/frontend/hotel-intel/src/pages/AnalyseConcurrentiellePage.tsx:46-60 | so the page shows the first of the two, not the second |
| Analysis.ByDayIntendedFacts | apps/frontend/hotel-intel/src/pages/AnalyseConcurrentiellePage.tsx:46 | under the tie rule the comment states, each day keeps its latest stamped price, or the last of its prices when none is stamped, and every day has one |
| Analysis.RecordIntendedStep | apps/frontend/hotel-intel/src/pages/AnalyseConcurrentiellePage.tsx:46 | one step of the intended rule keeps every day's price as `LatestForIntended` says |
| Analysis.LatestPricePerDayIntendedCorrect | apps/frontend/hotel-intel/src/pages/AnalyseConcurrentiellePage.tsx:38-60 | under the intended rule the result is sorted by date, has one price per day and a price for every day, each the day's latest stamped price or, with none stamped, its last price |
| Analysis.LastUnstampedKept | apps/frontend/hotel-intel/src/pages/AnalyseConcurrentiellePage.tsx:46 | under the intended rule, the second of two unstamped prices of one day is kept |
| Analysis.LastOfDay | apps/frontend/hotel-intel/src/pages/AnalyseConcurrentiellePage.tsx:46 | the last price of a day: none exactly when no price has that day; otherwise one of that day with no price of the day after it |
| Analysis.Colour | apps/frontend/hotel-intel/src/pages/AnalyseConcurrentiellePage.tsx:71 | every colour comes from the palette |
| Analysis.PaletteDistinct | apps/frontend/hotel-intel/src/pages/AnalyseConcurrentiellePage.tsx:18-28 | the nine palette colours are distinct |
| Analysis.ColourCycle | apps/frontend/hotel-intel/src/pages/AnalyseConcurrentiellePage.tsx:71 | two hotels share a colour exactly when their positions are equal modulo 9 |
| Analysis.PrepareAll | apps/frontend/hotel-intel/src/pages/AnalyseConcurrentiellePage.tsx:69-73 | one chart hotel per hotel |
| Analysis.PrepareAllAt | apps/frontend/hotel-intel/src/pages/AnalyseConcurrentiellePage.tsx:69-73 | each hotel keeps its identity and gets its position's colour and its plotted prices |
| Analysis.PricesOfSorted | apps/frontend/hotel-intel/src/pages/AnalyseConcurentiellePage.tsx:49-51 | plotted prices are in date order; the second page plots a permutation of all its prices |
| Analysis.DatesMembers | apps/frontend/hotel-intel/src/pages/AnalyseConcurrentiellePage.tsx:77 | the collected dates are exactly the dates of the hotels' prices |
| Analysis.Distinct | apps/frontend/hotel-intel/src/pages/AnalyseConcurrentiellePage.tsx:78 | `new Set` leaves no repeats |
| Analysis.AllDatesCorrect | apps/frontend/hotel-intel/src/pages/AnalyseConcurrentiellePage.tsx:76-79 | `allDates` is strictly increasing and holds exactly the prices' dates |
| Analysis.BoundsNull | apps/frontend/hotel-intel/src/pages/AnalyseConcurrentiellePage.tsx:91-103 | both bounds are null exactly when there are no dates, a position is out of range, or both dates are empty texts |
| Analysis.MarkersInRange | apps/frontend/hotel-intel/src/pages/AnalyseConcurrentiellePage.tsx:135-144 | the markers are exactly the dates inside the range, shortcut included |
| Analysis.FullRangeKeepsAll | apps/frontend/hotel-intel/src/pages/AnalyseConcurrentiellePage.tsx:81-89 | once loaded, the full slider range drops no date |
| Analysis.Points | apps/frontend/hotel-intel/src/pages/AnalyseConcurrentiellePage.tsx:118-129 | the points are exactly the prices whose dates lie in the range |
| Analysis.ChartData | apps/frontend/hotel-intel/src/pages/AnalyseConcurrentiellePage.tsx:111-133 | at most one series per hotel |
| Analysis.ChartDataShown | apps/frontend/hotel-intel/src/pages/AnalyseConcurrentiellePage.tsx:111-133 | a hotel has a series exactly when it is visible |
| Analysis.InitVisibleShowsAll | apps/frontend/hotel-intel/src/pages/AnalyseConcurrentiellePage.tsx:105-109 | the first load shows every hotel, and running the effect again changes nothing |
| Legend.Without | apps/frontend/hotel-intel/src/components/HotelLegend.tsx:27 | filtering keeps exactly the other ids |
| Legend.WithoutAbsent | apps/frontend/hotel-intel/src/components/HotelLegend.tsx:27 | filtering an absent id changes nothing |
| Legend.ToggleFlips | apps/frontend/hotel-intel/src/components/HotelLegend.tsx:23-29 | a toggle flips that hotel's checkbox and no other |
| Legend.ToggleKeepsOthers | apps/frontend/hotel-intel/src/components/HotelLegend.tsx:24-29 | the other hotels keep their order |
| Legend.ToggleAppends | apps/frontend/hotel-intel/src/components/HotelLegend.tsx:28 | checking a hotel appends it at the end |
| Legend.ToggleTwice | apps/frontend/hotel-intel/src/components/HotelLegend.tsx:24-29 | toggling twice restores the visible set, and restores the list when the hotel was hidden |
| Trend.TrendOf | apps/frontend/hotel-intel/src/components/PriceTable.tsx:67-70 | there is no trend exactly when a price is missing |
| Trend.TrendFollowsPrices | apps/frontend/hotel-intel/src/components/PriceTable.tsx:67-70 | up, down and same match the price comparison, in both directions |
| Trend.TrendSwap | apps/frontend/hotel-intel/src/components/PriceTable.tsx:67-70 | swapping the two prices swaps up and down |
| Trend.ChangeOnlyWhenMoving | apps/frontend/hotel-intel/src/components/PriceTable.tsx:60-77 | a change and an evolution date are shown exactly when the price moved; up means it rose; the "mine" flag is the negated competitor flag |
| Trend.StrikeAgreesWithTrend | apps/frontend/hotel-intel/src/components/PriceTable.tsx:147 | the struck-through price is the previous price; when a latest price exists it never shows with a 'same' trend (with no latest price it may show without a trend); it always shows for a rise or fall from a non-zero price |
| Trend.TrendPropsDistinct | apps/frontend/hotel-intel/src/components/PriceTable.tsx:23-43 | each trend has its own badge, and only a missing trend has no icon |

## Left out

- Browser launch, navigation, timeouts and closing; the waits are counted as delays between hotels, not timed. What can throw there in the Playwright and Puppeteer `scrapeHotel` is reduced to one message, the `failure` of a `StrictScrape.BrowserVisit`; which step threw is not modelled. A click that throws (a detached or hidden element) is not modelled either: Names.ClickDatePicker and Names.FindDateSelector treat every click on a found element as succeeding.
- Response listeners and page scripts run concurrently with the visit. A visit is modelled as the traffic it produces, delivered in order after the listeners are registered. The Playwright and Puppeteer listener is registered after the date-picker click, so responses that arrive earlier are not modelled as lost.
- Regular expressions over page HTML are captures given as input. The exceptions are the Booking.com postcode city pattern, the first-digit pattern and the page-price pattern's thousands comma, which are written out.
- The DOM, cheerio and selector engines: selector results are inputs.
- Text lengths count code points, not UTF-16 units; `toLowerCase` is modelled for ASCII letters only.
- `Object.entries` order is taken as the order of the object's fields.
- `parseFloat` exponents, `Infinity` and floating-point rounding are not modelled: numbers are exact reals. NaN and null are both `None`.
- Daily.HotelId: `parseInt` of a long base-36 id loses precision in the source; the model reads it exactly.
- Dates compare as ISO text rather than through `new Date`. This applies to the sorts, the `scrapedAt` tie-break and `parseDate`.
- The daily scraper's `extractHotelDetails` is not modelled; `StrictScrape.DailyScrapeHotel` takes the record it returns as an input.
- The optional detail readers are not modelled either: they are selector reads with no logic beyond the first match. These are the backend scraper's address, rating, review-count, description, amenity and image readers (apps/backend/src/scraper/scraper.service.ts:199-248), and the same six readers in the package's `HotelScraper.extractHotelDetails` (packages/scraper/src/hotel-scraper.ts:128-178).
- Storage.HotelInput: the fields those readers fill are spread into the hotel upsert with `...scraped.hotel` (apps/backend/src/scraper/price-storage.service.ts:20-27), but the model's hotel input carries only the name, URL and city.
- The axios fetch of the daily scraper and the API client's save call are parameters: the page HTML is given, and the saved records are a list.
- Storage: dates are strings, and prices are exact, so NaN prices are not modelled. The saver reads `scraped.dailyPrices` (apps/backend/src/scraper/price-storage.service.ts:31), while the `ScrapedHotel` type names the list `pricing` (apps/backend/src/scraper/types.ts:26); the model passes the list of daily prices directly.
- Daily.PriceOfValue: an array price reads as `NaN`, whereas JavaScript's `toString` joins its elements with commas, so `[120]` reads as 120. Printing arbitrary numbers as JavaScript does is not modelled.
- Entries.SameKey: dates compare by value. JavaScript's `===` compares object and array dates by reference, so two equal but distinct date objects are different keys there and both entries are kept.
- Daily.WalkFields: an object with a repeated key is searched at every occurrence. `JSON.parse` keeps one property per key, at the first occurrence's position with the last occurrence's value; parsed objects are assumed to have distinct keys.
- PriceTable's `toFixed` percentage text and chip labels are not modelled. `Change` holds the pair of prices from which the percentage is computed.
- The analysis pages' layout, the slider widget and `formatDateFR` are presentational and left out.

## Findings

| source | as written | input that shows it | evidently intended | confidence | as-written member | corrected member |
|---|---|---|---|---|---|---|
| apps/backend/src/scraper/scraper.service.ts:62-66 | `scrapeHotel` resets the response buffer and registers a new response listener on the reused page at every call, without removing the earlier ones. On the k-th visit each GraphQL response is recorded k times, and the backend pipeline does not de-duplicate. | a second `scrapeHotel` call whose page produces one calendar response with a price: every price of that response appears twice in the pricing data | each response recorded once per visit (one listener), so that two visits of the same page give the same result | not executed | Visit.LenientScraper.ScrapeHotel, Visit.SecondVisitDoubles | Visit.LenientScraper.ScrapeHotelOnce, Visit.TwoVisits |
| apps/frontend/hotel-intel/src/pages/AnalyseConcurrentiellePage.tsx:46-53 | The comment above the test says that a price without `scrapedAt` counts as the earliest, or always replaces a kept price that also has none. The test demands `price.scrapedAt` for any replacement, so a later unstamped price never replaces an unstamped one. | two prices of the same day, both without `scrapedAt`: the first is kept and shown, the second dropped | among the unstamped prices of a day, the last one is kept; a stamped price still wins over any unstamped one | not executed | Analysis.LatestPricePerDayCorrect, Analysis.FirstUnstampedKept, Analysis.FirstUnstampedShown | Analysis.LatestPricePerDayIntendedCorrect, Analysis.ByDayIntendedFacts, Analysis.LastUnstampedKept |
