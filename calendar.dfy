/** Turning captured calendar payloads into price entries.

    Two parsers exist. The lenient one (`parseGraphQLResponse` of the
    backend `ScraperService` and of the package `HotelScraper`) reads
    `data.availabilityCalendar.days` and, when that member is absent, two
    alternate shapes. The strict one (the inline loop of the Playwright and
    Puppeteer services) reads only `data.availabilityCalendar.days`, keeps
    only days marked available with a positive price, and finishes with
    the (price, date) filter and the sort by date. */
module Calendar {

  import opened Wrappers
  import opened Text
  import opened Numbers
  import opened JsonValues
  import opened Variants
  import opened Normaliser
  import opened Entries
  import opened Sorting

  /** What one loop iteration over a day does: throw (member access on
      `null`), skip the day, or push an entry. */
  datatype Step = Throw | Skip | Emit(entry: PriceEntry)

  /** The entries a loop pushed, and whether it ended with an exception. */
  datatype Outcome = Outcome(entries: seq<PriceEntry>, threw: bool)

  /** The normaliser applied to a payload value: a string is normalised;
      on any other value `.replace` throws and the `catch` returns null. */
  function NormaliseValue(v: Variant, x: Option<Json>): (r: Option<real>)
    ensures x.Some? && x.value.JStr? ==> r == NormalisePrice(v, x.value.s)
    ensures !(x.Some? && x.value.JStr?) ==> r.None?
  {
    match x
    case Some(JStr(s)) => NormalisePrice(v, s)
    case _ => None
  }

  /** JavaScript truthiness of a number (`NaN` and 0 are falsy). */
  predicate TruthyPrice(p: Option<real>) { p.Some? && p.value != 0.0 }

  /** A `for ... of` loop whose body is `step`, stopped by the first throw;
      the entries pushed before the throw stay pushed. */
  function Collect(days: seq<Json>, step: Json -> Step): (o: Outcome)
    ensures |o.entries| <= |days|
    ensures forall e :: e in o.entries ==> exists i :: 0 <= i < |days| && step(days[i]) == Emit(e)
  {
    if days == [] then Outcome([], false)
    else
      var init := days[..|days| - 1];
      var o := Collect(init, step);
      assert forall i :: 0 <= i < |init| ==> init[i] == days[i];
      if o.threw then o
      else match step(days[|days| - 1])
        case Throw => Outcome(o.entries, true)
        case Skip => o
        case Emit(e) => Outcome(o.entries + [e], false)
  }

  /** The loop as the source runs it. */
  method CollectDays(days: seq<Json>, step: Json -> Step) returns (pricing: seq<PriceEntry>, threw: bool)
    ensures Outcome(pricing, threw) == Collect(days, step)
  {
    pricing, threw := [], false;
    var i := 0;
    while i < |days| && !threw
      invariant 0 <= i <= |days|
      invariant Outcome(pricing, threw) == Collect(days[..i], step)
      invariant !threw || Collect(days[..i], step) == Collect(days, step)
      decreases |days| - i
    {
      assert days[..i + 1][..i] == days[..i];
      match step(days[i]) {
        case Throw => threw := true;
        case Skip =>
        case Emit(e) => pricing := pricing + [e];
      }
      i := i + 1;
      if threw { CollectStops(days, step, i); }
    }
    assert threw || days[..i] == days;
  }

  /** Once the loop has thrown, the later days change nothing. */
  lemma {:induction false} CollectStops(days: seq<Json>, step: Json -> Step, n: nat)
    requires n <= |days|
    requires Collect(days[..n], step).threw
    ensures Collect(days, step) == Collect(days[..n], step)
    decreases |days| - n
  {
    if n < |days| {
      assert days[..n + 1][..n] == days[..n];
      CollectStops(days, step, n + 1);
    } else {
      assert days[..n] == days;
    }
  }

  /** The loop stops at the first day that throws: what it keeps is what
      the days before that one pushed. */
  lemma CollectKeepsPartial(days: seq<Json>, step: Json -> Step, k: nat)
    requires k < |days| && step(days[k]) == Throw
    requires !Collect(days[..k], step).threw
    ensures Collect(days, step) == Outcome(Collect(days[..k], step).entries, true)
  {
    assert days[..k + 1][..k] == days[..k];
    CollectStops(days, step, k + 1);
  }

  /** A loop none of whose days throws pushes one entry per emitting day,
      in order. */
  lemma {:induction false} CollectNoThrow(days: seq<Json>, step: Json -> Step)
    requires forall i :: 0 <= i < |days| ==> step(days[i]) != Throw
    ensures !Collect(days, step).threw
    ensures Collect(days, step).entries == Emitted(days, step)
  {
    if days != [] {
      var init := days[..|days| - 1];
      CollectNoThrow(init, step);
    }
  }

  /** The entries of the emitting days, in order (a filter-map). */
  function Emitted(days: seq<Json>, step: Json -> Step): seq<PriceEntry>
  {
    if days == [] then []
    else
      Emitted(days[..|days| - 1], step)
      + (match step(days[|days| - 1]) case Emit(e) => [e] case _ => [])
  }

  // ---------------------------------------------------------------------
  // The lenient parser (backend ScraperService, package HotelScraper)

  /** One day of `availabilityCalendar.days`: a day not explicitly
      unavailable, whose `avgPriceFormatted || '€0'` normalises to a truthy
      number and which has a `checkin`, gives a standard entry. */
  function LenientDay(v: Variant, day: Json): Step
  {
    if day == JNull then Throw
    else if IsFalse(Get(Some(day), "available")) then Skip
    else
      var price := NormaliseValue(v, Or(Get(Some(day), "avgPriceFormatted"), Some(JStr("€0"))));
      var checkin := Get(Some(day), "checkin");
      if TruthyPrice(price) && Truthy(checkin) then
        Emit(PriceEntry(checkin, price, JStr("EUR"), true, JStr("Standard"), None))
      else Skip
  }

  /** One day of an alternate shape: with a truthy `price` and `date` it
      gives an entry whose price is `parseFloat(price.amount || price)`,
      currency `price.currency || 'EUR'`, availability
      `available !== false` and room `roomType || 'Standard'`. */
  function AlternateDay(day: Json): Step
  {
    if day == JNull then Throw
    else
      var price := Get(Some(day), "price");
      var date := Get(Some(day), "date");
      if Truthy(price) && Truthy(date) then
        Emit(PriceEntry(
          date,
          ParseFloatOf(Or(Get(price, "amount"), price)),
          OrElse(Get(price, "currency"), JStr("EUR")),
          !IsFalse(Get(Some(day), "available")),
          OrElse(Get(Some(day), "roomType"), JStr("Standard")),
          None))
      else Skip
  }

  /** `response.data?.availabilityCalendar`. */
  function CalendarOf(response: Json): Option<Json> {
    Get(Get(Some(response), "data"), "availabilityCalendar")
  }

  /** The first alternate shape: the `availability` member of
      `data.availability || availability || data`, iterated. */
  function AvailabilityShape(response: Json): (o: Outcome)
  {
    var data := Get(Some(response), "data");
    var source := Or(Or(Get(data, "availability"), Get(Some(response), "availability")), data);
    var list := Get(source, "availability");
    if Truthy(source) && Truthy(list) then
      match Iterate(list.value)
      case None => Outcome([], true)
      case Some(days) => Collect(days, AlternateDay)
    else Outcome([], false)
  }

  /** The second alternate shape: the array `data.calendar`. */
  function CalendarShape(response: Json): (o: Outcome)
  {
    var calendar := Get(Get(Some(response), "data"), "calendar");
    if Truthy(calendar) && IsArray(calendar) then Collect(calendar.value.items, AlternateDay)
    else Outcome([], false)
  }

  /** `parseGraphQLResponse(response)` of the lenient variants. Any throw
      is caught and what was pushed until then is returned. */
  function LenientParse(v: Variant, response: Json): seq<PriceEntry>
  {
    if response == JNull then []
    else if Truthy(CalendarOf(response)) then
      var days := Get(CalendarOf(response), "days");
      if Truthy(days) && IsArray(days) then Collect(days.value.items, d => LenientDay(v, d)).entries
      else []
    else
      var first := AvailabilityShape(response);
      if first.threw then first.entries
      else first.entries + CalendarShape(response).entries
  }

  /** The method with its push loops. */
  method ParseGraphQLResponse(v: Variant, response: Json) returns (pricing: seq<PriceEntry>)
    ensures pricing == LenientParse(v, response)
  {
    pricing := [];
    if response == JNull {
      return;
    }
    var calendar := CalendarOf(response);
    if Truthy(calendar) {
      var days := Get(calendar, "days");
      if Truthy(days) && IsArray(days) {
        var threw;
        pricing, threw := CollectDays(days.value.items, d => LenientDay(v, d));
      }
      return;
    }
    var data := Get(Some(response), "data");
    var source := Or(Or(Get(data, "availability"), Get(Some(response), "availability")), data);
    var list := Get(source, "availability");
    if Truthy(source) && Truthy(list) {
      var days := Iterate(list.value);
      if days.None? {
        return;
      }
      var threw;
      pricing, threw := CollectDays(days.value, AlternateDay);
      if threw {
        return;
      }
    }
    var calendarList := Get(data, "calendar");
    if Truthy(calendarList) && IsArray(calendarList) {
      var more, threw := CollectDays(calendarList.value.items, AlternateDay);
      pricing := pricing + more;
    }
  }

  /** Every entry read from `availabilityCalendar` is available, in EUR,
      of room 'Standard', dated by its day's truthy `checkin`, with a
      truthy price that is the normalised `avgPriceFormatted` of a day not
      explicitly unavailable. */
  lemma CalendarEntries(v: Variant, response: Json, e: PriceEntry)
    requires Truthy(CalendarOf(response))
    requires e in LenientParse(v, response)
    ensures e.currency == JStr("EUR") && e.availability && e.room == JStr("Standard")
    ensures e.minStay.None? && TruthyPrice(e.price) && Truthy(e.date)
    ensures exists day: Json :: (day != JNull && !IsFalse(Get(Some(day), "available"))
      && e.date == Get(Some(day), "checkin")
      && e.price == NormaliseValue(v, Or(Get(Some(day), "avgPriceFormatted"), Some(JStr("€0")))))
  {
    var days := Get(CalendarOf(response), "days");
    var step := d => LenientDay(v, d);
    var items := days.value.items;
    var i :| 0 <= i < |items| && step(items[i]) == Emit(e);
    assert LenientDay(v, items[i]) == Emit(e);
  }

  /** A day marked `available: false` gives no entry. */
  lemma UnavailableDaySkipped(v: Variant, day: Json)
    requires IsFalse(Get(Some(day), "available"))
    ensures LenientDay(v, day) == Skip
  {
  }

  /** A day without an `avgPriceFormatted` (or with an empty one) gets the
      default '€0', which is falsy, so it gives no entry either. */
  lemma MissingPriceSkipped(v: Variant, day: Json)
    requires day != JNull
    requires !Truthy(Get(Some(day), "avgPriceFormatted"))
    ensures LenientDay(v, day) == Skip
  {
    DefaultPriceIsZero(v);
  }

  /** A present `availabilityCalendar` decides the result alone: two
      responses with the same one parse alike, whatever else they hold, so
      the alternate shapes are never consulted. */
  lemma CalendarShadowsAlternates(v: Variant, r1: Json, r2: Json)
    requires r1 != JNull && r2 != JNull
    requires Truthy(CalendarOf(r1)) && CalendarOf(r1) == CalendarOf(r2)
    ensures LenientParse(v, r1) == LenientParse(v, r2)
  {
  }

  /** An alternate-shape day gives an entry exactly when its `price` and
      `date` are truthy; the entry keeps the date, is available unless the
      day says `available: false`, and falls back to 'EUR' and 'Standard'. */
  lemma AlternateDayEntry(day: Json)
    requires day != JNull
    ensures AlternateDay(day).Emit? <==> Truthy(Get(Some(day), "price")) && Truthy(Get(Some(day), "date"))
    ensures AlternateDay(day).Emit? ==>
      var e := AlternateDay(day).entry;
      e.date == Get(Some(day), "date")
      && (e.availability <==> !IsFalse(Get(Some(day), "available")))
      && (!Truthy(Get(Get(Some(day), "price"), "currency")) ==> e.currency == JStr("EUR"))
      && (!Truthy(Get(Some(day), "roomType")) ==> e.room == JStr("Standard"))
  {
  }

  /** The fallback `|| response.data` of the first alternate shape can never
      yield a day: it is taken only when `data.availability` is falsy, and
      then it is `data.availability` that would be iterated. Likewise an
      array at `data.availability` is itself the source and has no
      `availability` member, so only `data.availability.availability` or
      `availability.availability` is ever read. */
  lemma AvailabilityNeedsNesting(response: Json)
    requires !Truthy(Get(Get(Some(response), "data"), "availability"))
    requires !Truthy(Get(Some(response), "availability"))
    ensures AvailabilityShape(response) == Outcome([], false)
  {
  }

  // ---------------------------------------------------------------------
  // Page-text fallbacks

  /** An element found on the page: its `textContent` ("" when null) and
      what the price pattern captured from it, if it matched. */
  datatype PageText = PageText(text: string, capture: Option<string>)

  /** `parseFloat(capture.replace(',', ''))`: only the first comma goes. */
  function CapturedPrice(capture: string): Option<real> {
    ParseFloat(ReplaceFirst(capture, ",", ""))
  }

  /** `extractPricingFromPage` of the lenient variants: each element with
      text and a match gives an entry dated today, with no check on the
      value. */
  function LenientPageEntries(page: seq<PageText>, today: string): (r: seq<PriceEntry>)
    ensures |r| <= |page|
    ensures forall e :: e in r ==> e.date == Some(JStr(today)) && e.currency == JStr("EUR")
  {
    if page == [] then []
    else
      var init := LenientPageEntries(page[..|page| - 1], today);
      var el := page[|page| - 1];
      if el.text != [] && el.capture.Some? then init + [StandardEntry(today, CapturedPrice(el.capture.value))]
      else init
  }

  /** The Playwright and Puppeteer page pass: the trimmed text must hold
      '€', and the captured price must be positive. */
  function StrictPageEntries(page: seq<PageText>, today: string): (r: seq<PriceEntry>)
    ensures |r| <= |page|
    ensures forall e :: e in r ==> e.date == Some(JStr(today)) && e.price.Some? && e.price.value > 0.0
  {
    if page == [] then []
    else
      var init := StrictPageEntries(page[..|page| - 1], today);
      match StrictPageEntry(page[|page| - 1], today)
      case Some(e) => init + [e]
      case None => init
  }

  /** One element of the strict page pass. */
  function StrictPageEntry(el: PageText, today: string): (r: Option<PriceEntry>)
    ensures r.Some? ==> r.value.date == Some(JStr(today)) && r.value.price.Some? && r.value.price.value > 0.0
  {
    var t := Trim(el.text);
    if t != [] && Includes(t, "€") && el.capture.Some? then
      var price := CapturedPrice(el.capture.value);
      if price.Some? && price.value > 0.0 then Some(StandardEntry(today, price)) else None
    else None
  }

  /** The page pass reads "a,b" as the number "ab": the first comma is
      removed as a thousands separator. */
  lemma CommaIsThousands(a: string, b: string)
    requires |a| >= 1 && AllDigits(a) && AllDigits(b)
    ensures CapturedPrice(a + [','] + b) == Some(DigitsValue(a + b, 10) as real)
  {
    RemoveMarker(a, ',', b);
    assert AllDigits(a + b) by {
      forall i | 0 <= i < |a + b| ensures IsDigit((a + b)[i]) {
        if i < |a| { assert (a + b)[i] == a[i]; } else { assert (a + b)[i] == b[i - |a|]; }
      }
    }
    ParseFloatDigits(a + b, []);
    assert a + b + [] == a + b;
  }

  /** The normaliser, by contrast, stops reading at the comma: "€1,234"
      is 1 there. */
  lemma NormaliserStopsAtComma(v: Variant, a: string, b: string)
    requires |a| >= 1 && AllDigits(a) && AllDigits(b)
    ensures NormalisePrice(v, a + [','] + b) == Some(DigitsValue(a, 10) as real)
  {
    CommaNotStripped(v, a, b);
    StripUnchanged(v, a + [','] + b);
    ReadComma(v, a, b);
  }

  lemma CommaNotStripped(v: Variant, a: string, b: string)
    requires AllDigits(a) && AllDigits(b)
    ensures forall i :: 0 <= i < |a + [','] + b| ==> !Stripped(v, (a + [','] + b)[i])
  {
    var s := a + [','] + b;
    forall i | 0 <= i < |s| ensures !Stripped(v, s[i]) {
      if i < |a| { assert s[i] == a[i]; } else if i > |a| { assert s[i] == b[i - |a| - 1]; }
    }
  }

  lemma ReadComma(v: Variant, a: string, b: string)
    requires |a| >= 1 && AllDigits(a) && AllDigits(b)
    ensures ReadStripped(v, a + [','] + b) == Some(DigitsValue(a, 10) as real)
  {
    CommaHasNoMarker(a, b);
    ParseComma(a, b);
  }

  lemma CommaHasNoMarker(a: string, b: string)
    requires AllDigits(a) && AllDigits(b)
    ensures !Includes(a + [','] + b, "K") && !Includes(a + [','] + b, "M")
  {
    var s := a + [','] + b;
    forall i | 0 <= i < |s| ensures s[i] != 'K' && s[i] != 'M' {
      if i < |a| { assert s[i] == a[i]; } else if i > |a| { assert s[i] == b[i - |a| - 1]; }
    }
    LacksChar(s, 'K');
    LacksChar(s, 'M');
  }

  lemma ParseComma(a: string, b: string)
    requires |a| >= 1 && AllDigits(a) && AllDigits(b)
    ensures ParseFloat(a + [','] + b) == Some(DigitsValue(a, 10) as real)
  {
    assert a + [','] + b == a + ([','] + b);
    ParseFloatDigits(a, [','] + b);
  }

  // ---------------------------------------------------------------------
  // Pricing extraction

  /** The entries of all captured responses, in capture order. */
  function ParseAll(v: Variant, responses: seq<Json>): seq<PriceEntry>
  {
    ParseEach(responses, r => LenientParse(v, r))
  }

  function ParseEach(responses: seq<Json>, parse: Json -> seq<PriceEntry>): seq<PriceEntry>
  {
    if responses == [] then []
    else ParseEach(responses[..|responses| - 1], parse) + parse(responses[|responses| - 1])
  }

  /** Parsing two lists one after the other parses their concatenation. */
  lemma {:induction false} ParseEachAppend(a: seq<Json>, b: seq<Json>, parse: Json -> seq<PriceEntry>)
    ensures ParseEach(a + b, parse) == ParseEach(a, parse) + ParseEach(b, parse)
  {
    if b == [] {
      assert a + b == a;
    } else {
      var c := a + b;
      assert c[..|c| - 1] == a + b[..|b| - 1];
      assert c[|c| - 1] == b[|b| - 1];
      ParseEachAppend(a, b[..|b| - 1], parse);
    }
  }

  /** `extractPricingData` of the lenient variants: the page is read only
      when the responses gave nothing. */
  function LenientPricing(v: Variant, responses: seq<Json>, page: seq<PageText>, today: string): seq<PriceEntry>
  {
    var fromResponses := ParseAll(v, responses);
    if fromResponses == [] then LenientPageEntries(page, today) else fromResponses
  }

  method ExtractPricingData(v: Variant, responses: seq<Json>, page: seq<PageText>, today: string)
    returns (pricingData: seq<PriceEntry>)
    ensures pricingData == LenientPricing(v, responses, page, today)
  {
    pricingData := [];
    for i := 0 to |responses|
      invariant pricingData == ParseAll(v, responses[..i])
    {
      assert responses[..i + 1][..i] == responses[..i];
      var pricing := ParseGraphQLResponse(v, responses[i]);
      pricingData := pricingData + pricing;
    }
    assert responses[..|responses|] == responses;
    if pricingData == [] {
      var i := 0;
      while i < |page|
        invariant 0 <= i <= |page|
        invariant pricingData == LenientPageEntries(page[..i], today)
      {
        assert page[..i + 1][..i] == page[..i];
        var el := page[i];
        if el.text != [] && el.capture.Some? {
          pricingData := pricingData + [StandardEntry(today, CapturedPrice(el.capture.value))];
        }
        i := i + 1;
      }
      assert page[..i] == page;
    }
  }

  /** When a response gave an entry, the page does not matter. */
  lemma PageOnlyWhenEmpty(v: Variant, responses: seq<Json>, p1: seq<PageText>, p2: seq<PageText>, today: string)
    requires ParseAll(v, responses) != []
    ensures LenientPricing(v, responses, p1, today) == ParseAll(v, responses)
    ensures LenientPricing(v, responses, p1, today) == LenientPricing(v, responses, p2, today)
  {
  }

  /** When the responses gave nothing, the result is the page's entries. */
  lemma PageWhenEmpty(v: Variant, responses: seq<Json>, page: seq<PageText>, today: string)
    requires ParseAll(v, responses) == []
    ensures LenientPricing(v, responses, page, today) == LenientPageEntries(page, today)
    ensures forall e :: e in LenientPricing(v, responses, page, today) ==> e.date == Some(JStr(today))
  {
  }

  // ---------------------------------------------------------------------
  // The strict parser (Playwright and Puppeteer services)

  /** A day is kept only when `available === true`, its formatted price is
      truthy and not '€ 0', and the normalised price is positive;
      `minLengthOfStay` defaults to 1. */
  function StrictDay(v: Variant, day: Json): Step
  {
    if day == JNull then Throw
    else
      var formatted := Get(Some(day), "avgPriceFormatted");
      if IsTrue(Get(Some(day), "available")) && Truthy(formatted) && formatted != Some(JStr("€ 0")) then
        var price := NormaliseValue(v, formatted);
        if price.Some? && price.value > 0.0 then
          Emit(PriceEntry(Get(Some(day), "checkin"), price, JStr("EUR"), true, JStr("Standard"),
                          Some(OrElse(Get(Some(day), "minLengthOfStay"), JNum(1.0)))))
        else Skip
      else Skip
  }

  /** `request.data?.data?.availabilityCalendar?.days` of one capture. */
  function StrictDaysOf(body: Json): Option<Json> {
    Get(Get(Get(Some(body), "data"), "availabilityCalendar"), "days")
  }

  /** The captured responses' entries; a throw anywhere ends the whole
      extraction. */
  function StrictCapture(v: Variant, bodies: seq<Json>): (o: Outcome)
  {
    if bodies == [] then Outcome([], false)
    else
      var o := StrictCapture(v, bodies[..|bodies| - 1]);
      var days := StrictDaysOf(bodies[|bodies| - 1]);
      if o.threw || !Truthy(days) then o
      else match Iterate(days.value)
        case None => Outcome(o.entries, true)
        case Some(items) =>
          var more := Collect(items, d => StrictDay(v, d));
          Outcome(o.entries + more.entries, more.threw)
  }

  /** The whole extraction: responses, else the page, then the (price, date)
      filter and the sort by date; any throw gives []. */
  function StrictPricing(v: Variant, bodies: seq<Json>, page: seq<PageText>, today: string): seq<PriceEntry>
  {
    var o := StrictCapture(v, bodies);
    if o.threw then []
    else UniqueByDate(if o.entries == [] then StrictPageEntries(page, today) else o.entries)
  }

  /** The capture loop: every captured body in order, stopping at a throw. */
  method CaptureStrict(v: Variant, bodies: seq<Json>) returns (pricing: seq<PriceEntry>, threw: bool)
    ensures Outcome(pricing, threw) == StrictCapture(v, bodies)
  {
    pricing := [];
    threw := false;
    var i := 0;
    while i < |bodies| && !threw
      invariant 0 <= i <= |bodies|
      invariant Outcome(pricing, threw) == StrictCapture(v, bodies[..i])
      decreases |bodies| - i
    {
      assert bodies[..i + 1][..i] == bodies[..i];
      var days := StrictDaysOf(bodies[i]);
      if Truthy(days) {
        var items := Iterate(days.value);
        if items.None? {
          threw := true;
        } else {
          var more;
          more, threw := CollectDays(items.value, d => StrictDay(v, d));
          pricing := pricing + more;
        }
      }
      i := i + 1;
    }
    if threw {
      StrictCaptureStops(v, bodies, i);
    } else {
      assert bodies[..i] == bodies;
    }
  }

  /** The page fallback of the strict services. */
  method ReadStrictPage(page: seq<PageText>, today: string) returns (pricing: seq<PriceEntry>)
    ensures pricing == StrictPageEntries(page, today)
  {
    pricing := [];
    for k := 0 to |page|
      invariant pricing == StrictPageEntries(page[..k], today)
    {
      assert page[..k + 1][..k] == page[..k];
      var el := page[k];
      var t := Trim(el.text);
      if t != [] && Includes(t, "€") && el.capture.Some? {
        var price := CapturedPrice(el.capture.value);
        if price.Some? && price.value > 0.0 {
          pricing := pricing + [StandardEntry(today, price)];
        }
      }
    }
    assert page[..|page|] == page;
  }

  method ExtractPricingStrict(v: Variant, bodies: seq<Json>, page: seq<PageText>, today: string)
    returns (unique: seq<PriceEntry>)
    ensures unique == StrictPricing(v, bodies, page, today)
  {
    var pricing, threw := CaptureStrict(v, bodies);
    if threw {
      return [];
    }
    if pricing == [] {
      pricing := ReadStrictPage(page, today);
    }
    unique := SortBy(Dedup(pricing), DateKey);
  }

  /** Once a prefix of the captures threw, the whole capture throws, with
      the same entries. */
  lemma {:induction false} StrictCaptureStops(v: Variant, bodies: seq<Json>, n: nat)
    requires n <= |bodies|
    requires StrictCapture(v, bodies[..n]).threw
    ensures StrictCapture(v, bodies) == StrictCapture(v, bodies[..n])
    decreases |bodies| - n
  {
    if n < |bodies| {
      assert bodies[..n + 1][..n] == bodies[..n];
      StrictCaptureStops(v, bodies, n + 1);
    } else {
      assert bodies[..n] == bodies;
    }
  }

  /** A strict day gives an entry only when it is marked available with a
      positive price; the entry is in EUR, of room 'Standard', and has a
      truthy minimum stay (1 when the day has none). */
  lemma StrictDayEntry(v: Variant, day: Json)
    requires StrictDay(v, day).Emit?
    ensures IsTrue(Get(Some(day), "available"))
    ensures Get(Some(day), "avgPriceFormatted") != Some(JStr("€ 0"))
    ensures var e := StrictDay(v, day).entry;
      e.price.Some? && e.price.value > 0.0 && e.availability
      && e.currency == JStr("EUR") && e.room == JStr("Standard")
      && e.date == Get(Some(day), "checkin")
      && e.minStay.Some? && Truthy(e.minStay)
      && (!Truthy(Get(Some(day), "minLengthOfStay")) ==> e.minStay == Some(JNum(1.0)))
  {
  }

  /** The strict filter is stricter than the lenient one: a day it keeps,
      which has a check-in date, the lenient parser keeps too, with the
      same date and price. */
  lemma StrictImpliesLenient(v: Variant, day: Json)
    requires StrictDay(v, day).Emit? && Truthy(Get(Some(day), "checkin"))
    ensures LenientDay(v, day).Emit?
    ensures LenientDay(v, day).entry.price == StrictDay(v, day).entry.price
    ensures LenientDay(v, day).entry.date == StrictDay(v, day).entry.date
  {
  }

  /** The strict result has no repeated (price, date) pair and no `NaN`,
      is sorted by date, holds only entries that were extracted, and holds
      an entry of every (price, date) pair extracted; after a throw it is
      empty. */
  lemma StrictPricingCorrect(v: Variant, bodies: seq<Json>, page: seq<PageText>, today: string)
    ensures var r := StrictPricing(v, bodies, page, today);
      var o := StrictCapture(v, bodies);
      var s := if o.entries == [] then StrictPageEntries(page, today) else o.entries;
      (o.threw ==> r == [])
      && (!o.threw ==>
            SortedBy(r, DateKey)
            && NoRepeatedKey(r)
            && (forall e :: e in r ==> e in s && e.price.Some?)
            && (forall i :: 0 <= i < |s| && s[i].price.Some? ==> exists e :: e in r && SameKey(e, s[i])))
  {
    var o := StrictCapture(v, bodies);
    var s := if o.entries == [] then StrictPageEntries(page, today) else o.entries;
    UniqueByDateCorrect(s);
  }
}
