/** The HTML-only daily service: the recursive search for `price` members
    (`extractPricingFromObject`), the four extraction strategies of
    `extractPricingFromHtml` over an already fetched and parsed page, and
    the hotel-id lookup. Regular expressions and the HTML parser are not
    modelled: what they capture is part of the page value. */
module Daily {

  import opened Wrappers
  import opened Text
  import opened Numbers
  import opened JsonValues
  import opened Variants
  import opened Normaliser
  import opened Entries
  import opened Calendar

  // ---------------------------------------------------------------------
  // extractPricingFromObject

  /** The service's normaliser (`€` and white space stripped, 'K' only),
      the `norm` the functions below are given. */
  function DailyNormalise(s: string): Option<real> {
    NormalisePrice(Daily, s)
  }

  /** The entries found in `j`: objects are searched member by member, in
      order; a `price` member that is a positive number or any string
      gives an entry dated today; arrays and nested objects are searched;
      every other value gives nothing. An array is searched like the
      object of its indices, whose keys are never `price`. */
  function Walk(j: Json, today: string, norm: string -> Option<real>): (r: seq<PriceEntry>)
    ensures forall e :: e in r ==> e == StandardEntry(today, e.price)
    ensures !(j.JObj? || j.JArr?) ==> r == []
    decreases j, 1, 0
  {
    match j
    case JObj(fields) => WalkFields(j, fields, |fields|, today, norm)
    case JArr(items) => WalkItems(j, items, |items|, today, norm)
    case _ => []
  }

  /** The entries of the first `n` elements of an array. */
  function WalkItems(parent: Json, items: seq<Json>, n: nat, today: string, norm: string -> Option<real>): (r: seq<PriceEntry>)
    requires parent == JArr(items) && n <= |items|
    ensures forall e :: e in r ==> e == StandardEntry(today, e.price)
    decreases parent, 0, n
  {
    if n == 0 then []
    else WalkItems(parent, items, n - 1, today, norm) + Walk(items[n - 1], today, norm)
  }

  /** The entries of the first `n` members of an object. */
  function WalkFields(parent: Json, fields: seq<(string, Json)>, n: nat, today: string, norm: string -> Option<real>): (r: seq<PriceEntry>)
    requires parent == JObj(fields) && n <= |fields|
    ensures forall e :: e in r ==> e == StandardEntry(today, e.price)
    decreases parent, 0, n
  {
    if n == 0 then []
    else
      assert fields[n - 1].1 < fields[n - 1];
      WalkFields(parent, fields, n - 1, today, norm) + MemberEntries(fields[n - 1].0, fields[n - 1].1, today, norm)
  }

  /** One member: a positive number or any string under `price` gives an
      entry; any other value is searched. */
  function MemberEntries(key: string, value: Json, today: string, norm: string -> Option<real>): (r: seq<PriceEntry>)
    ensures forall e :: e in r ==> e == StandardEntry(today, e.price)
    decreases value, 2, 0
  {
    if key == "price" && value.JNum? && value.n > 0.0 then [StandardEntry(today, Some(value.n))]
    else if key == "price" && value.JStr? then [StandardEntry(today, norm(value.s))]
    else Walk(value, today, norm)
  }

  /** A `price` member holding a number gives an entry exactly when the
      number is positive. */
  lemma NumericPrice(n: real, today: string, norm: string -> Option<real>)
    ensures Walk(JObj([("price", JNum(n))]), today, norm)
      == if n > 0.0 then [StandardEntry(today, Some(n))] else []
  {
    var j := JObj([("price", JNum(n))]);
    assert WalkFields(j, j.fields, 0, today, norm) == [];
    assert WalkFields(j, j.fields, 1, today, norm) == MemberEntries("price", JNum(n), today, norm);
  }

  /** A `price` member holding a string always gives an entry, with no
      check on the value. */
  lemma StringPrice(s: string, today: string, norm: string -> Option<real>)
    ensures Walk(JObj([("price", JStr(s))]), today, norm) == [StandardEntry(today, norm(s))]
  {
    var j := JObj([("price", JStr(s))]);
    assert WalkFields(j, j.fields, 0, today, norm) == [];
    assert WalkFields(j, j.fields, 1, today, norm) == MemberEntries("price", JStr(s), today, norm);
  }

  /** So, with the service's normaliser, "€0" gives an entry with a
      price of 0. */
  lemma ZeroStringPrice(today: string)
    ensures Walk(JObj([("price", JStr("€0"))]), today, DailyNormalise) == [StandardEntry(today, Some(0.0))]
  {
    StringPrice("€0", today, DailyNormalise);
    DefaultPriceIsZero(Daily);
  }

  /** The members of an object are searched in order: the entries of an
      object are those of its first members followed by those of the
      rest. */
  lemma {:induction false} WalkFieldsAppend(a: seq<(string, Json)>, b: seq<(string, Json)>, n: nat, today: string, norm: string -> Option<real>)
    requires n <= |b|
    ensures WalkFields(JObj(a + b), a + b, |a| + n, today, norm)
      == WalkFields(JObj(a), a, |a|, today, norm) + WalkFields(JObj(b), b, n, today, norm)
  {
    if n == 0 {
      WalkFieldsSame(a, a + b, |a|, today, norm);
    } else {
      WalkFieldsAppend(a, b, n - 1, today, norm);
      assert (a + b)[|a| + n - 1] == b[n - 1];
    }
  }

  /** The entries of a prefix of members do not depend on what follows. */
  lemma {:induction false} WalkFieldsSame(a: seq<(string, Json)>, c: seq<(string, Json)>, n: nat, today: string, norm: string -> Option<real>)
    requires n <= |a| <= |c| && a[..n] == c[..n]
    ensures WalkFields(JObj(a), a, n, today, norm) == WalkFields(JObj(c), c, n, today, norm)
  {
    if n > 0 {
      assert a[..n - 1] == c[..n - 1] by {
        assert a[..n][..n - 1] == a[..n - 1] && c[..n][..n - 1] == c[..n - 1];
      }
      assert a[n - 1] == a[..n][n - 1] && c[n - 1] == c[..n][n - 1];
      WalkFieldsSame(a, c, n - 1, today, norm);
    }
  }

  /** A `price` member holding an object or an array is searched too: the
      entries nested under it are found. */
  lemma NestedPrice(inner: Json, today: string, norm: string -> Option<real>)
    requires inner.JObj? || inner.JArr?
    ensures Walk(JObj([("price", inner)]), today, norm) == Walk(inner, today, norm)
  {
    var j := JObj([("price", inner)]);
    assert WalkFields(j, j.fields, 0, today, norm) == [];
    assert WalkFields(j, j.fields, 1, today, norm) == MemberEntries("price", inner, today, norm);
  }

  // ---------------------------------------------------------------------
  // The four strategies of extractPricingFromHtml

  /** What the page offers to the four strategies, in document order:
      the parsed JSON-LD scripts (`None` when empty or not JSON), the
      parsed `window.__INITIAL_STATE__` captures (`None` when the pattern
      does not match or the capture is not JSON), the element texts of each
      price selector in the ranked list, and the parsed `{..."price"...}`
      snippets of the scripts mentioning availability, calendar or
      pricing. */
  datatype DailyPage = DailyPage(
    jsonLd: seq<Option<Json>>,
    initialStates: seq<Option<Json>>,
    selectorTexts: seq<seq<string>>,
    priceSnippets: seq<Option<Json>>)

  /** `extractPriceFromFormattedString(x.toString())`: a number reads back
      as itself; a string is normalised; `true` and objects print as text
      without digits and give `NaN`. Arrays also give `NaN` here, whereas
      JavaScript prints them as their comma-joined elements. */
  function PriceOfValue(x: Json, norm: string -> Option<real>): (r: Option<real>)
    ensures x.JNum? ==> r == Some(x.n)
  {
    match x
    case JNum(n) => Some(n)
    case JStr(s) => norm(s)
    case _ => None
  }

  /** One JSON-LD offer: with a truthy `price` and `priceCurrency` it gives
      an entry in that currency, of room `name || 'Standard'`. */
  function OfferStep(offer: Json, today: string, norm: string -> Option<real>): Step
  {
    if offer == JNull then Throw
    else
      var price := Get(Some(offer), "price");
      var currency := Get(Some(offer), "priceCurrency");
      if Truthy(price) && Truthy(currency) then
        Emit(PriceEntry(Some(JStr(today)), PriceOfValue(price.value, norm), currency.value, true,
                        OrElse(Get(Some(offer), "name"), JStr("Standard")), None))
      else Skip
  }

  /** Strategy 1 on one script: a `Hotel` with truthy `offers`; an array of
      offers is read until an offer throws (what was pushed stays), a
      single offer is read alone. */
  function LdEntries(data: Option<Json>, today: string, norm: string -> Option<real>): seq<PriceEntry>
  {
    if data.None? || data == Some(JNull) then []
    else
      var offers := Get(data, "offers");
      if Get(data, "@type") == Some(JStr("Hotel")) && Truthy(offers) then
        if IsArray(offers) then Collect(offers.value.items, o => OfferStep(o, today, norm)).entries
        else match OfferStep(offers.value, today, norm)
          case Emit(e) => [e]
          case _ => []
      else []
  }

  /** Strategy 4 on one snippet: a truthy `price` gives an entry dated
      `date || today`, in `currency || 'EUR'`, available unless
      `available: false`, of room `roomType || 'Standard'`. */
  function SnippetEntries(data: Option<Json>, today: string, norm: string -> Option<real>): seq<PriceEntry>
  {
    if data.None? || data == Some(JNull) then []
    else
      var price := Get(data, "price");
      if Truthy(price) then
        [PriceEntry(Some(OrElse(Get(data, "date"), JStr(today))), PriceOfValue(price.value, norm),
                    OrElse(Get(data, "currency"), JStr("EUR")), !IsFalse(Get(data, "available")),
                    OrElse(Get(data, "roomType"), JStr("Standard")), None)]
      else []
  }

  /** Strategy 2 on one captured state: the search for `price` members. */
  function StateEntries(state: Option<Json>, today: string, norm: string -> Option<real>): seq<PriceEntry>
  {
    if state.Some? then Walk(state.value, today, norm) else []
  }

  /** The entries of one price selector's elements: a non-empty trimmed
      text whose normalised price is positive. */
  function SelectorEntries(texts: seq<string>, today: string, norm: string -> Option<real>): (r: seq<PriceEntry>)
    ensures forall e :: e in r ==> e == StandardEntry(today, e.price) && e.price.Some? && e.price.value > 0.0
  {
    if texts == [] then []
    else
      var init := SelectorEntries(texts[..|texts| - 1], today, norm);
      var t := Trim(texts[|texts| - 1]);
      var price := norm(t);
      if t != [] && price.Some? && price.value > 0.0 then init + [StandardEntry(today, price)] else init
  }

  /** Strategy 3, from the accumulated `pricing`: selectors without
      elements are passed over; after a selector with elements the search
      stops if anything has been found so far. */
  function DomStrategy(pricing: seq<PriceEntry>, selectors: seq<seq<string>>, today: string, norm: string -> Option<real>): (r: seq<PriceEntry>)
    ensures |pricing| <= |r| && r[..|pricing|] == pricing
    ensures forall i :: |pricing| <= i < |r| ==>
      r[i] == StandardEntry(today, r[i].price) && r[i].price.Some? && r[i].price.value > 0.0
  {
    if selectors == [] then pricing
    else if selectors[0] == [] then DomStrategy(pricing, selectors[1..], today, norm)
    else
      var p := pricing + SelectorEntries(selectors[0], today, norm);
      assert forall i :: |pricing| <= i < |p| ==> p[i] in SelectorEntries(selectors[0], today, norm);
      if p != [] then p else DomStrategy(p, selectors[1..], today, norm)
  }

  /** The strategies in order, then the (price, date) filter; no page (the
      fetch failed) gives []. */
  function DailyPricing(page: Option<DailyPage>, today: string): seq<PriceEntry>
  {
    match page
    case None => []
    case Some(p) =>
      var afterLd := Concat(p.jsonLd, d => LdEntries(d, today, DailyNormalise));
      var afterState := afterLd + Concat(p.initialStates, st => StateEntries(st, today, DailyNormalise));
      var afterDom := DomStrategy(afterState, p.selectorTexts, today, DailyNormalise);
      Dedup(afterDom + Concat(p.priceSnippets, d => SnippetEntries(d, today, DailyNormalise)))
  }

  /** The entries of each item, in order. */
  function Concat<T>(xs: seq<T>, f: T -> seq<PriceEntry>): seq<PriceEntry>
  {
    if xs == [] then [] else Concat(xs[..|xs| - 1], f) + f(xs[|xs| - 1])
  }

  /** `extractPricingFromHtml` after the fetch, with its loops and the
      `break` of strategy 3. */
  method ExtractPricingFromHtml(page: Option<DailyPage>, today: string) returns (unique: seq<PriceEntry>)
    ensures unique == DailyPricing(page, today)
  {
    if page.None? {
      return [];
    }
    var p := page.value;
    var pricing := ConcatLoop(p.jsonLd, d => LdEntries(d, today, DailyNormalise));
    var states := ConcatLoop(p.initialStates, st => StateEntries(st, today, DailyNormalise));
    pricing := pricing + states;
    ghost var goal := DomStrategy(pricing, p.selectorTexts, today, DailyNormalise);
    var k := 0;
    while k < |p.selectorTexts|
      invariant 0 <= k <= |p.selectorTexts|
      invariant DomStrategy(pricing, p.selectorTexts[k..], today, DailyNormalise) == goal
    {
      var texts := p.selectorTexts[k];
      assert p.selectorTexts[k..][0] == texts;
      assert p.selectorTexts[k..][1..] == p.selectorTexts[k + 1..];
      if |texts| > 0 {
        var found := SelectorLoop(texts, today, DailyNormalise);
        pricing := pricing + found;
        if |pricing| > 0 {
          assert pricing == goal;
          break;
        }
      }
      k := k + 1;
    }
    assert pricing == goal;
    var snippets := ConcatLoop(p.priceSnippets, d => SnippetEntries(d, today, DailyNormalise));
    unique := Dedup(pricing + snippets);
  }

  /** The `each` loop over one selector's elements. */
  method SelectorLoop(texts: seq<string>, today: string, norm: string -> Option<real>) returns (found: seq<PriceEntry>)
    ensures found == SelectorEntries(texts, today, norm)
  {
    found := [];
    for j := 0 to |texts|
      invariant found == SelectorEntries(texts[..j], today, norm)
    {
      assert texts[..j + 1][..j] == texts[..j];
      var t := Trim(texts[j]);
      if t != [] {
        var price := norm(t);
        if price.Some? && price.value > 0.0 {
          found := found + [StandardEntry(today, price)];
        }
      }
    }
    assert texts[..|texts|] == texts;
  }

  /** A `for` loop pushing `f(x)` for each item. */
  method ConcatLoop<T>(xs: seq<T>, f: T -> seq<PriceEntry>) returns (r: seq<PriceEntry>)
    ensures r == Concat(xs, f)
  {
    r := [];
    for i := 0 to |xs|
      invariant r == Concat(xs[..i], f)
    {
      assert xs[..i + 1][..i] == xs[..i];
      r := r + f(xs[i]);
    }
    assert xs[..|xs|] == xs;
  }

  /** Once something has been found, strategy 3 reads only the first
      selector that has elements, and adds its positive prices. */
  lemma {:induction false} DomStopsAtFirst(pricing: seq<PriceEntry>, selectors: seq<seq<string>>, k: nat, today: string, norm: string -> Option<real>)
    requires pricing != [] && k < |selectors| && selectors[k] != []
    requires forall i :: 0 <= i < k ==> selectors[i] == []
    ensures DomStrategy(pricing, selectors, today, norm) == pricing + SelectorEntries(selectors[k], today, norm)
  {
    if k > 0 {
      assert selectors[1..][k - 1] == selectors[k];
      DomStopsAtFirst(pricing, selectors[1..], k - 1, today, norm);
    }
  }

  /** With nothing found yet, strategy 3 goes on past selectors whose
      elements gave no positive price. */
  lemma DomContinuesWhileEmpty(selectors: seq<seq<string>>, today: string, norm: string -> Option<real>)
    requires selectors != [] && SelectorEntries(selectors[0], today, norm) == []
    ensures DomStrategy([], selectors, today, norm) == DomStrategy([], selectors[1..], today, norm)
  {
  }

  /** The daily result never holds two entries with the same (price, date)
      pair nor a `NaN` price, keeps the extraction order, and holds an
      entry for every pair the strategies found. */
  lemma DailyPricingCorrect(p: DailyPage, today: string)
    ensures NoRepeatedKey(DailyPricing(Some(p), today))
    ensures forall e :: e in DailyPricing(Some(p), today) ==> e.price.Some?
    ensures var s := DomStrategy(Concat(p.jsonLd, d => LdEntries(d, today, DailyNormalise))
                                 + Concat(p.initialStates, st => StateEntries(st, today, DailyNormalise)),
                                 p.selectorTexts, today, DailyNormalise)
                     + Concat(p.priceSnippets, d => SnippetEntries(d, today, DailyNormalise));
      IsSubsequence(DailyPricing(Some(p), today), s)
      && forall i :: 0 <= i < |s| && s[i].price.Some? ==>
           exists k :: 0 <= k < |DailyPricing(Some(p), today)| && SameKey(DailyPricing(Some(p), today)[k], s[i])
  {
    var afterLd := Concat(p.jsonLd, d => LdEntries(d, today, DailyNormalise));
    var afterState := afterLd + Concat(p.initialStates, st => StateEntries(st, today, DailyNormalise));
    var s := DomStrategy(afterState, p.selectorTexts, today, DailyNormalise) + Concat(p.priceSnippets, d => SnippetEntries(d, today, DailyNormalise));
    DedupCorrect(s);
  }

  // ---------------------------------------------------------------------
  // extractHotelIdFromHtml

  /** What the two script patterns captured in one script (`None`: no
      match); the patterns ask for at least five digits. */
  datatype ScriptIds = ScriptIds(assignment: Option<string>, jsonMember: Option<string>)

  /** The hotel id: the `b_hid` capture read in base 36 and written in
      decimal; else the first script capture, the assignment pattern before
      the JSON-member pattern; else a non-empty `data-hotelid`; else an
      error. */
  function HotelId(bHid: Option<string>, scripts: seq<ScriptIds>, dataHotelId: Option<string>): (r: Result<string>)
    ensures r.Failure? ==> r.error == "hotelId not found in HTML or URL"
  {
    var fromUrl := if bHid.Some? then ParseInt(bHid.value, 36) else None;
    if fromUrl.Some? then Success(IntToString(fromUrl.value))
    else match FirstScriptId(scripts)
      case Some(id) => Success(id)
      case None =>
        if dataHotelId.Some? && dataHotelId.value != [] then Success(dataHotelId.value)
        else Failure("hotelId not found in HTML or URL")
  }

  /** The first capture over the scripts, in order. */
  function FirstScriptId(scripts: seq<ScriptIds>): (r: Option<string>)
    ensures r.Some? ==> exists i :: (0 <= i < |scripts| &&
      (scripts[i].assignment == r || (scripts[i].assignment.None? && scripts[i].jsonMember == r)))
    ensures r.None? ==> forall i :: 0 <= i < |scripts| ==> scripts[i].assignment.None? && scripts[i].jsonMember.None?
  {
    if scripts == [] then None
    else if scripts[0].assignment.Some? then scripts[0].assignment
    else if scripts[0].jsonMember.Some? then scripts[0].jsonMember
    else
      var r := FirstScriptId(scripts[1..]);
      assert forall i :: 0 <= i < |scripts[1..]| ==> scripts[1..][i] == scripts[i + 1];
      r
  }

  /** The lookup with its early returns. */
  method ExtractHotelId(bHid: Option<string>, scripts: seq<ScriptIds>, dataHotelId: Option<string>)
    returns (r: Result<string>)
    ensures r == HotelId(bHid, scripts, dataHotelId)
  {
    if bHid.Some? {
      var numericId := ParseInt(bHid.value, 36);
      if numericId.Some? {
        return Success(IntToString(numericId.value));
      }
    }
    var fromScripts := ScanScripts(scripts);
    if fromScripts.Some? {
      return Success(fromScripts.value);
    }
    if dataHotelId.Some? && dataHotelId.value != [] {
      return Success(dataHotelId.value);
    }
    return Failure("hotelId not found in HTML or URL");
  }

  /** The loop over the scripts, returning at the first capture. */
  method ScanScripts(scripts: seq<ScriptIds>) returns (id: Option<string>)
    ensures id == FirstScriptId(scripts)
  {
    var i := 0;
    while i < |scripts|
      invariant 0 <= i <= |scripts|
      invariant FirstScriptId(scripts) == FirstScriptId(scripts[i..])
    {
      assert scripts[i..][1..] == scripts[i + 1..];
      if scripts[i].assignment.Some? {
        return scripts[i].assignment;
      }
      if scripts[i].jsonMember.Some? {
        return scripts[i].jsonMember;
      }
      i := i + 1;
    }
    return None;
  }


  /** A `b_hid` of base-36 digits decides the id, whatever the page holds,
      and the id reads back in decimal as the base-36 value. */
  lemma BHidDecides(bHid: string, scripts: seq<ScriptIds>, dataHotelId: Option<string>)
    requires |bHid| >= 1 && forall i :: 0 <= i < |bHid| ==> IsRadixDigit(bHid[i], 36)
    ensures HotelId(Some(bHid), scripts, dataHotelId).Success?
    ensures ParseInt(HotelId(Some(bHid), scripts, dataHotelId).value, 10) == Some(DigitsValue(bHid, 36))
  {
    assert bHid[0] == bHid[0];
    BaseDigits(bHid);
    NatRoundTrip(DigitsValue(bHid, 36));
  }

  /** `parseInt(s, 36)` of a string of base-36 digits is its value. */
  lemma BaseDigits(s: string)
    requires |s| >= 1 && forall i :: 0 <= i < |s| ==> IsRadixDigit(s[i], 36)
    ensures ParseInt(s, 36) == Some(DigitsValue(s, 36))
  {
    assert DigitValue(s[0], 36).Some?;
    assert !IsSpace(s[0]) && s[0] != '-' && s[0] != '+';
    assert TrimStart(s) == s;
    DigitRunOfDigits(s, [], 36);
    assert s + [] == s && s[..|s|] == s;
  }
}
