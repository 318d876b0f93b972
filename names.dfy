/** The hotel-level fields of a visit: `cleanHotelName`, the three name
    tiers of `extractHotelName`, `extractCity`, the date-picker choices and
    the details record the Playwright and Puppeteer scrapers build. Pages
    are abstract: each regular expression or selector is represented by
    what it yields (its first capture, the text of its first element, or
    the texts of all its elements). */
module Names {

  import opened Wrappers
  import opened Text
  import opened Numbers
  import opened Variants

  // ---------------------------------------------------------------------
  // cleanHotelName

  /** The removal steps of `cleanHotelName`, applied in list order. Each
      step stands for one `replace(pattern, '')` of the source's list. */
  function ApplyAll(removals: seq<string -> string>, s: string): string
  {
    if removals == [] then s else ApplyAll(removals[1..], removals[0](s))
  }

  lemma {:induction false} ApplyAllAppend(a: seq<string -> string>, b: seq<string -> string>, s: string)
    ensures ApplyAll(a + b, s) == ApplyAll(b, ApplyAll(a, s))
  {
    if a == [] {
      assert a + b == b;
    } else {
      assert (a + b)[1..] == a[1..] + b;
      ApplyAllAppend(a[1..], b, a[0](s));
    }
  }

  /** `cleanHotelName`: the removals in order, then whitespace runs become
      one space and the ends are trimmed. */
  function CleanName(removals: seq<string -> string>, name: string): (r: string)
    ensures WellSpaced(r)
  {
    CollapseAndTrim(ApplyAll(removals, name))
  }

  /** The shared removal patterns and the `- Booking.com…` suffix removal
      that only the Playwright, Puppeteer and daily scrapers have. */
  datatype Patterns = Patterns(shared: seq<string -> string>, bookingSuffix: string -> string)

  function RemovalList(v: Variant, p: Patterns): (r: seq<string -> string>)
    ensures |r| >= |p.shared| && r[..|p.shared|] == p.shared
    ensures v.IsLenient() <==> |r| == |p.shared|
  {
    if v.IsLenient() then p.shared else p.shared + [p.bookingSuffix]
  }

  /** The Booking.com suffix is removed after every shared pattern, just
      before the whitespace clean-up. */
  lemma BookingSuffixLast(v: Variant, p: Patterns, name: string)
    requires !v.IsLenient()
    ensures CleanName(RemovalList(v, p), name)
            == CollapseAndTrim(p.bookingSuffix(ApplyAll(p.shared, name)))
  {
    ApplyAllAppend(p.shared, [p.bookingSuffix], name);
    assert ApplyAll([p.bookingSuffix], ApplyAll(p.shared, name))
        == ApplyAll([], p.bookingSuffix(ApplyAll(p.shared, name)));
  }

  /** The whitespace clean-up is the last step: a cleaned name needs no
      further collapsing or trimming. */
  lemma CleanNameSettled(removals: seq<string -> string>, name: string)
    ensures CollapseAndTrim(CleanName(removals, name)) == CleanName(removals, name)
  {
    CollapseAndTrimIdempotent(ApplyAll(removals, name));
  }

  // ---------------------------------------------------------------------
  // The name tiers of the backend and package scrapers

  /** A JSON-pattern capture the first tier accepts: present, non-empty and
      longer than three characters once trimmed. */
  predicate GoodCapture(c: Option<string>) {
    c.Some? && c.value != [] && |Trim(c.value)| > 3
  }

  /** `extractHotelNameFromJSON`: the first pattern (in list order) whose
      trimmed capture is longer than three characters. */
  function JsonName(captures: seq<Option<string>>): (r: Option<string>)
    ensures r.Some? ==> |r.value| > 3
    ensures r.Some? ==> exists i :: 0 <= i < |captures| && GoodCapture(captures[i])
                                    && r.value == Trim(captures[i].value)
                                    && forall j :: 0 <= j < i ==> !GoodCapture(captures[j])
    ensures r.None? <==> forall i :: 0 <= i < |captures| ==> !GoodCapture(captures[i])
  {
    if captures == [] then None
    else if GoodCapture(captures[0]) then Some(Trim(captures[0].value))
    else
      var r := JsonName(captures[1..]);
      if r.Some? then
        var i :| 0 <= i < |captures[1..]| && GoodCapture(captures[1..][i])
                 && r.value == Trim(captures[1..][i].value)
                 && forall j :: 0 <= j < i ==> !GoodCapture(captures[1..][j]);
        assert GoodCapture(captures[i + 1]) && r.value == Trim(captures[i + 1].value);
        assert forall j :: 0 <= j < i + 1 ==> !GoodCapture(captures[j]) by {
          forall j | 0 <= j < i + 1 ensures !GoodCapture(captures[j]) {
            if j > 0 { assert captures[j] == captures[1..][j - 1]; }
          }
        }
        r
      else
        assert forall i :: 1 <= i < |captures| ==> captures[i] == captures[1..][i - 1];
        r
  }

  /** The loop of `extractHotelNameFromJSON`, returning from inside. */
  method ExtractHotelNameFromJson(captures: seq<Option<string>>) returns (r: Option<string>)
    ensures r == JsonName(captures)
  {
    var i := 0;
    while i < |captures|
      invariant 0 <= i <= |captures|
      invariant JsonName(captures[i..]) == JsonName(captures)
    {
      assert captures[i..][1..] == captures[i + 1..];
      var c := captures[i];
      if c.Some? && c.value != [] {
        var name := Trim(c.value);
        if name != [] && |name| > 3 {
          return Some(name);
        }
      }
      i := i + 1;
    }
    return None;
  }

  /** A selector hit of the second tier: an element whose text is longer
      than three characters (measured before trimming). */
  predicate LongText(t: Option<string>) {
    t.Some? && t.value != [] && |t.value| > 3
  }

  /** The second tier: the first ranked selector whose element text is long
      enough. `texts[i]` is the text of selector `i`'s first element, or
      `None` when the selector matches nothing. */
  function SelectorName(texts: seq<Option<string>>): (r: Option<string>)
    ensures r.Some? ==> exists i :: 0 <= i < |texts| && LongText(texts[i]) && r.value == texts[i].value
                                    && forall j :: 0 <= j < i ==> !LongText(texts[j])
    ensures r.None? <==> forall i :: 0 <= i < |texts| ==> !LongText(texts[i])
  {
    if texts == [] then None
    else if LongText(texts[0]) then Some(texts[0].value)
    else
      var r := SelectorName(texts[1..]);
      if r.Some? then
        var i :| 0 <= i < |texts[1..]| && LongText(texts[1..][i]) && r.value == texts[1..][i].value
                 && forall j :: 0 <= j < i ==> !LongText(texts[1..][j]);
        assert LongText(texts[i + 1]) && r.value == texts[i + 1].value;
        assert forall j :: 0 <= j < i + 1 ==> !LongText(texts[j]) by {
          forall j | 0 <= j < i + 1 ensures !LongText(texts[j]) {
            if j > 0 { assert texts[j] == texts[1..][j - 1]; }
          }
        }
        r
      else
        assert forall i :: 1 <= i < |texts| ==> texts[i] == texts[1..][i - 1];
        r
  }

  /** The third tier's test: a non-empty text whose lower-cased form
      contains `hotel`, `hostel` or `inn`. */
  predicate KeywordText(t: string) {
    var l := ToLower(t);
    t != [] && (Includes(l, "hotel") || Includes(l, "hostel") || Includes(l, "inn"))
  }

  /** The first keyword text among one tag's elements. */
  function FirstKeyword(texts: seq<string>): (r: Option<string>)
    ensures r.Some? ==> KeywordText(r.value) && r.value in texts
    ensures r.Some? ==> exists k :: 0 <= k < |texts| && texts[k] == r.value
                                    && forall j :: 0 <= j < k ==> !KeywordText(texts[j])
    ensures r.None? <==> forall k :: 0 <= k < |texts| ==> !KeywordText(texts[k])
  {
    if texts == [] then None
    else if KeywordText(texts[0]) then Some(texts[0])
    else
      var r := FirstKeyword(texts[1..]);
      if r.Some? then
        var k :| 0 <= k < |texts[1..]| && texts[1..][k] == r.value
                 && forall j :: 0 <= j < k ==> !KeywordText(texts[1..][j]);
        assert texts[k + 1] == r.value;
        assert forall j :: 0 <= j < k + 1 ==> !KeywordText(texts[j]) by {
          forall j | 0 <= j < k + 1 ensures !KeywordText(texts[j]) {
            if j > 0 { assert texts[j] == texts[1..][j - 1]; }
          }
        }
        r
      else
        assert forall k :: 1 <= k < |texts| ==> texts[k] == texts[1..][k - 1];
        r
  }

  /** The third tier: the tags (`h1`, then `h2`) in order, and within a tag
      its elements in document order. */
  function HeadingName(tags: seq<seq<string>>): (r: Option<string>)
    ensures r.Some? ==> KeywordText(r.value)
    ensures r.Some? ==> exists t :: 0 <= t < |tags| && r.value in tags[t]
    ensures r.None? <==> forall t, k :: 0 <= t < |tags| && 0 <= k < |tags[t]| ==> !KeywordText(tags[t][k])
  {
    if tags == [] then None
    else
      match FirstKeyword(tags[0])
      case Some(n) => Some(n)
      case None =>
        var r := HeadingName(tags[1..]);
        assert forall t :: 1 <= t < |tags| ==> tags[t] == tags[1..][t - 1];
        r
  }

  /** What the name tiers see of a page: the JSON patterns' captures, the
      ranked selectors' first-element texts, and the texts of every `h1`
      and then every `h2`. */
  datatype NamePage = NamePage(jsonCaptures: seq<Option<string>>,
                               selectorTexts: seq<Option<string>>,
                               headings: seq<seq<string>>)

  /** The raw text the tiers find: JSON first, then selectors, then keyword
      headings. */
  function FoundName(page: NamePage): Option<string>
  {
    match JsonName(page.jsonCaptures)
    case Some(n) => Some(n)
    case None =>
      match SelectorName(page.selectorTexts)
      case Some(t) => Some(t)
      case None => HeadingName(page.headings)
  }

  /** `extractHotelName`: the tiers' hit, cleaned; the empty string when
      every tier fails. */
  function HotelName(page: NamePage, removals: seq<string -> string>): (r: string)
    ensures WellSpaced(r)
  {
    match FoundName(page)
    case Some(n) => CleanName(removals, n)
    case None => ""
  }

  /** `extractHotelName`: each tier is tried in turn and the first hit is
      cleaned and returned. */
  method ExtractHotelName(page: NamePage, removals: seq<string -> string>) returns (name: string)
    ensures name == HotelName(page, removals)
  {
    var jsonName := ExtractHotelNameFromJson(page.jsonCaptures);
    if jsonName.Some? {
      return CleanName(removals, jsonName.value);
    }
    var selected := FindSelectorName(page.selectorTexts);
    if selected.Some? {
      return CleanName(removals, selected.value);
    }
    var heading := FindHeadingName(page.headings);
    if heading.Some? {
      return CleanName(removals, heading.value);
    }
    return "";
  }

  /** The selector loop of `extractHotelName`, returning at the first text
      longer than three characters. */
  method FindSelectorName(texts: seq<Option<string>>) returns (r: Option<string>)
    ensures r == SelectorName(texts)
  {
    var i := 0;
    while i < |texts|
      invariant 0 <= i <= |texts|
      invariant SelectorName(texts[i..]) == SelectorName(texts)
    {
      assert texts[i..][1..] == texts[i + 1..];
      var text := texts[i];
      if text.Some? && text.value != [] && |text.value| > 3 {
        return Some(text.value);
      }
      i := i + 1;
    }
    return None;
  }

  /** The heading loops of `extractHotelName`: `h1` then `h2`, each tag's
      elements in order, returning at the first keyword text. */
  method FindHeadingName(tags: seq<seq<string>>) returns (r: Option<string>)
    ensures r == HeadingName(tags)
  {
    var t := 0;
    while t < |tags|
      invariant 0 <= t <= |tags|
      invariant HeadingName(tags[t..]) == HeadingName(tags)
    {
      assert tags[t..][1..] == tags[t + 1..];
      var elements := tags[t];
      var k := 0;
      while k < |elements|
        invariant 0 <= k <= |elements|
        invariant FirstKeyword(elements[k..]) == FirstKeyword(elements)
      {
        assert elements[k..][1..] == elements[k + 1..];
        var text := elements[k];
        if KeywordText(text) {
          return Some(text);
        }
        k := k + 1;
      }
      t := t + 1;
    }
    return None;
  }

  /** A name found by the JSON tier decides the result: the selectors and
      headings are not consulted. */
  lemma JsonTierFirst(page: NamePage, other: NamePage, removals: seq<string -> string>)
    requires page.jsonCaptures == other.jsonCaptures
    requires exists i :: 0 <= i < |page.jsonCaptures| && GoodCapture(page.jsonCaptures[i])
    ensures HotelName(page, removals) == HotelName(other, removals)
    ensures HotelName(page, removals) == CleanName(removals, JsonName(page.jsonCaptures).value)
  {
  }

  /** Without a JSON name, a long-enough selector text decides the result
      and the headings are not consulted. */
  lemma SelectorTierSecond(page: NamePage, other: NamePage, removals: seq<string -> string>, i: nat)
    requires forall j :: 0 <= j < |page.jsonCaptures| ==> !GoodCapture(page.jsonCaptures[j])
    requires page.selectorTexts == other.selectorTexts && page.jsonCaptures == other.jsonCaptures
    requires i < |page.selectorTexts| && LongText(page.selectorTexts[i])
    ensures HotelName(page, removals) == HotelName(other, removals)
    ensures exists j :: 0 <= j <= i && LongText(page.selectorTexts[j])
                        && HotelName(page, removals) == CleanName(removals, page.selectorTexts[j].value)
  {
    var texts := page.selectorTexts;
    assert JsonName(page.jsonCaptures).None?;
    var s := SelectorName(texts);
    assert s.Some?;
    var j :| 0 <= j < |texts| && LongText(texts[j]) && s.value == texts[j].value
             && forall k :: 0 <= k < j ==> !LongText(texts[k]);
    assert j <= i;
    assert HotelName(page, removals) == CleanName(removals, texts[j].value);
  }

  /** The result is empty when no capture, no selector text and no heading
      qualifies. */
  lemma NoTierNoName(page: NamePage, removals: seq<string -> string>)
    requires forall j :: 0 <= j < |page.jsonCaptures| ==> !GoodCapture(page.jsonCaptures[j])
    requires forall j :: 0 <= j < |page.selectorTexts| ==> !LongText(page.selectorTexts[j])
    requires forall t, k :: 0 <= t < |page.headings| && 0 <= k < |page.headings[t]|
                            ==> !KeywordText(page.headings[t][k])
    ensures HotelName(page, removals) == ""
  {
  }

  /** The length test of the selector tier looks at the text before
      trimming: surrounding white space counts towards the three
      characters. */
  lemma SelectorLengthUntrimmed(pad: string, t: string)
    requires |pad| + |t| > 3
    ensures SelectorName([Some(pad + t + pad)]) == Some(pad + t + pad)
  {
    assert LongText(Some(pad + t + pad));
  }

  // ---------------------------------------------------------------------
  // extractCity

  /** `parts.map(p => p.trim())`. */
  function TrimAll(parts: seq<string>): (r: seq<string>)
    ensures |r| == |parts|
    ensures forall i :: 0 <= i < |parts| ==> r[i] == Trim(parts[i])
  {
    seq(|parts|, i requires 0 <= i < |parts| => Trim(parts[i]))
  }

  /** `extractCity`. `slug` is the second capture of the
      `hotel/<country>/<slug>` pattern in the page URL, if the URL matches;
      `location` is the text of the location element, if there is one. */
  function City(slug: Option<string>, location: Option<string>): (r: string)
  {
    if slug.Some? then SlugCity(slug.value) else LocationCity(location)
  }

  /** The URL branch: the slug without its page suffix. */
  function SlugCity(slug: string): string {
    ReplaceFirst(ReplaceFirst(slug, ".fr.html", ""), ".com.html", "")
  }

  /** The location branch: the last comma-separated piece, trimmed. */
  function LocationCity(location: Option<string>): string {
    if location.Some? && location.value != [] then
      var parts := TrimAll(Split(location.value, ','));
      if |parts| > 0 then Last(parts) else "Unknown"
    else "Unknown"
  }

  /** The page suffix is dropped from a dot-free slug, whichever of the
      two suffixes it carries. */
  lemma CityFromSlug(b: string, location: Option<string>)
    requires '.' !in b
    ensures City(Some(b + ".fr.html"), location) == b
    ensures City(Some(b + ".com.html"), location) == b
    ensures City(Some(b), location) == b
  {
    FirstOccurrenceAppended(b, ".fr.html");
    assert (b + ".fr.html")[..|b|] == b;
    assert (b + ".fr.html")[|b| + 8..] == [];
    FirstOccurrenceAppended(b, ".com.html");
    assert (b + ".com.html")[..|b|] == b;
    assert (b + ".com.html")[|b| + 9..] == [];
    Absent(b, ".fr.html");
    Absent(b, ".com.html");
    NoFrSuffix(b);
  }

  lemma NoFrSuffix(b: string)
    requires '.' !in b
    ensures !Includes(b + ".com.html", ".fr.html")
  {
    var s := b + ".com.html";
    forall k | 0 <= k <= |s| ensures !OccursAt(s, ".fr.html", k) {
      if k + 8 <= |s| {
        var w := s[k..k + 8];
        if k < |b| {
          assert w[0] == s[k] == b[k] && b[k] in b;
          assert w[0] != ".fr.html"[0];
        } else {
          var j := |b| + 1 - k;
          assert w[j] == s[|b| + 1] == 'c';
          assert w[j] != ".fr.html"[j];
        }
      }
    }
  }

  /** Without a URL match, the city is the trimmed text after the last
      comma of the location text. */
  lemma CityFromLocation(a: string, c: string)
    requires ',' !in c
    ensures City(None, Some(a + [','] + c)) == Trim(c)
  {
    var l := a + [','] + c;
    assert |l| > 0;
    var pieces := Split(l, ',');
    SplitLast(a, c, ',');
    var parts := TrimAll(pieces);
    assert parts[|parts| - 1] == Trim(pieces[|pieces| - 1]);
    assert LocationCity(Some(l)) == Last(parts);
  }

  /** A location text ending in a comma gives an empty city, not
      `'Unknown'`. */
  lemma TrailingCommaEmptyCity(a: string)
    ensures City(None, Some(a + [','])) == ""
  {
    CityFromLocation(a, "");
    assert a + [','] + "" == a + [','];
  }

  /** With neither a URL match nor a location text, the city is
      `'Unknown'`. */
  lemma CityUnknown(location: Option<string>)
    requires location.None? || location.value == []
    ensures City(None, location) == "Unknown"
  {
  }

  // ---------------------------------------------------------------------
  // Date pickers

  datatype Click = MainSelector | Container(index: nat)

  /** `clickDatePicker` of the backend and package scrapers: the main
      selector if it matches, else the second dates container when there
      are at least two, the only one when there is one, nothing otherwise. */
  method ClickDatePicker(mainFound: bool, containers: nat) returns (clicked: Option<Click>)
    ensures mainFound ==> clicked == Some(MainSelector)
    ensures !mainFound && containers >= 2 ==> clicked == Some(Container(1))
    ensures !mainFound && containers == 1 ==> clicked == Some(Container(0))
    ensures clicked.None? <==> !mainFound && containers == 0
    ensures clicked.Some? && clicked.value.Container? ==> clicked.value.index < containers
  {
    var done := false;
    clicked := None;
    if mainFound {
      clicked := Some(MainSelector);
      done := true;
    }
    if !done {
      if containers >= 2 {
        clicked := Some(Container(1));
        done := true;
      } else if containers == 1 {
        clicked := Some(Container(0));
        done := true;
      }
    }
  }

  /** The ranked date-selector search of the Playwright and Puppeteer
      scrapers: the first selector that matches is clicked and the search
      stops. `present[i]` says whether selector `i` matches. */
  method FindDateSelector(present: seq<bool>) returns (found: bool, index: nat)
    ensures found <==> exists i :: 0 <= i < |present| && present[i]
    ensures found ==> index < |present| && present[index]
                      && forall j :: 0 <= j < index ==> !present[j]
  {
    found := false;
    index := 0;
    var i := 0;
    while i < |present|
      invariant 0 <= i <= |present|
      invariant forall j :: 0 <= j < i ==> !present[j]
    {
      if present[i] {
        found := true;
        index := i;
        break;
      }
      i := i + 1;
    }
  }

  // ---------------------------------------------------------------------
  // The details record of the Playwright and Puppeteer scrapers

  /** The first non-empty trimmed text among the ranked selectors; a
      selector without an element is skipped, and `""` is the default. */
  function FirstText(texts: seq<Option<string>>): (r: string)
    ensures r == [] <==> forall i :: 0 <= i < |texts| && texts[i].Some? ==> Trim(texts[i].value) == []
    ensures r != [] ==> exists i :: 0 <= i < |texts| && texts[i].Some? && r == Trim(texts[i].value)
  {
    if texts == [] then []
    else if texts[0].Some? && Trim(texts[0].value) != [] then Trim(texts[0].value)
    else
      assert forall i :: 1 <= i < |texts| ==> texts[i] == texts[1..][i - 1];
      FirstText(texts[1..])
  }

  /** The first capture of the ranked selectors' number patterns. */
  function FirstCapture(captures: seq<Option<string>>): (r: Option<string>)
    ensures r.Some? ==> r in captures
    ensures r.None? <==> forall i :: 0 <= i < |captures| ==> captures[i].None?
  {
    if captures == [] then None
    else if captures[0].Some? then captures[0]
    else
      assert forall i :: 1 <= i < |captures| ==> captures[i] == captures[1..][i - 1];
      FirstCapture(captures[1..])
  }

  /** What the details code sees of a page: the element texts of the name
      and address selectors, and the first captures of the rating and
      review-count patterns in the texts of their selectors. */
  datatype DetailsPage = DetailsPage(nameTexts: seq<Option<string>>,
                                     addressTexts: seq<Option<string>>,
                                     ratingCaptures: seq<Option<string>>,
                                     reviewCaptures: seq<Option<string>>)

  datatype Details = Details(name: string, url: string, address: Option<string>,
                             rating: Option<real>, reviewCount: Option<int>)

  /** `x || undefined` on a number: zero and NaN become undefined. */
  function NonZero<T(==)>(x: Option<T>, zero: T): (r: Option<T>)
    ensures r.Some? <==> x.Some? && x.value != zero
    ensures r.Some? ==> r == x
  {
    if x.Some? && x.value != zero then x else None
  }

  /** `extractHotelDetailsWith{Playwright,Puppeteer}`. `page` is `None` when
      the page could not be loaded or read, which the source catches and
      answers with the bare default record, whose name is not cleaned. */
  function BrowserDetails(page: Option<DetailsPage>, url: string, removals: seq<string -> string>): (r: Details)
    ensures r.url == url
    ensures page.None? ==> r == Details("Unknown Hotel", url, None, None, None)
  {
    match page
    case None => Details("Unknown Hotel", url, None, None, None)
    case Some(p) =>
      var name := FirstText(p.nameTexts);
      var address := FirstText(p.addressTexts);
      Details(CleanName(removals, if name == [] then "Unknown Hotel" else name), url,
              if address == [] then None else Some(address),
              NonZero(RatingRead(p.ratingCaptures), 0.0), NonZero(ReviewsRead(p.reviewCaptures), 0))
  }

  /** `parseFloat` of the rating capture, with 0 when no selector matched. */
  function RatingRead(captures: seq<Option<string>>): Option<real> {
    match FirstCapture(captures)
    case None => Some(0.0)
    case Some(c) => ParseFloat(c)
  }

  /** `parseInt` of the review-count capture, with 0 when no selector
      matched. */
  function ReviewsRead(captures: seq<Option<string>>): Option<int> {
    match FirstCapture(captures)
    case None => Some(0)
    case Some(c) => ParseInt(c, 10)
  }

  /** No non-empty name text gives the default name, which is still passed
      through the cleaning. */
  lemma UnknownHotelDefault(p: DetailsPage, url: string, removals: seq<string -> string>)
    requires forall i :: 0 <= i < |p.nameTexts| && p.nameTexts[i].Some? ==> Trim(p.nameTexts[i].value) == []
    ensures BrowserDetails(Some(p), url, removals).name == CleanName(removals, "Unknown Hotel")
  {
  }

  /** A found name is the cleaned trimmed text of one of the selectors. */
  lemma DetailsNameFromSelector(p: DetailsPage, url: string, removals: seq<string -> string>)
    requires exists i :: 0 <= i < |p.nameTexts| && p.nameTexts[i].Some? && Trim(p.nameTexts[i].value) != []
    ensures exists i :: 0 <= i < |p.nameTexts| && p.nameTexts[i].Some?
                        && BrowserDetails(Some(p), url, removals).name == CleanName(removals, Trim(p.nameTexts[i].value))
  {
  }

  /** A rating or review count of zero, or no match at all, is dropped. */
  lemma ZeroCountsDropped(p: DetailsPage, url: string, removals: seq<string -> string>)
    requires forall i :: 0 <= i < |p.ratingCaptures| ==> p.ratingCaptures[i].None? || p.ratingCaptures[i] == Some("0")
    requires forall i :: 0 <= i < |p.reviewCaptures| ==> p.reviewCaptures[i].None?
    ensures BrowserDetails(Some(p), url, removals).rating.None?
    ensures BrowserDetails(Some(p), url, removals).reviewCount.None?
  {
    ZeroRatingRead(p.ratingCaptures);
    NoReviewsRead(p.reviewCaptures);
  }

  /** Captures that are all missing or "0" read as a zero rating. */
  lemma ZeroRatingRead(captures: seq<Option<string>>)
    requires forall i :: 0 <= i < |captures| ==> captures[i].None? || captures[i] == Some("0")
    ensures RatingRead(captures) == Some(0.0)
  {
    var c := FirstCapture(captures);
    if c.Some? {
      assert c in captures;
      ZeroParses(c.value);
    }
  }

  /** "0" reads as the number 0. */
  lemma ZeroParses(z: string)
    requires z == "0"
    ensures ParseFloat(z) == Some(0.0)
  {
    assert AllDigits(z);
    assert DigitsValue(z, 10) == 0 by {
      assert z[..0] == [];
    }
    assert ParseFloat(z + "") == Some(DigitsValue(z, 10) as real) by {
      ParseFloatDigits(z, "");
    }
    assert z + "" == z;
  }

  /** No review-count capture reads as a zero count. */
  lemma NoReviewsRead(captures: seq<Option<string>>)
    requires forall i :: 0 <= i < |captures| ==> captures[i].None?
    ensures ReviewsRead(captures) == Some(0)
  {
    assert FirstCapture(captures).None?;
  }
}
