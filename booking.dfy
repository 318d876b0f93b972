/** `scrapeBooking(url)`: a one-shot reader of a Booking.com hotel page.
    Every field is read through a chain of fallbacks, each tried only when
    the ones before it gave nothing (an empty string, a falsy count, an
    empty list). The parsed page is abstract: for each selector, the text
    or attribute the chain reads from it, and for the two review patterns
    the text their first group captured. */
module Booking {

  import opened Wrappers
  import opened Text
  import opened Numbers

  const NotBooking := "URL must be a Booking.com hotel page"

  /** The en dash the page title is cut at. */
  const EnDash: char := '\U{2013}'

  /** What the chains read. `first().text()` of a selector that matches
      nothing is the empty string. `reviewBlock` is `None` when the
      review-score component is missing, else what the digits-and-spaces
      pattern captured in it; `bodyReviews` is what the "N reviews"
      pattern captured in the body text. `addressWrapper` is the direct
      text of the nested address element, when the wrapper exists.
      `facilityIcons` is `None` when the property section is missing, else
      for each facility icon the texts of the children of the `div` that
      follows it (`None` when no `div` follows). Image sources are `None`
      when the element has no `src`. */
  datatype BookingPage = BookingPage(
    titleHeading: string, nameHeading: string, titleTag: string,
    ratingBadge: string, plainBadge: string, ratingSecondChild: string,
    reviewBlock: Option<Option<string>>, bodyReviews: Option<string>,
    addressWrapper: Option<string>, addressSpan: string, addressSubtitle: string, addressLink: string,
    starSpans: nat, starLabel: Option<string>,
    facilityIcons: Option<seq<Option<seq<string>>>>, groupItems: seq<string>, listItems: seq<string>,
    gallery: seq<Option<string>>, anyImages: seq<Option<string>>,
    atlasBbox: Option<string>)

  /** A JavaScript count: `null`, `NaN` or an integer. */
  datatype Count = Null | NaN | Int(n: int)

  predicate TruthyCount(c: Count) { c.Int? && c.n != 0 }

  function CountOf(o: Option<int>): (c: Count)
    ensures c.Int? <==> o.Some?
    ensures o.Some? ==> c.n == o.value
  {
    if o.Some? then Int(o.value) else NaN
  }

  datatype BookingHotel = BookingHotel(
    name: string, address: string, city: string, userRating: string, reviewCount: Count,
    starRating: nat, amenities: seq<string>, images: seq<string>, atlasBbox: Option<string>)

  // ---------------------------------------------------------------------
  // Text fallbacks

  /** `a || b` on strings: `b` only when `a` is empty. */
  function OrElse(a: string, b: string): (r: string)
    ensures r == a || r == b
    ensures r == [] <==> a == [] && b == []
  {
    if a != [] then a else b
  }

  /** The hotel name: the title heading, the name heading, then the page
      title up to its first en dash. */
  function NameOf(page: BookingPage): string {
    OrElse(OrElse(Trim(page.titleHeading), Trim(page.nameHeading)), Trim(Split(page.titleTag, EnDash)[0]))
  }

  /** The user rating: the rating badge, the plain badge, then the
      second child of the rating component. */
  function UserRatingOf(page: BookingPage): string {
    OrElse(OrElse(Trim(page.ratingBadge), Trim(page.plainBadge)), Trim(page.ratingSecondChild))
  }

  /** The address: the nested wrapper text, the address span, the
      subtitle, then the map link. */
  function AddressOf(page: BookingPage): string {
    OrElse(OrElse(OrElse(WrapperText(page), Trim(page.addressSpan)), Trim(page.addressSubtitle)), Trim(page.addressLink))
  }

  /** The trimmed text of the nested address element; empty when the
      wrapper is missing. */
  function WrapperText(page: BookingPage): string {
    if page.addressWrapper.Some? then Trim(page.addressWrapper.value) else ""
  }

  /** `r` is what a chain of `||` over `cands` gives: empty exactly when
      every candidate is, and otherwise the first non-empty candidate. */
  ghost predicate FirstFilled(cands: seq<string>, r: string) {
    && (r == [] <==> forall i :: 0 <= i < |cands| ==> cands[i] == [])
    && (r != [] ==> exists i :: 0 <= i < |cands| && r == cands[i]
                               && forall j :: 0 <= j < i ==> cands[j] == [])
  }

  lemma {:induction false} ChainOfTwo(a: string, b: string)
    ensures FirstFilled([a, b], OrElse(a, b))
  {
    var cands := [a, b];
    if a != [] {
      assert cands[0] == a;
    } else if b != [] {
      assert cands[1] == b && cands[0] == [];
    } else {
      assert forall i :: 0 <= i < |cands| ==> cands[i] == [];
    }
  }

  /** One more `||` after a chain: the chain's result when it is
      non-empty, else the new candidate. */
  lemma {:induction false} ChainExtended(cands: seq<string>, r: string, c: string)
    requires FirstFilled(cands, r)
    ensures FirstFilled(cands + [c], OrElse(r, c))
  {
    var ext := cands + [c];
    assert forall i :: 0 <= i < |cands| ==> ext[i] == cands[i];
    if r != [] {
      var i :| 0 <= i < |cands| && r == cands[i] && forall j :: 0 <= j < i ==> cands[j] == [];
      assert ext[i] == r;
      assert !(forall k :: 0 <= k < |ext| ==> ext[k] == []);
    } else if c != [] {
      assert ext[|cands|] == c;
      assert !(forall k :: 0 <= k < |ext| ==> ext[k] == []);
    } else {
      assert forall k :: 0 <= k < |ext| ==> ext[k] == [];
    }
  }

  lemma ChainOfThree(a: string, b: string, c: string)
    ensures FirstFilled([a, b, c], OrElse(OrElse(a, b), c))
  {
    ChainOfTwo(a, b);
    ChainExtended([a, b], OrElse(a, b), c);
    assert [a, b] + [c] == [a, b, c];
  }

  lemma ChainOfFour(a: string, b: string, c: string, d: string)
    ensures FirstFilled([a, b, c, d], OrElse(OrElse(OrElse(a, b), c), d))
  {
    ChainOfThree(a, b, c);
    ChainExtended([a, b, c], OrElse(OrElse(a, b), c), d);
    assert [a, b, c] + [d] == [a, b, c, d];
  }

  /** The name is the first non-empty of its three readings. */
  lemma NameTiers(page: BookingPage)
    ensures FirstFilled([Trim(page.titleHeading), Trim(page.nameHeading), Trim(Split(page.titleTag, EnDash)[0])],
                        NameOf(page))
  {
    ChainOfThree(Trim(page.titleHeading), Trim(page.nameHeading), Trim(Split(page.titleTag, EnDash)[0]));
  }

  /** The user rating is the first non-empty of its three readings. */
  lemma UserRatingTiers(page: BookingPage)
    ensures FirstFilled([Trim(page.ratingBadge), Trim(page.plainBadge), Trim(page.ratingSecondChild)],
                        UserRatingOf(page))
  {
    ChainOfThree(Trim(page.ratingBadge), Trim(page.plainBadge), Trim(page.ratingSecondChild));
  }

  /** The address is the first non-empty of its four readings; a missing
      wrapper reads as empty. */
  lemma AddressTiers(page: BookingPage)
    ensures FirstFilled([WrapperText(page), Trim(page.addressSpan), Trim(page.addressSubtitle), Trim(page.addressLink)],
                        AddressOf(page))
  {
    ChainOfFour(WrapperText(page), Trim(page.addressSpan), Trim(page.addressSubtitle), Trim(page.addressLink));
  }

  // ---------------------------------------------------------------------
  // Review count

  /** The count read from the review component: the capture with every
      white-space character removed, read as a decimal integer. */
  function PrimaryReviews(page: BookingPage): Count {
    match page.reviewBlock
    case Some(Some(capture)) =>
      if capture != [] then CountOf(ParseInt(RemoveWhere(capture, IsSpace), 10)) else Null
    case _ => Null
  }

  function IsComma(c: char): bool { c == ',' }

  /** The review count: the body-text fallback (commas removed) is read
      only when the first reading is falsy, and replaces it only when its
      pattern matched. */
  function ReviewCountOf(page: BookingPage): (c: Count)
    ensures TruthyCount(PrimaryReviews(page)) ==> c == PrimaryReviews(page)
    ensures !TruthyCount(PrimaryReviews(page)) && page.bodyReviews.Some? && page.bodyReviews.value != [] ==>
              c == CountOf(ParseInt(RemoveWhere(page.bodyReviews.value, IsComma), 10))
    ensures !TruthyCount(PrimaryReviews(page)) && (page.bodyReviews.None? || page.bodyReviews.value == []) ==>
              c == PrimaryReviews(page)
  {
    var primary := PrimaryReviews(page);
    if TruthyCount(primary) then primary
    else match page.bodyReviews
      case Some(capture) =>
        if capture != [] then CountOf(ParseInt(RemoveWhere(capture, IsComma), 10)) else primary
      case None => primary
  }

  // ---------------------------------------------------------------------
  // City

  /** The characters of `[A-Za-zÀ-ÿ\-\s]`. */
  predicate CityChar(c: char) {
    ('A' <= c <= 'Z') || ('a' <= c <= 'z') || ('\U{C0}' <= c <= '\U{FF}') || c == '-' || IsSpace(c)
  }

  /** Length of the longest prefix of `s` whose characters satisfy `p`. */
  function Run(s: string, p: char -> bool): (n: nat)
    ensures n <= |s|
    ensures forall i :: 0 <= i < n ==> p(s[i])
    ensures n < |s| ==> !p(s[n])
  {
    if s != [] && p(s[0]) then 1 + Run(s[1..], p) else 0
  }

  /** The second group of `/([0-9]{5})\s*([A-Za-zÀ-ÿ\-\s]+)/` for a match
      starting at `i`. After the five digits `\s*` takes every white-space
      character; if a letter follows, the group is the run of city
      characters from there; otherwise `\s*` gives its last character back
      to the group, which is then that one character. */
  function MatchAt(s: string, i: nat): (g: Option<string>)
    requires i <= |s|
    ensures g.Some? ==> g.value != []
  {
    if i + 5 > |s| || !AllDigits(s[i..i + 5]) then None
    else
      var rest := s[i + 5..];
      var w := Run(rest, IsSpace);
      if w < |rest| && CityChar(rest[w]) then Some(rest[w..w + Run(rest[w..], CityChar)])
      else if w > 0 then Some(rest[w - 1..w])
      else None
  }

  /** The leftmost match at or after `i`. */
  function PostcodeCity(s: string, i: nat): (g: Option<string>)
    requires i <= |s|
    decreases |s| - i
  {
    if i + 5 > |s| then None
    else if MatchAt(s, i).Some? then MatchAt(s, i)
    else PostcodeCity(s, i + 1)
  }

  /** The city: the words after a five-digit postcode; else, for an
      address with a comma, its last comma-separated piece; else ''. */
  function CityOf(address: string): (city: string)
    ensures address == [] ==> city == []
    ensures city == [] || (!IsSpace(city[0]) && !IsSpace(city[|city| - 1]))
  {
    if address == [] then []
    else match PostcodeCity(address, 0)
      case Some(g) => Trim(g)
      case None =>
        var parts := Split(address, ',');
        if |parts| > 1 then Trim(Last(parts)) else []
  }

  // ---------------------------------------------------------------------
  // Star rating

  /** The first decimal digit of `s`, as a number (`/([0-9])/`). */
  function FirstDigit(s: string): (d: Option<nat>)
    ensures d.Some? ==> d.value < 10
    ensures d.None? <==> forall i :: 0 <= i < |s| ==> !IsDigit(s[i])
  {
    if s == [] then None
    else if IsDigit(s[0]) then Some(s[0] as int - '0' as int)
    else FirstDigit(s[1..])
  }

  /** The number of star spans; when there are none, the first digit of the
      star label; otherwise 0. */
  function StarsOf(page: BookingPage): (stars: nat)
    ensures page.starSpans != 0 ==> stars == page.starSpans
    ensures page.starSpans == 0 ==> stars < 10
  {
    if page.starSpans != 0 then page.starSpans
    else match page.starLabel
      case Some(text) =>
        if text != [] && FirstDigit(text).Some? then FirstDigit(text).value else 0
      case None => 0
  }

  // ---------------------------------------------------------------------
  // Amenities and images

  /** `const text = $(el).text().trim(); if (text) push(text)`. */
  function Keep(t: string): seq<string> {
    if Trim(t) != [] then [Trim(t)] else []
  }

  /** The non-empty trimmed texts of `texts`, in order. */
  function Filled(texts: seq<string>): seq<string> {
    if texts == [] then [] else Filled(texts[..|texts| - 1]) + Keep(texts[|texts| - 1])
  }

  /** What the facility icons yield: the children texts of the `div` after
      each icon. */
  function IconAmenities(icons: seq<Option<seq<string>>>): seq<string> {
    if icons == [] then []
    else
      var last := icons[|icons| - 1];
      IconAmenities(icons[..|icons| - 1]) + (if last.Some? then Filled(last.value) else [])
  }

  function SectionAmenities(page: BookingPage): seq<string> {
    if page.facilityIcons.Some? then IconAmenities(page.facilityIcons.value) else []
  }

  /** The amenities of the first tier that yields any. */
  function AmenitiesOf(page: BookingPage): seq<string> {
    var section := SectionAmenities(page);
    if section != [] then section
    else if Filled(page.groupItems) != [] then Filled(page.groupItems)
    else Filled(page.listItems)
  }

  /** The sources pushed by `if (src && images.length < 5)`. */
  function FirstFive(srcs: seq<Option<string>>): (r: seq<string>)
    ensures |r| <= 5
    ensures [] !in r
  {
    if srcs == [] then []
    else
      var before := FirstFive(srcs[..|srcs| - 1]);
      var src := srcs[|srcs| - 1];
      if src.Some? && src.value != [] && |before| < 5 then before + [src.value] else before
  }

  /** Every non-empty source, in order. */
  function Sources(srcs: seq<Option<string>>): seq<string> {
    if srcs == [] then []
    else
      var src := srcs[|srcs| - 1];
      Sources(srcs[..|srcs| - 1]) + (if src.Some? && src.value != [] then [src.value] else [])
  }

  /** Gallery images; any image only when the gallery gave none. */
  function ImagesOf(page: BookingPage): (r: seq<string>)
    ensures |r| <= 5
  {
    if FirstFive(page.gallery) != [] then FirstFive(page.gallery) else FirstFive(page.anyImages)
  }

  /** `attr('data-atlas-bbox') || null`. */
  function AtlasOf(page: BookingPage): (r: Option<string>)
    ensures r.Some? <==> page.atlasBbox.Some? && page.atlasBbox.value != []
  {
    if page.atlasBbox.Some? && page.atlasBbox.value != [] then page.atlasBbox else None
  }

  /** The record `scrapeBooking` returns for a page. */
  function BookingOf(page: BookingPage): BookingHotel {
    BookingHotel(NameOf(page), AddressOf(page), CityOf(AddressOf(page)), UserRatingOf(page),
                 ReviewCountOf(page), StarsOf(page), AmenitiesOf(page), ImagesOf(page), AtlasOf(page))
  }

  // ---------------------------------------------------------------------
  // The scraper

  /** Trimmed non-empty texts pushed one by one. */
  method PushTexts(amenities: seq<string>, texts: seq<string>) returns (r: seq<string>)
    ensures r == amenities + Filled(texts)
  {
    r := amenities;
    for i := 0 to |texts|
      invariant r == amenities + Filled(texts[..i])
    {
      FilledStep(texts, i);
      ghost var before := r;
      var text := Trim(texts[i]);
      if text != [] {
        r := r + [text];
      }
      assert r == before + Keep(texts[i]);
      AppendAssoc(amenities, Filled(texts[..i]), Keep(texts[i]));
    }
    assert texts[..|texts|] == texts;
  }

  /** `each` over image elements, pushing a source while fewer than five
      are kept. */
  method PushImages(srcs: seq<Option<string>>) returns (images: seq<string>)
    ensures images == FirstFive(srcs)
  {
    images := [];
    for i := 0 to |srcs|
      invariant images == FirstFive(srcs[..i])
    {
      assert srcs[..i + 1][..i] == srcs[..i];
      var src := srcs[i];
      if src.Some? && src.value != [] && |images| < 5 {
        images := images + [src.value];
      }
    }
    assert srcs[..|srcs|] == srcs;
  }

  /** `let name = ...; if (!name) name = ...`: the name chain. */
  method ReadName(page: BookingPage) returns (name: string)
    ensures name == NameOf(page)
  {
    name := Trim(page.titleHeading);
    if name == [] { name := Trim(page.nameHeading); }
    if name == [] { name := Trim(Split(page.titleTag, EnDash)[0]); }
  }

  method ReadUserRating(page: BookingPage) returns (rating: string)
    ensures rating == UserRatingOf(page)
  {
    rating := Trim(page.ratingBadge);
    if rating == [] { rating := Trim(page.plainBadge); }
    if rating == [] { rating := Trim(page.ratingSecondChild); }
  }

  method ReadReviewCount(page: BookingPage) returns (reviewCount: Count)
    ensures reviewCount == ReviewCountOf(page)
  {
    reviewCount := Null;
    if page.reviewBlock.Some? {
      var capture := page.reviewBlock.value;
      if capture.Some? && capture.value != [] {
        reviewCount := CountOf(ParseInt(RemoveWhere(capture.value, IsSpace), 10));
      }
    }
    if !TruthyCount(reviewCount) {
      if page.bodyReviews.Some? && page.bodyReviews.value != [] {
        reviewCount := CountOf(ParseInt(RemoveWhere(page.bodyReviews.value, IsComma), 10));
      }
    }
  }

  method ReadAddress(page: BookingPage) returns (address: string)
    ensures address == AddressOf(page)
  {
    address := "";
    if page.addressWrapper.Some? {
      address := Trim(page.addressWrapper.value);
    }
    if address == [] { address := Trim(page.addressSpan); }
    if address == [] { address := Trim(page.addressSubtitle); }
    if address == [] { address := Trim(page.addressLink); }
  }

  method ReadCity(address: string) returns (city: string)
    ensures city == CityOf(address)
  {
    city := "";
    if address != [] {
      var found := PostcodeCity(address, 0);
      if found.Some? {
        city := Trim(found.value);
      } else {
        var parts := Split(address, ',');
        if |parts| > 1 {
          city := Trim(parts[|parts| - 1]);
        }
      }
    }
  }

  method ReadStars(page: BookingPage) returns (starRating: nat)
    ensures starRating == StarsOf(page)
  {
    starRating := page.starSpans;
    if starRating == 0 {
      if page.starLabel.Some? && page.starLabel.value != [] {
        var digit := FirstDigit(page.starLabel.value);
        if digit.Some? { starRating := digit.value; }
      }
    }
  }

  /** The loop over the facility icons of the property section. */
  method ReadIconAmenities(icons: seq<Option<seq<string>>>) returns (amenities: seq<string>)
    ensures amenities == IconAmenities(icons)
  {
    amenities := [];
    for i := 0 to |icons|
      invariant amenities == IconAmenities(icons[..i])
    {
      assert icons[..i + 1][..i] == icons[..i];
      if icons[i].Some? {
        amenities := PushTexts(amenities, icons[i].value);
      }
    }
    assert icons[..|icons|] == icons;
  }

  method ReadAmenities(page: BookingPage) returns (amenities: seq<string>)
    ensures amenities == AmenitiesOf(page)
  {
    amenities := [];
    if page.facilityIcons.Some? {
      amenities := ReadIconAmenities(page.facilityIcons.value);
    }
    assert amenities == SectionAmenities(page);
    if |amenities| == 0 {
      amenities := PushTexts(amenities, page.groupItems);
      assert amenities == Filled(page.groupItems) by {
        assert [] + Filled(page.groupItems) == Filled(page.groupItems);
      }
    }
    if |amenities| == 0 {
      amenities := PushTexts(amenities, page.listItems);
      assert amenities == Filled(page.listItems) by {
        assert [] + Filled(page.listItems) == Filled(page.listItems);
      }
    }
  }

  method ReadImages(page: BookingPage) returns (images: seq<string>)
    ensures images == ImagesOf(page)
  {
    images := PushImages(page.gallery);
    if |images| == 0 {
      images := PushImages(page.anyImages);
    }
  }

  /** `scrapeBooking(url)` on the page the fetch returned. */
  method ScrapeBooking(url: string, page: BookingPage) returns (r: Result<BookingHotel>)
    ensures r.Failure? <==> !Includes(url, "booking.com")
    ensures r.Failure? ==> r.error == NotBooking
    ensures r.Success? ==> r.value == BookingOf(page)
  {
    if !Includes(url, "booking.com") {
      return Failure(NotBooking);
    }
    var name := ReadName(page);
    var userRating := ReadUserRating(page);
    var reviewCount := ReadReviewCount(page);
    var address := ReadAddress(page);
    var city := ReadCity(address);
    var starRating := ReadStars(page);
    var amenities := ReadAmenities(page);
    var images := ReadImages(page);
    var atlas := if page.atlasBbox.Some? && page.atlasBbox.value != [] then page.atlasBbox else None;
    return Success(BookingHotel(name, address, city, userRating, reviewCount, starRating, amenities, images, atlas));
  }

  // ---------------------------------------------------------------------
  // Properties

  lemma FilledStep(texts: seq<string>, i: nat)
    requires i < |texts|
    ensures Filled(texts[..i + 1]) == Filled(texts[..i]) + Keep(texts[i])
  {
    assert texts[..i + 1][..i] == texts[..i];
  }

  lemma AppendAssoc<T>(a: seq<T>, b: seq<T>, c: seq<T>)
    ensures a + (b + c) == (a + b) + c
  {
  }

  lemma {:induction false} FilledNonEmpty(texts: seq<string>)
    ensures [] !in Filled(texts)
  {
    if texts != [] {
      FilledNonEmpty(texts[..|texts| - 1]);
    }
  }

  lemma {:induction false} IconAmenitiesNonEmpty(icons: seq<Option<seq<string>>>)
    ensures [] !in IconAmenities(icons)
  {
    if icons != [] {
      IconAmenitiesNonEmpty(icons[..|icons| - 1]);
      var last := icons[|icons| - 1];
      if last.Some? {
        FilledNonEmpty(last.value);
      }
    }
  }

  /** No amenity is an empty string. */
  lemma AmenitiesNonEmpty(page: BookingPage)
    ensures [] !in AmenitiesOf(page)
  {
    if page.facilityIcons.Some? {
      IconAmenitiesNonEmpty(page.facilityIcons.value);
    }
    FilledNonEmpty(page.groupItems);
    FilledNonEmpty(page.listItems);
  }

  /** The first piece of a split is the text before the first separator. */
  lemma {:induction false} SplitFirst(a: string, c: string, sep: char)
    requires sep !in a
    ensures Split(a + [sep] + c, sep)[0] == a
  {
    var s := a + [sep] + c;
    if a != [] {
      assert s[1..] == a[1..] + [sep] + c;
      SplitFirst(a[1..], c, sep);
    }
  }

  /** With both headings empty, the name is the title up to its first en
      dash. */
  lemma NameFromTitle(page: BookingPage, a: string, c: string)
    requires Trim(page.titleHeading) == [] && Trim(page.nameHeading) == []
    requires page.titleTag == a + [EnDash] + c && EnDash !in a
    ensures NameOf(page) == Trim(a)
  {
    SplitFirst(a, c, EnDash);
  }

  /** Removing the commas of two comma-free pieces joined by one comma. */
  lemma CommaRemoved(a: string, b: string)
    requires RemoveWhere(a, IsComma) == a && RemoveWhere(b, IsComma) == b
    ensures RemoveWhere(a + [','] + b, IsComma) == a + b
  {
    var comma: string := [','];
    assert comma[1..] == [];
    assert RemoveWhere(comma, IsComma) == RemoveWhere([], IsComma) == [];
    RemoveWhereAppend(a, comma, IsComma);
    assert RemoveWhere(a + comma, IsComma) == a + [] == a;
    RemoveWhereAppend(a + comma, b, IsComma);
  }

  /** The review fallback reads digit groups separated by a comma as one
      number: "2,227" is 2227. */
  lemma GroupedReviews(page: BookingPage, a: string, b: string)
    requires !TruthyCount(PrimaryReviews(page))
    requires |a| >= 1 && AllDigits(a) && AllDigits(b)
    requires page.bodyReviews == Some(a + [','] + b)
    ensures ReviewCountOf(page) == Int(DigitsValue(a + b, 10))
  {
    RemoveWhereNoop(a, IsComma);
    RemoveWhereNoop(b, IsComma);
    CommaRemoved(a, b);
    ParseIntDigits(a + b);
  }

  /** A zero read from the review component is falsy: the body text is
      read instead. */
  lemma ZeroReviewsFallBack(page: BookingPage, a: string, b: string)
    requires page.reviewBlock == Some(Some("0"))
    requires |a| >= 1 && AllDigits(a) && AllDigits(b)
    requires page.bodyReviews == Some(a + [','] + b)
    ensures ReviewCountOf(page) == Int(DigitsValue(a + b, 10))
  {
    ZeroPrimary(page);
    GroupedReviews(page, a, b);
  }

  /** The component's "0" reads as the count zero. */
  lemma ZeroPrimary(page: BookingPage)
    requires page.reviewBlock == Some(Some("0"))
    ensures PrimaryReviews(page) == Int(0)
  {
    var capture := "0";
    assert !IsSpace(capture[0]);
    RemoveWhereNoop(capture, IsSpace);
    ParseIntDigits(capture);
    assert capture[..0] == [];
    assert DigitsValue(capture, 10) == 0;
  }

  /** Positions before the postcode never start a match when the text
      before it has no digit. */
  lemma {:induction false} SkipNoDigits(s: string, n: nat, i: nat)
    requires i <= n <= |s|
    requires forall k :: 0 <= k < n ==> !IsDigit(s[k])
    ensures PostcodeCity(s, i) == PostcodeCity(s, n)
    decreases n - i
  {
    if i < n && i + 5 <= |s| {
      assert !IsDigit(s[i..i + 5][0]);
      SkipNoDigits(s, n, i + 1);
    }
  }

  predicate Letter(c: char) { ('A' <= c <= 'Z') || ('a' <= c <= 'z') }

  /** A word of letters is one run of city characters. */
  lemma {:induction false} RunOfCityWord(name: string, rest: string)
    requires forall k :: 0 <= k < |name| ==> Letter(name[k])
    requires rest == [] || !CityChar(rest[0])
    ensures Run(name + rest, CityChar) == |name|
    decreases |name|
  {
    var s := name + rest;
    if name != [] {
      assert s[0] == name[0] && Letter(name[0]);
      assert s[1..] == name[1..] + rest;
      assert forall k :: 0 <= k < |name[1..]| ==> name[1..][k] == name[k + 1];
      RunOfCityWord(name[1..], rest);
      assert Run(s, CityChar) == 1 + Run(s[1..], CityChar);
    } else {
      assert s == rest;
    }
  }

  lemma TrimWord(name: string)
    requires forall k :: 0 <= k < |name| ==> Letter(name[k])
    ensures Trim(name) == name
  {
    assert TrimStart(name) == name;
  }

  /** A match at the postcode takes one space and then the whole word. */
  lemma MatchAtPostcode(s: string, i: nat, code: string, name: string, after: string)
    requires i <= |s| && s[i..] == code + " " + name + after
    requires |code| == 5 && AllDigits(code)
    requires name != [] && forall k :: 0 <= k < |name| ==> Letter(name[k])
    requires after == [] || !CityChar(after[0])
    ensures MatchAt(s, i) == Some(name)
  {
    assert s[i..i + 5] == s[i..][..5] == code;
    var rest := s[i + 5..];
    assert rest == s[i..][5..] == [' '] + (name + after);
    WordAfterSpace(rest, name, after);
  }

  /** After one space, a word of letters ended by a character that
      cannot continue it is read whole. */
  lemma WordAfterSpace(rest: string, name: string, after: string)
    requires rest == [' '] + (name + after)
    requires name != [] && forall k :: 0 <= k < |name| ==> Letter(name[k])
    requires after == [] || !CityChar(after[0])
    ensures Run(rest, IsSpace) == 1 && CityChar(rest[1])
    ensures rest[1..1 + Run(rest[1..], CityChar)] == name
  {
    assert rest[1..] == name + after;
    assert Run(rest[1..], IsSpace) == 0 by { assert !IsSpace(name[0]); }
    RunOfCityWord(name, after);
    assert CityChar(rest[1]) by { assert rest[1] == name[0] && Letter(name[0]); }
    assert rest[1..1 + |name|] == rest[1..][..|name|] == name;
  }


  /** A five-digit postcode followed by a word gives that word as the city,
      whatever follows it, as long as nothing before the postcode is a
      digit. */
  lemma CityAfterPostcode(before: string, code: string, name: string, after: string)
    requires forall k :: 0 <= k < |before| ==> !IsDigit(before[k])
    requires |code| == 5 && AllDigits(code)
    requires name != [] && forall k :: 0 <= k < |name| ==> Letter(name[k])
    requires after == [] || !CityChar(after[0])
    ensures CityOf(before + code + " " + name + after) == name
  {
    var s := before + code + " " + name + after;
    var i := |before|;
    assert forall k :: 0 <= k < i ==> s[k] == before[k];
    SkipNoDigits(s, i, 0);
    assert s[i..] == code + " " + name + after;
    MatchAtPostcode(s, i, code, name, after);
    assert PostcodeCity(s, 0) == Some(name);
    TrimWord(name);
  }

  /** Without any digit, the city is the last comma-separated piece. */
  lemma CityFromLastPiece(a: string, c: string)
    requires forall k :: 0 <= k < |a| ==> !IsDigit(a[k])
    requires forall k :: 0 <= k < |c| ==> !IsDigit(c[k])
    requires ',' !in c
    ensures CityOf(a + [','] + c) == Trim(c)
  {
    var s := a + [','] + c;
    SkipNoDigits(s, |s|, 0);
    SplitLast(a, c, ',');
  }

  /** An address with neither a digit nor a comma gives no city. */
  lemma NoCityWithoutComma(address: string)
    requires forall k :: 0 <= k < |address| ==> !IsDigit(address[k])
    requires ',' !in address
    ensures CityOf(address) == []
  {
    SkipNoDigits(address, |address|, 0);
    SplitNoSeparator(address, ',');
  }

  /** With no star span, a label's first digit is the rating. */
  lemma StarsFromLabel(page: BookingPage, before: string, d: char, after: string)
    requires page.starSpans == 0 && page.starLabel == Some(before + [d] + after)
    requires forall k :: 0 <= k < |before| ==> !IsDigit(before[k])
    requires IsDigit(d)
    ensures StarsOf(page) == d as int - '0' as int
  {
    FirstDigitAfter(before, d, after);
  }

  lemma {:induction false} FirstDigitAfter(before: string, d: char, after: string)
    requires forall k :: 0 <= k < |before| ==> !IsDigit(before[k])
    requires IsDigit(d)
    ensures FirstDigit(before + [d] + after) == Some(d as int - '0' as int)
  {
    var s := before + [d] + after;
    if before != [] {
      assert s[1..] == before[1..] + [d] + after;
      FirstDigitAfter(before[1..], d, after);
    }
  }

  /** The images kept are the first five non-empty sources, in order. */
  lemma {:induction false} FirstFiveIsPrefix(srcs: seq<Option<string>>)
    ensures var all := Sources(srcs);
            FirstFive(srcs) == all[..if |all| < 5 then |all| else 5]
  {
    if srcs != [] {
      var init := srcs[..|srcs| - 1];
      FirstFiveIsPrefix(init);
      var all := Sources(init);
      var src := srcs[|srcs| - 1];
      if src.Some? && src.value != [] {
        var all' := all + [src.value];
        assert Sources(srcs) == all';
        if |all| < 5 {
          assert all'[..|all'|] == all';
          assert all[..|all|] == all;
        } else {
          assert all'[..5] == all[..5];
        }
      }
    }
  }

  /** The generic images are read only when the gallery gave none. */
  lemma GalleryFirst(page: BookingPage)
    ensures Sources(page.gallery) != [] ==> ImagesOf(page) == FirstFive(page.gallery)
    ensures Sources(page.gallery) == [] ==> ImagesOf(page) == FirstFive(page.anyImages)
  {
    FirstFiveIsPrefix(page.gallery);
  }

  /** Each amenity tier is read only when the tiers before it gave
      nothing. */
  lemma AmenityTiers(page: BookingPage)
    ensures SectionAmenities(page) != [] ==> AmenitiesOf(page) == SectionAmenities(page)
    ensures SectionAmenities(page) == [] && Filled(page.groupItems) != [] ==> AmenitiesOf(page) == Filled(page.groupItems)
    ensures SectionAmenities(page) == [] && Filled(page.groupItems) == [] ==> AmenitiesOf(page) == Filled(page.listItems)
  {
  }
}
