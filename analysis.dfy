/** The two competitive-analysis pages of the dashboard. Both prepare the
    hotels for the price chart (a colour from a nine-colour palette by
    position, and a date-ordered price list), collect the distinct dates of
    all hotels for the range slider, turn the slider positions into a start
    and an end date, and keep the chart points and date markers inside that
    range. The page `AnalyseConcurrentiellePage` first keeps, for each day,
    the latest scraped price only (`getLatestPricePerDay`); the page
    `AnalyseConcurentiellePage` sorts the prices as they come.

    Dates and timestamps are ISO 8601 texts: `new Date(...)` comparisons are
    modelled as comparisons of the texts, and a `Date` as the text it was
    built from. */
module Analysis {

  import opened Wrappers
  import opened Text
  import opened Sorting

  // ---------------------------------------------------------------------
  // Helpers on sequences

  predicate NoDup<T(==)>(s: seq<T>) {
    forall i, j :: 0 <= i < j < |s| ==> s[i] != s[j]
  }

  /** `s.filter(keep)`. */
  function Filter<T(==,!new)>(s: seq<T>, keep: T -> bool): (r: seq<T>)
    ensures |r| <= |s|
  {
    if s == [] then []
    else
      var init := s[..|s| - 1];
      Filter(init, keep) + (if keep(s[|s| - 1]) then [s[|s| - 1]] else [])
  }

  /** The filter keeps exactly the elements `keep` accepts. */
  lemma {:induction false} FilterMembers<T(!new)>(s: seq<T>, keep: T -> bool)
    ensures forall x :: x in Filter(s, keep) <==> x in s && keep(x)
  {
    if s != [] {
      var init := s[..|s| - 1];
      FilterMembers(init, keep);
      assert s == init + [s[|s| - 1]];
    }
  }

  /** A filter that rejects nothing returns its input. */
  lemma {:induction false} FilterAll<T(!new)>(s: seq<T>, keep: T -> bool)
    requires forall i :: 0 <= i < |s| ==> keep(s[i])
    ensures Filter(s, keep) == s
  {
    if s != [] {
      var init := s[..|s| - 1];
      FilterAll(init, keep);
      assert s == init + [s[|s| - 1]];
    }
  }

  /** A sequence without repetitions holds each value at most once. */
  lemma {:induction false} NoDupCounts<T>(s: seq<T>)
    requires NoDup(s)
    ensures forall x :: multiset(s)[x] <= 1
  {
    if s != [] {
      var init := s[..|s| - 1];
      var last := s[|s| - 1];
      assert NoDup(init) by {
        forall i, j | 0 <= i < j < |init| ensures init[i] != init[j] {
          assert init[i] == s[i] && init[j] == s[j];
        }
      }
      NoDupCounts(init);
      assert s == init + [last];
      assert last !in init by {
        forall i | 0 <= i < |init| ensures init[i] != last {
          assert init[i] == s[i];
        }
      }
    }
  }

  /** A sequence holding each value at most once has no repetitions. */
  lemma CountsNoDup<T>(s: seq<T>)
    requires forall x :: multiset(s)[x] <= 1
    ensures NoDup(s)
  {
    forall i, j | 0 <= i < j < |s| ensures s[i] != s[j] {
      assert s == s[..j] + [s[j]] + s[j + 1..];
      assert s[..j][i] == s[i];
      assert multiset(s)[s[j]] >= multiset(s[..j])[s[j]] + 1;
    }
  }

  /** Sorting keeps a sequence free of repetitions. */
  lemma SortKeepsNoDup<T>(s: seq<T>, key: T -> string)
    requires NoDup(s)
    ensures NoDup(SortBy(s, key))
  {
    SortByCorrect(s, key);
    NoDupCounts(s);
    CountsNoDup(SortBy(s, key));
  }

  // ---------------------------------------------------------------------
  // Prices of a hotel

  /** One daily price as the pages receive it. */
  datatype DailyPrice = DailyPrice(date: string, price: real, scrapedAt: Option<string>)

  /** The sort key of the pages' comparator, `new Date(p.date)`. */
  function DateOf(p: DailyPrice): string { p.date }

  /** `date.slice(0, 10)`, the `YYYY-MM-DD` part. */
  function Day(date: string): (d: string)
    ensures |d| <= 10 && |d| <= |date| && d == date[..|d|]
    ensures |date| >= 10 ==> |d| == 10
  {
    if |date| <= 10 then date else date[..10]
  }

  /** A price whose `scrapedAt` is truthy. */
  predicate Stamped(p: DailyPrice) {
    p.scrapedAt.Some? && p.scrapedAt.value != []
  }

  /** The test under which `price` overwrites the one already kept for its
      day: it has a timestamp and the kept one has none or an earlier one. */
  predicate Replaces(price: DailyPrice, current: DailyPrice) {
    Stamped(price) && (!Stamped(current) || StrLt(current.scrapedAt.value, price.scrapedAt.value))
  }

  /** The `Map` of `getLatestPricePerDay`: its keys in insertion order and
      the price kept for each. */
  datatype ByDay = ByDay(days: seq<string>, chosen: map<string, DailyPrice>)

  ghost predicate Consistent(b: ByDay) {
    NoDup(b.days)
    && (forall d :: d in b.chosen <==> d in b.days)
    && (forall d :: d in b.chosen ==> Day(b.chosen[d].date) == d)
  }

  /** One turn of the loop: a new day is added at the end of the keys; a
      known day gets the new price only when it replaces the kept one. */
  function Record(b: ByDay, price: DailyPrice): (r: ByDay)
    requires Consistent(b)
    ensures Consistent(r)
  {
    var day := Day(price.date);
    if day !in b.chosen then
      assert NoDup(b.days + [day]) by {
        forall i, j | 0 <= i < j < |b.days + [day]| ensures (b.days + [day])[i] != (b.days + [day])[j] {
          if j == |b.days| { assert b.days[i] in b.days; }
        }
      }
      ByDay(b.days + [day], b.chosen[day := price])
    else if Replaces(price, b.chosen[day]) then ByDay(b.days, b.chosen[day := price])
    else b
  }

  /** The map after the loop has seen `prices`. */
  function ByDayOf(prices: seq<DailyPrice>): (b: ByDay)
    ensures Consistent(b)
  {
    if prices == [] then ByDay([], map[])
    else Record(ByDayOf(prices[..|prices| - 1]), prices[|prices| - 1])
  }

  /** `map.values()`, in key order. */
  function ValuesIn(days: seq<string>, chosen: map<string, DailyPrice>): (r: seq<DailyPrice>)
    requires forall d :: d in days ==> d in chosen
    ensures |r| == |days|
    ensures forall i :: 0 <= i < |days| ==> r[i] == chosen[days[i]]
  {
    if days == [] then []
    else ValuesIn(days[..|days| - 1], chosen) + [chosen[days[|days| - 1]]]
  }

  /** What `getLatestPricePerDay` returns: the kept prices sorted by date. */
  function LatestPricePerDay(prices: seq<DailyPrice>): seq<DailyPrice> {
    var b := ByDayOf(prices);
    SortBy(ValuesIn(b.days, b.chosen), DateOf)
  }

  /** `getLatestPricePerDay`: the `Map` is filled in one pass. */
  method GetLatestPricePerDay(prices: seq<DailyPrice>) returns (latest: seq<DailyPrice>)
    ensures latest == LatestPricePerDay(prices)
  {
    var days: seq<string> := [];
    var chosen: map<string, DailyPrice> := map[];
    for i := 0 to |prices|
      invariant ByDay(days, chosen) == ByDayOf(prices[..i])
    {
      var price := prices[i];
      var day := Day(price.date);
      assert prices[..i + 1][..i] == prices[..i];
      if day !in chosen || Replaces(price, chosen[day]) {
        if day !in chosen {
          days := days + [day];
        }
        chosen := chosen[day := price];
      }
    }
    assert prices[..|prices|] == prices;
    latest := SortBy(ValuesIn(days, chosen), DateOf);
  }

  /** The first price of `prices` whose day is `d`. */
  function FirstOfDay(prices: seq<DailyPrice>, d: string): (r: Option<DailyPrice>)
    ensures r.None? <==> forall p :: p in prices ==> Day(p.date) != d
    ensures r.Some? ==> exists k :: 0 <= k < |prices| && prices[k] == r.value && Day(prices[k].date) == d
                                    && forall j :: 0 <= j < k ==> Day(prices[j].date) != d
  {
    if prices == [] then None
    else
      var init := prices[..|prices| - 1];
      var last := prices[|prices| - 1];
      assert prices == init + [last];
      match FirstOfDay(init, d)
      case Some(e) =>
        assert forall k :: 0 <= k < |init| ==> prices[k] == init[k];
        Some(e)
      case None =>
        if Day(last.date) == d then Some(last) else None
  }

  /** What the price `e` kept for day `d` is, among `prices`: one of them,
      of that day; with a timestamp, the latest stamped one; without, the
      first of the day, and then no price of that day has a timestamp. */
  predicate LatestFor(prices: seq<DailyPrice>, d: string, e: DailyPrice) {
    e in prices && Day(e.date) == d
    && (Stamped(e) ==>
          forall p :: p in prices && Day(p.date) == d && Stamped(p) ==> StrLe(p.scrapedAt.value, e.scrapedAt.value))
    && (!Stamped(e) ==>
          FirstOfDay(prices, d) == Some(e) && forall p :: p in prices && Day(p.date) == d ==> !Stamped(p))
  }

  predicate KeepsLatest(prices: seq<DailyPrice>, b: ByDay) {
    (forall d :: d in b.chosen ==> LatestFor(prices, d, b.chosen[d]))
    && (forall p :: p in prices ==> Day(p.date) in b.chosen)
  }

  /** The first price of a day is unchanged by a price that comes later. */
  lemma FirstOfDayLater(init: seq<DailyPrice>, price: DailyPrice, d: string)
    requires FirstOfDay(init, d).Some?
    ensures FirstOfDay(init + [price], d) == FirstOfDay(init, d)
  {
    assert (init + [price])[..|init|] == init;
  }

  /** A price of another day leaves the kept price of `d` the latest. */
  lemma StepOtherDay(init: seq<DailyPrice>, price: DailyPrice, d: string, e: DailyPrice)
    requires LatestFor(init, d, e) && Day(price.date) != d
    ensures LatestFor(init + [price], d, e)
  {
    if !Stamped(e) {
      FirstOfDayLater(init, price, d);
    }
  }

  /** The first price of a new day is the latest of that day. */
  lemma StepNewDay(init: seq<DailyPrice>, price: DailyPrice)
    requires forall q :: q in init ==> Day(q.date) != Day(price.date)
    ensures LatestFor(init + [price], Day(price.date), price)
  {
    var s := init + [price];
    assert s[..|s| - 1] == init;
    if Stamped(price) {
      StrLeRefl(price.scrapedAt.value);
    }
  }

  /** A price that replaces the kept one is the latest of its day. */
  lemma StepReplaced(init: seq<DailyPrice>, price: DailyPrice, current: DailyPrice)
    requires LatestFor(init, Day(price.date), current) && Replaces(price, current)
    ensures LatestFor(init + [price], Day(price.date), price)
  {
    var s := init + [price];
    var d := Day(price.date);
    forall q | q in s && Day(q.date) == d && Stamped(q)
      ensures StrLe(q.scrapedAt.value, price.scrapedAt.value)
    {
      if q == price {
        StrLeRefl(price.scrapedAt.value);
      } else {
        StrLeTrans(q.scrapedAt.value, current.scrapedAt.value, price.scrapedAt.value);
      }
    }
  }

  /** A price that does not replace the kept one leaves it the latest. */
  lemma StepKept(init: seq<DailyPrice>, price: DailyPrice, current: DailyPrice)
    requires LatestFor(init, Day(price.date), current) && !Replaces(price, current)
    ensures LatestFor(init + [price], Day(price.date), current)
  {
    if Stamped(current) && Stamped(price) {
      StrLeTotal(price.scrapedAt.value, current.scrapedAt.value);
    }
    if !Stamped(current) {
      FirstOfDayLater(init, price, Day(price.date));
    }
  }

  /** One more price keeps the kept price of every day the latest. */
  lemma RecordStep(init: seq<DailyPrice>, b: ByDay, price: DailyPrice, d: string)
    requires Consistent(b) && KeepsLatest(init, b)
    requires d in Record(b, price).chosen
    ensures LatestFor(init + [price], d, Record(b, price).chosen[d])
  {
    if d != Day(price.date) {
      StepOtherDay(init, price, d, b.chosen[d]);
    } else if d !in b.chosen {
      StepNewDay(init, price);
    } else if Replaces(price, b.chosen[d]) {
      StepReplaced(init, price, b.chosen[d]);
    } else {
      StepKept(init, price, b.chosen[d]);
    }
  }

  lemma {:induction false} ByDayFacts(prices: seq<DailyPrice>)
    ensures KeepsLatest(prices, ByDayOf(prices))
  {
    if prices != [] {
      var init := prices[..|prices| - 1];
      var price := prices[|prices| - 1];
      assert prices == init + [price];
      ByDayFacts(init);
      forall d | d in ByDayOf(prices).chosen
        ensures LatestFor(prices, d, ByDayOf(prices).chosen[d])
      {
        RecordStep(init, ByDayOf(init), price, d);
      }
    }
  }

  /** The values of a consistent map are the kept prices, one per day, in
      key order. */
  lemma ValuesDays(b: ByDay)
    requires Consistent(b)
    ensures forall i :: 0 <= i < |b.days| ==> Day(ValuesIn(b.days, b.chosen)[i].date) == b.days[i]
    ensures NoDup(ValuesIn(b.days, b.chosen))
  {
    var values := ValuesIn(b.days, b.chosen);
    assert forall i :: 0 <= i < |values| ==> Day(values[i].date) == b.days[i];
  }

  /** Sorting a sequence keeps its elements. */
  lemma SortSameElements(values: seq<DailyPrice>)
    ensures forall e :: e in SortBy(values, DateOf) <==> e in values
  {
    SortByCorrect(values, DateOf);
    forall e ensures e in SortBy(values, DateOf) <==> e in values {
      assert e in SortBy(values, DateOf) <==> e in multiset(SortBy(values, DateOf));
    }
  }

  /** The sorted values of a consistent map: each is the price kept for its
      own day, no two share a day, and every day has one. */
  lemma SortedValues(b: ByDay)
    requires Consistent(b)
    ensures forall e :: e in SortBy(ValuesIn(b.days, b.chosen), DateOf) ==>
              Day(e.date) in b.chosen && b.chosen[Day(e.date)] == e
    ensures forall i, j :: 0 <= i < j < |SortBy(ValuesIn(b.days, b.chosen), DateOf)| ==>
              Day(SortBy(ValuesIn(b.days, b.chosen), DateOf)[i].date) != Day(SortBy(ValuesIn(b.days, b.chosen), DateOf)[j].date)
    ensures forall d :: d in b.chosen ==> b.chosen[d] in SortBy(ValuesIn(b.days, b.chosen), DateOf)
  {
    SortedValuesChosen(b);
    SortedValuesDistinct(b);
    SortedValuesComplete(b);
  }

  lemma SortedValuesChosen(b: ByDay)
    requires Consistent(b)
    ensures forall e :: e in SortBy(ValuesIn(b.days, b.chosen), DateOf) ==>
              Day(e.date) in b.chosen && b.chosen[Day(e.date)] == e
  {
    var values := ValuesIn(b.days, b.chosen);
    SortSameElements(values);
    forall e | e in SortBy(values, DateOf) ensures Day(e.date) in b.chosen && b.chosen[Day(e.date)] == e {
      var k :| 0 <= k < |values| && values[k] == e;
      assert e == b.chosen[b.days[k]] && b.days[k] in b.days;
    }
  }

  lemma SortedValuesDistinct(b: ByDay)
    requires Consistent(b)
    ensures forall i, j :: 0 <= i < j < |SortBy(ValuesIn(b.days, b.chosen), DateOf)| ==>
              Day(SortBy(ValuesIn(b.days, b.chosen), DateOf)[i].date) != Day(SortBy(ValuesIn(b.days, b.chosen), DateOf)[j].date)
  {
    var values := ValuesIn(b.days, b.chosen);
    var r := SortBy(values, DateOf);
    ValuesDays(b);
    SortSameElements(values);
    SortKeepsNoDup(values, DateOf);
    forall i, j | 0 <= i < j < |r| ensures Day(r[i].date) != Day(r[j].date) {
      assert r[i] in values && r[j] in values;
      var a :| 0 <= a < |values| && values[a] == r[i];
      var c :| 0 <= c < |values| && values[c] == r[j];
      assert a != c;
      assert b.days[a] != b.days[c];
    }
  }

  lemma SortedValuesComplete(b: ByDay)
    requires Consistent(b)
    ensures forall d :: d in b.chosen ==> b.chosen[d] in SortBy(ValuesIn(b.days, b.chosen), DateOf)
  {
    var values := ValuesIn(b.days, b.chosen);
    SortSameElements(values);
    forall d | d in b.chosen ensures b.chosen[d] in SortBy(values, DateOf) {
      var k :| 0 <= k < |b.days| && b.days[k] == d;
      assert values[k] in values;
    }
  }

  /** `getLatestPricePerDay`'s result: sorted by date; one price per day;
      every day of the input present; each price one of the input's, and
      the latest one of its day as `LatestFor` says. */
  lemma LatestPricePerDayCorrect(prices: seq<DailyPrice>)
    ensures SortedBy(LatestPricePerDay(prices), DateOf)
    ensures forall e :: e in LatestPricePerDay(prices) ==> LatestFor(prices, Day(e.date), e)
    ensures forall i, j :: 0 <= i < j < |LatestPricePerDay(prices)| ==>
              Day(LatestPricePerDay(prices)[i].date) != Day(LatestPricePerDay(prices)[j].date)
    ensures forall p :: p in prices ==> exists e :: e in LatestPricePerDay(prices) && Day(e.date) == Day(p.date)
  {
    var b := ByDayOf(prices);
    ByDayFacts(prices);
    SortedValues(b);
    SortByCorrect(ValuesIn(b.days, b.chosen), DateOf);
    forall p | p in prices ensures exists e :: e in LatestPricePerDay(prices) && Day(e.date) == Day(p.date) {
      var e := b.chosen[Day(p.date)];
      assert e in LatestPricePerDay(prices) && LatestFor(prices, Day(p.date), e);
    }
  }

  /** Two prices of one day, neither stamped: the loop keeps the first,
      although the comment above the test promises that a price without
      a timestamp always replaces a kept one that has none. */
  lemma FirstUnstampedKept()
    ensures var p1 := DailyPrice("2024-05-01", 100.0, None);
            var p2 := DailyPrice("2024-05-01", 120.0, None);
            ByDayOf([p1, p2]) == ByDay(["2024-05-01"], map["2024-05-01" := p1])
  {
    var p1 := DailyPrice("2024-05-01", 100.0, None);
    var p2 := DailyPrice("2024-05-01", 120.0, None);
    assert Day(p1.date) == "2024-05-01" && Day(p2.date) == "2024-05-01";
    assert [p1, p2][..1] == [p1];
    assert [p1][..0] == [];
    var b1 := ByDayOf([p1]);
    assert ByDayOf([]) == ByDay([], map[]);
    assert b1 == Record(ByDayOf([]), p1);
    assert b1 == ByDay(["2024-05-01"], map["2024-05-01" := p1]);
    assert ByDayOf([p1, p2]) == Record(b1, p2);
    assert !Replaces(p2, p1);
  }

  /** So the page shows the first of the two prices, not the second. */
  lemma FirstUnstampedShown()
    ensures var p1 := DailyPrice("2024-05-01", 100.0, None);
            var p2 := DailyPrice("2024-05-01", 120.0, None);
            LatestPricePerDay([p1, p2]) == [p1]
  {
    var p1 := DailyPrice("2024-05-01", 100.0, None);
    var p2 := DailyPrice("2024-05-01", 120.0, None);
    FirstUnstampedKept();
    var b := ByDayOf([p1, p2]);
    assert ValuesIn(b.days, b.chosen) == [p1];
    assert [p1][1..] == [];
    assert SortBy([p1], DateOf) == [p1];
  }

  // The tie rule the comment states: a price without a timestamp counts
  // as the earliest, and replaces a kept price that has none either.

  predicate ReplacesIntended(price: DailyPrice, current: DailyPrice) {
    Replaces(price, current) || (!Stamped(price) && !Stamped(current))
  }

  /** One turn of the loop under the intended rule. */
  function RecordIntended(b: ByDay, price: DailyPrice): (r: ByDay)
    requires Consistent(b)
    ensures Consistent(r)
  {
    var day := Day(price.date);
    if day in b.chosen && !Stamped(price) && !Stamped(b.chosen[day]) then ByDay(b.days, b.chosen[day := price])
    else Record(b, price)
  }

  function ByDayIntended(prices: seq<DailyPrice>): (b: ByDay)
    ensures Consistent(b)
  {
    if prices == [] then ByDay([], map[])
    else RecordIntended(ByDayIntended(prices[..|prices| - 1]), prices[|prices| - 1])
  }

  /** The intended result: the kept prices sorted by date. */
  function LatestPricePerDayIntended(prices: seq<DailyPrice>): seq<DailyPrice> {
    var b := ByDayIntended(prices);
    SortBy(ValuesIn(b.days, b.chosen), DateOf)
  }

  /** The last price of `prices` whose day is `d`. */
  function LastOfDay(prices: seq<DailyPrice>, d: string): (r: Option<DailyPrice>)
    ensures r.None? <==> forall p :: p in prices ==> Day(p.date) != d
    ensures r.Some? ==> exists k :: 0 <= k < |prices| && prices[k] == r.value && Day(prices[k].date) == d
                                    && forall j :: k < j < |prices| ==> Day(prices[j].date) != d
  {
    if prices == [] then None
    else
      var init := prices[..|prices| - 1];
      var last := prices[|prices| - 1];
      assert prices == init + [last];
      if Day(last.date) == d then
        assert prices[|prices| - 1] == last;
        Some(last)
      else
        var r := LastOfDay(init, d);
        assert forall k :: 0 <= k < |init| ==> prices[k] == init[k];
        r
  }

  /** What the intended rule keeps for day `d`: the latest stamped price
      when the day has one, else the last price of the day. */
  predicate LatestForIntended(prices: seq<DailyPrice>, d: string, e: DailyPrice) {
    e in prices && Day(e.date) == d
    && (Stamped(e) ==>
          forall p :: p in prices && Day(p.date) == d && Stamped(p) ==> StrLe(p.scrapedAt.value, e.scrapedAt.value))
    && (!Stamped(e) ==>
          LastOfDay(prices, d) == Some(e) && forall p :: p in prices && Day(p.date) == d ==> !Stamped(p))
  }

  predicate KeepsLatestIntended(prices: seq<DailyPrice>, b: ByDay) {
    forall d :: d in b.chosen ==> LatestForIntended(prices, d, b.chosen[d])
  }

  lemma IntendedOtherDay(init: seq<DailyPrice>, price: DailyPrice, d: string, e: DailyPrice)
    requires LatestForIntended(init, d, e) && Day(price.date) != d
    ensures LatestForIntended(init + [price], d, e)
  {
    assert (init + [price])[..|init|] == init;
  }

  lemma IntendedNewDay(init: seq<DailyPrice>, price: DailyPrice)
    requires forall q :: q in init ==> Day(q.date) != Day(price.date)
    ensures LatestForIntended(init + [price], Day(price.date), price)
  {
    if Stamped(price) {
      StrLeRefl(price.scrapedAt.value);
    }
  }

  /** An unstamped price after an unstamped kept one is the last of its
      day, and the day still has no stamped price. */
  lemma IntendedBothUnstamped(init: seq<DailyPrice>, price: DailyPrice, current: DailyPrice)
    requires LatestForIntended(init, Day(price.date), current)
    requires !Stamped(price) && !Stamped(current)
    ensures LatestForIntended(init + [price], Day(price.date), price)
  {
  }

  lemma IntendedReplaced(init: seq<DailyPrice>, price: DailyPrice, current: DailyPrice)
    requires LatestForIntended(init, Day(price.date), current) && Replaces(price, current)
    ensures LatestForIntended(init + [price], Day(price.date), price)
  {
    var s := init + [price];
    var d := Day(price.date);
    forall q | q in s && Day(q.date) == d && Stamped(q)
      ensures StrLe(q.scrapedAt.value, price.scrapedAt.value)
    {
      if q == price {
        StrLeRefl(price.scrapedAt.value);
      } else {
        StrLeTrans(q.scrapedAt.value, current.scrapedAt.value, price.scrapedAt.value);
      }
    }
  }

  lemma IntendedKept(init: seq<DailyPrice>, price: DailyPrice, current: DailyPrice)
    requires LatestForIntended(init, Day(price.date), current) && !ReplacesIntended(price, current)
    ensures LatestForIntended(init + [price], Day(price.date), current)
  {
    assert Stamped(current);
    if Stamped(price) {
      StrLeTotal(price.scrapedAt.value, current.scrapedAt.value);
    }
  }

  lemma RecordIntendedStep(init: seq<DailyPrice>, b: ByDay, price: DailyPrice, d: string)
    requires Consistent(b) && KeepsLatestIntended(init, b)
    requires forall p :: p in init ==> Day(p.date) in b.chosen
    requires d in RecordIntended(b, price).chosen
    ensures LatestForIntended(init + [price], d, RecordIntended(b, price).chosen[d])
  {
    var day := Day(price.date);
    if d != day {
      IntendedOtherDay(init, price, d, b.chosen[d]);
    } else if d !in b.chosen {
      IntendedNewDay(init, price);
    } else if !Stamped(price) && !Stamped(b.chosen[d]) {
      IntendedBothUnstamped(init, price, b.chosen[d]);
    } else if Replaces(price, b.chosen[d]) {
      IntendedReplaced(init, price, b.chosen[d]);
    } else {
      IntendedKept(init, price, b.chosen[d]);
    }
  }

  /** Under the intended rule, the price kept for each day is its latest
      stamped price, or, when none of the day's prices is stamped, the
      last of them; every day of the input has one. */
  lemma {:induction false} ByDayIntendedFacts(prices: seq<DailyPrice>)
    ensures KeepsLatestIntended(prices, ByDayIntended(prices))
    ensures forall p :: p in prices ==> Day(p.date) in ByDayIntended(prices).chosen
  {
    if prices != [] {
      var init := prices[..|prices| - 1];
      var price := prices[|prices| - 1];
      assert prices == init + [price];
      ByDayIntendedFacts(init);
      forall d | d in ByDayIntended(prices).chosen
        ensures LatestForIntended(prices, d, ByDayIntended(prices).chosen[d])
      {
        RecordIntendedStep(init, ByDayIntended(init), price, d);
      }
    }
  }

  /** The intended result: sorted by date, one price per day, a price for
      every day of the input, each as `LatestForIntended` says. */
  lemma LatestPricePerDayIntendedCorrect(prices: seq<DailyPrice>)
    ensures SortedBy(LatestPricePerDayIntended(prices), DateOf)
    ensures forall e :: e in LatestPricePerDayIntended(prices) ==> LatestForIntended(prices, Day(e.date), e)
    ensures forall i, j :: 0 <= i < j < |LatestPricePerDayIntended(prices)| ==>
              Day(LatestPricePerDayIntended(prices)[i].date) != Day(LatestPricePerDayIntended(prices)[j].date)
    ensures forall p :: p in prices ==> exists e :: e in LatestPricePerDayIntended(prices) && Day(e.date) == Day(p.date)
  {
    var b := ByDayIntended(prices);
    ByDayIntendedFacts(prices);
    SortedValues(b);
    SortByCorrect(ValuesIn(b.days, b.chosen), DateOf);
    forall p | p in prices
      ensures exists e :: e in LatestPricePerDayIntended(prices) && Day(e.date) == Day(p.date)
    {
      var e := b.chosen[Day(p.date)];
      assert e in LatestPricePerDayIntended(prices) && Day(e.date) == Day(p.date);
    }
  }

  /** The two unstamped prices of one day: the intended rule keeps the
      second. */
  lemma LastUnstampedKept()
    ensures var p1 := DailyPrice("2024-05-01", 100.0, None);
            var p2 := DailyPrice("2024-05-01", 120.0, None);
            ByDayIntended([p1, p2]).chosen["2024-05-01"] == p2
  {
    var p1 := DailyPrice("2024-05-01", 100.0, None);
    var p2 := DailyPrice("2024-05-01", 120.0, None);
    assert Day(p1.date) == "2024-05-01" && Day(p2.date) == "2024-05-01";
    assert [p1, p2][..1] == [p1];
    assert [p1][..0] == [];
    var b1 := ByDayIntended([p1]);
    assert ByDayIntended([]) == ByDay([], map[]);
    assert b1 == RecordIntended(ByDayIntended([]), p1);
    assert b1 == ByDay(["2024-05-01"], map["2024-05-01" := p1]);
    assert ByDayIntended([p1, p2]) == RecordIntended(b1, p2);
  }

  // ---------------------------------------------------------------------
  // Hotels on the chart

  /** The two pages: the first keeps the latest price per day, the second
      sorts all prices. */
  datatype Page = LatestPerDay | SortedByDate

  /** A hotel as the `GET_HOTELS` query returns it. */
  datatype HotelData = HotelData(id: int, name: string, isCompetitor: bool, dailyPrices: Option<seq<DailyPrice>>)

  /** A hotel prepared for the chart. */
  datatype ChartHotel = ChartHotel(id: int, name: string, isCompetitor: bool, color: string, dailyPrices: seq<DailyPrice>)

  const Palette: seq<string> :=
    ["#1976d2", "#e57373", "#81c784", "#ffb74d", "#ba68c8", "#4dd0e1", "#ffd54f", "#a1887f", "#90a4ae"]

  /** `HOTEL_COLORS[idx % HOTEL_COLORS.length]`. */
  function Colour(idx: nat): (c: string)
    ensures c in Palette
  {
    Palette[idx % |Palette|]
  }

  /** The characters of a colour that tell the palette's colours apart. */
  function ColourCode(c: string): int {
    if |c| < 4 then -1 else (c[1] as int) * 65536 + (c[2] as int) * 256 + (c[3] as int)
  }

  lemma PaletteDistinct()
    ensures NoDup(Palette)
  {
    var codes := seq(9, k requires 0 <= k < 9 => ColourCode(Palette[k]));
    assert codes == [ColourCode("#1976d2"), ColourCode("#e57373"), ColourCode("#81c784"), ColourCode("#ffb74d"),
                     ColourCode("#ba68c8"), ColourCode("#4dd0e1"), ColourCode("#ffd54f"), ColourCode("#a1887f"),
                     ColourCode("#90a4ae")];
    forall i, j | 0 <= i < j < |Palette| ensures Palette[i] != Palette[j] {
      assert codes[i] != codes[j];
    }
  }

  /** Two hotels get the same colour exactly when their positions are
      congruent modulo nine. */
  lemma ColourCycle(i: nat, j: nat)
    ensures Colour(i) == Colour(j) <==> i % 9 == j % 9
  {
    PaletteDistinct();
  }

  /** The prices a page plots for a hotel (`h.dailyPrices || []`). */
  function PricesOf(page: Page, h: HotelData): seq<DailyPrice> {
    var prices := h.dailyPrices.GetOr([]);
    match page
    case LatestPerDay => LatestPricePerDay(prices)
    case SortedByDate => SortBy(prices, DateOf)
  }

  /** `data.hotels.map((h, idx) => ...)`, where `plot` gives a hotel's
      plotted prices. */
  function PrepareAll(hotels: seq<HotelData>, plot: HotelData -> seq<DailyPrice>): (r: seq<ChartHotel>)
    ensures |r| == |hotels|
  {
    if hotels == [] then []
    else
      var i := |hotels| - 1;
      var h := hotels[i];
      PrepareAll(hotels[..i], plot) + [ChartHotel(h.id, h.name, h.isCompetitor, Colour(i), plot(h))]
  }

  /** The `hotels` memo: nothing until the query has data. */
  function Prepared(page: Page, data: Option<seq<HotelData>>): seq<ChartHotel> {
    match data
    case None => []
    case Some(hotels) => PrepareAll(hotels, h => PricesOf(page, h))
  }

  /** Each prepared hotel keeps its identity, gets the colour of its
      position and its plotted prices. */
  lemma {:induction false} PrepareAllAt(hotels: seq<HotelData>, plot: HotelData -> seq<DailyPrice>, i: nat)
    requires i < |hotels|
    ensures PrepareAll(hotels, plot)[i] ==
              ChartHotel(hotels[i].id, hotels[i].name, hotels[i].isCompetitor, Colour(i), plot(hotels[i]))
    decreases |hotels|
  {
    var n := |hotels| - 1;
    if i < n {
      PrepareAllAt(hotels[..n], plot, i);
      assert hotels[..n][i] == hotels[i];
    }
  }

  /** The plotted prices are in date order; the second page plots every
      price it was given, the first one per day as
      `LatestPricePerDayCorrect` states. */
  lemma PricesOfSorted(page: Page, h: HotelData)
    ensures SortedBy(PricesOf(page, h), DateOf)
    ensures page == SortedByDate ==> multiset(PricesOf(page, h)) == multiset(h.dailyPrices.GetOr([]))
  {
    var prices := h.dailyPrices.GetOr([]);
    match page
    case LatestPerDay => LatestPricePerDayCorrect(prices);
    case SortedByDate => SortByCorrect(prices, DateOf);
  }

  // ---------------------------------------------------------------------
  // Dates of the slider

  /** `hotels.flatMap(h => h.dailyPrices.map(p => p.date))`. */
  function Dates(hotels: seq<ChartHotel>): seq<string> {
    if hotels == [] then []
    else
      var ps := hotels[|hotels| - 1].dailyPrices;
      Dates(hotels[..|hotels| - 1]) + seq(|ps|, k requires 0 <= k < |ps| => ps[k].date)
  }

  predicate HasDate(hotels: seq<ChartHotel>, x: string) {
    exists i, k :: 0 <= i < |hotels| && 0 <= k < |hotels[i].dailyPrices| && hotels[i].dailyPrices[k].date == x
  }

  /** The flattened dates are exactly the dates of the hotels' prices. */
  lemma {:induction false} DatesMembers(hotels: seq<ChartHotel>)
    ensures forall x :: x in Dates(hotels) <==> HasDate(hotels, x)
  {
    if hotels != [] {
      var n := |hotels| - 1;
      var init := hotels[..n];
      var ps := hotels[n].dailyPrices;
      var own := seq(|ps|, k requires 0 <= k < |ps| => ps[k].date);
      DatesMembers(init);
      assert Dates(hotels) == Dates(init) + own;
      forall x | x in Dates(hotels) ensures HasDate(hotels, x) {
        if x in Dates(init) {
          var i, k :| 0 <= i < |init| && 0 <= k < |init[i].dailyPrices| && init[i].dailyPrices[k].date == x;
          assert hotels[i] == init[i];
        } else {
          var k :| 0 <= k < |own| && own[k] == x;
          assert hotels[n].dailyPrices[k].date == x;
        }
      }
      forall x | HasDate(hotels, x) ensures x in Dates(hotels) {
        var i, k :| 0 <= i < |hotels| && 0 <= k < |hotels[i].dailyPrices| && hotels[i].dailyPrices[k].date == x;
        if i < n {
          assert init[i] == hotels[i];
          assert HasDate(init, x);
        } else {
          assert own[k] == x;
        }
      }
    }
  }

  /** `Array.from(new Set(dates))`: the first occurrence of each value, in
      order. */
  function Distinct(s: seq<string>): (r: seq<string>)
    ensures NoDup(r)
    ensures forall x :: x in r <==> x in s
  {
    if s == [] then []
    else
      var last := s[|s| - 1];
      var init := Distinct(s[..|s| - 1]);
      assert s == s[..|s| - 1] + [last];
      if last in init then init
      else
        assert NoDup(init + [last]) by {
          forall i, j | 0 <= i < j < |init| + 1 ensures (init + [last])[i] != (init + [last])[j] {
            if j == |init| { assert init[i] in init; }
          }
        }
        init + [last]
  }

  function Itself(s: string): string { s }

  /** `allDates`: `.sort()` orders by code units, as `StrLe` does. */
  function AllDates(hotels: seq<ChartHotel>): seq<string> {
    SortBy(Distinct(Dates(hotels)), Itself)
  }

  /** `allDates` is strictly increasing and holds exactly the dates of the
      hotels' prices. */
  lemma AllDatesCorrect(hotels: seq<ChartHotel>)
    ensures forall i, j :: 0 <= i < j < |AllDates(hotels)| ==> StrLt(AllDates(hotels)[i], AllDates(hotels)[j])
    ensures forall x :: x in AllDates(hotels) <==> HasDate(hotels, x)
  {
    DatesMembers(hotels);
    var d := Distinct(Dates(hotels));
    var r := AllDates(hotels);
    SortByCorrect(d, Itself);
    SortKeepsNoDup(d, Itself);
    assert forall x :: x in r <==> x in d by {
      forall x ensures x in r <==> x in d {
        assert x in r <==> x in multiset(r);
      }
    }
    forall i, j | 0 <= i < j < |r| ensures StrLt(r[i], r[j]) {
      assert Itself(r[i]) == r[i] && Itself(r[j]) == r[j];
    }
  }

  /** `parseDate`: an empty text gives `null`. */
  function ParseDate(s: string): Option<string> {
    if s == [] then None else Some(s)
  }

  /** `[startDate, endDate]` from the slider positions. */
  function Bounds(allDates: seq<string>, lo: int, hi: int): (Option<string>, Option<string>) {
    if |allDates| == 0 || !(0 <= lo < |allDates|) || !(0 <= hi < |allDates|) then (None, None)
    else (ParseDate(allDates[lo]), ParseDate(allDates[hi]))
  }

  /** Both bounds are null exactly when there is no date, a position is
      outside the list, or both dates are empty texts. */
  lemma BoundsNull(allDates: seq<string>, lo: int, hi: int)
    ensures Bounds(allDates, lo, hi) == (None, None) <==>
              |allDates| == 0 || !(0 <= lo < |allDates|) || !(0 <= hi < |allDates|)
              || (allDates[lo] == [] && allDates[hi] == [])
  {
  }

  /** The slider after a change of the number of dates: the whole range
      once there are two dates or more, the previous positions otherwise. */
  function SliderAfter(count: nat, previous: (int, int)): (int, int) {
    if count > 1 then (0, count - 1) else previous
  }

  /** The slider's first positions, `[0, Math.max(0, count - 1)]`. */
  function SliderInitial(count: nat): (int, int) {
    (0, if count == 0 then 0 else count - 1)
  }

  /** A date is inside the range: no bound constrains it; a bound that is
      set keeps it only when it is not empty and on the right side,
      both ends included. */
  predicate InRange(date: string, start: Option<string>, end: Option<string>) {
    (start.None? || (ParseDate(date).Some? && StrLe(start.value, date)))
    && (end.None? || (ParseDate(date).Some? && StrLe(date, end.value)))
  }

  /** `dateMarkers`. */
  function DateMarkers(allDates: seq<string>, start: Option<string>, end: Option<string>): seq<string> {
    if start.None? && end.None? then allDates
    else Filter(allDates, d => InRange(d, start, end))
  }

  /** The shortcut for no bounds agrees with the filter: the markers are
      always the dates inside the range. */
  lemma MarkersInRange(allDates: seq<string>, start: Option<string>, end: Option<string>)
    ensures DateMarkers(allDates, start, end) == Filter(allDates, d => InRange(d, start, end))
  {
    if start.None? && end.None? {
      FilterAll(allDates, d => InRange(d, start, end));
    }
  }

  /** Once loaded, the slider spans every date, and no date marker is
      dropped as long as no date is an empty text. */
  lemma FullRangeKeepsAll(hotels: seq<ChartHotel>, previous: (int, int))
    requires forall x :: x in AllDates(hotels) ==> x != []
    requires |AllDates(hotels)| > 1 || previous == SliderInitial(|AllDates(hotels)|)
    ensures var all := AllDates(hotels);
            var range := SliderAfter(|all|, previous);
            var bounds := Bounds(all, range.0, range.1);
            DateMarkers(all, bounds.0, bounds.1) == all
  {
    var all := AllDates(hotels);
    AllDatesCorrect(hotels);
    var range := SliderAfter(|all|, previous);
    var bounds := Bounds(all, range.0, range.1);
    if |all| > 0 {
      assert range == (0, |all| - 1);
      assert all[0] in all && all[|all| - 1] in all;
      assert bounds == (Some(all[0]), Some(all[|all| - 1]));
      forall i | 0 <= i < |all| ensures InRange(all[i], bounds.0, bounds.1) {
        assert all[i] in all;
        if i > 0 { assert StrLe(all[0], all[i]); } else { StrLeRefl(all[0]); }
        if i < |all| - 1 { assert StrLe(all[i], all[|all| - 1]); } else { StrLeRefl(all[i]); }
      }
      FilterAll(all, d => InRange(d, bounds.0, bounds.1));
    }
  }

  // ---------------------------------------------------------------------
  // Chart series

  datatype Point = Point(x: Option<string>, y: real)

  datatype Series = Series(name: string, color: string, points: seq<Point>, isCompetitor: bool)

  const MineSuffix: string := " (Mon h\U{F4}tel)"

  /** The points of one hotel: its prices inside the range, as
      `{ x: parseDate(p.date), y: p.price }`. */
  function Points(prices: seq<DailyPrice>, start: Option<string>, end: Option<string>): (r: seq<Point>)
    ensures forall pt :: pt in r ==>
              exists p :: p in prices && InRange(p.date, start, end) && pt == Point(ParseDate(p.date), p.price)
    ensures forall p :: p in prices && InRange(p.date, start, end) ==> Point(ParseDate(p.date), p.price) in r
  {
    if prices == [] then []
    else
      var init := prices[..|prices| - 1];
      var p := prices[|prices| - 1];
      assert prices == init + [p];
      Points(init, start, end) + (if InRange(p.date, start, end) then [Point(ParseDate(p.date), p.price)] else [])
  }

  function SeriesOf(h: ChartHotel, start: Option<string>, end: Option<string>): Series {
    Series(h.name + (if !h.isCompetitor then MineSuffix else []), h.color, Points(h.dailyPrices, start, end), h.isCompetitor)
  }

  /** `nivoData`: the series of the visible hotels, in hotel order. */
  function ChartData(hotels: seq<ChartHotel>, visible: seq<int>, start: Option<string>, end: Option<string>): (r: seq<Series>)
    ensures |r| <= |hotels|
  {
    if hotels == [] then []
    else
      var h := hotels[|hotels| - 1];
      ChartData(hotels[..|hotels| - 1], visible, start, end) + (if h.id in visible then [SeriesOf(h, start, end)] else [])
  }

  /** A hotel has a series exactly when its id is visible, and a series
      belongs to a visible hotel. */
  lemma {:induction false} ChartDataShown(hotels: seq<ChartHotel>, visible: seq<int>, start: Option<string>, end: Option<string>)
    ensures forall h :: h in hotels && h.id in visible ==> SeriesOf(h, start, end) in ChartData(hotels, visible, start, end)
    ensures forall s :: s in ChartData(hotels, visible, start, end) ==>
              exists h :: h in hotels && h.id in visible && s == SeriesOf(h, start, end)
  {
    if hotels != [] {
      var init := hotels[..|hotels| - 1];
      assert hotels == init + [hotels[|hotels| - 1]];
      ChartDataShown(init, visible, start, end);
    }
  }

  /** `visibleHotels` once the query has data: all the hotel ids when
      nothing was visible yet, the current selection otherwise. */
  function InitVisible(data: Option<seq<HotelData>>, visible: seq<int>): seq<int> {
    if data.Some? && visible == [] then seq(|data.value|, i requires 0 <= i < |data.value| => data.value[i].id)
    else visible
  }

  /** After the first load every prepared hotel is on the chart, and the
      effect running again with the same data leaves the selection alone. */
  lemma InitVisibleShowsAll(page: Page, hotels: seq<HotelData>, start: Option<string>, end: Option<string>)
    ensures forall h :: h in Prepared(page, Some(hotels)) ==> h.id in InitVisible(Some(hotels), [])
    ensures InitVisible(Some(hotels), InitVisible(Some(hotels), [])) == InitVisible(Some(hotels), [])
  {
    var prepared := Prepared(page, Some(hotels));
    var ids := InitVisible(Some(hotels), []);
    forall h | h in prepared ensures h.id in ids {
      var i :| 0 <= i < |prepared| && prepared[i] == h;
      PrepareAllAt(hotels, h => PricesOf(page, h), i);
      assert ids[i] == h.id;
    }
  }
}
