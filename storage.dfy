/** `PriceStorageService.saveHotelAndPrices`: the hotel is upserted by URL,
    then each daily price is inserted only when no row of that hotel (with
    no room category) already holds the same date and the same price. The
    database is an in-memory pair of tables; rows are never updated or
    deleted, so the price table is a history of price changes. */
module Storage {

  import opened Wrappers

  /** The hotel fields a scrape hands over; `city` is optional and, as with
      an `undefined` field in a Prisma update, an absent one leaves the
      stored value alone. */
  datatype HotelInput = HotelInput(name: string, url: string, city: Option<string>)

  /** One daily price of a scrape (`DailyPriceData`). */
  datatype Daily = Daily(date: string, price: real, currency: string, availability: bool)

  datatype HotelRow = HotelRow(id: nat, name: string, url: string, city: Option<string>, isCompetitor: bool)

  datatype PriceRow = PriceRow(hotelId: nat, roomCategoryId: Option<nat>, date: string, price: real,
                               currency: string, availability: bool, scrapedAt: string)

  /** The `findFirst` filter: same hotel, no room category, same date, same
      price. */
  predicate Matches(row: PriceRow, hotelId: nat, d: Daily) {
    row.hotelId == hotelId && row.roomCategoryId.None? && row.date == d.date && row.price == d.price
  }

  predicate Recorded(rows: seq<PriceRow>, hotelId: nat, d: Daily) {
    exists j :: 0 <= j < |rows| && Matches(rows[j], hotelId, d)
  }

  /** The row `create` writes for a daily price. */
  function NewRow(hotelId: nat, d: Daily, now: string): (r: PriceRow)
    ensures Matches(r, hotelId, d)
    ensures r.currency == d.currency && r.availability == d.availability && r.scrapedAt == now
  {
    PriceRow(hotelId, None, d.date, d.price, d.currency, d.availability, now)
  }

  /** The rows inserted for `daily` (in order) into a table holding `rows`:
      a price is inserted when neither the table nor an earlier insert of
      the same call already records it. */
  function Inserted(rows: seq<PriceRow>, hotelId: nat, daily: seq<Daily>, now: string): (r: seq<PriceRow>)
    ensures |r| <= |daily|
    ensures forall k :: 0 <= k < |r| ==> r[k].hotelId == hotelId && r[k].roomCategoryId.None? && r[k].scrapedAt == now
  {
    if daily == [] then []
    else
      var before := Inserted(rows, hotelId, daily[..|daily| - 1], now);
      var d := daily[|daily| - 1];
      if Recorded(rows + before, hotelId, d) then before else before + [NewRow(hotelId, d, now)]
  }

  /** The first row of `hotels` with address `url`. */
  function HotelIndex(hotels: seq<HotelRow>, url: string): (r: Option<nat>)
    ensures r.Some? ==> r.value < |hotels| && hotels[r.value].url == url
    ensures r.Some? ==> forall k :: 0 <= k < r.value ==> hotels[k].url != url
    ensures r.None? ==> forall k :: 0 <= k < |hotels| ==> hotels[k].url != url
  {
    if hotels == [] then None
    else if hotels[0].url == url then Some(0)
    else match HotelIndex(hotels[1..], url)
      case None => None
      case Some(k) => Some(k + 1)
  }

  /** The `update` branch of the upsert: fields given replace the stored
      ones, an absent city keeps the stored one; the id stays. */
  function Updated(row: HotelRow, h: HotelInput, isCompetitor: bool): HotelRow {
    HotelRow(row.id, h.name, h.url, if h.city.Some? then h.city else row.city, isCompetitor)
  }

  function Created(id: nat, h: HotelInput, isCompetitor: bool): HotelRow {
    HotelRow(id, h.name, h.url, h.city, isCompetitor)
  }

  /** The ids of the stored hotels. */
  function Ids(hotels: seq<HotelRow>): set<nat> {
    set i | 0 <= i < |hotels| :: hotels[i].id
  }

  class PriceStore {
    var hotels: seq<HotelRow>
    var prices: seq<PriceRow>
    /** The id the next created hotel receives (autoincrement). */
    var nextId: nat

    /** Hotel URLs and ids are unique, ids are below `nextId`, and every
        price row belongs to a stored hotel. */
    predicate Valid()
      reads this
    {
      && (forall i, j :: 0 <= i < j < |hotels| ==> hotels[i].url != hotels[j].url && hotels[i].id != hotels[j].id)
      && (forall i :: 0 <= i < |hotels| ==> hotels[i].id < nextId)
      && (forall k :: 0 <= k < |prices| ==> prices[k].hotelId in Ids(hotels))
    }

    constructor()
      ensures Valid() && hotels == [] && prices == []
    {
      hotels, prices, nextId := [], [], 0;
    }

    /** The upsert by URL. */
    method Upsert(h: HotelInput, isCompetitor: bool) returns (id: nat)
      requires Valid()
      modifies this
      ensures Valid()
      ensures prices == old(prices)
      ensures HotelIndex(old(hotels), h.url).Some? ==>
                var k := HotelIndex(old(hotels), h.url).value;
                id == old(hotels)[k].id && hotels == old(hotels)[k := Updated(old(hotels)[k], h, isCompetitor)]
      ensures HotelIndex(old(hotels), h.url).None? ==>
                id == old(nextId) && hotels == old(hotels) + [Created(id, h, isCompetitor)]
      ensures exists i :: 0 <= i < |hotels| && hotels[i].id == id && hotels[i].url == h.url
    {
      var i := 0;
      while i < |hotels| && hotels[i].url != h.url
        invariant 0 <= i <= |hotels|
        invariant forall k :: 0 <= k < i ==> hotels[k].url != h.url
      {
        i := i + 1;
      }
      if i < |hotels| {
        assert HotelIndex(hotels, h.url) == Some(i);
        id := hotels[i].id;
        ghost var ids := hotels;
        hotels := hotels[i := Updated(hotels[i], h, isCompetitor)];
        assert forall k :: 0 <= k < |hotels| ==> hotels[k].id == ids[k].id;
        assert Ids(hotels) == Ids(ids) by {
          forall x | x in Ids(ids) ensures x in Ids(hotels) {
            var k :| 0 <= k < |ids| && ids[k].id == x;
            assert hotels[k].id == x;
          }
        }
        assert hotels[i].id == id && hotels[i].url == h.url;
      } else {
        id := nextId;
        ghost var ids := hotels;
        hotels := hotels + [Created(id, h, isCompetitor)];
        nextId := nextId + 1;
        assert forall k :: 0 <= k < |ids| ==> hotels[k] == ids[k];
        assert Ids(ids) <= Ids(hotels) by {
          forall x | x in Ids(ids) ensures x in Ids(hotels) {
            var k :| 0 <= k < |ids| && ids[k].id == x;
            assert hotels[k].id == x;
          }
        }
        assert hotels[|hotels| - 1].id == id;
      }
    }

    /** `findFirst`: the first row matching the filter, if any. */
    method FindFirst(hotelId: nat, d: Daily) returns (found: Option<nat>)
      ensures found.Some? ==> found.value < |prices| && Matches(prices[found.value], hotelId, d)
      ensures found.None? <==> !Recorded(prices, hotelId, d)
    {
      for j := 0 to |prices|
        invariant forall k :: 0 <= k < j ==> !Matches(prices[k], hotelId, d)
      {
        if Matches(prices[j], hotelId, d) {
          return Some(j);
        }
      }
      return None;
    }

    /** `saveHotelAndPrices(scraped, isMyHotel)`: the hotel is upserted
        by URL, as a competitor unless it is the user's own (the row of its
        URL updated, or a row created with the next id, every other row
        kept); the price table only grows, by the rows `Inserted`
        describes. */
    method SaveHotelAndPrices(h: HotelInput, daily: seq<Daily>, isMyHotel: bool, now: string)
      returns (id: nat)
      requires Valid()
      modifies this
      ensures Valid()
      ensures exists i :: 0 <= i < |hotels| && hotels[i].id == id && hotels[i].url == h.url
      ensures forall i :: 0 <= i < |hotels| && hotels[i].url == h.url ==> hotels[i].id == id && hotels[i].isCompetitor == !isMyHotel
      ensures HotelIndex(old(hotels), h.url).Some? ==>
                var k := HotelIndex(old(hotels), h.url).value;
                id == old(hotels)[k].id && hotels == old(hotels)[k := Updated(old(hotels)[k], h, !isMyHotel)]
      ensures HotelIndex(old(hotels), h.url).None? ==>
                id == old(nextId) && hotels == old(hotels) + [Created(id, h, !isMyHotel)]
      ensures prices == old(prices) + Inserted(old(prices), id, daily, now)
    {
      id := Upsert(h, !isMyHotel);
      UpsertedRow(old(hotels), hotels, h, !isMyHotel, id, old(nextId));
      assert id in Ids(hotels) by {
        var k :| 0 <= k < |hotels| && hotels[k].id == id && hotels[k].url == h.url;
      }
      InsertPrices(id, daily, now);
    }

    /** The loop of `saveHotelAndPrices`: look each price up, insert it
        when absent. */
    method InsertPrices(id: nat, daily: seq<Daily>, now: string)
      requires Valid() && id in Ids(hotels)
      modifies this
      ensures Valid()
      ensures hotels == old(hotels) && nextId == old(nextId)
      ensures prices == old(prices) + Inserted(old(prices), id, daily, now)
    {
      ghost var start := prices;
      for i := 0 to |daily|
        invariant hotels == old(hotels) && nextId == old(nextId)
        invariant Valid()
        invariant prices == start + Inserted(start, id, daily[..i], now)
      {
        ghost var ins := Inserted(start, id, daily[..i], now);
        InsertedStep(start, id, daily, now, i);
        var existing := FindFirst(id, daily[i]);
        if existing.None? {
          ghost var before := prices;
          var row := NewRow(id, daily[i], now);
          prices := prices + [row];
          assert prices == start + (ins + [row]);
          assert forall k :: 0 <= k < |before| ==> prices[k] == before[k];
        }
      }
      assert daily[..|daily|] == daily;
    }
  }

  lemma InsertedStep(rows: seq<PriceRow>, hotelId: nat, daily: seq<Daily>, now: string, i: nat)
    requires i < |daily|
    ensures var before := Inserted(rows, hotelId, daily[..i], now);
            Inserted(rows, hotelId, daily[..i + 1], now)
            == before + (if Recorded(rows + before, hotelId, daily[i]) then [] else [NewRow(hotelId, daily[i], now)])
  {
    assert daily[..i + 1][..i] == daily[..i];
  }

  /** After the upsert exactly the row with the URL carries the returned id
      and the competitor flag. */
  lemma UpsertedRow(before: seq<HotelRow>, after: seq<HotelRow>, h: HotelInput, isCompetitor: bool, id: nat, nextId: nat)
    requires forall i, j :: 0 <= i < j < |before| ==> before[i].url != before[j].url
    requires HotelIndex(before, h.url).Some? ==>
               var k := HotelIndex(before, h.url).value;
               id == before[k].id && after == before[k := Updated(before[k], h, isCompetitor)]
    requires HotelIndex(before, h.url).None? ==> id == nextId && after == before + [Created(id, h, isCompetitor)]
    ensures forall i :: 0 <= i < |after| && after[i].url == h.url ==> after[i].id == id && after[i].isCompetitor == isCompetitor
  {
  }

  /** Every price of a call is recorded once the call is over: it was
      already there, or it was inserted. */
  lemma {:induction false} AllRecorded(rows: seq<PriceRow>, hotelId: nat, daily: seq<Daily>, now: string)
    ensures forall d :: d in daily ==> Recorded(rows + Inserted(rows, hotelId, daily, now), hotelId, d)
  {
    if daily != [] {
      var init := daily[..|daily| - 1];
      var before := Inserted(rows, hotelId, init, now);
      var last := daily[|daily| - 1];
      AllRecorded(rows, hotelId, init, now);
      var after := Inserted(rows, hotelId, daily, now);
      assert after == before || after == before + [NewRow(hotelId, last, now)];
      forall d | d in daily
        ensures Recorded(rows + after, hotelId, d)
      {
        var t := rows + before;
        if d in init {
          var j :| 0 <= j < |t| && Matches(t[j], hotelId, d);
          assert (rows + after)[j] == t[j];
        } else {
          assert d == last;
          if !Recorded(t, hotelId, d) {
            assert (rows + after)[|t|] == NewRow(hotelId, d, now);
          } else {
            var j :| 0 <= j < |t| && Matches(t[j], hotelId, d);
            assert (rows + after)[j] == t[j];
          }
        }
      }
    }
  }

  /** Nothing of a call that finds all its prices recorded is inserted. */
  lemma {:induction false} NothingNew(rows: seq<PriceRow>, hotelId: nat, daily: seq<Daily>, now: string)
    requires forall d :: d in daily ==> Recorded(rows, hotelId, d)
    ensures Inserted(rows, hotelId, daily, now) == []
  {
    if daily != [] {
      var init := daily[..|daily| - 1];
      assert forall d :: d in init ==> d in daily;
      NothingNew(rows, hotelId, init, now);
      assert rows + [] == rows;
    }
  }

  /** Saving the same scrape twice: the second save inserts nothing. */
  lemma SaveIdempotent(rows: seq<PriceRow>, hotelId: nat, daily: seq<Daily>, now: string, later: string)
    ensures Inserted(rows + Inserted(rows, hotelId, daily, now), hotelId, daily, later) == []
  {
    AllRecorded(rows, hotelId, daily, now);
    NothingNew(rows + Inserted(rows, hotelId, daily, now), hotelId, daily, later);
  }

  /** A price absent from the table is inserted, with the currency and
      availability of the input: in particular a new price for a date
      already stored adds a row. */
  lemma NewPriceInserted(rows: seq<PriceRow>, hotelId: nat, d: Daily, now: string)
    requires !Recorded(rows, hotelId, d)
    ensures Inserted(rows, hotelId, [d], now) == [PriceRow(hotelId, None, d.date, d.price, d.currency, d.availability, now)]
  {
    assert [d][..0] == [];
    assert rows + [] == rows;
  }

  /** Two identical prices in one call give one row: the lookup sees the
      first insert. */
  lemma RepeatedOnce(rows: seq<PriceRow>, hotelId: nat, d: Daily, now: string)
    requires !Recorded(rows, hotelId, d)
    ensures Inserted(rows, hotelId, [d, d], now) == [NewRow(hotelId, d, now)]
  {
    assert [d, d][..1] == [d];
    NewPriceInserted(rows, hotelId, d, now);
    var t := rows + [NewRow(hotelId, d, now)];
    assert Matches(t[|rows|], hotelId, d);
  }

  /** The rows a call inserts are new to the table and to each other. */
  lemma {:induction false} InsertedFresh(rows: seq<PriceRow>, hotelId: nat, daily: seq<Daily>, now: string)
    ensures forall k :: 0 <= k < |Inserted(rows, hotelId, daily, now)| ==>
              var r := Inserted(rows, hotelId, daily, now)[k];
              !Recorded(rows + Inserted(rows, hotelId, daily, now)[..k], hotelId, Daily(r.date, r.price, r.currency, r.availability))
  {
    if daily != [] {
      var init := daily[..|daily| - 1];
      var before := Inserted(rows, hotelId, init, now);
      InsertedFresh(rows, hotelId, init, now);
      var after := Inserted(rows, hotelId, daily, now);
      var d := daily[|daily| - 1];
      forall k | 0 <= k < |after|
        ensures var r := after[k];
                !Recorded(rows + after[..k], hotelId, Daily(r.date, r.price, r.currency, r.availability))
      {
        if k < |before| {
          assert after[..k] == before[..k];
          assert after[k] == before[k];
        } else {
          assert after == before + [NewRow(hotelId, d, now)];
          assert after[..k] == before;
          var r := after[k];
          assert r == NewRow(hotelId, d, now);
          forall j | 0 <= j < |rows + before|
            ensures !Matches((rows + before)[j], hotelId, Daily(r.date, r.price, r.currency, r.availability))
          {
            assert Matches((rows + before)[j], hotelId, Daily(r.date, r.price, r.currency, r.availability))
                   == Matches((rows + before)[j], hotelId, d);
          }
        }
      }
    }
  }
}
