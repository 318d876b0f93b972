/** `PriceTable`: one row per hotel with its latest price, the previous
    price struck through, and the direction of the change between them. */
module Trend {

  import opened Wrappers

  datatype Direction = Up | Down | Same

  /** A price of the `hotelsWithPricesByDate` query. */
  datatype PriceAt = PriceAt(price: real, scrapedAt: string)

  datatype TableHotel = TableHotel(id: int, name: string, isCompetitor: bool,
                                   latestPriceAtDate: Option<PriceAt>, previousPriceAtDate: Option<PriceAt>)

  /** The two prices a percentage is computed from, `(to - from) / from`;
      the floating-point text of `toFixed(1)` is not modelled. */
  datatype Change = Change(from: real, to: real)

  /** What a row shows. */
  datatype Row = Row(trend: Option<Direction>, change: Option<Change>, evolutionDate: Option<string>,
                     isMine: bool, struck: Option<real>)

  datatype Icon = TrendingUp | TrendingDown | TrendingFlat

  /** `getTrendProps`'s result: an icon with its colour, and the text colour. */
  datatype TrendProps = TrendProps(icon: Option<(Icon, string)>, color: string)

  /** `hotel.latestPriceAtDate?.price` and the like. */
  function PriceOf(p: Option<PriceAt>): Option<real> {
    match p
    case Some(at) => Some(at.price)
    case None => None
  }

  /** The trend: none unless both prices are there; otherwise up, down or
      the same. */
  function TrendOf(latest: Option<real>, prev: Option<real>): (t: Option<Direction>)
    ensures t.None? <==> latest.None? || prev.None?
  {
    if latest.Some? && prev.Some? then
      if latest.value > prev.value then Some(Up)
      else if latest.value < prev.value then Some(Down)
      else Some(Same)
    else None
  }

  /** `prev && prev !== latest`: a previous price that is not zero and
      differs from the latest one (or there is no latest one). */
  predicate StrikeShown(latest: Option<real>, prev: Option<real>) {
    prev.Some? && prev.value != 0.0 && (latest.None? || latest.value != prev.value)
  }

  predicate Moving(t: Option<Direction>) {
    t == Some(Up) || t == Some(Down)
  }

  /** The row of one hotel. */
  function RowOf(h: TableHotel): Row {
    var latest := PriceOf(h.latestPriceAtDate);
    var prev := PriceOf(h.previousPriceAtDate);
    var latestDate := match h.latestPriceAtDate case Some(at) => Some(at.scrapedAt) case None => None;
    var trend := TrendOf(latest, prev);
    Row(trend,
        if Moving(trend) then Some(Change(prev.value, latest.value)) else None,
        if Moving(trend) then latestDate else None,
        !h.isCompetitor,
        if StrikeShown(latest, prev) then prev else None)
  }

  /** `getTrendProps`. */
  function TrendPropsOf(t: Option<Direction>): TrendProps {
    match t
    case Some(Up) => TrendProps(Some((TrendingUp, "success.main")), "success.main")
    case Some(Down) => TrendProps(Some((TrendingDown, "error.main")), "error.main")
    case Some(Same) => TrendProps(Some((TrendingFlat, "grey.600")), "grey.700")
    case None => TrendProps(None, "grey.400")
  }

  /** With both prices, the trend follows their comparison, both ways. */
  lemma TrendFollowsPrices(latest: real, prev: real)
    ensures TrendOf(Some(latest), Some(prev)) == Some(Up) <==> latest > prev
    ensures TrendOf(Some(latest), Some(prev)) == Some(Down) <==> latest < prev
    ensures TrendOf(Some(latest), Some(prev)) == Some(Same) <==> latest == prev
  {
  }

  /** Swapping the two prices swaps up and down and keeps 'same'. */
  lemma TrendSwap(a: Option<real>, b: Option<real>)
    ensures TrendOf(a, b) == Some(Up) <==> TrendOf(b, a) == Some(Down)
    ensures TrendOf(a, b) == Some(Same) <==> TrendOf(b, a) == Some(Same)
    ensures TrendOf(a, b).None? <==> TrendOf(b, a).None?
  {
  }

  /** A change and an evolution date are shown only for a rise or a fall,
      and the change then goes the way of the trend. */
  lemma ChangeOnlyWhenMoving(h: TableHotel)
    ensures RowOf(h).change.Some? <==> Moving(RowOf(h).trend)
    ensures RowOf(h).evolutionDate.Some? ==> Moving(RowOf(h).trend)
    ensures Moving(RowOf(h).trend) ==> RowOf(h).evolutionDate == Some(h.latestPriceAtDate.value.scrapedAt)
    ensures RowOf(h).change.Some? ==>
              (RowOf(h).trend == Some(Up) <==> RowOf(h).change.value.to > RowOf(h).change.value.from)
    ensures RowOf(h).isMine <==> !h.isCompetitor
  {
  }

  /** The struck-through price agrees with the trend: it is never shown
      next to an equal latest price, and it is shown for every rise or fall
      from a non-zero price. */
  lemma StrikeAgreesWithTrend(h: TableHotel)
    ensures RowOf(h).struck.Some? && h.latestPriceAtDate.Some? ==> RowOf(h).trend != Some(Same)
    ensures Moving(RowOf(h).trend) && h.previousPriceAtDate.value.price != 0.0 ==> RowOf(h).struck.Some?
    ensures RowOf(h).struck.Some? ==> RowOf(h).struck == PriceOf(h.previousPriceAtDate)
  {
  }

  /** Each trend has its own look; no trend has no icon. */
  lemma TrendPropsDistinct(s: Option<Direction>, t: Option<Direction>)
    ensures TrendPropsOf(s) == TrendPropsOf(t) <==> s == t
    ensures TrendPropsOf(s).icon.None? <==> s.None?
  {
  }
}
