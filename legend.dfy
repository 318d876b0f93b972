/** `HotelLegend`: one checkbox per hotel that shows or hides the hotel's
    series. The selection `visibleHotels` is a list of hotel ids; a change of
    a checkbox replaces it by a new list. */
module Legend {

  /** `v.filter(id => id !== hotel)`. */
  function Without(v: seq<int>, hotel: int): (r: seq<int>)
    ensures |r| <= |v|
    ensures forall x :: x in r <==> x in v && x != hotel
  {
    if v == [] then []
    else
      var init := v[..|v| - 1];
      assert v == init + [v[|v| - 1]];
      Without(init, hotel) + (if v[|v| - 1] != hotel then [v[|v| - 1]] else [])
  }

  /** A checkbox is checked when its hotel is in the selection. */
  predicate Checked(visible: seq<int>, hotel: int) {
    hotel in visible
  }

  /** The `onChange` update: a visible hotel is removed (every occurrence),
      a hidden one is appended. */
  function Toggle(v: seq<int>, hotel: int): seq<int> {
    if hotel in v then Without(v, hotel) else v + [hotel]
  }

  /** Removing an id that is not there changes nothing. */
  lemma {:induction false} WithoutAbsent(v: seq<int>, hotel: int)
    requires hotel !in v
    ensures Without(v, hotel) == v
  {
    if v != [] {
      var init := v[..|v| - 1];
      assert v == init + [v[|v| - 1]];
      WithoutAbsent(init, hotel);
    }
  }

  /** Removing an id from two joined lists removes it from each. */
  lemma {:induction false} WithoutAppend(v: seq<int>, w: seq<int>, hotel: int)
    ensures Without(v + w, hotel) == Without(v, hotel) + Without(w, hotel)
    decreases |w|
  {
    if w == [] {
      assert v + w == v;
    } else {
      var init := w[..|w| - 1];
      assert v + w == (v + init) + [w[|w| - 1]];
      assert (v + w)[..|v + w| - 1] == v + init;
      WithoutAppend(v, init, hotel);
    }
  }

  /** The toggle flips the hotel's checkbox and no other. */
  lemma ToggleFlips(v: seq<int>, hotel: int, other: int)
    requires other != hotel
    ensures Checked(Toggle(v, hotel), hotel) <==> !Checked(v, hotel)
    ensures Checked(Toggle(v, hotel), other) <==> Checked(v, other)
  {
  }

  /** The other ids keep their order: with the toggled id taken out, the
      selection before and after are the same list. */
  lemma {:induction false} ToggleKeepsOthers(v: seq<int>, hotel: int)
    ensures Without(Toggle(v, hotel), hotel) == Without(v, hotel)
  {
    if hotel in v {
      WithoutAbsent(Without(v, hotel), hotel);
    } else {
      WithoutAppend(v, [hotel], hotel);
      assert Without([hotel], hotel) == [] by {
        assert [hotel][..0] == [];
      }
      assert Without(v, hotel) + [] == Without(v, hotel);
    }
  }

  /** A hidden hotel is appended at the end. */
  lemma ToggleAppends(v: seq<int>, hotel: int)
    requires hotel !in v
    ensures Toggle(v, hotel)[..|v|] == v && Toggle(v, hotel)[|v|] == hotel
  {
  }

  /** Toggling twice gives back the same set of visible hotels; when the
      hotel was hidden, the very same list. */
  lemma {:induction false} ToggleTwice(v: seq<int>, hotel: int)
    ensures forall x :: x in Toggle(Toggle(v, hotel), hotel) <==> x in v
    ensures hotel !in v ==> Toggle(Toggle(v, hotel), hotel) == v
  {
    if hotel !in v {
      ToggleKeepsOthers(v, hotel);
      WithoutAbsent(v, hotel);
    }
  }
}
