/** Price observations (`DailyPriceData` / `PricingData`) and the two list
    steps applied to them: removal of repeated (price, date) pairs and the
    sort by date. */
module Entries {

  import opened Wrappers
  import opened Text
  import opened JsonValues
  import opened Sorting

  /** One observation. Values copied from a payload keep their JSON form:
      `date` is `None` when the payload had no such member; `price` is
      `None` for `NaN`; `room` is `roomCategory` in the backend service and
      `roomType` elsewhere; `minStay` is `minLengthOfStay`, present only in
      the Playwright and Puppeteer services. */
  datatype PriceEntry = PriceEntry(
    date: Option<Json>,
    price: Option<real>,
    currency: Json,
    availability: bool,
    room: Json,
    minStay: Option<Json>)

  /** The entry every synthetic source (page text, object walk) builds:
      'EUR', available, 'Standard'. */
  function StandardEntry(date: string, price: Option<real>): (e: PriceEntry)
    ensures e.date == Some(JStr(date)) && e.price == price
    ensures e.currency == JStr("EUR") && e.availability && e.room == JStr("Standard")
    ensures e.minStay.None?
  {
    PriceEntry(Some(JStr(date)), price, JStr("EUR"), true, JStr("Standard"), None)
  }

  /** `p.price === q.price && p.date === q.date`; `NaN` equals nothing. */
  predicate SameKey(p: PriceEntry, q: PriceEntry) {
    p.price.Some? && q.price.Some? && p.price.value == q.price.value && p.date == q.date
  }

  /** `self.findIndex(p => SameKey(p, item))`. */
  function FindIndex(s: seq<PriceEntry>, item: PriceEntry): (r: Option<nat>)
    ensures r.Some? ==> r.value < |s| && SameKey(s[r.value], item)
                        && forall j :: 0 <= j < r.value ==> !SameKey(s[j], item)
    ensures r.None? ==> forall j :: 0 <= j < |s| ==> !SameKey(s[j], item)
  {
    if s == [] then None
    else if SameKey(s[0], item) then Some(0)
    else match FindIndex(s[1..], item)
      case None => None
      case Some(k) => Some(k + 1)
  }

  /** Position `i` survives the filter iff it is where `findIndex` lands. */
  predicate KeptAt(s: seq<PriceEntry>, i: nat)
    requires i < |s|
  {
    FindIndex(s, s[i]) == Some(i)
  }

  /** `s.filter((item, index, self) => index === self.findIndex(...))`
      over the first `n` positions. */
  function DedupPrefix(s: seq<PriceEntry>, n: nat): (r: seq<PriceEntry>)
    requires n <= |s|
    ensures |r| <= n
  {
    if n == 0 then []
    else DedupPrefix(s, n - 1) + (if KeptAt(s, n - 1) then [s[n - 1]] else [])
  }

  function Dedup(s: seq<PriceEntry>): (r: seq<PriceEntry>)
  {
    DedupPrefix(s, |s|)
  }

  /** `a` is `b` with some elements left out, order kept. */
  ghost predicate IsSubsequence<T>(a: seq<T>, b: seq<T>)
    decreases |b|
  {
    if a == [] then true
    else if b == [] then false
    else if a[|a| - 1] == b[|b| - 1] then IsSubsequence(a[..|a| - 1], b[..|b| - 1])
    else IsSubsequence(a, b[..|b| - 1])
  }

  predicate NoRepeatedKey(s: seq<PriceEntry>) {
    forall i, j :: 0 <= i < j < |s| ==> !SameKey(s[i], s[j])
  }

  lemma {:induction false} SubsequenceGrow<T>(a: seq<T>, b: seq<T>, x: T, keep: bool)
    requires IsSubsequence(a, b)
    ensures IsSubsequence(a + (if keep then [x] else []), b + [x])
  {
    var b' := b + [x];
    assert b'[..|b'| - 1] == b;
    if keep {
      var a' := a + [x];
      assert a'[..|a'| - 1] == a;
    } else {
      assert a + [] == a;
      SubsequenceWeaken(a, b, x);
    }
  }

  /** A subsequence of `b` is one of `b + [x]`. */
  lemma {:induction false} SubsequenceWeaken<T>(a: seq<T>, b: seq<T>, x: T)
    requires IsSubsequence(a, b)
    ensures IsSubsequence(a, b + [x])
    decreases |b|, 1
  {
    var b' := b + [x];
    assert b'[..|b'| - 1] == b;
    if a != [] && a[|a| - 1] == x {
      SubsequenceInit(a, b);
    }
  }

  /** Removing the last element of `a` keeps it a subsequence. */
  lemma {:induction false} SubsequenceInit<T>(a: seq<T>, b: seq<T>)
    requires a != [] && IsSubsequence(a, b)
    ensures IsSubsequence(a[..|a| - 1], b)
    decreases |b|, 0
  {
    var init := b[..|b| - 1];
    assert init + [b[|b| - 1]] == b;
    if a[|a| - 1] == b[|b| - 1] {
      SubsequenceWeaken(a[..|a| - 1], init, b[|b| - 1]);
    } else {
      SubsequenceInit(a, init);
      SubsequenceWeaken(a[..|a| - 1], init, b[|b| - 1]);
    }
  }

  /** `findIndex` only looks at the key, so two items with the same key
      land on the same position. */
  lemma {:induction false} FindIndexSameKey(s: seq<PriceEntry>, a: PriceEntry, b: PriceEntry)
    requires SameKey(a, b)
    ensures FindIndex(s, a) == FindIndex(s, b)
  {
    if s != [] && !SameKey(s[0], a) {
      FindIndexSameKey(s[1..], a, b);
    }
  }

  /** Each element of the filtered prefix is an element of the prefix with
      a price (a `NaN` price never survives). */
  lemma {:induction false} DedupPrefixOrigin(s: seq<PriceEntry>, n: nat)
    requires n <= |s|
    ensures forall k :: 0 <= k < |DedupPrefix(s, n)| ==>
      DedupPrefix(s, n)[k].price.Some? && exists i :: 0 <= i < n && DedupPrefix(s, n)[k] == s[i]
  {
    if n > 0 {
      DedupPrefixOrigin(s, n - 1);
      var p := DedupPrefix(s, n - 1);
      var r := DedupPrefix(s, n);
      if KeptAt(s, n - 1) {
        assert r == p + [s[n - 1]];
        assert SameKey(s[n - 1], s[n - 1]);
        forall k | 0 <= k < |r|
          ensures r[k].price.Some? && exists i :: 0 <= i < n && r[k] == s[i]
        {
          if k < |p| {
            assert r[k] == p[k];
          } else {
            assert r[k] == s[n - 1];
          }
        }
      } else {
        assert r == p;
      }
    } else {
      assert DedupPrefix(s, n) == [];
    }
  }

  lemma {:induction false} DedupPrefixNoRepeat(s: seq<PriceEntry>, n: nat)
    requires n <= |s|
    ensures NoRepeatedKey(DedupPrefix(s, n))
  {
    if n > 0 {
      DedupPrefixOrigin(s, n - 1);
      DedupPrefixNoRepeat(s, n - 1);
      var p := DedupPrefix(s, n - 1);
      var r := DedupPrefix(s, n);
      if KeptAt(s, n - 1) {
        var last := s[n - 1];
        assert r == p + [last];
        assert forall j :: 0 <= j < n - 1 ==> !SameKey(s[j], last);
        forall i, j | 0 <= i < j < |r| ensures !SameKey(r[i], r[j]) {
          assert r[i] == p[i];
          if j == |p| {
            var i0 :| 0 <= i0 < n - 1 && p[i] == s[i0];
            assert r[j] == last && !SameKey(s[i0], last);
          } else {
            assert r[j] == p[j];
          }
        }
      } else {
        assert r == p;
      }
    }
  }

  /** A kept position's element is in the filtered prefix that covers it. */
  lemma {:induction false} KeptInDedupPrefix(s: seq<PriceEntry>, n: nat, f: nat)
    requires f < n <= |s| && KeptAt(s, f)
    ensures s[f] in DedupPrefix(s, n)
  {
    if f < n - 1 {
      KeptInDedupPrefix(s, n - 1, f);
    }
  }

  lemma {:induction false} DedupPrefixSubsequence(s: seq<PriceEntry>, n: nat)
    requires n <= |s|
    ensures IsSubsequence(DedupPrefix(s, n), s[..n])
  {
    if n > 0 {
      var prev := DedupPrefix(s, n - 1);
      var keep := KeptAt(s, n - 1);
      assert DedupPrefix(s, n) == prev + (if keep then [s[n - 1]] else []);
      DedupPrefixSubsequence(s, n - 1);
      SubsequenceGrow(prev, s[..n - 1], s[n - 1], keep);
      assert s[..n - 1] + [s[n - 1]] == s[..n];
    }
  }

  /** The (price, date) filter of the Playwright, Puppeteer and daily
      services: it keeps entries in their order, never keeps two with the
      same pair, keeps the first entry of every pair, and drops the entries
      whose price is `NaN`, which equal nothing, not even themselves. */
  lemma DedupCorrect(s: seq<PriceEntry>)
    ensures IsSubsequence(Dedup(s), s)
    ensures NoRepeatedKey(Dedup(s))
    ensures forall e :: e in Dedup(s) ==> e in s && e.price.Some?
    ensures forall i :: 0 <= i < |s| && s[i].price.Some? ==>
      exists k :: 0 <= k < |Dedup(s)| && SameKey(Dedup(s)[k], s[i])
    ensures forall i :: 0 <= i < |s| && s[i].price.Some? && KeptAt(s, i) ==> s[i] in Dedup(s)
  {
    DedupPrefixSubsequence(s, |s|);
    assert s[..|s|] == s;
    DedupPrefixNoRepeat(s, |s|);
    DedupPriced(s);
    DedupRepresents(s);
    DedupKeepsFirst(s);
  }

  /** Every element of the filtered list is a priced element of the input. */
  lemma DedupPriced(s: seq<PriceEntry>)
    ensures forall e :: e in Dedup(s) ==> e in s && e.price.Some?
  {
    var r := Dedup(s);
    DedupPrefixOrigin(s, |s|);
    forall e | e in r ensures e in s && e.price.Some? {
      var k :| 0 <= k < |r| && r[k] == e;
      assert r[k].price.Some?;
      var i :| 0 <= i < |s| && r[k] == s[i];
    }
  }

  /** Every priced (price, date) pair of the input is represented. */
  lemma DedupRepresents(s: seq<PriceEntry>)
    ensures forall i :: 0 <= i < |s| && s[i].price.Some? ==>
      exists k :: 0 <= k < |Dedup(s)| && SameKey(Dedup(s)[k], s[i])
  {
    var r := Dedup(s);
    forall i | 0 <= i < |s| && s[i].price.Some?
      ensures exists k :: 0 <= k < |r| && SameKey(r[k], s[i])
    {
      var f := FindIndex(s, s[i]).value;
      FindIndexSameKey(s, s[f], s[i]);
      KeptInDedupPrefix(s, |s|, f);
      var k :| 0 <= k < |r| && r[k] == s[f];
    }
  }

  /** The first entry of every priced pair is kept. */
  lemma DedupKeepsFirst(s: seq<PriceEntry>)
    ensures forall i :: 0 <= i < |s| && s[i].price.Some? && KeptAt(s, i) ==> s[i] in Dedup(s)
  {
    forall i | 0 <= i < |s| && s[i].price.Some? && KeptAt(s, i) ensures s[i] in Dedup(s) {
      KeptInDedupPrefix(s, |s|, i);
    }
  }

  /** A list with no `NaN` price and no repeated pair passes the filter
      unchanged; in particular the filter is idempotent. */
  lemma DedupNoop(s: seq<PriceEntry>)
    requires NoRepeatedKey(s)
    requires forall i :: 0 <= i < |s| ==> s[i].price.Some?
    ensures Dedup(s) == s
  {
    forall n | 0 <= n <= |s| ensures DedupPrefix(s, n) == s[..n] {
      DedupNoopPrefix(s, n);
    }
    assert s[..|s|] == s;
  }

  lemma {:induction false} DedupNoopPrefix(s: seq<PriceEntry>, n: nat)
    requires n <= |s|
    requires NoRepeatedKey(s)
    requires forall i :: 0 <= i < |s| ==> s[i].price.Some?
    ensures DedupPrefix(s, n) == s[..n]
  {
    if n > 0 {
      DedupNoopPrefix(s, n - 1);
      FindIndexFirst(s, n - 1);
      assert s[..n] == s[..n - 1] + [s[n - 1]];
    }
  }

  lemma FindIndexFirst(s: seq<PriceEntry>, i: nat)
    requires i < |s| && s[i].price.Some?
    requires forall j :: 0 <= j < i ==> !SameKey(s[j], s[i])
    ensures KeptAt(s, i)
  {
    var r := FindIndex(s, s[i]);
    assert SameKey(s[i], s[i]);
  }

  lemma DedupIdempotent(s: seq<PriceEntry>)
    ensures Dedup(Dedup(s)) == Dedup(s)
  {
    DedupCorrect(s);
    var r := Dedup(s);
    assert forall i :: 0 <= i < |r| ==> r[i] in r;
    DedupNoop(r);
  }

  /** Without `NaN` prices, a list without repeated keys holds each entry
      at most once. */
  lemma {:induction false} NoRepeatedKeyCounts(s: seq<PriceEntry>)
    requires NoRepeatedKey(s)
    requires forall e :: e in s ==> e.price.Some?
    ensures forall x :: multiset(s)[x] <= 1
  {
    if s != [] {
      var init := s[..|s| - 1];
      var last := s[|s| - 1];
      assert forall i :: 0 <= i < |init| ==> init[i] == s[i];
      NoRepeatedKeyCounts(init);
      assert s == init + [last];
      assert last !in init by {
        forall i | 0 <= i < |init| ensures init[i] != last {
          assert !SameKey(s[i], s[|s| - 1]);
        }
      }
    }
  }

  /** An entry at two positions is counted twice. */
  lemma TwoCopies(s: seq<PriceEntry>, i: nat, j: nat)
    requires i < j < |s| && s[i] == s[j]
    ensures multiset(s)[s[j]] >= 2
  {
    assert s == s[..j] + [s[j]] + s[j + 1..];
    assert s[..j][i] == s[i];
  }

  /** Reordering a list without `NaN` prices and without repeated keys
      keeps it without repeated keys. */
  lemma NoRepeatedKeyPermuted(a: seq<PriceEntry>, b: seq<PriceEntry>)
    requires multiset(a) == multiset(b)
    requires NoRepeatedKey(b)
    requires forall e :: e in b ==> e.price.Some?
    ensures NoRepeatedKey(a)
  {
    NoRepeatedKeyCounts(b);
    forall i, j | 0 <= i < j < |a| ensures !SameKey(a[i], a[j]) {
      assert a[i] in multiset(b) && a[j] in multiset(b);
      if a[i] == a[j] {
        TwoCopies(a, i, j);
      } else {
        var p :| 0 <= p < |b| && b[p] == a[i];
        var q :| 0 <= q < |b| && b[q] == a[j];
        if p < q {
          assert !SameKey(b[p], b[q]);
        } else {
          assert !SameKey(b[q], b[p]);
        }
      }
    }
  }

  /** The date text entries are ordered by: `new Date(a.date) -
      new Date(b.date)` agrees with the text order on `YYYY-MM-DD` dates. */
  function DateKey(e: PriceEntry): string {
    match e.date
    case Some(JStr(d)) => d
    case _ => []
  }

  /** Filter, then sort by date: the last step of the Playwright and
      Puppeteer services. */
  function UniqueByDate(s: seq<PriceEntry>): (r: seq<PriceEntry>)
  {
    SortBy(Dedup(s), DateKey)
  }

  lemma UniqueByDateCorrect(s: seq<PriceEntry>)
    ensures SortedBy(UniqueByDate(s), DateKey)
    ensures multiset(UniqueByDate(s)) == multiset(Dedup(s))
    ensures NoRepeatedKey(UniqueByDate(s))
    ensures forall e :: e in UniqueByDate(s) ==> e in s && e.price.Some?
    ensures forall i :: 0 <= i < |s| && s[i].price.Some? ==>
      exists e :: e in UniqueByDate(s) && SameKey(e, s[i])
  {
    var d := Dedup(s);
    DedupCorrect(s);
    SortByCorrect(d, DateKey);
    var r := UniqueByDate(s);
    forall e | e in r ensures e in s && e.price.Some? {
      assert e in multiset(r);
      assert e in multiset(d);
    }
    forall i | 0 <= i < |s| && s[i].price.Some?
      ensures exists e :: e in r && SameKey(e, s[i])
    {
      var k :| 0 <= k < |d| && SameKey(d[k], s[i]);
      assert d[k] in multiset(d);
      assert d[k] in multiset(r);
      assert d[k] in r;
    }
    NoRepeatedKeyPermuted(r, d);
  }
}
