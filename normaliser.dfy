/** The five implementations of the scraping pipeline, and the price-string
    normaliser `extractPriceFromFormattedString` each of them carries. */
module Variants {

  /** Backend: `ScraperService` (apps/backend scraper.service.ts);
      Package: `HotelScraper` with `HotelMonitoringScraper` (packages/scraper);
      Playwright, Puppeteer, Daily: the three other backend services. */
  datatype Variant = Backend | Package | Playwright | Puppeteer | Daily {

    /** Whether the normaliser strips `$`, `£` and `¥` as well as `€`. */
    predicate StripsAllCurrencies() { this == Backend || this == Package }

    /** Whether this is one of the two lenient scrapers (`ScraperService`
        and `HotelScraper`), which capture responses on one long-lived page
        and whose name cleaning has no Booking.com suffix pattern. */
    predicate IsLenient() { this == Backend || this == Package }

    /** Whether the normaliser has an 'M' (millions) branch. */
    predicate HasMillions() { this == Backend || this == Package }

    /** Milliseconds waited between two hotels of a batch. */
    function BatchDelay(): (ms: nat)
      ensures ms == (if this == Backend then 1000 else 2000)
    {
      if this == Backend then 1000 else 2000
    }
  }
}

module Normaliser {

  import opened Wrappers
  import opened Text
  import opened Numbers
  import opened Variants

  /** The characters the variant's `/[€$£¥\s]/g` or `/[€\s]/g` removes. */
  predicate Stripped(v: Variant, c: char) {
    IsSpace(c) || c == '€' || (v.StripsAllCurrencies() && (c == '$' || c == '£' || c == '¥'))
  }

  function Strip(v: Variant, s: string): (r: string)
    ensures forall i :: 0 <= i < |r| ==> !Stripped(v, r[i])
  {
    RemoveWhere(s, c => Stripped(v, c))
  }

  /** `parseFloat(x) * 1000`: `NaN` stays `NaN`. */
  function Thousands(x: Option<real>): Option<real>
  {
    match x
    case None => None
    case Some(f) => Some(f * 1000.0)
  }

  /** `parseFloat(x) * 1000000`. */
  function Millions(x: Option<real>): Option<real>
  {
    match x
    case None => None
    case Some(f) => Some(f * 1000000.0)
  }

  /** `extractPriceFromFormattedString(priceStr)` on a string: strip the
      symbols and white space, then 'K' (only the first one is removed)
      scales by 1000, else, where the variant has it, 'M' scales by
      1000000, else the remainder is parsed as it is. `None` is `NaN`. The
      `catch` of the source cannot be reached with a string argument. */
  function NormalisePrice(v: Variant, priceStr: string): (r: Option<real>)
  {
    ReadStripped(v, Strip(v, priceStr))
  }

  /** The part of the normaliser after the stripping. */
  function ReadStripped(v: Variant, clean: string): (r: Option<real>)
  {
    if Includes(clean, "K") then KiloRead(clean)
    else if v.HasMillions() && Includes(clean, "M") then MegaRead(clean)
    else ParseFloat(clean)
  }

  /** The 'K' branch: the first 'K' removed, the rest parsed and scaled. */
  function KiloRead(clean: string): Option<real> {
    Thousands(ParseFloat(ReplaceFirst(clean, "K", "")))
  }

  /** The 'M' branch of the backend and package normalisers. */
  function MegaRead(clean: string): Option<real> {
    Millions(ParseFloat(ReplaceFirst(clean, "M", "")))
  }

  lemma {:induction false} StripUnchanged(v: Variant, s: string)
    requires forall i :: 0 <= i < |s| ==> !Stripped(v, s[i])
    ensures Strip(v, s) == s
  {
    RemoveWhereNoop(s, c => Stripped(v, c));
  }

  lemma {:induction false} StripPrefix(v: Variant, pre: string, s: string)
    requires forall i :: 0 <= i < |pre| ==> Stripped(v, pre[i])
    ensures Strip(v, pre + s) == Strip(v, s)
  {
    if pre != [] {
      assert (pre + s)[1..] == pre[1..] + s;
      StripPrefix(v, pre[1..], s);
    } else {
      assert pre + s == s;
    }
  }

  /** `s` does not contain the character `m`, so `s.includes(m)` is false. */
  lemma LacksChar(s: string, m: char)
    requires forall i :: 0 <= i < |s| ==> s[i] != m
    ensures !Includes(s, [m])
  {
    forall j | 0 <= j <= |s| ensures !OccursAt(s, [m], j) {
      if j + 1 <= |s| {
        assert s[j..j + 1][0] == s[j];
      }
    }
  }

  /** The first `m` of `s` is at `k`. */
  lemma FirstCharAt(s: string, m: char, k: nat)
    requires k < |s| && s[k] == m
    requires forall i :: 0 <= i < k ==> s[i] != m
    ensures IndexOf(s, [m]) == Some(k)
    ensures ReplaceFirst(s, [m], "") == s[..k] + s[k + 1..]
  {
    assert s[k..k + 1] == [m];
    assert OccursAt(s, [m], k);
    forall j | 0 <= j < k ensures !OccursAt(s, [m], j) {
      assert s[j..j + 1][0] == s[j];
    }
    assert s[..k] + [] + s[k + 1..] == s[..k] + s[k + 1..];
  }

  /** Digits followed by letters: nothing in it is stripped. */
  lemma DigitsAndLetters(v: Variant, ds: string, tail: string)
    requires AllDigits(ds)
    requires forall i :: 0 <= i < |tail| ==> 'A' <= tail[i] <= 'Z'
    ensures forall i :: 0 <= i < |ds + tail| ==> !Stripped(v, (ds + tail)[i])
  {
    forall i | 0 <= i < |ds + tail| ensures !Stripped(v, (ds + tail)[i]) {
      if i < |ds| {
        assert (ds + tail)[i] == ds[i];
      } else {
        assert (ds + tail)[i] == tail[i - |ds|];
      }
    }
  }

  /** Stripped characters in front of an already clean text are ignored. */
  lemma NormaliseAfterPrefix(v: Variant, pre: string, clean: string)
    requires forall i :: 0 <= i < |pre| ==> Stripped(v, pre[i])
    requires forall i :: 0 <= i < |clean| ==> !Stripped(v, clean[i])
    ensures NormalisePrice(v, pre + clean) == ReadStripped(v, clean)
  {
    StripPrefix(v, pre, clean);
    StripUnchanged(v, clean);
  }

  lemma ReadPlain(v: Variant, ds: string)
    requires |ds| >= 1 && AllDigits(ds)
    ensures ReadStripped(v, ds) == Some(DigitsValue(ds, 10) as real)
  {
    LacksChar(ds, 'K');
    LacksChar(ds, 'M');
    ParseFloatDigits(ds, []);
    assert ds + [] == ds;
  }

  /** The remainder once the first `m` of `ds + [m] + tail` is removed. */
  lemma RemoveMarker(ds: string, m: char, tail: string)
    requires AllDigits(ds) && !IsDigit(m)
    ensures ReplaceFirst(ds + [m] + tail, [m], "") == ds + tail
    ensures Includes(ds + [m] + tail, [m])
  {
    var s := ds + [m] + tail;
    FirstCharAt(s, m, |ds|);
    assert s[..|ds|] + s[|ds| + 1..] == ds + tail;
  }

  lemma ReadKilo(v: Variant, ds: string, tail: string)
    requires |ds| >= 1 && AllDigits(ds)
    requires tail == [] || (!IsDigit(tail[0]) && tail[0] != '.')
    ensures ReadStripped(v, ds + "K" + tail) == Thousands(Some(DigitsValue(ds, 10) as real))
  {
    RemoveMarker(ds, 'K', tail);
    ParseFloatDigits(ds, tail);
  }

  lemma ThousandsOf(n: nat)
    ensures Thousands(Some(n as real)) == Some((n * 1000) as real)
  {
  }

  lemma MillionsOf(n: nat)
    ensures Millions(Some(n as real)) == Some((n * 1000000) as real)
  {
  }

  lemma ReadMega(v: Variant, ds: string)
    requires |ds| >= 1 && AllDigits(ds)
    ensures !v.HasMillions() ==> ReadStripped(v, ds + "M") == Some(DigitsValue(ds, 10) as real)
    ensures v.HasMillions() ==> ReadStripped(v, ds + "M") == Some((DigitsValue(ds, 10) * 1000000) as real)
  {
    LacksChar(ds + "M", 'K');
    RemoveMarker(ds, 'M', []);
    assert ds + ['M'] + [] == ds + "M" && ds + [] == ds;
    ParseFloatDigits(ds, []);
    ParseFloatDigits(ds, "M");
    MillionsOf(DigitsValue(ds, 10));
  }

  /** Symbols and white space around a plain number are ignored:
      "€ 120" and "120" both give 120. */
  lemma PlainPrice(v: Variant, pre: string, ds: string)
    requires forall i :: 0 <= i < |pre| ==> Stripped(v, pre[i])
    requires |ds| >= 1 && AllDigits(ds)
    ensures NormalisePrice(v, pre + ds) == Some(DigitsValue(ds, 10) as real)
  {
    DigitsAndLetters(v, ds, []);
    assert ds + [] == ds;
    NormaliseAfterPrefix(v, pre, ds);
    ReadPlain(v, ds);
  }

  /** A 'K' suffix multiplies by 1000 in every variant: "€1K" gives 1000. */
  lemma KiloPrice(v: Variant, pre: string, ds: string)
    requires forall i :: 0 <= i < |pre| ==> Stripped(v, pre[i])
    requires |ds| >= 1 && AllDigits(ds)
    ensures NormalisePrice(v, pre + ds + "K") == Some((DigitsValue(ds, 10) * 1000) as real)
  {
    DigitsAndLetters(v, ds, "K");
    assert pre + ds + "K" == pre + (ds + "K");
    NormaliseAfterPrefix(v, pre, ds + "K");
    ReadKilo(v, ds, []);
    assert ds + "K" + [] == ds + "K";
    ThousandsOf(DigitsValue(ds, 10));
  }

  /** With an 'M' suffix the variants with a millions branch multiply by
      1000000 ("$2M" gives 2000000); the others read the 'M' as the end of
      the number ("€2M" gives 2). */
  lemma MegaPrice(v: Variant, pre: string, ds: string)
    requires forall i :: 0 <= i < |pre| ==> Stripped(v, pre[i])
    requires |ds| >= 1 && AllDigits(ds)
    ensures v.HasMillions() ==> NormalisePrice(v, pre + ds + "M") == Some((DigitsValue(ds, 10) * 1000000) as real)
    ensures !v.HasMillions() ==> NormalisePrice(v, pre + ds + "M") == Some(DigitsValue(ds, 10) as real)
  {
    DigitsAndLetters(v, ds, "M");
    assert pre + ds + "M" == pre + (ds + "M");
    NormaliseAfterPrefix(v, pre, ds + "M");
    ReadMega(v, ds);
  }

  /** Reading a clean text whose first 'K' is at `k`. */
  lemma ReadFirstKilo(v: Variant, clean: string, k: nat)
    requires k < |clean| && clean[k] == 'K'
    requires forall i :: 0 <= i < k ==> clean[i] != 'K'
    ensures ReadStripped(v, clean) == Thousands(ParseFloat(clean[..k] + clean[k + 1..]))
  {
    FirstCharAt(clean, 'K', k);
  }

  /** 'K' is looked at before 'M': "3MK" gives 3000 even where an 'M'
      branch exists, since once the 'K' is gone the 'M' ends the number. */
  lemma KiloBeforeMega(v: Variant, ds: string)
    requires |ds| >= 1 && AllDigits(ds)
    ensures NormalisePrice(v, ds + "M" + "K") == Some((DigitsValue(ds, 10) * 1000) as real)
  {
    var clean := ds + "M" + "K";
    assert ds + "MK" == clean;
    DigitsAndLetters(v, ds, "MK");
    assert [] + clean == clean;
    NormaliseAfterPrefix(v, [], clean);
    ReadMegaKilo(v, ds);
    ThousandsOf(DigitsValue(ds, 10));
  }

  /** Reading a clean text whose first 'K' follows `pre`. */
  lemma KiloAfter(v: Variant, pre: string, post: string)
    requires forall i :: 0 <= i < |pre| ==> pre[i] != 'K'
    ensures ReadStripped(v, pre + "K" + post) == Thousands(ParseFloat(pre + post))
  {
    var clean := pre + "K" + post;
    assert clean[|pre|] == 'K';
    assert forall i :: 0 <= i < |pre| ==> clean[i] == pre[i];
    ReadFirstKilo(v, clean, |pre|);
    assert clean[..|pre|] == pre && clean[|pre| + 1..] == post;
  }

  /** Reading a clean text that ends in its first 'K'. */
  lemma KiloLast(v: Variant, pre: string)
    requires forall i :: 0 <= i < |pre| ==> pre[i] != 'K'
    ensures ReadStripped(v, pre + "K") == Thousands(ParseFloat(pre))
  {
    var clean := pre + "K";
    assert clean[|pre|] == 'K';
    assert forall i :: 0 <= i < |pre| ==> clean[i] == pre[i];
    ReadFirstKilo(v, clean, |pre|);
    assert clean[..|pre|] == pre && clean[|pre| + 1..] == [];
    assert pre + [] == pre;
  }

  lemma ReadMegaKilo(v: Variant, ds: string)
    requires |ds| >= 1 && AllDigits(ds)
    ensures ReadStripped(v, ds + "M" + "K") == Thousands(Some(DigitsValue(ds, 10) as real))
  {
    var pre := ds + "M";
    assert forall i :: 0 <= i < |pre| ==> pre[i] != 'K' by {
      assert forall i :: 0 <= i < |ds| ==> pre[i] == ds[i];
    }
    KiloLast(v, pre);
    ParseFloatDigits(ds, "M");
  }

  /** Only the first 'K' is removed: "1K5K" reads as "15K", i.e. 15000. */
  lemma OnlyFirstKilo(v: Variant, a: string, b: string)
    requires |a| >= 1 && AllDigits(a) && AllDigits(b)
    ensures NormalisePrice(v, a + "K" + (b + "K")) == Some((DigitsValue(a + b, 10) * 1000) as real)
  {
    var clean := a + "K" + (b + "K");
    DigitsAndLetters(v, b, "K");
    forall i | 0 <= i < |clean| ensures !Stripped(v, clean[i]) {
      if i < |a| { assert clean[i] == a[i]; }
      else if i > |a| { assert clean[i] == (b + "K")[i - |a| - 1]; }
    }
    assert [] + clean == clean;
    NormaliseAfterPrefix(v, [], clean);
    ReadTwoKilos(v, a, b);
    ThousandsOf(DigitsValue(a + b, 10));
  }

  lemma ReadTwoKilos(v: Variant, a: string, b: string)
    requires |a| >= 1 && AllDigits(a) && AllDigits(b)
    ensures ReadStripped(v, a + "K" + (b + "K")) == Thousands(Some(DigitsValue(a + b, 10) as real))
  {
    KiloAfter(v, a, b + "K");
    JoinedDigits(a, b);
  }

  /** Two digit runs joined and followed by 'K' read as one number. */
  lemma JoinedDigits(a: string, b: string)
    requires |a| >= 1 && AllDigits(a) && AllDigits(b)
    ensures ParseFloat(a + (b + "K")) == Some(DigitsValue(a + b, 10) as real)
  {
    assert a + (b + "K") == (a + b) + "K";
    assert AllDigits(a + b);
    ParseFloatDigits(a + b, "K");
  }

  /** A text with no digit at all is `NaN` in every variant: the call sites
      drop it as falsy. */
  lemma NoDigitsIsNaN(v: Variant, s: string)
    requires forall i :: 0 <= i < |s| ==> !IsDigit(s[i])
    ensures NormalisePrice(v, s) == None
  {
    var clean := Strip(v, s);
    forall i | 0 <= i < |clean| ensures !IsDigit(clean[i]) {
      assert clean[i] in clean;
    }
    ReadNoDigits(v, clean);
  }

  lemma ReadNoDigits(v: Variant, clean: string)
    requires forall i :: 0 <= i < |clean| ==> !IsDigit(clean[i])
    ensures ReadStripped(v, clean) == None
  {
    if Includes(clean, "K") {
      NoDigitsAfterReplace(clean, "K");
    } else if v.HasMillions() && Includes(clean, "M") {
      NoDigitsAfterReplace(clean, "M");
    } else {
      ParseFloatNoDigits(clean);
    }
  }

  lemma NoDigitsAfterReplace(s: string, p: string)
    requires forall i :: 0 <= i < |s| ==> !IsDigit(s[i])
    ensures ParseFloat(ReplaceFirst(s, p, "")) == None
  {
    var r := ReplaceFirst(s, p, "");
    if Includes(s, p) {
      var j := IndexOf(s, p).value;
      assert r == s[..j] + s[j + |p|..];
      forall i | 0 <= i < |r| ensures !IsDigit(r[i]) {
        if i < j { assert r[i] == s[i]; } else { assert r[i] == s[i + |p|]; }
      }
    }
    ParseFloatNoDigits(r);
  }

  /** The default the lenient variants substitute for a missing price,
      "€0", is zero, i.e. falsy. */
  lemma DefaultPriceIsZero(v: Variant)
    ensures NormalisePrice(v, "€0") == Some(0.0)
  {
    assert "€0" == ['€'] + "0";
    PlainPrice(v, ['€'], "0");
    assert DigitsValue("0", 10) == 0;
  }
}
