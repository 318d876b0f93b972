/** `parseFloat` and `parseInt` as the scrapers use them, and the decimal
    rendering of a natural number (`Number.prototype.toString`). A parse that
    JavaScript answers with `NaN` gives `None`. */
module Numbers {

  import opened Wrappers
  import opened Text

  /** The value of a character as a digit in `radix` (2..36), if it is one. */
  function DigitValue(c: char, radix: nat): (r: Option<nat>)
    ensures r.Some? ==> r.value < radix
    ensures radix == 10 ==> (r.Some? <==> IsDigit(c))
  {
    var v: int :=
      if '0' <= c <= '9' then c as int - '0' as int
      else if 'a' <= c <= 'z' then c as int - 'a' as int + 10
      else if 'A' <= c <= 'Z' then c as int - 'A' as int + 10
      else radix;
    if 0 <= v < radix then Some(v) else None
  }

  predicate IsRadixDigit(c: char, radix: nat) { DigitValue(c, radix).Some? }

  /** Length of the longest prefix of `s` made of digits of `radix`. */
  function DigitRun(s: string, radix: nat): (n: nat)
    ensures n <= |s|
    ensures forall i :: 0 <= i < n ==> IsRadixDigit(s[i], radix)
    ensures n < |s| ==> !IsRadixDigit(s[n], radix)
  {
    if s != [] && IsRadixDigit(s[0], radix) then 1 + DigitRun(s[1..], radix) else 0
  }

  /** The radixes the scrapers pass to `parseInt`. */
  predicate UsedRadix(radix: nat) { radix == 10 || radix == 36 }

  /** The value of a digit string in `radix`, most significant digit first
      (the two radixes are spelled out to keep the arithmetic linear). */
  function DigitsValue(ds: string, radix: nat): nat
    requires UsedRadix(radix)
    requires forall i :: 0 <= i < |ds| ==> IsRadixDigit(ds[i], radix)
  {
    if ds == [] then 0
    else
      assert IsRadixDigit(ds[|ds| - 1], radix);
      var high := DigitsValue(ds[..|ds| - 1], radix);
      (if radix == 10 then high * 10 else high * 36) + DigitValue(ds[|ds| - 1], radix).value
  }

  /** The value of the digits after a decimal point. */
  function FractionValue(ds: string): real
    requires AllDigits(ds)
  {
    if ds == [] then 0.0
    else ((ds[0] as int - '0' as int) as real + FractionValue(ds[1..])) / 10.0
  }

  /** Splits a leading sign off: whether it was '-', and the rest. */
  function Sign(s: string): (r: (bool, string))
  {
    if s != [] && s[0] == '-' then (true, s[1..])
    else if s != [] && s[0] == '+' then (false, s[1..])
    else (false, s)
  }

  /** `parseFloat(s)`: leading white space is skipped, then the longest
      prefix of the form sign, digits, '.', digits (at least one digit) is
      read; anything after it is ignored. No prefix: `NaN`, here `None`. */
  function ParseFloat(s: string): (r: Option<real>)
  {
    var (negative, t) := Sign(TrimStart(s));
    var (whole, frac) := DecimalParts(t);
    var magnitude := DigitsValue(whole, 10) as real + FractionValue(frac);
    if whole == [] && frac == [] then None
    else if negative then Some(-magnitude)
    else Some(magnitude)
  }

  /** The digits before and after the point of the longest decimal prefix
      of `t` (no sign, no white space). */
  function DecimalParts(t: string): (r: (string, string))
    ensures AllDigits(r.0) && AllDigits(r.1)
    ensures r.0 == t[..DigitRun(t, 10)]
  {
    var n := DigitRun(t, 10);
    var rest := t[n..];
    var frac := if rest != [] && rest[0] == '.' then rest[1..][..DigitRun(rest[1..], 10)] else [];
    (t[..n], frac)
  }

  /** `parseInt(s, radix)`: white space skipped, optional sign, then the
      longest run of digits of `radix`; none at all gives `NaN`. */
  function ParseInt(s: string, radix: nat): (r: Option<int>)
    requires UsedRadix(radix)
  {
    var (negative, t) := Sign(TrimStart(s));
    var n := DigitRun(t, radix);
    if n == 0 then None
    else if negative then Some(-(DigitsValue(t[..n], radix) as int))
    else Some(DigitsValue(t[..n], radix))
  }

  /** The decimal rendering of a natural number. */
  function NatToString(n: nat): (s: string)
    ensures |s| >= 1 && AllDigits(s)
    ensures s[0] == '0' ==> n == 0
  {
    if n < 10 then [('0' as int + n) as char]
    else NatToString(n / 10) + [('0' as int + n % 10) as char]
  }

  /** The decimal rendering of an integer: a minus sign before the
      rendering of its magnitude when negative. */
  function IntToString(i: int): (s: string)
    ensures |s| >= 1
  {
    if i < 0 then "-" + NatToString(-i) else NatToString(i)
  }

  lemma {:induction false} DigitRunOfDigits(ds: string, rest: string, radix: nat)
    requires forall i :: 0 <= i < |ds| ==> IsRadixDigit(ds[i], radix)
    requires rest == [] || !IsRadixDigit(rest[0], radix)
    ensures DigitRun(ds + rest, radix) == |ds|
  {
    if ds != [] {
      assert (ds + rest)[1..] == ds[1..] + rest;
      DigitRunOfDigits(ds[1..], rest, radix);
    } else {
      assert ds + rest == rest;
    }
  }

  lemma {:induction false} NatToStringValue(n: nat)
    ensures DigitsValue(NatToString(n), 10) == n
  {
    var s := NatToString(n);
    if n >= 10 {
      NatToStringValue(n / 10);
      assert s[..|s| - 1] == NatToString(n / 10);
    }
  }

  /** Any digit string followed by a character that cannot continue a
      number parses as the digits' value. */
  lemma ParseFloatDigits(ds: string, rest: string)
    requires |ds| >= 1 && AllDigits(ds)
    requires rest == [] || (!IsDigit(rest[0]) && rest[0] != '.')
    ensures ParseFloat(ds + rest) == Some(DigitsValue(ds, 10) as real)
  {
    var s := ds + rest;
    assert IsDigit(s[0]);
    NoLeadingSpace(s);
    DecimalPartsOfDigits(ds, rest);
    var (negative, t) := Sign(TrimStart(s));
    assert !negative && t == s;
    var (whole, frac) := DecimalParts(t);
    assert whole == ds && frac == [];
    assert FractionValue(frac) == 0.0;
  }

  lemma NoLeadingSpace(s: string)
    requires s != [] && IsDigit(s[0])
    ensures Sign(TrimStart(s)) == (false, s)
  {
  }

  lemma DecimalPartsOfDigits(ds: string, rest: string)
    requires AllDigits(ds)
    requires rest == [] || (!IsDigit(rest[0]) && rest[0] != '.')
    ensures DecimalParts(ds + rest) == (ds, [])
  {
    var s := ds + rest;
    DigitRunOfDigits(ds, rest, 10);
    assert s[..|ds|] == ds && s[|ds|..] == rest;
  }

  /** Round trip: `parseInt(String(n), 10) == n` and `parseFloat(String(n)) == n`. */
  lemma NatRoundTrip(n: nat)
    ensures ParseInt(NatToString(n), 10) == Some(n)
    ensures ParseFloat(NatToString(n)) == Some(n as real)
  {
    var s := NatToString(n);
    NatToStringValue(n);
    assert IsDigit(s[0]);
    NoLeadingSpace(s);
    DigitRunOfDigits(s, [], 10);
    assert s + [] == s;
    assert s[..|s|] == s;
    ParseFloatDigits(s, []);
  }

  /** Round trip for any integer, negative ones included:
      `parseInt(String(i), 10) == i`. */
  lemma IntRoundTrip(i: int)
    ensures ParseInt(IntToString(i), 10) == Some(i)
  {
    if i >= 0 {
      assert IntToString(i) == NatToString(i);
      NatRoundTrip(i);
    } else {
      assert IntToString(i) == "-" + NatToString(-i);
      NegativeRoundTrip(-i);
    }
  }

  lemma NegativeRoundTrip(n: nat)
    ensures ParseInt("-" + NatToString(n), 10) == Some(-(n as int))
  {
    NatToStringValue(n);
    MinusDigits(NatToString(n));
  }

  /** A minus sign followed by digits parses as the negated value. */
  lemma MinusDigits(d: string)
    requires |d| >= 1 && AllDigits(d)
    ensures ParseInt("-" + d, 10) == Some(-(DigitsValue(d, 10) as int))
  {
    var s := "-" + d;
    assert s[0] == '-' && s[1..] == d;
    assert TrimStart(s) == s;
    SignedDigits(s, d);
  }

  /** Once a minus sign is split off, a run of digits to the end parses
      as its value, negated. */
  lemma SignedDigits(s: string, t: string)
    requires Sign(TrimStart(s)) == (true, t)
    requires |t| >= 1 && AllDigits(t)
    ensures ParseInt(s, 10) == Some(-(DigitsValue(t, 10) as int))
  {
    DigitRunOfDigits(t, [], 10);
    assert t + [] == t;
    assert t[..|t|] == t;
  }

  /** A digit string parses, in base 10, as its value. */
  lemma ParseIntDigits(ds: string)
    requires |ds| >= 1 && AllDigits(ds)
    ensures ParseInt(ds, 10) == Some(DigitsValue(ds, 10))
  {
    NoLeadingSpace(ds);
    DigitRunOfDigits(ds, [], 10);
    assert ds + [] == ds;
    assert ds[..|ds|] == ds;
  }

  /** A text without any digit parses to `NaN` when it starts with neither a
      sign nor a point. */
  lemma ParseFloatNoDigits(s: string)
    requires forall i :: 0 <= i < |s| ==> !IsDigit(s[i])
    ensures ParseFloat(s) == None
  {
    var t0 := TrimStart(s);
    var (sign, t) := Sign(t0);
    assert forall i :: 0 <= i < |t| ==> !IsDigit(t[i]);
    assert DigitRun(t, 10) == 0;
  }
}
