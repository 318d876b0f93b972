/** The JavaScript string operations the scrapers rely on, over `seq<char>`:
    the `\s` character class (which `trim` also uses), `trim`, collapsing
    whitespace runs, `includes`/`indexOf`, `replace` with a string pattern
    (first occurrence only), `split` on one character, ASCII lower-casing,
    and the default ordering of `Array.prototype.sort` on strings. */
module Text {

  import opened Wrappers

  /** The characters of JavaScript's `\s` class; `String.prototype.trim`
      removes exactly these (white space and line terminators). */
  predicate IsSpace(c: char) {
    || c == ' ' || c == '\t' || c == '\n' || c == '\r' || c == '\U{B}' || c == '\U{C}'
    || c == '\U{A0}' || c == '\U{1680}' || ('\U{2000}' <= c <= '\U{200A}')
    || c == '\U{2028}' || c == '\U{2029}' || c == '\U{202F}' || c == '\U{205F}'
    || c == '\U{3000}' || c == '\U{FEFF}'
  }

  predicate IsDigit(c: char) { '0' <= c <= '9' }

  predicate AllDigits(s: string) { forall i :: 0 <= i < |s| ==> IsDigit(s[i]) }

  function TrimStart(s: string): (r: string)
    ensures |r| <= |s| && r == s[|s| - |r|..]
    ensures r == [] || !IsSpace(r[0])
    ensures forall i :: 0 <= i < |s| - |r| ==> IsSpace(s[i])
  {
    if s != [] && IsSpace(s[0]) then TrimStart(s[1..]) else s
  }

  function TrimEnd(s: string): (r: string)
    ensures |r| <= |s| && r == s[..|r|]
    ensures r == [] || !IsSpace(r[|r| - 1])
    ensures forall i :: |r| <= i < |s| ==> IsSpace(s[i])
  {
    if s != [] && IsSpace(s[|s| - 1]) then TrimEnd(s[..|s| - 1]) else s
  }

  /** `String.prototype.trim`. */
  function Trim(s: string): (r: string)
    ensures r == [] || (!IsSpace(r[0]) && !IsSpace(r[|r| - 1]))
  {
    TrimEnd(TrimStart(s))
  }

  /** `s.replace(/\s+/g, ' ')`: every maximal run of whitespace becomes one
      space. */
  function CollapseSpaces(s: string): (r: string)
    ensures forall i :: 0 <= i < |r| && IsSpace(r[i]) ==> r[i] == ' '
    ensures forall i :: 0 <= i < |r| - 1 ==> !(IsSpace(r[i]) && IsSpace(r[i + 1]))
    ensures s != [] && IsSpace(s[0]) <==> r != [] && IsSpace(r[0])
  {
    if s == [] then []
    else if IsSpace(s[0]) then [' '] + CollapseSpaces(TrimStart(s))
    else [s[0]] + CollapseSpaces(s[1..])
  }

  /** Whitespace-collapsing then trimming, the last step of every
      `cleanHotelName`. */
  predicate WellSpaced(s: string) {
    && (s == [] || (!IsSpace(s[0]) && !IsSpace(s[|s| - 1])))
    && (forall i :: 0 <= i < |s| && IsSpace(s[i]) ==> s[i] == ' ')
    && (forall i :: 0 <= i < |s| - 1 ==> !(s[i] == ' ' && s[i + 1] == ' '))
  }

  lemma TrimKeepsSpacing(s: string)
    requires forall i :: 0 <= i < |s| && IsSpace(s[i]) ==> s[i] == ' '
    requires forall i :: 0 <= i < |s| - 1 ==> !(IsSpace(s[i]) && IsSpace(s[i + 1]))
    ensures WellSpaced(Trim(s))
  {
    var t := TrimStart(s);
    var r := TrimEnd(t);
    var d := |s| - |t|;
    assert t == s[d..];
    assert r == t[..|r|];
    assert forall i :: 0 <= i < |r| ==> r[i] == s[d + i];
    forall i | 0 <= i < |r| && IsSpace(r[i]) ensures r[i] == ' ' {
      assert IsSpace(s[d + i]);
    }
    forall i | 0 <= i < |r| - 1 ensures !(r[i] == ' ' && r[i + 1] == ' ') {
      assert !(IsSpace(s[d + i]) && IsSpace(s[d + i + 1]));
    }
  }

  /** `s.replace(/\s+/g, ' ').trim()`. */
  function CollapseAndTrim(s: string): (r: string)
    ensures WellSpaced(r)
  {
    TrimKeepsSpacing(CollapseSpaces(s));
    Trim(CollapseSpaces(s))
  }

  /** Text that already has single spaces only is left alone by the
      whitespace collapse. */
  lemma {:induction false} CollapseNoop(s: string)
    requires forall i :: 0 <= i < |s| && IsSpace(s[i]) ==> s[i] == ' '
    requires forall i :: 0 <= i < |s| - 1 ==> !(s[i] == ' ' && s[i + 1] == ' ')
    ensures CollapseSpaces(s) == s
  {
    if s != [] {
      var t := s[1..];
      assert forall i :: 0 <= i < |t| ==> t[i] == s[i + 1];
      CollapseNoop(t);
      if IsSpace(s[0]) {
        assert s[0] == ' ';
        if t != [] {
          assert t[0] == s[1];
          assert !IsSpace(t[0]);
        }
        assert TrimStart(t) == t;
        assert TrimStart(s) == t;
        assert s == [' '] + t;
      } else {
        assert s == [s[0]] + t;
      }
    }
  }

  /** Collapsing and trimming twice is the same as doing it once. */
  lemma CollapseAndTrimIdempotent(s: string)
    ensures CollapseAndTrim(CollapseAndTrim(s)) == CollapseAndTrim(s)
  {
    var r := CollapseAndTrim(s);
    CollapseNoop(r);
    assert TrimStart(r) == r;
    assert TrimEnd(r) == r;
  }

  /** Whether `p` occurs in `s` at position `i`. */
  predicate OccursAt(s: string, p: string, i: nat) {
    i + |p| <= |s| && s[i..i + |p|] == p
  }

  /** `s.indexOf(p)`, as an option: the first position where `p` occurs. */
  function IndexOf(s: string, p: string, from: nat := 0): (r: Option<nat>)
    requires from <= |s|
    ensures r.Some? ==> from <= r.value && OccursAt(s, p, r.value)
                        && forall j :: from <= j < r.value ==> !OccursAt(s, p, j)
    ensures r.None? ==> forall j :: from <= j <= |s| ==> !OccursAt(s, p, j)
    decreases |s| - from
  {
    if OccursAt(s, p, from) then Some(from)
    else if from == |s| then None
    else IndexOf(s, p, from + 1)
  }

  /** When the first character of `p` does not occur in `b`, the first
      occurrence of `p` in `b + p` is the appended one. */
  lemma FirstOccurrenceAppended(b: string, p: string)
    requires p != [] && p[0] !in b
    ensures IndexOf(b + p, p) == Some(|b|)
  {
    var s := b + p;
    forall k | 0 <= k < |b| ensures !OccursAt(s, p, k) {
      assert s[k..k + |p|][0] == b[k] && b[k] in b;
    }
    assert s[|b|..|b| + |p|] == p;
    assert OccursAt(s, p, |b|);
  }

  lemma Absent(b: string, p: string)
    requires p != [] && p[0] !in b
    ensures !Includes(b, p)
  {
    forall k | 0 <= k <= |b| ensures !OccursAt(b, p, k) {
      if k + |p| <= |b| {
        assert b[k..k + |p|][0] == b[k] && b[k] in b;
      }
    }
  }

  /** `s.includes(p)`. */
  predicate Includes(s: string, p: string) {
    IndexOf(s, p).Some?
  }

  /** `s.replace(p, rep)` with a string pattern: only the first occurrence
      is replaced. */
  function ReplaceFirst(s: string, p: string, rep: string): (r: string)
    ensures !Includes(s, p) ==> r == s
    ensures Includes(s, p) ==> |r| == |s| - |p| + |rep|
  {
    match IndexOf(s, p)
    case None => s
    case Some(i) => s[..i] + rep + s[i + |p|..]
  }

  /** Wherever the first occurrence of `p` is, the replacement keeps
      the text before it, puts `rep` in its place and keeps the text after
      it. */
  lemma ReplaceFirstAtFirst(s: string, p: string, rep: string, i: nat)
    requires OccursAt(s, p, i)
    requires forall j :: 0 <= j < i ==> !OccursAt(s, p, j)
    ensures ReplaceFirst(s, p, rep) == s[..i] + rep + s[i + |p|..]
  {
    var k := IndexOf(s, p);
    assert k.Some?;
    assert !(k.value < i);
    assert k.value == i;
  }

  /** Keeps the characters that `drop` rejects: `s.replace(/[...]/g, '')`. */
  function RemoveWhere(s: string, drop: char -> bool): (r: string)
    ensures |r| <= |s|
    ensures forall i :: 0 <= i < |r| ==> !drop(r[i])
    ensures forall c :: c in s && !drop(c) ==> c in r
    ensures forall c :: c in r ==> c in s
  {
    if s == [] then []
    else if drop(s[0]) then RemoveWhere(s[1..], drop)
    else [s[0]] + RemoveWhere(s[1..], drop)
  }

  lemma RemoveWhereNoop(s: string, drop: char -> bool)
    requires forall i :: 0 <= i < |s| ==> !drop(s[i])
    ensures RemoveWhere(s, drop) == s
  {
    if s != [] {
      RemoveWhereNoop(s[1..], drop);
    }
  }

  lemma {:induction false} RemoveWhereAppend(a: string, b: string, drop: char -> bool)
    ensures RemoveWhere(a + b, drop) == RemoveWhere(a, drop) + RemoveWhere(b, drop)
  {
    if a == [] {
      assert a + b == b;
    } else {
      assert (a + b)[1..] == a[1..] + b;
      RemoveWhereAppend(a[1..], b, drop);
    }
  }

  /** `s.split(sep)` for a one-character separator: never empty; the pieces
      joined with `sep` give back `s`. */
  function Split(s: string, sep: char): (parts: seq<string>)
    ensures |parts| >= 1
    ensures forall k :: 0 <= k < |parts| ==> sep !in parts[k]
    ensures Join(parts, sep) == s
  {
    if s == [] then [[]]
    else
      var rest := Split(s[1..], sep);
      if s[0] == sep then [[]] + rest
      else [[s[0]] + rest[0]] + rest[1..]
  }

  /** Text without the separator is a single piece. */
  lemma {:induction false} SplitNoSeparator(s: string, sep: char)
    requires sep !in s
    ensures Split(s, sep) == [s]
  {
    if s != [] {
      SplitNoSeparator(s[1..], sep);
      assert s == [s[0]] + s[1..];
    }
  }

  /** The last piece is what follows the last separator. */
  lemma {:induction false} SplitLast(a: string, c: string, sep: char)
    requires sep !in c
    ensures |Split(a + [sep] + c, sep)| >= 2
    ensures Last(Split(a + [sep] + c, sep)) == c
  {
    var s := a + [sep] + c;
    if a == [] {
      assert s[1..] == c;
      SplitNoSeparator(c, sep);
    } else {
      assert s[1..] == a[1..] + [sep] + c;
      SplitLast(a[1..], c, sep);
    }
  }

  function Join(parts: seq<string>, sep: char): string
    requires |parts| >= 1
  {
    if |parts| == 1 then parts[0] else parts[0] + [sep] + Join(parts[1..], sep)
  }

  function Last<T>(s: seq<T>): T
    requires |s| > 0
  {
    s[|s| - 1]
  }

  /** ASCII lower-casing; `toLowerCase` on the keyword checks. */
  function ToLower(s: string): (r: string)
    ensures |r| == |s|
  {
    if s == [] then []
    else [if 'A' <= s[0] <= 'Z' then (s[0] as int + 32) as char else s[0]] + ToLower(s[1..])
  }

  /** The order `Array.prototype.sort()` uses on strings: lexicographic by
      character code. */
  predicate StrLe(a: string, b: string) {
    if a == [] then true
    else if b == [] then false
    else if a[0] != b[0] then a[0] < b[0]
    else StrLe(a[1..], b[1..])
  }

  predicate StrLt(a: string, b: string) {
    StrLe(a, b) && a != b
  }

  lemma {:induction false} StrLeTotal(a: string, b: string)
    ensures StrLe(a, b) || StrLe(b, a)
  {
    if a != [] && b != [] && a[0] == b[0] {
      StrLeTotal(a[1..], b[1..]);
    }
  }

  lemma {:induction false} StrLeTrans(a: string, b: string, c: string)
    requires StrLe(a, b) && StrLe(b, c)
    ensures StrLe(a, c)
  {
    if a != [] && b != [] && c != [] && a[0] == b[0] && b[0] == c[0] {
      StrLeTrans(a[1..], b[1..], c[1..]);
    }
  }

  lemma {:induction false} StrLeAntisym(a: string, b: string)
    requires StrLe(a, b) && StrLe(b, a)
    ensures a == b
  {
    if a != [] && b != [] {
      StrLeAntisym(a[1..], b[1..]);
      assert a == [a[0]] + a[1..] && b == [b[0]] + b[1..];
    }
  }

  lemma {:induction false} StrLeRefl(a: string)
    ensures StrLe(a, a)
  {
    if a != [] { StrLeRefl(a[1..]); }
  }
}
