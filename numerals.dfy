/** Decimal numerals as the scripts read and write them: Python's `float()` on the
    strings the scrapers produce, `f"{x:.2f}"` and `round(x, 2)`. Numbers are exact
    reals; binary floating point is not modelled. */
module Numerals {
  import opened Wrappers
  import opened Text

  /** An ASCII decimal digit, the regex class `[0-9]`. */
  predicate IsDigit(c: char) {
    '0' <= c <= '9'
  }

  predicate AllDigits(s: string) {
    forall k :: 0 <= k < |s| ==> IsDigit(s[k])
  }

  /** A text without any ASCII digit. */
  predicate NoDigitIn(s: string) {
    forall k :: 0 <= k < |s| ==> !IsDigit(s[k])
  }

  /** A character of the regex class `[0-9.]`. */
  predicate IsDigitOrDot(c: char) {
    IsDigit(c) || c == '.'
  }

  function DigitValue(c: char): (d: nat)
    requires IsDigit(c)
    ensures d < 10
  {
    c as int - '0' as int
  }

  function DigitChar(d: nat): (c: char)
    requires d < 10
    ensures IsDigit(c) && DigitValue(c) == d
  {
    ('0' as int + d) as char
  }

  /** The value of a string of decimal digits, most significant first. */
  function DigitsValue(s: string): nat
    requires AllDigits(s)
  {
    if s == [] then 0 else 10 * DigitsValue(s[..|s| - 1]) + DigitValue(s[|s| - 1])
  }

  function Pow10(n: nat): (p: nat)
    ensures p >= 1
  {
    if n == 0 then 1 else 10 * Pow10(n - 1)
  }

  /** `str(n)` for a natural number: its shortest decimal numeral. */
  function ShowNat(n: nat): (s: string)
    ensures 1 <= |s| && AllDigits(s)
    ensures DigitsValue(s) == n
    ensures s[0] == '0' ==> n == 0
  {
    if n < 10 then [DigitChar(n)]
    else
      var hi := ShowNat(n / 10);
      var s := hi + [DigitChar(n % 10)];
      assert s[..|s| - 1] == hi;
      s
  }

  /** The first position of `c` in `s`. */
  function IndexOf(s: string, c: char): (r: Option<nat>)
    ensures r.Some? ==> r.value < |s| && s[r.value] == c && c !in s[..r.value]
    ensures r.None? ==> c !in s
  {
    if s == [] then None
    else if s[0] == c then Some(0)
    else match IndexOf(s[1..], c)
      case None => None
      case Some(k) =>
        assert s[..k + 1] == [s[0]] + s[1..][..k];
        Some(k + 1)
  }

  /** `float(t)` for an unsigned numeral: digits with at most one `.` and at least one
      digit (`"15"`, `"1.5"`, `"1."`, `".5"`); anything else is a `ValueError`, here `None`. */
  function ParseUnsigned(s: string): (r: Option<real>)
    ensures r.Some? ==> forall k :: 0 <= k < |s| ==> IsDigitOrDot(s[k])
    ensures r.Some? ==> exists k :: 0 <= k < |s| && IsDigit(s[k])
    ensures r.Some? ==> r.value >= 0.0
    ensures s != [] && AllDigits(s) ==> r == Some(DigitsValue(s) as real)
  {
    match IndexOf(s, '.')
    case None =>
      if s != [] && AllDigits(s) then Some(DigitsValue(s) as real) else None
    case Some(i) =>
      var whole, frac := s[..i], s[i + 1..];
      if AllDigits(whole) && AllDigits(frac) && |whole| + |frac| > 0 then
        DottedNumeral(s, i);
        Some(DigitsValue(whole) as real + DigitsValue(frac) as real / Pow10(|frac|) as real)
      else None
  }

  /** Digits around one dot, with at least one digit: every character is a digit or the
      dot, and some character is a digit. */
  lemma DottedNumeral(s: string, i: nat)
    requires i < |s| && s[i] == '.'
    requires AllDigits(s[..i]) && AllDigits(s[i + 1..]) && |s| > 1
    ensures forall k :: 0 <= k < |s| ==> IsDigitOrDot(s[k])
    ensures exists k :: 0 <= k < |s| && IsDigit(s[k])
  {
    forall k | 0 <= k < |s| ensures IsDigitOrDot(s[k]) {
      if k < i {
        assert s[k] == s[..i][k];
      } else if k > i {
        assert s[k] == s[i + 1..][k - i - 1];
      }
    }
    var d := if i > 0 then 0 else i + 1;
    assert d < |s| && d != i;
    assert IsDigit(s[d]) by {
      if d < i { assert s[d] == s[..i][d]; } else { assert s[d] == s[i + 1..][d - i - 1]; }
    }
  }

  /** Python's `float(s)` on decimal numerals: surrounding whitespace is ignored and an
      optional sign may precede an unsigned numeral. */
  function ParseFloat(s: string): (r: Option<real>)
  {
    var t := Strip(s);
    if |t| > 0 && (t[0] == '-' || t[0] == '+') then
      match ParseUnsigned(t[1..])
      case None => None
      case Some(v) => Some(if t[0] == '-' then -v else v)
    else ParseUnsigned(t)
  }

  /** `float()` never succeeds on a string without a digit. */
  lemma ParseFloatNeedsDigit(s: string)
    requires NoDigitIn(s)
    ensures ParseFloat(s).None?
  {
    var t := Strip(s);
    var d := if |t| > 0 && (t[0] == '-' || t[0] == '+') then 1 else 0;
    var piece := t[d..];
    forall k | 0 <= k < |piece| ensures !IsDigit(piece[k]) {
      assert piece[k] == s[StripStart(s) + d + k];
    }
  }

  /** `replace(p, '')` adds no character, so it adds no digit. */
  lemma RemoveAllNoDigit(s: string, p: string)
    requires p != [] && NoDigitIn(s)
    ensures NoDigitIn(RemoveAll(s, p))
  {
    var r := RemoveAll(s, p);
    RemoveAllKeepsOthers(s, p);
    forall k | 0 <= k < |r| ensures !IsDigit(r[k]) {
      var j :| 0 <= j < |s| && s[j] == r[k];
    }
  }

  /** `strip()` keeps a slice, so it adds no digit. */
  lemma StripNoDigit(s: string)
    requires NoDigitIn(s)
    ensures NoDigitIn(Strip(s))
  {
    var r := Strip(s);
    forall k | 0 <= k < |r| ensures !IsDigit(r[k]) {
      assert r[k] == s[StripStart(s) + k];
    }
  }

  function Abs(x: real): (a: real)
    ensures a >= 0.0 && (a == x || a == -x)
  {
    if x < 0.0 then -x else x
  }

  /** The nearest whole number of hundredths to `a`, halves rounded up. */
  function RoundCents(a: real): (c: nat)
    requires a >= 0.0
    ensures a * 100.0 - 0.5 < c as real <= a * 100.0 + 0.5
  {
    (a * 100.0 + 0.5).Floor
  }

  /** `round(x, 2)`: `x` rounded to hundredths, halves away from zero. */
  function RoundTo2(x: real): (r: real)
    ensures Abs(r - x) <= 0.005
    ensures x >= 0.0 ==> r >= 0.0
    ensures x <= 0.0 ==> r <= 0.0
  {
    if x < 0.0 then -(RoundCents(-x) as real / 100.0) else RoundCents(x) as real / 100.0
  }

  /** A number below 100 written with two digits, as `%m`, `%d` and the decimals of
      `.2f` write it. */
  function Pad2(n: nat): (s: string)
    requires n < 100
    ensures |s| == 2 && AllDigits(s) && DigitsValue(s) == n
  {
    var s := [DigitChar(n / 10), DigitChar(n % 10)];
    assert s[..1] == [s[0]] && s[..1][..0] == [];
    assert DigitsValue(s[..1]) == n / 10;
    assert DigitsValue(s) == 10 * (n / 10) + n % 10;
    s
  }

  /** A count of hundredths written with exactly two decimals. */
  function ShowCents(c: nat): (s: string)
    ensures |s| >= 4 && IsDigit(s[0]) && IsDigit(s[|s| - 1])
    ensures forall k :: 0 <= k < |s| ==> IsDigitOrDot(s[k])
  {
    ShowNat(c / 100) + "." + Pad2(c % 100)
  }

  /** `f"{x:.2f}"`: a minus sign for a negative `x`, the integer part and two decimals. */
  function Fixed2(x: real): (s: string)
    ensures |s| >= 4 && !IsSpace(s[0]) && IsDigit(s[|s| - 1])
    ensures x >= 0.0 ==> IsDigit(s[0]) && forall k :: 0 <= k < |s| ==> IsDigitOrDot(s[k])
    ensures x < 0.0 ==> s[0] == '-' && |s| >= 5 && IsDigit(s[1])
    ensures x < 0.0 ==> forall k :: 1 <= k < |s| ==> IsDigitOrDot(s[k])
  {
    (if x < 0.0 then "-" else "") + ShowCents(RoundCents(Abs(x)))
  }

  lemma {:induction false} IndexOfAfterPlain(w: string, rest: string, c: char)
    requires c !in w
    ensures IndexOf(w + [c] + rest, c) == Some(|w|)
  {
    if w != [] {
      assert (w + [c] + rest)[1..] == w[1..] + [c] + rest;
      IndexOfAfterPlain(w[1..], rest, c);
    }
  }

  /** Reading back a two-decimal numeral gives its number of hundredths. */
  lemma ShowCentsValue(c: nat)
    ensures ParseUnsigned(ShowCents(c)) == Some(c as real / 100.0)
  {
    ShowCentsParts(c);
    CentsRead(ShowCents(c), |ShowNat(c / 100)|, c);
  }

  /** A numeral with the digits of `c / 100`, a dot and two digits for `c % 100` reads as
      `c` hundredths. */
  lemma CentsRead(s: string, n: nat, c: nat)
    requires IndexOf(s, '.') == Some(n) && 0 < n && |s| == n + 3
    requires AllDigits(s[..n]) && AllDigits(s[n + 1..])
    requires DigitsValue(s[..n]) == c / 100 && DigitsValue(s[n + 1..]) == c % 100
    ensures ParseUnsigned(s) == Some(c as real / 100.0)
  {
    ParseWithDot(s, n);
    HundredthsValue(DigitsValue(s[..n]), DigitsValue(s[n + 1..]), c, |s| - n - 1);
  }

  /** A whole part `c / 100` and two decimals `c % 100` make `c` hundredths. */
  lemma HundredthsValue(w: nat, f: nat, c: nat, m: nat)
    requires m == 2 && w == c / 100 && f == c % 100
    ensures w as real + f as real / Pow10(m) as real == c as real / 100.0
  {
    assert Pow10(m) == 100;
    CentsSplit(c);
  }

  /** Where the dot of a two-decimal numeral is and what stands on either side of it. */
  lemma ShowCentsParts(c: nat)
    ensures var s, w := ShowCents(c), ShowNat(c / 100);
      && IndexOf(s, '.') == Some(|w|) && s[..|w|] == w && s[|w| + 1..] == Pad2(c % 100)
  {
    var w, f := ShowNat(c / 100), Pad2(c % 100);
    var s := ShowCents(c);
    assert s == w + ['.'] + f;
    assert forall k :: 0 <= k < |w| ==> w[k] != '.';
    IndexOfAfterPlain(w, f, '.');
    assert s[..|w|] == w;
    assert s[|w| + 1..] == f;
  }

  /** A numeral whose first dot is at `i` reads as its whole part plus its fraction. */
  lemma ParseWithDot(s: string, i: nat)
    requires IndexOf(s, '.') == Some(i) && 0 < i
    requires AllDigits(s[..i]) && AllDigits(s[i + 1..])
    ensures ParseUnsigned(s) == Some(DigitsValue(s[..i]) as real + DigitsValue(s[i + 1..]) as real / Pow10(|s| - i - 1) as real)
  {
  }

  lemma CentsSplit(c: nat)
    ensures (c / 100) as real + (c % 100) as real / 100.0 == c as real / 100.0
  {
    assert c == 100 * (c / 100) + c % 100;
  }

  /** Reading back `f"{x:.2f}"` with `float()` gives `round(x, 2)`: formatting loses only
      what rounding to hundredths loses. */
  lemma Fixed2ReadBack(x: real)
    ensures ParseFloat(Fixed2(x)).Some? && ParseFloat(Fixed2(x)).value == RoundTo2(x)
  {
    var c := RoundCents(Abs(x));
    Fixed2Parts(x);
    if x < 0.0 {
      ShowCentsValue(c);
      StripFixed2(x);
      ParseFloatNegative(Fixed2(x));
    } else {
      CentsReadBack(Fixed2(x), c);
    }
  }

  lemma Fixed2Parts(x: real)
    ensures x < 0.0 ==> Fixed2(x)[0] == '-' && Fixed2(x)[1..] == ShowCents(RoundCents(Abs(x)))
    ensures x < 0.0 ==> RoundTo2(x) == -(RoundCents(Abs(x)) as real / 100.0)
    ensures x >= 0.0 ==> Fixed2(x) == ShowCents(RoundCents(Abs(x)))
    ensures x >= 0.0 ==> RoundTo2(x) == RoundCents(Abs(x)) as real / 100.0
  {
  }

  lemma StripFixed2(x: real)
    ensures Strip(Fixed2(x)) == Fixed2(x)
  {
    StripPlain(Fixed2(x));
  }

  lemma CentsReadBack(t: string, c: nat)
    requires t == ShowCents(c)
    ensures ParseFloat(t) == Some(c as real / 100.0)
  {
    ShowCentsValue(c);
    ParseFloatUnsigned(t);
  }

  lemma ParseFloatUnsigned(t: string)
    requires |t| > 0 && IsDigit(t[0]) && IsDigit(t[|t| - 1])
    ensures ParseFloat(t) == ParseUnsigned(t)
  {
    StripPlain(t);
  }

  lemma ParseFloatNegative(t: string)
    requires Strip(t) == t && |t| > 0 && t[0] == '-'
    ensures ParseUnsigned(t[1..]).Some? ==> ParseFloat(t) == Some(-ParseUnsigned(t[1..]).value)
  {
  }
}
