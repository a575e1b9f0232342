/** The regular expressions of the scripts, each written out as an explicit scanner
    over strings with the matching rules of Python's `re` (leftmost match, greedy and
    lazy repetition, backtracking) argued in its contract. */
module Patterns {
  import opened Wrappers
  import opened Text
  import opened Numerals

  /** A fullwidth digit `０`..`９`. */
  predicate IsWideDigit(c: char) {
    '\U{FF10}' <= c <= '\U{FF19}'
  }

  /** The class `[0-9０-９]`, also used for `\d`. */
  predicate IsAnyDigit(c: char) {
    IsDigit(c) || IsWideDigit(c)
  }

  /** The class `[都道府県]`: the last character of a prefecture name. */
  predicate IsPrefectureMark(c: char) {
    c == '都' || c == '道' || c == '府' || c == '県'
  }

  /** The class `[市区町村]`: the last character of a municipality name. */
  predicate IsMunicipalityMark(c: char) {
    c == '市' || c == '区' || c == '町' || c == '村'
  }

  /** The character classes that the patterns repeat. */
  datatype Class =
    | AnyDigit      // [0-9０-９] and \d
    | DigitComma    // [0-9,]
    | DigitDot      // [0-9.]
    | Space         // \s
    | PriceGap      // [^0-9\n\r　-]

  predicate InClass(k: Class, c: char) {
    match k
    case AnyDigit => IsAnyDigit(c)
    case DigitComma => IsDigit(c) || c == ','
    case DigitDot => IsDigitOrDot(c)
    case Space => IsSpace(c)
    case PriceGap => !(IsDigit(c) || c == '\n' || c == '\r' || c == '\U{3000}' || c == '-')
  }

  /** The end of the longest run of `k` characters starting at `i`: where a greedy
      `k+` or `k*` stops. */
  function RunEnd(s: string, i: nat, k: Class): (e: nat)
    requires i <= |s|
    ensures i <= e <= |s|
    ensures forall j :: i <= j < e ==> InClass(k, s[j])
    ensures e == |s| || !InClass(k, s[e])
    decreases |s| - i
  {
    if i < |s| && InClass(k, s[i]) then RunEnd(s, i + 1, k) else i
  }

  /** The run cut out of the text is all `k` characters. */
  lemma RunPiece(s: string, i: nat, k: Class)
    requires i <= |s|
    ensures var r := s[i..RunEnd(s, i, k)];
      forall j :: 0 <= j < |r| ==> InClass(k, r[j])
  {
    var e := RunEnd(s, i, k);
    forall j | 0 <= j < e - i ensures InClass(k, s[i..e][j]) {
      assert s[i..e][j] == s[i + j];
    }
  }

  /** A run of `k` characters ends where the first non-`k` character is. */
  lemma {:induction false} RunEndAt(s: string, i: nat, e: nat, k: Class)
    requires i <= e <= |s|
    requires forall j :: i <= j < e ==> InClass(k, s[j])
    requires e == |s| || !InClass(k, s[e])
    ensures RunEnd(s, i, k) == e
    decreases e - i
  {
    if i < e {
      RunEndAt(s, i + 1, e, k);
    }
  }

  // ---------------------------------------------------------------------------
  // re.findall over a matcher

  /** A matcher for `s`: at each position, where the captured text and the whole match
      end when the pattern matches there. Captures are non-empty and a match ends no
      earlier than its capture. */
  ghost predicate Advancing(s: string, at: nat -> Option<(nat, nat)>) {
    forall i: nat :: at(i).Some? ==> i < at(i).value.0 <= at(i).value.1 <= |s|
  }

  /** `re.findall` driven by a matcher, from `i`: try each position in turn, report the
      capture of a match and resume where the match ends. */
  function Scan(s: string, at: nat -> Option<(nat, nat)>, i: nat): seq<string>
    requires Advancing(s, at)
    decreases |s| - i
  {
    if i >= |s| then []
    else if at(i).Some? then [s[i..at(i).value.0]] + Scan(s, at, at(i).value.1)
    else Scan(s, at, i + 1)
  }

  /** Reference definition: the captures of the matches at the positions `start` admits,
      in text order. */
  function Starting(s: string, at: nat -> Option<(nat, nat)>, start: nat -> bool, i: nat): seq<string>
    requires Advancing(s, at)
    decreases |s| - i
  {
    if i >= |s| then []
    else (if start(i) && at(i).Some? then [s[i..at(i).value.0]] else []) + Starting(s, at, start, i + 1)
  }

  /** Positions where nothing matches do not change what the scan reports. */
  lemma {:induction false} ScanSkips(s: string, at: nat -> Option<(nat, nat)>, a: nat, b: nat)
    requires Advancing(s, at) && a <= b <= |s|
    requires forall j :: a <= j < b ==> at(j).None?
    ensures Scan(s, at, a) == Scan(s, at, b)
    decreases b - a
  {
    if a < b {
      ScanSkips(s, at, a + 1, b);
    }
  }

  /** Positions that are not admitted, or where nothing matches, add nothing to the
      reference. */
  lemma {:induction false} StartingSkips(s: string, at: nat -> Option<(nat, nat)>, start: nat -> bool, a: nat, b: nat)
    requires Advancing(s, at) && a <= b <= |s|
    requires forall j :: a <= j < b ==> !start(j) || at(j).None?
    ensures Starting(s, at, start, a) == Starting(s, at, start, b)
    decreases b - a
  {
    if a < b {
      assert Starting(s, at, start, a) == [] + Starting(s, at, start, a + 1);
      StartingSkips(s, at, start, a + 1, b);
    }
  }

  /** Every item of the reference is the capture of a match at an admitted position. */
  lemma {:induction false} StartingItem(s: string, at: nat -> Option<(nat, nat)>, start: nat -> bool, i: nat, k: nat)
    returns (j: nat)
    requires Advancing(s, at) && k < |Starting(s, at, start, i)|
    ensures i <= j < |s| && start(j) && at(j).Some?
    ensures Starting(s, at, start, i)[k] == s[j..at(j).value.0]
    decreases |s| - i
  {
    var head := if start(i) && at(i).Some? then [s[i..at(i).value.0]] else [];
    assert Starting(s, at, start, i) == head + Starting(s, at, start, i + 1);
    if k < |head| {
      j := i;
    } else {
      j := StartingItem(s, at, start, i + 1, k - |head|);
    }
  }

  // ---------------------------------------------------------------------------
  // https://sumstock\.jp/search/\d+/\d+/\d+   (re.findall)

  const ListingPrefix := "https://sumstock.jp/search/"

  predicate AllAnyDigits(s: string) {
    forall j :: 0 <= j < |s| ==> IsAnyDigit(s[j])
  }

  /** A listing URL: the prefix followed by three non-empty digit runs separated by `/`. */
  predicate IsListingUrl(u: string, x: string, y: string, z: string) {
    && x != [] && y != [] && z != []
    && AllAnyDigits(x) && AllAnyDigits(y) && AllAnyDigits(z)
    && u == ListingPrefix + x + "/" + y + "/" + z
  }

  /** Where a URL match starting at `i` ends, if one starts there. Each `\d+` is greedy and
      is followed by a `/` or by the end of the match, so no backtracking can help. */
  function UrlEnd(s: string, i: nat): (r: Option<nat>)
    ensures r.Some? ==> i + |ListingPrefix| < r.value <= |s|
    ensures r.Some? ==> r.value == |s| || !IsAnyDigit(s[r.value])
    ensures r.Some? ==> OccursAt(s, ListingPrefix, i)
    ensures r.Some? ==> forall j :: i + |ListingPrefix| <= j < r.value ==> IsAnyDigit(s[j]) || s[j] == '/'
  {
    UrlEndWith(s, i, ListingPrefix)
  }

  /** The same scanner for any fixed prefix `p`. */
  function UrlEndWith(s: string, i: nat, p: string): (r: Option<nat>)
    ensures r.Some? ==> i + |p| < r.value <= |s|
    ensures r.Some? ==> r.value == |s| || !IsAnyDigit(s[r.value])
    ensures r.Some? ==> OccursAt(s, p, i)
    ensures r.Some? ==> forall j :: i + |p| <= j < r.value ==> IsAnyDigit(s[j]) || s[j] == '/'
  {
    if !OccursAt(s, p, i) then None
    else
      var a := i + |p|;
      var b := RunEnd(s, a, AnyDigit);
      if b == a || b == |s| || s[b] != '/' then None
      else
        var c := RunEnd(s, b + 1, AnyDigit);
        if c == b + 1 || c == |s| || s[c] != '/' then None
        else
          var d := RunEnd(s, c + 1, AnyDigit);
          if d == c + 1 then None else Some(d)
  }

  /** What a match at `i` spells is a listing URL whose last number cannot be extended. */
  lemma UrlEndSound(s: string, i: nat)
    requires UrlEnd(s, i).Some?
    ensures exists x, y, z :: IsListingUrl(s[i..UrlEnd(s, i).value], x, y, z)
  {
    var a := i + |ListingPrefix|;
    var b := RunEnd(s, a, AnyDigit);
    var c := RunEnd(s, b + 1, AnyDigit);
    var d := UrlEnd(s, i).value;
    var x, y, z := s[a..b], s[b + 1..c], s[c + 1..d];
    UrlPieces(s, ListingPrefix, i, a, b, c, d);
    assert AllAnyDigits(x) && AllAnyDigits(y) && AllAnyDigits(z);
    assert IsListingUrl(s[i..d], x, y, z);
  }

  /** A text cut at two slashes after a prefix is the prefix and the three pieces. */
  lemma UrlPieces(s: string, p: string, i: nat, a: nat, b: nat, c: nat, d: nat)
    requires i <= a <= b && b + 1 <= c && c + 1 <= d <= |s|
    requires s[i..a] == p && s[b] == '/' && s[c] == '/'
    ensures s[i..d] == p + s[a..b] + "/" + s[b + 1..c] + "/" + s[c + 1..d]
  {
    SliceSplit(s, i, a, b);
    SliceSplit(s, i, b, b + 1);
    SliceSplit(s, i, b + 1, c);
    SliceSplit(s, i, c, c + 1);
    SliceSplit(s, i, c + 1, d);
    assert s[b..b + 1] == "/" && s[c..c + 1] == "/";
  }

  /** Every listing URL in the text whose last number is not followed by another digit is
      matched where it starts: the prefix at `i`, then the numbers `x`, `y` and `z` separated
      by slashes. */
  lemma UrlEndComplete(s: string, i: nat, x: string, y: string, z: string)
    requires x != [] && y != [] && z != []
    requires AllAnyDigits(x) && AllAnyDigits(y) && AllAnyDigits(z)
    requires var a := i + |ListingPrefix|; var b := a + |x|; var c := b + 1 + |y|;
      && OccursAt(s, ListingPrefix, i) && OccursAt(s, x, a) && b < |s| && s[b] == '/'
      && OccursAt(s, y, b + 1) && c < |s| && s[c] == '/' && OccursAt(s, z, c + 1)
    requires var e := i + |ListingPrefix| + |x| + |y| + |z| + 2; e == |s| || !IsAnyDigit(s[e])
    ensures UrlEnd(s, i) == Some(i + |ListingPrefix| + |x| + |y| + |z| + 2)
  {
    var b := i + |ListingPrefix| + |x|;
    var c := b + 1 + |y|;
    UrlEndWithComplete(s, ListingPrefix, i, x, y, z, b, c, c + 1 + |z|);
  }

  lemma UrlEndWithComplete(s: string, p: string, i: nat, x: string, y: string, z: string, b: nat, c: nat, e: nat)
    requires b == i + |p| + |x| && c == b + 1 + |y| && e == c + 1 + |z|
    requires x != [] && y != [] && z != []
    requires AllAnyDigits(x) && AllAnyDigits(y) && AllAnyDigits(z)
    requires OccursAt(s, p, i) && OccursAt(s, x, i + |p|) && OccursAt(s, y, b + 1) && OccursAt(s, z, c + 1)
    requires b < |s| && s[b] == '/' && c < |s| && s[c] == '/'
    requires e == |s| || !IsAnyDigit(s[e])
    ensures UrlEndWith(s, i, p) == Some(e)
  {
    DigitRunAt(s, i + |p|, x);
    DigitRunAt(s, b + 1, y);
    DigitRunAt(s, c + 1, z);
    UrlEndAt(s, p, i, b, c, e);
  }

  /** A match at `i` ends after the third digit run when the prefix is there and the first
      two runs are non-empty and closed by slashes. */
  lemma UrlEndAt(s: string, p: string, i: nat, b: nat, c: nat, d: nat)
    requires OccursAt(s, p, i)
    requires RunEnd(s, i + |p|, AnyDigit) == b && i + |p| < b < |s| && s[b] == '/'
    requires RunEnd(s, b + 1, AnyDigit) == c && b + 1 < c < |s| && s[c] == '/'
    requires RunEnd(s, c + 1, AnyDigit) == d && c + 1 < d
    ensures UrlEndWith(s, i, p) == Some(d)
  {
  }

  /** A digit string sitting in the text before a non-digit is exactly one greedy `\d+` run. */
  lemma DigitRunAt(s: string, a: nat, x: string)
    requires a + |x| <= |s| && s[a..a + |x|] == x && AllAnyDigits(x)
    requires a + |x| == |s| || !IsAnyDigit(s[a + |x|])
    ensures RunEnd(s, a, AnyDigit) == a + |x|
  {
    forall j | a <= j < a + |x| ensures IsAnyDigit(s[j]) {
      assert s[j] == x[j - a];
    }
    RunEndAt(s, a, a + |x|, AnyDigit);
  }

  /** The URL pattern as a matcher over `s`: the capture is the whole match. */
  function Urls(s: string): (at: nat -> Option<(nat, nat)>)
    ensures Advancing(s, at)
  {
    (j: nat) => match UrlEnd(s, j) case Some(e) => Some((e, e)) case None => None
  }

  /** Every position. */
  function Anywhere(): nat -> bool {
    (j: nat) => true
  }

  /** `re.findall` with this pattern: scan from the left, and after a match resume where
      it ended. */
  function FindUrlsFrom(s: string, i: nat): seq<string> {
    Scan(s, Urls(s), i)
  }

  /** Every URL match of the text, one per position where one starts, in text order. */
  function UrlOccurrencesFrom(s: string, i: nat): seq<string> {
    Starting(s, Urls(s), Anywhere(), i)
  }

  /** Two URL matches never overlap: no match starts strictly inside another. The only
      `h` of the prefix not at its start is followed by `/`, and the rest of a match is
      digits and slashes. */
  lemma NoUrlInside(s: string, i: nat, j: nat)
    requires UrlEnd(s, i).Some? && i < j < UrlEnd(s, i).value
    ensures UrlEnd(s, j).None?
  {
    var n := |ListingPrefix|;
    if j < i + n {
      var d := j - i;
      assert s[i..i + n] == ListingPrefix;
      assert s[j] == ListingPrefix[d];
      PrefixSelfOverlap(d);
      if ListingPrefix[d] == 'h' {
        assert s[j + 1] == ListingPrefix[d + 1];
        assert j + n <= |s| ==> s[j..j + n][1] != 't';
      } else {
        assert j + n <= |s| ==> s[j..j + n][0] != 'h';
      }
    } else {
      assert j + n <= |s| ==> s[j..j + n][0] != 'h';
    }
    assert ListingPrefix[0] == 'h' && ListingPrefix[1] == 't';
    assert !OccursAt(s, ListingPrefix, j);
  }

  /** Inside the prefix, an `h` is never followed by `t` except at its start. */
  lemma PrefixSelfOverlap(d: nat)
    requires 0 < d < |ListingPrefix|
    ensures ListingPrefix[d] != 'h' || (d + 1 < |ListingPrefix| && ListingPrefix[d + 1] != 't')
  {
  }

  /** Every match is also an occurrence, and the occurrences list nothing strictly inside
      it. */
  lemma StepOverUrl(s: string, i: nat)
    requires i < |s| && UrlEnd(s, i).Some?
    ensures var e := UrlEnd(s, i).value;
      && FindUrlsFrom(s, i) == [s[i..e]] + FindUrlsFrom(s, e)
      && UrlOccurrencesFrom(s, i) == [s[i..e]] + UrlOccurrencesFrom(s, e)
  {
    var e := UrlEnd(s, i).value;
    assert Urls(s)(i) == Some((e, e));
    UrlsSkipInside(s, i);
  }

  lemma UrlsSkipInside(s: string, i: nat)
    requires i < |s| && UrlEnd(s, i).Some?
    ensures UrlOccurrencesFrom(s, i + 1) == UrlOccurrencesFrom(s, UrlEnd(s, i).value)
  {
    var e := UrlEnd(s, i).value;
    forall j | i + 1 <= j < e ensures !Anywhere()(j) || Urls(s)(j).None? {
      NoUrlInside(s, i, j);
    }
    StartingSkips(s, Urls(s), Anywhere(), i + 1, e);
  }

  /** The left-to-right scan of `re.findall` finds every match there is. */
  lemma {:induction false} FindUrlsAreOccurrences(s: string, i: nat)
    ensures FindUrlsFrom(s, i) == UrlOccurrencesFrom(s, i)
    decreases |s| - i
  {
    if i < |s| {
      match UrlEnd(s, i)
      case Some(e) =>
        StepOverUrl(s, i);
        FindUrlsAreOccurrences(s, e);
      case None =>
        assert Urls(s)(i).None?;
        assert UrlOccurrencesFrom(s, i) == [] + UrlOccurrencesFrom(s, i + 1);
        FindUrlsAreOccurrences(s, i + 1);
    }
  }

  // ---------------------------------------------------------------------------
  // ([0-9,]+)\s*万円  and  ([0-9.]+)\s*[m²㎡]   (re.findall, re.search)

  /** The unit an amount pattern ends with. */
  datatype Unit =
    | ManYen        // ([0-9,]+)\s*万円
    | SquareMetre   // ([0-9.]+)\s*[m²㎡]

  /** The class of the captured number. */
  function NumberClass(u: Unit): Class {
    match u
    case ManYen => DigitComma
    case SquareMetre => DigitDot
  }

  /** The class `[m²㎡]`: a letter m, a superscript two or the square-metre sign. */
  predicate IsAreaUnit(c: char) {
    c == 'm' || c == '\U{B2}' || c == '\U{33A1}'
  }

  /** Where the unit ends if it starts at `p`. */
  function UnitEnd(s: string, p: nat, u: Unit): (r: Option<nat>)
    ensures r.Some? ==> p < r.value <= |s|
    ensures r.Some? ==> forall j :: p <= j < r.value ==> !InClass(NumberClass(u), s[j]) && !IsSpace(s[j])
  {
    match u
    case ManYen =>
      if OccursAt(s, "万円", p) then
        assert s[p] == "万円"[0] && s[p + 1] == "万円"[1] by { assert s[p..p + 2] == "万円"; }
        Some(p + 2)
      else None
    case SquareMetre =>
      if p < |s| && IsAreaUnit(s[p]) then Some(p + 1) else None
  }

  /** A match of the amount pattern at `i`: the end of the captured number and the end of
      the match. The number is the longest run at `i`: a shorter run would leave a digit,
      comma or dot where `\s*` and the unit would have to start, and a shorter `\s*`
      would leave a space where the unit would have to start, so backtracking never
      helps. */
  function AmountAt(s: string, i: nat, u: Unit): (r: Option<(nat, nat)>)
    requires i <= |s|
    ensures r.Some? ==> i < r.value.0 < r.value.1 <= |s| && r.value.0 == RunEnd(s, i, NumberClass(u))
  {
    var k := RunEnd(s, i, NumberClass(u));
    if k == i then None
    else
      var p := RunEnd(s, k, Space);
      match UnitEnd(s, p, u)
      case None => None
      case Some(m) => Some((k, m))
  }

  /** Nothing between the end of the captured number and the end of the match belongs to
      the number class. */
  lemma AmountAtTail(s: string, i: nat, u: Unit)
    requires i <= |s| && AmountAt(s, i, u).Some?
    ensures forall j :: AmountAt(s, i, u).value.0 <= j < AmountAt(s, i, u).value.1 ==> !InClass(NumberClass(u), s[j])
  {
    var k := RunEnd(s, i, NumberClass(u));
    var p := RunEnd(s, k, Space);
    forall j | k <= j < p ensures !InClass(NumberClass(u), s[j]) {
      assert IsSpace(s[j]);
    }
  }

  /** The amount pattern as a matcher over `s`. */
  function Amounts(s: string, u: Unit): (at: nat -> Option<(nat, nat)>)
    ensures Advancing(s, at)
  {
    (j: nat) => if j <= |s| then AmountAt(s, j, u) else None
  }

  /** `re.findall` with an amount pattern, scanning from `i`: the captured numbers. */
  function FindAmountsFrom(s: string, i: nat, u: Unit): seq<string> {
    Scan(s, Amounts(s, u), i)
  }

  function FindAmounts(s: string, u: Unit): seq<string> {
    FindAmountsFrom(s, 0, u)
  }

  /** `re.search` with an amount pattern: the leftmost match is the first one `findall`
      reports. */
  function FirstAmount(s: string, u: Unit): (r: Option<string>)
    ensures r.Some? <==> FindAmounts(s, u) != []
    ensures r.Some? ==> r.value == FindAmounts(s, u)[0]
  {
    var all := FindAmounts(s, u);
    if all == [] then None else Some(all[0])
  }

  /** A maximal run of the number class starts at `i`. */
  predicate RunStart(s: string, i: nat, u: Unit)
    requires i <= |s|
  {
    i == 0 || !InClass(NumberClass(u), s[i - 1])
  }

  /** The positions where a maximal run of the number class starts. */
  function RunStarts(s: string, u: Unit): nat -> bool {
    (j: nat) => j <= |s| && RunStart(s, j, u)
  }

  /** Reference definition: every maximal run of digits (and commas, or dots) that is
      followed by optional whitespace and the unit, in text order. */
  function AmountRunsFrom(s: string, i: nat, u: Unit): seq<string> {
    Starting(s, Amounts(s, u), RunStarts(s, u), i)
  }

  /** No match starts at a character outside the number class. */
  lemma NoMatchOutside(s: string, j: nat, u: Unit)
    requires j < |s| && !InClass(NumberClass(u), s[j])
    ensures AmountAt(s, j, u).None?
  {
  }

  /** A match starting inside a run would have the same number end and the same tail as
      one starting at the run's first character. */
  lemma NoMatchInsideFailedRun(s: string, i: nat, j: nat, u: Unit)
    requires i <= |s| && i < j < RunEnd(s, i, NumberClass(u)) && AmountAt(s, i, u).None?
    ensures AmountAt(s, j, u).None?
  {
    RunEndAt(s, j, RunEnd(s, i, NumberClass(u)), NumberClass(u));
  }

  /** Within a run that fails at its start, no position starts a match. */
  lemma FailedRunQuiet(s: string, i: nat, u: Unit)
    requires i <= |s| && AmountAt(s, i, u).None?
    ensures forall j :: i <= j < RunEnd(s, i, NumberClass(u)) ==> AmountAt(s, j, u).None?
  {
    forall j | i < j < RunEnd(s, i, NumberClass(u)) ensures AmountAt(s, j, u).None? {
      NoMatchInsideFailedRun(s, i, j, u);
    }
  }

  /** After a match starts at `i`, no later position before its end both starts a run and
      starts a match: inside the number a run continues, and after it no character is in
      the number class. */
  lemma MatchQuiet(s: string, i: nat, u: Unit)
    requires i <= |s| && AmountAt(s, i, u).Some?
    ensures var m := AmountAt(s, i, u).value.1;
      && RunStart(s, m, u)
      && forall j :: i < j < m ==> !RunStart(s, j, u) || AmountAt(s, j, u).None?
  {
    var (k, m) := AmountAt(s, i, u).value;
    AmountAtTail(s, i, u);
    forall j | i < j < m ensures !RunStart(s, j, u) || AmountAt(s, j, u).None? {
      if j < k {
        assert InClass(NumberClass(u), s[j - 1]);
      } else {
        NoMatchOutside(s, j, u);
      }
    }
  }

  /** The left-to-right `findall` scan reports exactly the maximal runs that match. */
  lemma {:induction false} FindAmountsAreRuns(s: string, i: nat, u: Unit)
    requires i <= |s| && RunStart(s, i, u)
    ensures FindAmountsFrom(s, i, u) == AmountRunsFrom(s, i, u)
    decreases |s| - i
  {
    if i < |s| {
      if AmountAt(s, i, u).Some? {
        var m := StepOverMatch(s, i, u);
        FindAmountsAreRuns(s, m, u);
      } else if !InClass(NumberClass(u), s[i]) {
        StepOverOther(s, i, u);
        FindAmountsAreRuns(s, i + 1, u);
      } else {
        var n := StepOverFailedRun(s, i, u);
        if n <= |s| {
          FindAmountsAreRuns(s, n, u);
        }
      }
    }
  }

  /** After a match at the start of a run the scan and the reference both report its
      number and resume where the match ends. */
  lemma StepOverMatch(s: string, i: nat, u: Unit) returns (m: nat)
    requires i < |s| && RunStart(s, i, u) && AmountAt(s, i, u).Some?
    ensures m == AmountAt(s, i, u).value.1 && i < m <= |s| && RunStart(s, m, u)
    ensures var k := AmountAt(s, i, u).value.0;
      && FindAmountsFrom(s, i, u) == [s[i..k]] + FindAmountsFrom(s, m, u)
      && AmountRunsFrom(s, i, u) == [s[i..k]] + AmountRunsFrom(s, m, u)
  {
    var at, start := Amounts(s, u), RunStarts(s, u);
    var k: nat;
    k, m := AmountAt(s, i, u).value.0, AmountAt(s, i, u).value.1;
    assert at(i) == Some((k, m)) && start(i);
    RunsSkipMatch(s, i, u);
  }

  /** The reference adds nothing strictly inside a match. */
  lemma RunsSkipMatch(s: string, i: nat, u: Unit)
    requires i < |s| && AmountAt(s, i, u).Some?
    ensures RunStart(s, AmountAt(s, i, u).value.1, u)
    ensures AmountRunsFrom(s, i + 1, u) == AmountRunsFrom(s, AmountAt(s, i, u).value.1, u)
  {
    MatchQuiet(s, i, u);
    StartingSkips(s, Amounts(s, u), RunStarts(s, u), i + 1, AmountAt(s, i, u).value.1);
  }

  /** A character outside the number class adds nothing, and a run may start after it. */
  lemma StepOverOther(s: string, i: nat, u: Unit)
    requires i < |s| && !InClass(NumberClass(u), s[i])
    ensures RunStart(s, i + 1, u)
    ensures FindAmountsFrom(s, i, u) == FindAmountsFrom(s, i + 1, u)
    ensures AmountRunsFrom(s, i, u) == AmountRunsFrom(s, i + 1, u)
  {
    var at, start := Amounts(s, u), RunStarts(s, u);
    NoMatchOutside(s, i, u);
    assert at(i).None?;
    assert Starting(s, at, start, i) == [] + Starting(s, at, start, i + 1);
  }

  /** A run that fails at its start adds nothing, in the scan and in the reference; both
      resume after the character that ends it (or are finished when the text is). */
  lemma StepOverFailedRun(s: string, i: nat, u: Unit) returns (n: nat)
    requires i < |s| && AmountAt(s, i, u).None? && InClass(NumberClass(u), s[i])
    ensures n > i
    ensures n <= |s| ==> (
      && RunStart(s, n, u)
      && FindAmountsFrom(s, i, u) == FindAmountsFrom(s, n, u)
      && AmountRunsFrom(s, i, u) == AmountRunsFrom(s, n, u))
    ensures n > |s| ==> FindAmountsFrom(s, i, u) == [] == AmountRunsFrom(s, i, u)
  {
    var k := RunEnd(s, i, NumberClass(u));
    SkipFailedRun(s, i, u);
    n := k + 1;
    if k < |s| {
      StepOverOther(s, k, u);
    }
  }

  /** Neither the scan nor the reference finds anything inside a run that fails at its
      start. */
  lemma SkipFailedRun(s: string, i: nat, u: Unit)
    requires i < |s| && AmountAt(s, i, u).None?
    ensures var k := RunEnd(s, i, NumberClass(u));
      && FindAmountsFrom(s, i, u) == FindAmountsFrom(s, k, u)
      && AmountRunsFrom(s, i, u) == AmountRunsFrom(s, k, u)
  {
    var k := RunEnd(s, i, NumberClass(u));
    FailedRunQuiet(s, i, u);
    ScanSkips(s, Amounts(s, u), i, k);
    StartingSkips(s, Amounts(s, u), RunStarts(s, u), i, k);
  }

  // ---------------------------------------------------------------------------
  // 建物価格[^0-9\n\r\u3000-]*([0-9,]+)\s*万円  and the same with 土地価格   (re.search)

  const BuildingPriceLabel := "建物価格"
  const LandPriceLabel := "土地価格"

  /** The labelled pattern matches at `i` with the number captured from `q`: the tag is
      at `i`, everything between it and `q` lies in the gap class, and a number, optional
      whitespace and 万円 follow at `q`. */
  predicate LabelledAt(s: string, tag: string, i: nat, q: nat) {
    && OccursAt(s, tag, i)
    && i + |tag| <= q <= RunEnd(s, i + |tag|, PriceGap)
    && PriceAt(s, q)
  }

  /** A `[0-9,]+\s*万円` amount starts at `q`. */
  predicate PriceAt(s: string, q: nat) {
    q <= |s| && AmountAt(s, q, ManYen).Some?
  }

  /** The greedy gap first runs to `q` and then gives back one character at a time until
      the rest of the pattern matches: the largest workable start at or below `q`. */
  function BackOff(s: string, j: nat, q: nat): (r: Option<nat>)
    requires j <= q <= |s|
    ensures r.Some? ==> j <= r.value <= q && PriceAt(s, r.value)
    ensures r.Some? ==> forall p :: r.value < p <= q ==> !PriceAt(s, p)
    ensures r.None? ==> forall p :: j <= p <= q ==> !PriceAt(s, p)
  {
    var ok := (p: nat) => PriceAt(s, p);
    assert forall p: nat :: ok(p) == PriceAt(s, p);
    LastWhere(ok, j, q)
  }

  /** The largest position from `j` up to `q` that satisfies `ok`. */
  function LastWhere(ok: nat -> bool, j: nat, q: nat): (r: Option<nat>)
    requires j <= q
    ensures r.Some? ==> j <= r.value <= q && ok(r.value)
    ensures r.Some? ==> forall p :: r.value < p <= q ==> !ok(p)
    ensures r.None? ==> forall p :: j <= p <= q ==> !ok(p)
    decreases q
  {
    if ok(q) then Some(q)
    else if q == j then None
    else LastWhere(ok, j, q - 1)
  }

  /** The leftmost label occurrence from `i` on where the pattern matches, with the
      position of the captured number. */
  function LabelledSearch(s: string, tag: string, i: nat): (r: Option<(nat, nat)>)
    requires tag != []
    ensures r.Some? ==> i <= r.value.0 && LabelledAt(s, tag, r.value.0, r.value.1)
    ensures r.Some? ==> forall q: nat :: LabelledAt(s, tag, r.value.0, q) ==> q <= r.value.1
    ensures r.Some? ==> forall a, q :: i <= a < r.value.0 ==> !LabelledAt(s, tag, a, q)
    ensures r.None? ==> forall a, q :: i <= a ==> !LabelledAt(s, tag, a, q)
    decreases |s| - i
  {
    if i + |tag| > |s| then None
    else if OccursAt(s, tag, i) then
      var j := i + |tag|;
      match BackOff(s, j, RunEnd(s, j, PriceGap))
      case Some(q) => Some((i, q))
      case None => LabelledSearch(s, tag, i + 1)
    else LabelledSearch(s, tag, i + 1)
  }

  /** `re.search` of the labelled price pattern: the captured number, if it matches. */
  function FindLabelled(s: string, tag: string): (r: Option<string>)
    requires tag != []
    ensures r.Some? ==> r.value != [] && forall j :: 0 <= j < |r.value| ==> InClass(DigitComma, r.value[j])
  {
    match LabelledSearch(s, tag, 0)
    case None => None
    case Some((_, q)) =>
      RunPiece(s, q, DigitComma);
      Some(s[q..AmountAt(s, q, ManYen).value.0])
  }

  /** When the label is first met followed by gap characters and then a digit that starts
      a number followed by 万円, that number is what is captured. */
  lemma LabelledPlain(s: string, tag: string, i: nat, q: nat)
    requires tag != [] && OccursAt(s, tag, i)
    requires forall a :: 0 <= a < i ==> !OccursAt(s, tag, a)
    requires i + |tag| <= q < |s| && IsDigit(s[q])
    requires forall p :: i + |tag| <= p < q ==> InClass(PriceGap, s[p])
    requires AmountAt(s, q, ManYen).Some?
    ensures FindLabelled(s, tag) == Some(s[q..AmountAt(s, q, ManYen).value.0])
  {
    RunEndAt(s, i + |tag|, q, PriceGap);
    assert LabelledAt(s, tag, i, q);
    var r := LabelledSearch(s, tag, 0);
    assert r.Some? && r.value.0 == i && r.value.1 == q;
  }

  // ---------------------------------------------------------------------------
  // [都道府県][市区町村].*?[0-9０-９]+丁目  and  [市区町村].*?[0-9０-９]   (re.search)

  /** The two location patterns, tried in this order. */
  datatype LocationPattern =
    | ChomeAddress   // [都道府県][市区町村].*?[0-9０-９]+丁目
    | CityDigit      // [市区町村].*?[0-9０-９]

  function HeadLength(pat: LocationPattern): nat {
    match pat
    case ChomeAddress => 2
    case CityDigit => 1
  }

  /** The fixed characters the pattern starts with are at `i`. */
  predicate HeadAt(s: string, i: nat, pat: LocationPattern) {
    match pat
    case ChomeAddress => i + 1 < |s| && IsPrefectureMark(s[i]) && IsMunicipalityMark(s[i + 1])
    case CityDigit => i < |s| && IsMunicipalityMark(s[i])
  }

  /** Where the part after `.*?` ends if it starts at `p`. For the first pattern the digit
      run is greedy and only 丁 after its last digit can continue, so backtracking never
      helps. */
  function TailEnd(s: string, p: nat, pat: LocationPattern): (r: Option<nat>)
    requires p <= |s|
    ensures r.Some? ==> p < r.value <= |s| && IsAnyDigit(s[p])
  {
    match pat
    case ChomeAddress =>
      var k := RunEnd(s, p, AnyDigit);
      if k > p && OccursAt(s, "丁目", k) then Some(k + 2) else None
    case CityDigit =>
      if p < |s| && IsAnyDigit(s[p]) then Some(p + 1) else None
  }

  /** No line break in `s[a..b]`: `.` does not match `\n`. */
  predicate NoNewline(s: string, a: nat, b: nat)
    requires a <= b <= |s|
  {
    forall j :: a <= j < b ==> s[j] != '\n'
  }

  /** The lazy `.*?` from `p`: the first position, reached without crossing a line break,
      where the tail matches; the tail's start and end. */
  function LazyTail(s: string, p: nat, pat: LocationPattern): (r: Option<(nat, nat)>)
    requires p <= |s|
    ensures r.Some? ==> p <= r.value.0 <= |s| && NoNewline(s, p, r.value.0)
    ensures r.Some? ==> TailEnd(s, r.value.0, pat) == Some(r.value.1)
    ensures r.Some? ==> forall t :: p <= t < r.value.0 ==> TailEnd(s, t, pat).None?
    ensures r.None? ==> forall t :: p <= t <= |s| && NoNewline(s, p, t) ==> TailEnd(s, t, pat).None?
    decreases |s| - p
  {
    match TailEnd(s, p, pat)
    case Some(e) => Some((p, e))
    case None =>
      if p < |s| && s[p] != '\n' then LazyTail(s, p + 1, pat) else None
  }

  /** The location pattern matches at `i`; where the match ends. */
  function LocationAt(s: string, i: nat, pat: LocationPattern): (r: Option<nat>)
    ensures r.Some? ==> HeadAt(s, i, pat) && i + HeadLength(pat) <= |s|
    ensures r.Some? ==> LazyTail(s, i + HeadLength(pat), pat).Some?
    ensures r.Some? ==> r.value == LazyTail(s, i + HeadLength(pat), pat).value.1
  {
    if HeadAt(s, i, pat) then
      var t := LazyTail(s, i + HeadLength(pat), pat);
      if t.Some? then Some(t.value.1) else None
    else None
  }

  /** The leftmost match from `i` on: its start and end. */
  function LocationSearch(s: string, i: nat, pat: LocationPattern): (r: Option<(nat, nat)>)
    ensures r.Some? ==> i <= r.value.0 && LocationAt(s, r.value.0, pat) == Some(r.value.1)
    ensures r.Some? ==> forall a :: i <= a < r.value.0 ==> LocationAt(s, a, pat).None?
    ensures r.None? ==> forall a :: i <= a ==> LocationAt(s, a, pat).None?
    decreases |s| - i
  {
    if i >= |s| then None
    else
      var e := LocationAt(s, i, pat);
      if e.Some? then Some((i, e.value)) else LocationSearch(s, i + 1, pat)
  }

  /** `pattern.search(text).group(0)`. */
  function FindLocation(s: string, pat: LocationPattern): (r: Option<string>)
    ensures r.Some? ==> |r.value| > HeadLength(pat)
    ensures r.Some? ==> !IsSpace(r.value[0]) && !IsSpace(r.value[|r.value| - 1])
  {
    var f := LocationSearch(s, 0, pat);
    if f.None? then None
    else
      var a, e := f.value.0, f.value.1;
      var m := s[a..e];
      LocationEndsInText(s, a, pat);
      assert m[0] == s[a];
      assert m[|m| - 1] == s[e - 1];
      Some(m)
  }

  /** A location match ends with 目 or a digit, never with whitespace. */
  lemma LocationEndsInText(s: string, a: nat, pat: LocationPattern)
    requires LocationAt(s, a, pat).Some?
    ensures !IsSpace(s[LocationAt(s, a, pat).value - 1])
  {
    var r := LazyTail(s, a + HeadLength(pat), pat).value;
    if pat.ChomeAddress? {
      var k := RunEnd(s, r.0, AnyDigit);
      assert s[k..k + 2] == "丁目";
      assert s[r.1 - 1] == "丁目"[1];
    }
  }

  // ---------------------------------------------------------------------------
  // 約([0-9.]+)万円   (re.search)

  /** A match at `i`: `約`, a run of digits and dots, 万円 right after it; the end of the
      number. 万 is not in the run's class, so only the longest run can be followed by it. */
  function ApproxAt(s: string, i: nat): (r: Option<nat>)
    ensures r.Some? ==> i + 1 < r.value <= |s| && s[i] == '約' && r.value == RunEnd(s, i + 1, DigitDot)
    ensures r.Some? ==> OccursAt(s, "万円", r.value)
  {
    if i < |s| && s[i] == '約' then
      var k := RunEnd(s, i + 1, DigitDot);
      if k > i + 1 && OccursAt(s, "万円", k) then Some(k) else None
    else None
  }

  /** The leftmost match from `i` on: where it starts. */
  function ApproxSearch(s: string, i: nat): (r: Option<nat>)
    ensures r.Some? ==> i <= r.value && ApproxAt(s, r.value).Some?
    ensures r.Some? ==> forall a :: i <= a < r.value ==> ApproxAt(s, a).None?
    ensures r.None? ==> forall a :: i <= a ==> ApproxAt(s, a).None?
    decreases |s| - i
  {
    if i >= |s| then None
    else if ApproxAt(s, i).Some? then Some(i)
    else ApproxSearch(s, i + 1)
  }

  /** `re.search(r'約([0-9.]+)万円', s).group(1)`. */
  function FindApprox(s: string): (r: Option<string>)
    ensures r.Some? ==> r.value != [] && forall j :: 0 <= j < |r.value| ==> IsDigitOrDot(r.value[j])
  {
    match ApproxSearch(s, 0)
    case None => None
    case Some(a) =>
      var k := ApproxAt(s, a).value;
      Some(s[a + 1..k])
  }

  // ---------------------------------------------------------------------------
  // ([0-9.]+)   (re.search)

  /** The first position from `i` on that holds a digit or a dot. */
  function FirstDigitOrDot(s: string, i: nat): (r: Option<nat>)
    ensures r.Some? ==> i <= r.value < |s| && IsDigitOrDot(s[r.value])
    ensures r.Some? ==> forall a :: i <= a < r.value ==> !IsDigitOrDot(s[a])
    ensures r.None? ==> forall a :: i <= a < |s| ==> !IsDigitOrDot(s[a])
    decreases |s| - i
  {
    if i >= |s| then None
    else if IsDigitOrDot(s[i]) then Some(i)
    else FirstDigitOrDot(s, i + 1)
  }

  /** `re.search(r'([0-9.]+)', s).group(1)`: the first run of digits and dots, whole. */
  function FirstNumberRun(s: string): (r: Option<string>)
    ensures r.None? <==> forall a :: 0 <= a < |s| ==> !IsDigitOrDot(s[a])
    ensures r.Some? ==> r.value != [] && forall j :: 0 <= j < |r.value| ==> IsDigitOrDot(r.value[j])
  {
    match FirstDigitOrDot(s, 0)
    case None => None
    case Some(a) =>
      RunPiece(s, a, DigitDot);
      Some(s[a..RunEnd(s, a, DigitDot)])
  }

  // ---------------------------------------------------------------------------
  // ([^都道府県]+?[市区町村])   (re.search)

  /** Reference definition: `s[i..e]` is at least two characters long, holds no
      prefecture mark and ends with a municipality mark. */
  predicate CityTokenAt(s: string, i: nat, e: nat) {
    && i + 2 <= e <= |s|
    && (forall j :: i <= j < e ==> !IsPrefectureMark(s[j]))
    && IsMunicipalityMark(s[e - 1])
  }

  /** The lazy `[^都道府県]+?` has consumed `s[i..e]`: stop at the first municipality
      mark, give up at a prefecture mark or the end of the text. */
  function LazyCity(s: string, i: nat, e: nat): (r: Option<nat>)
    requires i < e <= |s| && forall j :: i <= j < e ==> !IsPrefectureMark(s[j])
    ensures r.Some? ==> e < r.value && CityTokenAt(s, i, r.value)
    ensures r.Some? ==> forall f :: e < f < r.value ==> !CityTokenAt(s, i, f)
    ensures r.None? ==> forall f :: e < f ==> !CityTokenAt(s, i, f)
    decreases |s| - e
  {
    if e == |s| then None
    else if IsMunicipalityMark(s[e]) then Some(e + 1)
    else if IsPrefectureMark(s[e]) then
      assert forall f :: e < f ==> !CityTokenAt(s, i, f) by {
        forall f | e < f ensures !CityTokenAt(s, i, f) {
          assert i <= e < f;
        }
      }
      None
    else LazyCity(s, i, e + 1)
  }

  /** The city-token match starting at `i`, if one does: its end. */
  function CityAt(s: string, i: nat): (r: Option<nat>)
    ensures r.Some? ==> CityTokenAt(s, i, r.value)
    ensures r.Some? ==> forall f: nat :: f < r.value ==> !CityTokenAt(s, i, f)
    ensures r.None? ==> forall f :: !CityTokenAt(s, i, f)
  {
    if i < |s| && !IsPrefectureMark(s[i]) then LazyCity(s, i, i + 1) else None
  }

  /** The leftmost city token from `i` on: its start and end. */
  function CitySearch(s: string, i: nat): (r: Option<(nat, nat)>)
    ensures r.Some? ==> i <= r.value.0 && CityTokenAt(s, r.value.0, r.value.1)
    ensures r.Some? ==> forall f: nat :: f < r.value.1 ==> !CityTokenAt(s, r.value.0, f)
    ensures r.Some? ==> forall a, f :: i <= a < r.value.0 ==> !CityTokenAt(s, a, f)
    ensures r.None? ==> forall a, f :: i <= a ==> !CityTokenAt(s, a, f)
    decreases |s| - i
  {
    if i >= |s| then None
    else match CityAt(s, i)
      case Some(e) => Some((i, e))
      case None => CitySearch(s, i + 1)
  }

  // ---------------------------------------------------------------------------
  // The display form 約{v:.2f}万円/m² and what the searches above read back from it

  /** `f"約{v:.2f}万円/m²"`. */
  function PerSquareMetre(v: real): (s: string)
    ensures |s| == |Fixed2(v)| + 6 && s[0] == '約'
    ensures s[1..|Fixed2(v)| + 1] == Fixed2(v)
  {
    var f := Fixed2(v);
    var s := "約" + f + "万円/m²";
    assert s[1..|f| + 1] == f;
    s
  }

  /** The characters of the display form around the number. */
  lemma PerSquareMetreParts(v: real)
    ensures var s, n := PerSquareMetre(v), |Fixed2(v)|;
            && (forall j :: 1 <= j <= n ==> s[j] == Fixed2(v)[j - 1])
            && OccursAt(s, "万円", n + 1)
            && !IsDigitOrDot(s[n + 1])
            && forall j :: 0 <= j < |s| && s[j] == '約' ==> j == 0
  {
    var f := Fixed2(v);
    var s := PerSquareMetre(v);
    assert s == "約" + f + "万円/m²";
    assert forall j :: 1 <= j <= |f| ==> s[j] == f[j - 1];
    assert s[|f| + 1..|f| + 3] == "万円";
    assert forall j :: 0 <= j < |s| && s[j] == '約' ==> j == 0;
  }

  /** The land-ratio step reads back the number of a display form it is given, provided
      the number was not negative: the regex cannot match a minus sign. */
  lemma ApproxOfPerSquareMetre(v: real)
    ensures v >= 0.0 ==> FindApprox(PerSquareMetre(v)) == Some(Fixed2(v))
    ensures v < 0.0 ==> FindApprox(PerSquareMetre(v)).None?
  {
    var f := Fixed2(v);
    var s := PerSquareMetre(v);
    var n := |f|;
    PerSquareMetreParts(v);
    if v >= 0.0 {
      RunEndAt(s, 1, n + 1, DigitDot);
      assert ApproxAt(s, 0) == Some(n + 1);
      assert s[1..n + 1] == f;
    } else {
      assert s[1] == '-';
      forall a | 0 <= a ensures ApproxAt(s, a).None? {
        if a == 0 {
          assert RunEnd(s, 1, DigitDot) == 1;
        }
      }
    }
  }

  /** The first run of digits and dots in a display form is its number, without the minus
      sign of a negative one. */
  lemma FirstRunOfPerSquareMetre(v: real)
    ensures v >= 0.0 ==> FirstNumberRun(PerSquareMetre(v)) == Some(Fixed2(v))
    ensures v < 0.0 ==> FirstNumberRun(PerSquareMetre(v)) == Some(Fixed2(v)[1..])
  {
    var f := Fixed2(v);
    var s := PerSquareMetre(v);
    var n := |f|;
    PerSquareMetreParts(v);
    assert !IsDigitOrDot(s[0]);
    if v >= 0.0 {
      assert FirstDigitOrDot(s, 0) == Some(1);
      RunEndAt(s, 1, n + 1, DigitDot);
      assert s[1..n + 1] == f;
    } else {
      assert !IsDigitOrDot(s[1]);
      assert FirstDigitOrDot(s, 0) == Some(2);
      RunEndAt(s, 2, n + 1, DigitDot);
      assert s[2..n + 1] == f[1..];
    }
  }
}
