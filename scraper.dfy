/** The listing extractor (`scripts/scrape_sumstock.py`): listing URLs in free text, the
    price and area parsers, the unit price, the per-listing cascade that turns one listing
    element into a record, and the Markdown table. A page is given as the listing elements
    each CSS selector finds; a listing element as the texts the extractor reads from it. */
module Scraper {
  import opened Wrappers
  import opened Text
  import opened Numerals
  import opened Patterns
  import opened LandPrice

  // ---------------------------------------------------------------------------
  // extract_urls_from_issue

  /** `extract_urls_from_issue`: every listing URL in the text, in order of appearance,
      duplicates included. */
  function ExtractUrls(body: string): (urls: seq<string>)
    ensures urls == UrlOccurrencesFrom(body, 0)
  {
    FindUrlsAreOccurrences(body, 0);
    FindUrlsFrom(body, 0)
  }

  /** Every URL found is a listing URL: the prefix and three digit runs. */
  lemma ExtractedAreListingUrls(body: string, i: nat, k: nat)
    requires k < |UrlOccurrencesFrom(body, i)|
    ensures exists x, y, z :: IsListingUrl(UrlOccurrencesFrom(body, i)[k], x, y, z)
  {
    var j := StartingItem(body, Urls(body), Anywhere(), i, k);
    assert UrlEnd(body, j).Some?;
    UrlEndSound(body, j);
  }

  /** A text with no URL match anywhere gives no URLs. */
  lemma NoUrlsFound(body: string, i: nat)
    requires forall j :: i <= j < |body| ==> !OccursAt(body, ListingPrefix, j)
    ensures UrlOccurrencesFrom(body, i) == []
  {
    if i <= |body| {
      forall j | i <= j < |body| ensures !Anywhere()(j) || Urls(body)(j).None? {
        assert UrlEnd(body, j).None?;
      }
      StartingSkips(body, Urls(body), Anywhere(), i, |body|);
    }
  }

  // ---------------------------------------------------------------------------
  // parse_price, parse_area, calculate_unit_price

  /** `parse_price`: nothing for an empty string or `-`; otherwise `float()` of what is
      left after removing 万円 and commas. */
  function ParsePrice(s: string): (r: Option<real>)
    ensures s == [] || s == "-" ==> r.None?
    ensures NoDigitIn(s) ==> r.None?
  {
    if s == [] || s == "-" then None
    else
      PriceTextNeedsDigit(s);
      ParseFloat(Strip(RemoveAll(RemoveAll(s, "万円"), ",")))
  }

  /** The cleaning of `parse_price` adds no digit, so a text without one is rejected. */
  lemma PriceTextNeedsDigit(s: string)
    ensures NoDigitIn(s) ==> ParseFloat(Strip(RemoveAll(RemoveAll(s, "万円"), ","))).None?
  {
    if NoDigitIn(s) {
      var a := RemoveAll(s, "万円");
      RemoveAllNoDigit(s, "万円");
      RemoveAllNoDigit(a, ",");
      StripNoDigit(RemoveAll(a, ","));
      ParseFloatNeedsDigit(Strip(RemoveAll(a, ",")));
    }
  }

  /** `parse_area`: nothing for an empty string or `-`; otherwise `float()` of what is left
      after removing m², ㎡ and commas. */
  function ParseArea(s: string): (r: Option<real>)
    ensures s == [] || s == "-" ==> r.None?
    ensures NoDigitIn(s) ==> r.None?
  {
    if s == [] || s == "-" then None
    else
      AreaTextNeedsDigit(s);
      ParseFloat(Strip(RemoveAll(RemoveAll(RemoveAll(s, "m²"), "㎡"), ",")))
  }

  /** The cleaning of `parse_area` adds no digit, so a text without one is rejected. */
  lemma AreaTextNeedsDigit(s: string)
    ensures NoDigitIn(s) ==> ParseFloat(Strip(RemoveAll(RemoveAll(RemoveAll(s, "m²"), "㎡"), ","))).None?
  {
    if NoDigitIn(s) {
      var a := RemoveAll(s, "m²");
      var b := RemoveAll(a, "㎡");
      RemoveAllNoDigit(s, "m²");
      RemoveAllNoDigit(a, "㎡");
      RemoveAllNoDigit(b, ",");
      StripNoDigit(RemoveAll(b, ","));
      ParseFloatNeedsDigit(Strip(RemoveAll(b, ",")));
    }
  }

  /** `calculate_unit_price`: nothing when either input is missing or the area is zero,
      otherwise the exact quotient. */
  function UnitPrice(price: Option<real>, area: Option<real>): (r: Option<real>)
    ensures r.Some? <==> price.Some? && area.Some? && area.value != 0.0
    ensures r.Some? ==> r.value * area.value == price.value
  {
    if price.None? || area.None? || area.value == 0.0 then None
    else Some(price.value / area.value)
  }

  /** The price field the extractor writes, `f"{p}万円"`, parses back as `p` without its
      commas, whatever `p` is, provided it holds no 万. */
  lemma PriceFieldReadBack(p: string)
    requires forall k :: 0 <= k < |p| ==> p[k] != '万'
    ensures ParsePrice(p + "万円") == ParseFloat(Strip(RemoveAll(p, ",")))
  {
    var s := p + "万円";
    assert |s| == |p| + 2;
    RemoveSuffix(p, "万円");
    assert RemoveAll(s, "万円") == p;
  }

  /** A captured amount such as `1,054` gives its value with the commas dropped: 1054. */
  lemma PriceOfAmount(p: string, d: nat)
    requires forall k :: 0 <= k < |p| ==> IsDigit(p[k]) || p[k] == ','
    requires d < |p| && IsDigit(p[d])
    ensures AllDigits(RemoveAll(p, ","))
    ensures ParsePrice(p + "万円").Some? && ParsePrice(p + "万円").value == DigitsValue(RemoveAll(p, ",")) as real
  {
    PriceFieldReadBack(p);
    var q := RemoveAll(p, ",");
    CommasRemoved(p, d);
    DigitsParse(q);
  }

  lemma CommasRemoved(p: string, d: nat)
    requires forall k :: 0 <= k < |p| ==> IsDigit(p[k]) || p[k] == ','
    requires d < |p| && IsDigit(p[d])
    ensures RemoveAll(p, ",") != [] && AllDigits(RemoveAll(p, ","))
  {
    var q := RemoveAll(p, ",");
    RemoveAllKeepsOthers(p, ",");
    forall k | 0 <= k < |q| ensures IsDigit(q[k]) {
      assert q[k] in p && q[k] != ',';
    }
    RemoveCharKeeps(p, ",", d);
  }

  /** `float()` of a non-empty digit string is its value. */
  lemma DigitsParse(q: string)
    requires q != [] && AllDigits(q)
    ensures Strip(q) == q
    ensures ParseFloat(q).Some? && ParseFloat(q).value == DigitsValue(q) as real
  {
    StripPlain(q);
    ParseFloatUnsigned(q);
  }

  /** The area field the extractor writes, `f"{a}m²"`, parses back as `a` when `a` is a run
      of digits and dots, as the area regex captures. */
  lemma AreaFieldReadBack(a: string)
    requires a != [] && forall k :: 0 <= k < |a| ==> IsDigitOrDot(a[k])
    ensures ParseArea(a + "m²") == ParseFloat(a)
  {
    var s := a + "m²";
    assert |s| == |a| + 2;
    RemoveSuffix(a, "m²");
    NumeralUntouched(a, "㎡");
    NumeralUntouched(a, ",");
    NumeralStrip(a);
  }

  /** A removal whose pattern starts with neither a digit nor a dot leaves a numeral alone. */
  lemma NumeralUntouched(a: string, p: string)
    requires p != [] && !IsDigitOrDot(p[0])
    requires forall k :: 0 <= k < |a| ==> IsDigitOrDot(a[k])
    ensures RemoveAll(a, p) == a
  {
    RemoveAllPlain(a, p);
  }

  /** Digits and dots are not whitespace, so `strip()` leaves a numeral alone. */
  lemma NumeralStrip(a: string)
    requires a != [] && forall k :: 0 <= k < |a| ==> IsDigitOrDot(a[k])
    ensures Strip(a) == a
  {
    assert IsDigitOrDot(a[0]) && IsDigitOrDot(a[|a| - 1]);
  }

  // ---------------------------------------------------------------------------
  // The listing elements and the selector loop

  /** A `div.area` element: the text of its label element and of its value element, when
      it has them. */
  datatype AreaDiv = AreaDiv(caption: Option<string>, value: Option<string>)

  /** What the extractor reads from one listing element: the text of `h5.bukkenName`, the
      space-joined stripped text of the first `div.price` and of `div.priceItems`, the
      stripped texts of the `span.bold` elements, the `div.area` elements, the texts of the
      `.area .value` elements and the whole text of the element. */
  datatype Listing = Listing(
    name: Option<string>,
    priceText: Option<string>,
    priceItemsText: Option<string>,
    bolds: seq<string>,
    areaDivs: seq<AreaDiv>,
    areaValues: seq<string>,
    text: string)

  /** The CSS selectors tried, in order. */
  const Selectors: seq<string> := [
    "div.bukkenUnitBox",
    "article.bukkenListWrap .bukkenUnitBox",
    ".bukkenUnitBox",
    "div.property-item",
    "div.property-card",
    "div.property",
    "li.property-item",
    "div[class*=\"property\"]",
    "article.property",
    "div.bukken-item",
    "div.item",
    "tr.property"
  ]

  /** The position of the first selector that finds at least one listing. */
  function FirstSelector(select: string -> seq<Listing>): (r: Option<nat>)
    ensures r.Some? ==> r.value < |Selectors| && select(Selectors[r.value]) != []
    ensures r.Some? ==> forall j :: 0 <= j < r.value ==> select(Selectors[j]) == []
    ensures r.None? ==> forall j :: 0 <= j < |Selectors| ==> select(Selectors[j]) == []
  {
    FirstNonEmpty(select, Selectors, 0)
  }

  function FirstNonEmpty(select: string -> seq<Listing>, sel: seq<string>, i: nat): (r: Option<nat>)
    ensures r.Some? ==> i <= r.value < |sel| && select(sel[r.value]) != []
    ensures r.Some? ==> forall j :: i <= j < r.value ==> select(sel[j]) == []
    ensures r.None? ==> forall j :: i <= j < |sel| ==> select(sel[j]) == []
    decreases |sel| - i
  {
    if i >= |sel| then None
    else if select(sel[i]) != [] then Some(i)
    else FirstNonEmpty(select, sel, i + 1)
  }

  /** The listings the extractor works on: those of the first selector that finds any,
      never a mix; none when no selector finds anything. */
  function LocatedListings(select: string -> seq<Listing>): seq<Listing> {
    match FirstSelector(select)
    case Some(k) => select(Selectors[k])
    case None => []
  }

  /** The selector loop: stop at the first selector with results. */
  method LocateListings(select: string -> seq<Listing>) returns (items: seq<Listing>)
    ensures items == LocatedListings(select)
    ensures items == [] <==> FirstSelector(select).None?
  {
    items := [];
    for i := 0 to |Selectors|
      invariant items == []
      invariant FirstSelector(select) == FirstNonEmpty(select, Selectors, i)
    {
      var found := select(Selectors[i]);
      if found != [] {
        return found;
      }
    }
  }

  // ---------------------------------------------------------------------------
  // Location

  /** The placeholder for a listing without a location. */
  const Unknown := "不明"

  /** The location patterns, in the order they are tried. */
  const LocationPatterns: seq<LocationPattern> := [ChomeAddress, CityDigit]

  /** The position of the first pattern in `pats` that matches `text`. */
  function FirstMatchingPattern(text: string, pats: seq<LocationPattern>): (r: Option<nat>)
    ensures r.Some? ==> r.value < |pats| && FindLocation(text, pats[r.value]).Some?
    ensures r.Some? ==> forall j :: 0 <= j < r.value ==> FindLocation(text, pats[j]).None?
    ensures r.None? ==> forall j :: 0 <= j < |pats| ==> FindLocation(text, pats[j]).None?
  {
    FirstWhere(pats, pat => FindLocation(text, pat).Some?, 0)
  }

  /** The first position from `i` on whose element satisfies `p`. */
  function FirstWhere<T>(xs: seq<T>, p: T -> bool, i: nat): (r: Option<nat>)
    ensures r.Some? ==> i <= r.value < |xs| && p(xs[r.value])
    ensures r.Some? ==> forall j :: i <= j < r.value ==> !p(xs[j])
    ensures r.None? ==> forall j :: i <= j < |xs| ==> !p(xs[j])
    decreases |xs| - i
  {
    if i >= |xs| then None
    else if p(xs[i]) then Some(i)
    else FirstWhere(xs, p, i + 1)
  }

  /** The location: the stripped name element when there is one, else the match of the
      first location pattern that matches the text (a match has no whitespace at its ends,
      so stripping leaves it as it is), else `不明`. */
  function LocationOf(item: Listing): (r: string)
    ensures item.name.Some? ==> r == Strip(item.name.value)
    ensures item.name.None? && FirstMatchingPattern(item.text, LocationPatterns).None? ==> r == Unknown
    ensures item.name.None? && FirstMatchingPattern(item.text, LocationPatterns).Some? ==>
              var j := FirstMatchingPattern(item.text, LocationPatterns).value;
              r == FindLocation(item.text, LocationPatterns[j]).value
  {
    if item.name.Some? then Strip(item.name.value)
    else match FirstMatchingPattern(item.text, LocationPatterns)
      case Some(j) =>
        FindLocation(item.text, LocationPatterns[j]).value
      case None => Unknown
  }

  /** The location step as the extractor runs it: the name element, else the patterns in
      order until one matches. */
  method FindListingLocation(item: Listing) returns (location: string)
    ensures location == LocationOf(item)
  {
    if item.name.Some? {
      return Strip(item.name.value);
    }
    location := Unknown;
    for i := 0 to |LocationPatterns|
      invariant FirstMatchingPattern(item.text, LocationPatterns[i..]).Some? ==>
                  FirstMatchingPattern(item.text, LocationPatterns) ==
                  Some(i + FirstMatchingPattern(item.text, LocationPatterns[i..]).value)
      invariant forall j :: 0 <= j < i ==> FindLocation(item.text, LocationPatterns[j]).None?
    {
      var m := FindLocation(item.text, LocationPatterns[i]);
      if m.Some? {
        StripPlain(m.value);
        return Strip(m.value);
      }
      assert LocationPatterns[i..][1..] == LocationPatterns[i + 1..];
    }
  }

  // ---------------------------------------------------------------------------
  // The price cascade

  /** The `prices_dict`: the captured number for each key that has been set. */
  datatype PriceKeys = PriceKeys(total: Option<string>, building: Option<string>, land: Option<string>)
  {
    /** At least one key is set. */
    predicate AnySet() {
      total.Some? || building.Some? || land.Some?
    }
  }

  /** First step: the total from the price element, building and land from the labelled
      patterns on the price-items element. */
  function LabelledPrices(item: Listing): (p: PriceKeys)
    ensures p.total.Some? ==> item.priceText.Some? && p.total == FirstAmount(item.priceText.value, ManYen)
    ensures p.building.Some? ==>
              item.priceItemsText.Some? && p.building == FindLabelled(item.priceItemsText.value, BuildingPriceLabel)
    ensures p.land.Some? ==>
              item.priceItemsText.Some? && p.land == FindLabelled(item.priceItemsText.value, LandPriceLabel)
  {
    var total := if item.priceText.Some? then FirstAmount(item.priceText.value, ManYen) else None;
    var building := if item.priceItemsText.Some? then FindLabelled(item.priceItemsText.value, BuildingPriceLabel) else None;
    var land := if item.priceItemsText.Some? then FindLabelled(item.priceItemsText.value, LandPriceLabel) else None;
    PriceKeys(total, building, land)
  }

  /** The bold texts with 万円 removed, the empty ones dropped, in document order. */
  function BoldPrices(bolds: seq<string>): (r: seq<string>)
    ensures |r| <= |bolds|
    ensures forall k :: 0 <= k < |r| ==> r[k] != []
  {
    if bolds == [] then []
    else
      var t := RemoveAll(bolds[|bolds| - 1], "万円");
      BoldPrices(bolds[..|bolds| - 1]) + (if t != [] then [t] else [])
  }

  /** The bold prices of consecutive runs of bold texts are consecutive: each bold text
      is cleaned on its own and the document order is kept. */
  lemma {:induction false} BoldPricesAppend(a: seq<string>, b: seq<string>)
    ensures BoldPrices(a + b) == BoldPrices(a) + BoldPrices(b)
    decreases |b|
  {
    if b == [] {
      assert a + b == a;
    } else {
      var init := b[..|b| - 1];
      assert (a + b)[..|a + b| - 1] == a + init;
      BoldPricesAppend(a, init);
    }
  }

  /** One bold text contributes itself with 万円 removed, unless nothing is left. */
  lemma BoldPricesOne(x: string)
    ensures BoldPrices([x]) == (if RemoveAll(x, "万円") != [] then [RemoveAll(x, "万円")] else [])
  {
    assert [x][..0] == [];
  }

  /** Second step: when building or land is missing and there are two bold prices, the
      first fills a missing building and the second a missing land. */
  function WithBoldPrices(p: PriceKeys, bold: seq<string>): (r: PriceKeys)
    ensures r.total == p.total
    ensures p.building.Some? ==> r.building == p.building
    ensures p.land.Some? ==> r.land == p.land
    ensures p.building.None? && r.building.Some? ==> |bold| >= 2 && r.building == Some(bold[0])
    ensures p.land.None? && r.land.Some? ==> |bold| >= 2 && r.land == Some(bold[1])
    ensures p.building.None? && |bold| >= 2 ==> r.building == Some(bold[0])
    ensures p.land.None? && |bold| >= 2 ==> r.land == Some(bold[1])
  {
    if (p.building.None? || p.land.None?) && |bold| >= 2 then
      PriceKeys(p.total, p.building.OrElse(Some(bold[0])), p.land.OrElse(Some(bold[1])))
    else p
  }

  /** Third step: when any key is missing, the amounts found in the whole text fill a
      missing total, building and land from positions 0, 1 and 2. */
  function WithTextPrices(p: PriceKeys, all: seq<string>): (r: PriceKeys)
    ensures p.total.Some? ==> r.total == p.total
    ensures p.building.Some? ==> r.building == p.building
    ensures p.land.Some? ==> r.land == p.land
    ensures p.total.None? ==> r.total == (if |all| >= 1 then Some(all[0]) else None)
    ensures p.building.None? ==> r.building == (if |all| >= 2 then Some(all[1]) else None)
    ensures p.land.None? ==> r.land == (if |all| >= 3 then Some(all[2]) else None)
  {
    if p.total.None? || p.building.None? || p.land.None? then
      PriceKeys(
        p.total.OrElse(if |all| >= 1 then Some(all[0]) else None),
        p.building.OrElse(if |all| >= 2 then Some(all[1]) else None),
        p.land.OrElse(if |all| >= 3 then Some(all[2]) else None))
    else p
  }

  /** The whole cascade. */
  function PricesOf(item: Listing): PriceKeys {
    WithTextPrices(WithBoldPrices(LabelledPrices(item), BoldPrices(item.bolds)), FindAmounts(item.text, ManYen))
  }

  /** A key set by an earlier step is never overwritten by a later one. */
  lemma PricesNeverOverwritten(item: Listing)
    ensures LabelledPrices(item).total.Some? ==> PricesOf(item).total == LabelledPrices(item).total
    ensures LabelledPrices(item).building.Some? ==> PricesOf(item).building == LabelledPrices(item).building
    ensures LabelledPrices(item).land.Some? ==> PricesOf(item).land == LabelledPrices(item).land
    ensures var b := WithBoldPrices(LabelledPrices(item), BoldPrices(item.bolds));
            (b.building.Some? ==> PricesOf(item).building == b.building) &&
            (b.land.Some? ==> PricesOf(item).land == b.land)
  {
  }

  /** The price step as the extractor runs it: fill the dictionary key by key. */
  method ExtractPrices(item: Listing) returns (p: PriceKeys)
    ensures p == PricesOf(item)
  {
    var total: Option<string> := None;
    var building: Option<string> := None;
    var land: Option<string> := None;
    if item.priceText.Some? {
      var m := FirstAmount(item.priceText.value, ManYen);
      if m.Some? {
        total := m;
      }
    }
    if item.priceItemsText.Some? {
      var b := FindLabelled(item.priceItemsText.value, BuildingPriceLabel);
      var l := FindLabelled(item.priceItemsText.value, LandPriceLabel);
      if b.Some? {
        building := b;
      }
      if l.Some? {
        land := l;
      }
    }
    assert PriceKeys(total, building, land) == LabelledPrices(item);
    if building.None? || land.None? {
      var bold: seq<string> := [];
      for i := 0 to |item.bolds|
        invariant bold == BoldPrices(item.bolds[..i])
      {
        var t := RemoveAll(item.bolds[i], "万円");
        assert item.bolds[..i + 1][..i] == item.bolds[..i];
        if t != [] {
          bold := bold + [t];
        }
      }
      assert item.bolds[..|item.bolds|] == item.bolds;
      if |bold| >= 2 {
        if building.None? {
          building := Some(bold[0]);
        }
        if land.None? {
          land := Some(bold[1]);
        }
      }
    }
    assert PriceKeys(total, building, land) == WithBoldPrices(LabelledPrices(item), BoldPrices(item.bolds));
    if total.None? || building.None? || land.None? {
      var all := FindAmounts(item.text, ManYen);
      if all != [] {
        if total.None? && |all| >= 1 {
          total := Some(all[0]);
        }
        if building.None? && |all| >= 2 {
          building := Some(all[1]);
        }
        if land.None? && |all| >= 3 {
          land := Some(all[2]);
        }
      }
    }
    p := PriceKeys(total, building, land);
  }

  // ---------------------------------------------------------------------------
  // The area cascade

  /** The `areas_dict`: the area text for each key that has been set. */
  datatype AreaKeys = AreaKeys(building: Option<string>, land: Option<string>)

  /** What a `div.area` element describes, read from its label. */
  datatype AreaKind = BuildingArea | LandArea | OtherArea

  /** The label with its whitespace removed. */
  function NormalLabel(caption: string): (r: string)
    ensures NoSpace(r)
  {
    RemoveSpaces(Strip(caption))
  }

  /** An area text with m² and ㎡ removed and stripped. */
  function AreaText(v: string): string {
    Strip(RemoveAll(RemoveAll(v, "m²"), "㎡"))
  }

  /** A label holding both 建物 and 面積 names the building area; otherwise one holding both
      土地 and 面積 names the land area; an element without a label or a value names nothing. */
  function KindOf(d: AreaDiv): (k: AreaKind)
    ensures k != OtherArea ==> d.caption.Some? && d.value.Some?
  {
    if d.caption.None? || d.value.None? then OtherArea
    else LabelKind(NormalLabel(d.caption.value))
  }

  /** The kind a whitespace-free label names. */
  function LabelKind(l: string): AreaKind {
    if Contains(l, "建物") && Contains(l, "面積") then BuildingArea
    else if Contains(l, "土地") && Contains(l, "面積") then LandArea
    else OtherArea
  }

  /** How the label decides the kind: both components of 建物面積 first, then both of
      土地面積, searched in the label with its whitespace removed. */
  lemma KindOfLabel(d: AreaDiv)
    ensures KindOf(d) != OtherArea ==> d.caption.Some? && d.value.Some? && Contains(NormalLabel(d.caption.value), "面積")
    ensures KindOf(d) == BuildingArea <==>
              d.caption.Some? && d.value.Some? &&
              Contains(NormalLabel(d.caption.value), "建物") && Contains(NormalLabel(d.caption.value), "面積")
    ensures KindOf(d) == LandArea <==>
              d.caption.Some? && d.value.Some? &&
              !(Contains(NormalLabel(d.caption.value), "建物") && Contains(NormalLabel(d.caption.value), "面積")) &&
              Contains(NormalLabel(d.caption.value), "土地") && Contains(NormalLabel(d.caption.value), "面積")
  {
  }

  /** The kind of every `div.area` element, in document order. */
  function Kinds(divs: seq<AreaDiv>): (ks: seq<AreaKind>)
    ensures |ks| == |divs|
    ensures forall j :: 0 <= j < |divs| ==> ks[j] == KindOf(divs[j])
  {
    if divs == [] then [] else Kinds(divs[..|divs| - 1]) + [KindOf(divs[|divs| - 1])]
  }

  /** The position of the last entry of `ks` equal to `kind`. */
  function LastOfKind(ks: seq<AreaKind>, kind: AreaKind): (r: Option<nat>)
    ensures r.Some? ==> r.value < |ks| && ks[r.value] == kind
    ensures r.Some? ==> forall j :: r.value < j < |ks| ==> ks[j] != kind
    ensures r.None? ==> forall j :: 0 <= j < |ks| ==> ks[j] != kind
  {
    if ks == [] then None
    else if ks[|ks| - 1] == kind then Some(|ks| - 1)
    else LastOfKind(ks[..|ks| - 1], kind)
  }

  lemma LastOfKindAppend(ks: seq<AreaKind>, k: AreaKind, kind: AreaKind)
    ensures LastOfKind(ks + [k], kind) == if k == kind then Some(|ks|) else LastOfKind(ks, kind)
  {
    assert (ks + [k])[..|ks|] == ks;
  }

  /** The label pass: one step per `div.area` element, in document order. */
  function LabelStep(acc: AreaKeys, d: AreaDiv): AreaKeys {
    match KindOf(d)
    case BuildingArea => acc.(building := Some(AreaText(d.value.value)))
    case LandArea => acc.(land := Some(AreaText(d.value.value)))
    case OtherArea => acc
  }

  function LabelPass(divs: seq<AreaDiv>): AreaKeys {
    if divs == [] then AreaKeys(None, None)
    else LabelStep(LabelPass(divs[..|divs| - 1]), divs[|divs| - 1])
  }

  /** Each key of the label pass holds the value of the last element whose label names it,
      and is unset when no label names it. */
  lemma {:induction false} LabelPassLastWins(divs: seq<AreaDiv>)
    ensures LabelPass(divs).building ==
              (match LastOfKind(Kinds(divs), BuildingArea)
               case Some(k) => Some(AreaText(divs[k].value.value))
               case None => None)
    ensures LabelPass(divs).land ==
              (match LastOfKind(Kinds(divs), LandArea)
               case Some(k) => Some(AreaText(divs[k].value.value))
               case None => None)
  {
    if divs != [] {
      var init := divs[..|divs| - 1];
      var d := divs[|divs| - 1];
      LabelPassLastWins(init);
      assert Kinds(divs) == Kinds(init) + [KindOf(d)];
      LastOfKindAppend(Kinds(init), KindOf(d), BuildingArea);
      LastOfKindAppend(Kinds(init), KindOf(d), LandArea);
      assert divs[..|divs| - 1] == init;
    }
  }

  /** The texts of the `.area .value` elements with m² and ㎡ removed and stripped, the empty
      ones dropped, in document order. */
  function ValueTexts(values: seq<string>): (r: seq<string>)
    ensures |r| <= |values|
    ensures forall k :: 0 <= k < |r| ==> r[k] != []
  {
    if values == [] then []
    else
      var t := AreaText(values[|values| - 1]);
      ValueTexts(values[..|values| - 1]) + (if t != [] then [t] else [])
  }

  /** The value texts of consecutive runs of `.value` elements are consecutive: each
      element is cleaned on its own and the document order is kept. */
  lemma {:induction false} ValueTextsAppend(a: seq<string>, b: seq<string>)
    ensures ValueTexts(a + b) == ValueTexts(a) + ValueTexts(b)
    decreases |b|
  {
    if b == [] {
      assert a + b == a;
    } else {
      var init := b[..|b| - 1];
      assert (a + b)[..|a + b| - 1] == a + init;
      ValueTextsAppend(a, init);
    }
  }

  /** One `.value` text contributes its cleaned text, unless nothing is left. */
  lemma ValueTextsOne(x: string)
    ensures ValueTexts([x]) == (if AreaText(x) != [] then [AreaText(x)] else [])
  {
    assert [x][..0] == [];
  }

  /** The positional areas: the value texts, else the amounts before m² or ㎡ in the text. */
  function PositionalAreas(item: Listing): seq<string> {
    var areas := ValueTexts(item.areaValues);
    if areas != [] then areas else FindAmounts(item.text, SquareMetre)
  }

  /** The positional fallback: the first area is the building's, the second the land's. */
  function FromPositions(areas: seq<string>): (r: AreaKeys)
    ensures r.building.Some? <==> |areas| >= 1
    ensures r.land.Some? <==> |areas| >= 2
    ensures r.building.Some? ==> r.building.value == areas[0]
    ensures r.land.Some? ==> r.land.value == areas[1]
  {
    AreaKeys(if |areas| >= 1 then Some(areas[0]) else None,
             if |areas| >= 2 then Some(areas[1]) else None)
  }

  /** The whole cascade: the label pass, and the positional fallback only when the label
      pass set nothing. */
  function AreasOf(item: Listing): AreaKeys {
    var l := LabelPass(item.areaDivs);
    if l.building.None? && l.land.None? then FromPositions(PositionalAreas(item)) else l
  }

  /** Label and positional results never mix: when any label names an area the result is
      the label pass alone, otherwise it is the positional fallback alone. */
  lemma AreasNeverMix(item: Listing)
    ensures (LastOfKind(Kinds(item.areaDivs), BuildingArea).Some? || LastOfKind(Kinds(item.areaDivs), LandArea).Some?) ==>
              AreasOf(item) == LabelPass(item.areaDivs)
    ensures (LastOfKind(Kinds(item.areaDivs), BuildingArea).None? && LastOfKind(Kinds(item.areaDivs), LandArea).None?) ==>
              AreasOf(item) == FromPositions(PositionalAreas(item))
  {
    LabelPassLastWins(item.areaDivs);
  }

  /** One element of the label pass as the extractor runs it. */
  method ApplyAreaDiv(areas: AreaKeys, d: AreaDiv) returns (next: AreaKeys)
    ensures next == LabelStep(areas, d)
  {
    next := areas;
    if d.caption.Some? && d.value.Some? {
      var tag := NormalLabel(d.caption.value);
      var value := AreaText(d.value.value);
      assert KindOf(d) == LabelKind(tag);
      if Contains(tag, "建物") && Contains(tag, "面積") {
        assert KindOf(d) == BuildingArea;
        next := areas.(building := Some(value));
      } else if Contains(tag, "土地") && Contains(tag, "面積") {
        assert KindOf(d) == LandArea;
        next := areas.(land := Some(value));
      } else {
        assert KindOf(d) == OtherArea;
      }
    } else {
      assert KindOf(d) == OtherArea;
    }
  }

  /** The value texts as the extractor collects them. */
  method CollectValueTexts(values: seq<string>) returns (found: seq<string>)
    ensures found == ValueTexts(values)
  {
    found := [];
    for i := 0 to |values|
      invariant found == ValueTexts(values[..i])
    {
      var t := Strip(RemoveAll(RemoveAll(values[i], "m²"), "㎡"));
      assert values[..i + 1][..i] == values[..i];
      if t != [] {
        found := found + [t];
      }
    }
    assert values[..|values|] == values;
  }

  /** The area step as the extractor runs it. */
  method ExtractAreas(item: Listing) returns (areas: AreaKeys)
    ensures areas == AreasOf(item)
  {
    areas := AreaKeys(None, None);
    for i := 0 to |item.areaDivs|
      invariant areas == LabelPass(item.areaDivs[..i])
    {
      assert item.areaDivs[..i + 1][..i] == item.areaDivs[..i];
      areas := ApplyAreaDiv(areas, item.areaDivs[i]);
    }
    assert item.areaDivs[..|item.areaDivs|] == item.areaDivs;
    if areas.building.None? && areas.land.None? {
      var found := CollectValueTexts(item.areaValues);
      if found == [] {
        found := FindAmounts(item.text, SquareMetre);
      }
      if |found| >= 1 {
        areas := areas.(building := Some(found[0]));
      }
      if |found| >= 2 {
        areas := areas.(land := Some(found[1]));
      }
    }
  }

  // ---------------------------------------------------------------------------
  // The record columns

  /** The price, area and unit-price columns of one side (building or land). */
  datatype SideColumns = SideColumns(price: string, area: string, unit: string)

  /** One side's columns: the price as `<p>万円` when the price key is set; the area as
      `<a>m²` when the area key is set too; the unit price `約X.XX万円/m²` when both parse and
      the quotient is not zero. Everything else stays `-`. */
  function SideFields(price: Option<string>, area: Option<string>): (r: SideColumns)
    ensures price.None? ==> r == SideColumns("-", "-", "-")
    ensures price.Some? ==> r.price == price.value + "万円"
    ensures price.Some? && area.Some? ==> r.area == area.value + "m²"
    ensures area.None? ==> r.area == "-" && r.unit == "-"
    ensures r.unit != "-" <==>
              && price.Some? && area.Some?
              && UnitPrice(ParsePrice(r.price), ParseArea(r.area)).Some?
              && UnitPrice(ParsePrice(r.price), ParseArea(r.area)).value != 0.0
    ensures r.unit != "-" ==> r.unit == PerSquareMetre(UnitPrice(ParsePrice(r.price), ParseArea(r.area)).value)
  {
    if price.None? then SideColumns("-", "-", "-")
    else
      var priceField := price.value + "万円";
      if area.None? then SideColumns(priceField, "-", "-")
      else
        var areaField := area.value + "m²";
        var u := UnitPrice(ParsePrice(priceField), ParseArea(areaField));
        if u.Some? && u.value != 0.0 then
          var shown := PerSquareMetre(u.value);
          assert shown[0] == '約';
          SideColumns(priceField, areaField, shown)
        else SideColumns(priceField, areaField, "-")
  }

  /** For an amount such as `1,054` and an area such as `105.5`, the unit-price column is the
      amount over the area, unless the amount is zero or the area is not a non-zero number. */
  lemma UnitPriceColumn(p: string, d: nat, a: string)
    requires forall k :: 0 <= k < |p| ==> IsDigit(p[k]) || p[k] == ','
    requires d < |p| && IsDigit(p[d])
    requires a != [] && forall k :: 0 <= k < |a| ==> IsDigitOrDot(a[k])
    ensures AllDigits(RemoveAll(p, ","))
    ensures var price := DigitsValue(RemoveAll(p, ",")) as real;
            var unit := SideFields(Some(p), Some(a)).unit;
            if price != 0.0 && ParseFloat(a).Some? && ParseFloat(a).value != 0.0
            then unit == PerSquareMetre(price / ParseFloat(a).value)
            else unit == "-"
  {
    PriceOfAmount(p, d);
    AreaFieldReadBack(a);
    var price := DigitsValue(RemoveAll(p, ",")) as real;
    SideUnit(p, a, price, ParseFloat(a));
  }

  lemma SideUnit(p: string, a: string, price: real, area: Option<real>)
    requires ParsePrice(p + "万円").Some? && ParsePrice(p + "万円").value == price
    requires ParseArea(a + "m²") == area
    ensures var unit := SideFields(Some(p), Some(a)).unit;
            if price != 0.0 && area.Some? && area.value != 0.0
            then unit == PerSquareMetre(price / area.value)
            else unit == "-"
  {
    var r := SideFields(Some(p), Some(a));
    var u := UnitPrice(ParsePrice(r.price), ParseArea(r.area));
    assert ParsePrice(r.price).Some? && ParsePrice(r.price).value == price;
    assert ParseArea(r.area) == area;
    if price != 0.0 && area.Some? && area.value != 0.0 {
      assert u.Some? && u.value == price / area.value;
      QuotientNonZero(price, area.value);
    } else if area.Some? && area.value != 0.0 {
      assert u.Some? && u.value == 0.0 / area.value;
    } else {
      assert u.None?;
    }
  }

  lemma QuotientNonZero(x: real, y: real)
    requires x != 0.0 && y != 0.0
    ensures x / y != 0.0
  {
    assert (x / y) * y == x;
  }

  /** The house makers looked for, in order. */
  const Makers: seq<string> := [
    "積水ハウス", "ダイワハウス", "大和ハウス", "セキスイハイム", "パナホーム",
    "ミサワホーム", "ヘーベルハウス", "住友林業", "トヨタホーム", "三井ホーム"
  ]

  /** The maker column: the first maker in list order named in the text, else `-`. */
  function MakerOf(text: string): (r: string)
    ensures FirstContained(Makers, text).None? ==> r == "-"
    ensures FirstContained(Makers, text).Some? ==>
              r == Makers[FirstContained(Makers, text).value] && Contains(text, r)
  {
    match FirstContained(Makers, text)
    case Some(j) => Makers[j]
    case None => "-"
  }

  /** The maker step as the extractor runs it: the first maker named, with a `break`. */
  method FindMaker(text: string) returns (maker: string)
    ensures maker == MakerOf(text)
  {
    var makers := Makers;
    for i := 0 to |makers|
      invariant forall j :: 0 <= j < i ==> !Contains(text, makers[j])
    {
      if Contains(text, makers[i]) {
        var f := FirstContained(makers, text);
        assert f.None? || f.value >= i;
        return makers[i];
      }
    }
    return "-";
  }

  /** The land-price columns: the reference price display and the ratio of the land unit
      price to it. Nothing is looked up for an unknown location; a lookup that raises makes
      the whole listing fail; the ratio is read from the land unit-price column when it has
      the `約X万円` form. */
  function LandColumns(location: string, landUnit: string, hasKey: bool,
                       api: (string, string, string) -> Response): (r: Fetched<(string, string)>)
    ensures location == Unknown ==> r == Returned(("-", "-"))
    ensures r.Raised? ==>
              || LandPriceInfo(location, hasKey, api).Raised?
              || (FindApprox(landUnit).Some? && ParseFloat(FindApprox(landUnit).value).None?)
    ensures r.Returned? && r.value.0 != "-" ==>
              && location != Unknown
              && LandPriceInfo(location, hasKey, api).Returned?
              && LandPriceInfo(location, hasKey, api).value.Some?
              && r.value.0 == LandPriceInfo(location, hasKey, api).value.value.1
    ensures r.Returned? && r.value.1 != "-" ==>
              && r.value.0 != "-"
              && StartsWith(landUnit, "約")
              && FindApprox(landUnit).Some?
              && ParseFloat(FindApprox(landUnit).value).Some?
              && Some(r.value.1) == CalculateRatio(ParseFloat(FindApprox(landUnit).value),
                                                   Some(LandPriceInfo(location, hasKey, api).value.value.0))
  {
    if location == Unknown then Returned(("-", "-"))
    else match LandPriceInfo(location, hasKey, api)
      case Raised => Raised
      case Returned(None) => Returned(("-", "-"))
      case Returned(Some((v, shown))) =>
        var ratio :=
          if landUnit != "-" && StartsWith(landUnit, "約") then
            match FindApprox(landUnit)
            case None => Returned("-")
            case Some(m) =>
              match ParseFloat(m)
              case None => Raised
              case Some(u) =>
                match CalculateRatio(Some(u), Some(v))
                case Some(x) => Returned(x)
                case None => Returned("-")
          else Returned("-");
        match ratio
        case Raised => Raised
        case Returned(x) =>
          LandDisplayShown(v, shown, location, hasKey, api);
          Returned((shown, x))
  }

  /** The reference price display is never `-`. */
  lemma LandDisplayShown(v: real, shown: string, location: string, hasKey: bool,
                         api: (string, string, string) -> Response)
    requires LandPriceInfo(location, hasKey, api) == Returned(Some((v, shown)))
    ensures shown != "-"
  {
    assert shown[0] == '約';
  }

  /** The land unit-price column the extractor writes never makes the ratio step raise:
      either it is `-`, or it is `約X.XX万円/m²` whose number `float()` reads back. So only the
      lookup itself can make the land-price columns raise. */
  lemma LandColumnsRaiseOnlyFromLookup(location: string, price: Option<string>, area: Option<string>,
                                       hasKey: bool, api: (string, string, string) -> Response)
    ensures LandColumns(location, SideFields(price, area).unit, hasKey, api).Raised? ==>
              LandPriceInfo(location, hasKey, api).Raised?
  {
    var unit := SideFields(price, area).unit;
    if unit != "-" {
      var x := UnitPrice(ParsePrice(SideFields(price, area).price), ParseArea(SideFields(price, area).area)).value;
      assert unit == PerSquareMetre(x);
      ApproxOfPerSquareMetre(x);
      if x >= 0.0 {
        Fixed2ReadBack(x);
      }
    }
  }

  /** For a land unit price `約X.XX万円/m²` of a non-negative `x` and a non-zero reference
      price `v`, the ratio column is `x` rounded to hundredths over `v`, formatted with `x`. */
  lemma LandRatioColumn(location: string, x: real, v: real, shown: string, hasKey: bool,
                        api: (string, string, string) -> Response)
    requires location != Unknown && x >= 0.0 && v != 0.0
    requires LandPriceInfo(location, hasKey, api) == Returned(Some((v, shown)))
    ensures LandColumns(location, PerSquareMetre(x), hasKey, api) ==
              Returned((shown, CalculateRatio(Some(RoundTo2(x)), Some(v)).value))
  {
    ApproxOfPerSquareMetre(x);
    Fixed2ReadBack(x);
    ApproxForm(x);
    RatioFromUnit(location, PerSquareMetre(x), Fixed2(x), RoundTo2(x), v, shown, hasKey, api);
  }

  /** The display of a unit price starts with 約 and is not `-`. */
  lemma ApproxForm(x: real)
    ensures PerSquareMetre(x) != "-" && StartsWith(PerSquareMetre(x), "約")
  {
    var unit := PerSquareMetre(x);
    assert unit[..1] == "約";
  }

  lemma RatioFromUnit(location: string, landUnit: string, m: string, u: real, v: real, shown: string,
                      hasKey: bool, api: (string, string, string) -> Response)
    requires location != Unknown && v != 0.0
    requires LandPriceInfo(location, hasKey, api) == Returned(Some((v, shown)))
    requires landUnit != "-" && StartsWith(landUnit, "約")
    requires FindApprox(landUnit) == Some(m)
    requires ParseFloat(m).Some? && ParseFloat(m).value == u
    ensures LandColumns(location, landUnit, hasKey, api) ==
              Returned((shown, CalculateRatio(Some(u), Some(v)).value))
  {
    LandDisplayShown(v, shown, location, hasKey, api);
  }

  /** A negative land unit price has a minus sign after 約, which the `約([0-9.]+)万円`
      pattern does not match, so the ratio column stays `-`. */
  lemma NegativeLandUnitNoRatio(location: string, x: real, hasKey: bool,
                                api: (string, string, string) -> Response)
    requires x < 0.0
    ensures LandColumns(location, PerSquareMetre(x), hasKey, api).Returned? ==>
              LandColumns(location, PerSquareMetre(x), hasKey, api).value.1 == "-"
    ensures LandColumns(location, PerSquareMetre(x), hasKey, api).Raised? ==>
              LandPriceInfo(location, hasKey, api).Raised?
  {
    ApproxOfPerSquareMetre(x);
    NoRatioWithoutApprox(location, PerSquareMetre(x), hasKey, api);
  }

  lemma NoRatioWithoutApprox(location: string, landUnit: string, hasKey: bool,
                             api: (string, string, string) -> Response)
    requires FindApprox(landUnit).None?
    ensures LandColumns(location, landUnit, hasKey, api).Returned? ==>
              LandColumns(location, landUnit, hasKey, api).value.1 == "-"
    ensures LandColumns(location, landUnit, hasKey, api).Raised? ==>
              LandPriceInfo(location, hasKey, api).Raised?
  {
  }

  // ---------------------------------------------------------------------------
  // One listing

  /** A record: the eleven columns of the table, in column order. */
  datatype Record = Record(
    location: string,
    totalPrice: string,
    buildingPrice: string,
    buildingArea: string,
    buildingUnitPrice: string,
    landPrice: string,
    landArea: string,
    landUnitPrice: string,
    landPriceValue: string,
    landPriceRatio: string,
    maker: string)

  /** What happens to one listing: a record is kept, the listing holds nothing worth keeping,
      or an exception escapes its processing and it is skipped. */
  datatype ListingOutcome = Kept(record: Record) | Dropped | Failed

  /** The price column of the total: `<p>万円` when the total key is set, else `-`. */
  function TotalField(total: Option<string>): (r: string)
    ensures total.None? ==> r == "-"
    ensures total.Some? ==> r == total.value + "万円" && r != "-"
  {
    if total.Some? then total.value + "万円" else "-"
  }

  /** The outcome of one listing. */
  function OutcomeOf(item: Listing, hasKey: bool, api: (string, string, string) -> Response): ListingOutcome {
    var location := LocationOf(item);
    var prices := PricesOf(item);
    var areas := AreasOf(item);
    var building := SideFields(prices.building, areas.building);
    var land := SideFields(prices.land, areas.land);
    match LandColumns(location, land.unit, hasKey, api)
    case Raised => Failed
    case Returned((value, ratio)) =>
      if location != Unknown || prices.AnySet() then
        Kept(Record(location, TotalField(prices.total),
                    building.price, building.area, building.unit,
                    land.price, land.area, land.unit,
                    value, ratio, MakerOf(item.text)))
      else Dropped
  }

  /** The keep rule: a listing is kept exactly when it does not fail and it has a location
      or at least one price key. */
  lemma KeepRule(item: Listing, hasKey: bool, api: (string, string, string) -> Response)
    ensures OutcomeOf(item, hasKey, api).Kept? <==>
              && !OutcomeOf(item, hasKey, api).Failed?
              && (LocationOf(item) != Unknown || PricesOf(item).AnySet())
    ensures OutcomeOf(item, hasKey, api).Failed? ==>
              LocationOf(item) != Unknown && LandPriceInfo(LocationOf(item), hasKey, api).Raised?
  {
    var prices := PricesOf(item);
    var areas := AreasOf(item);
    LandColumnsRaiseOnlyFromLookup(LocationOf(item), prices.land, areas.land, hasKey, api);
  }

  /** A kept record has a location or a price column that is not `-`. */
  lemma KeptRecordHasData(item: Listing, hasKey: bool, api: (string, string, string) -> Response)
    requires OutcomeOf(item, hasKey, api).Kept?
    ensures var r := OutcomeOf(item, hasKey, api).record;
            r.location != Unknown || r.totalPrice != "-" || r.buildingPrice != "-" || r.landPrice != "-"
  {
    var prices := PricesOf(item);
    var areas := AreasOf(item);
    var b := SideFields(prices.building, areas.building);
    var l := SideFields(prices.land, areas.land);
    assert prices.building.Some? ==> b.price != "-" by {
      if prices.building.Some? { assert |b.price| == |prices.building.value| + 2; }
    }
    assert prices.land.Some? ==> l.price != "-" by {
      if prices.land.Some? { assert |l.price| == |prices.land.value| + 2; }
    }
  }

  /** One listing as the extractor processes it. */
  method ScrapeListing(item: Listing, hasKey: bool, api: (string, string, string) -> Response)
    returns (outcome: ListingOutcome)
    ensures outcome == OutcomeOf(item, hasKey, api)
  {
    var location := FindListingLocation(item);
    var prices := ExtractPrices(item);
    var areas := ExtractAreas(item);
    var building := SideFields(prices.building, areas.building);
    var land := SideFields(prices.land, areas.land);
    var maker := FindMaker(item.text);
    var columns := LandColumns(location, land.unit, hasKey, api);
    if columns.Raised? {
      return Failed;
    }
    if location != Unknown || prices.AnySet() {
      var (value, ratio) := columns.value;
      outcome := Kept(Record(location, TotalField(prices.total),
                             building.price, building.area, building.unit,
                             land.price, land.area, land.unit,
                             value, ratio, maker));
    } else {
      outcome := Dropped;
    }
  }

  // ---------------------------------------------------------------------------
  // One page

  /** The fetched page: unreachable (a request error or an error status), or a document the
      selectors run on. */
  datatype Page = Unreachable | Loaded(select: string -> seq<Listing>)

  /** The outcome of every listing, in order. */
  function Outcomes(items: seq<Listing>, outcome: Listing -> ListingOutcome): (r: seq<ListingOutcome>)
    ensures |r| == |items|
  {
    if items == [] then [] else Outcomes(items[..|items| - 1], outcome) + [outcome(items[|items| - 1])]
  }

  /** Each listing's outcome sits at the listing's position. */
  lemma {:induction false} OutcomesAt(items: seq<Listing>, outcome: Listing -> ListingOutcome)
    ensures forall j :: 0 <= j < |items| ==> Outcomes(items, outcome)[j] == outcome(items[j])
  {
    if items != [] {
      var init := items[..|items| - 1];
      OutcomesAt(init, outcome);
      forall j | 0 <= j < |items| ensures Outcomes(items, outcome)[j] == outcome(items[j]) {
        if j < |init| {
          assert items[j] == init[j];
        }
      }
    }
  }

  /** The outcome of one listing as a function of the listing alone. */
  function OutcomeWith(hasKey: bool, api: (string, string, string) -> Response): Listing -> ListingOutcome {
    item => OutcomeOf(item, hasKey, api)
  }

  /** The records of the kept outcomes, in order. */
  function KeptOf(outcomes: seq<ListingOutcome>): (r: seq<Record>)
    ensures |r| <= |outcomes|
    ensures forall k :: 0 <= k < |r| ==> exists j :: 0 <= j < |outcomes| && outcomes[j] == Kept(r[k])
  {
    if outcomes == [] then []
    else
      var rest := KeptOf(outcomes[..|outcomes| - 1]);
      var last := outcomes[|outcomes| - 1];
      if last.Kept? then rest + [last.record] else rest
  }

  /** The records kept from `items`, in order. */
  function KeptRecords(items: seq<Listing>, hasKey: bool, api: (string, string, string) -> Response): (r: seq<Record>)
    ensures |r| <= |items|
  {
    KeptOf(Outcomes(items, OutcomeWith(hasKey, api)))
  }

  /** `scrape_property_data`: nothing for an unreachable page; otherwise the records kept
      from the listings of the first selector that finds any. */
  function PropertyData(page: Page, hasKey: bool, api: (string, string, string) -> Response): (r: seq<Record>)
    ensures page.Unreachable? ==> r == []
    ensures page.Loaded? && FirstSelector(page.select).None? ==> r == []
    ensures page.Loaded? ==> |r| <= |LocatedListings(page.select)|
  {
    if page.Unreachable? then [] else KeptRecords(LocatedListings(page.select), hasKey, api)
  }

  /** Every record is kept from a listing, and has a location or a price. */
  lemma KeptRecordsHaveData(items: seq<Listing>, hasKey: bool, api: (string, string, string) -> Response)
    ensures forall k :: 0 <= k < |KeptRecords(items, hasKey, api)| ==>
              var r := KeptRecords(items, hasKey, api)[k];
              r.location != Unknown || r.totalPrice != "-" || r.buildingPrice != "-" || r.landPrice != "-"
  {
    var outs := Outcomes(items, OutcomeWith(hasKey, api));
    var recs := KeptOf(outs);
    OutcomesAt(items, OutcomeWith(hasKey, api));
    forall k | 0 <= k < |recs|
      ensures recs[k].location != Unknown || recs[k].totalPrice != "-" || recs[k].buildingPrice != "-" || recs[k].landPrice != "-"
    {
      var j :| 0 <= j < |outs| && outs[j] == Kept(recs[k]);
      KeptRecordHasData(items[j], hasKey, api);
    }
  }

  /** Listings that fail or hold nothing add no record, and each kept one adds its record at
      the end: the records follow the order of the listings. */
  lemma {:induction false} KeptOfAppend(outs: seq<ListingOutcome>, more: seq<ListingOutcome>)
    ensures KeptOf(outs + more) == KeptOf(outs) + KeptOf(more)
    decreases |more|
  {
    if more == [] {
      assert outs + more == outs;
    } else {
      var init := more[..|more| - 1];
      assert (outs + more)[..|outs + more| - 1] == outs + init;
      KeptOfAppend(outs, init);
    }
  }

  lemma OutcomesAppend(items: seq<Listing>, more: seq<Listing>, outcome: Listing -> ListingOutcome)
    ensures Outcomes(items + more, outcome) == Outcomes(items, outcome) + Outcomes(more, outcome)
  {
    OutcomesAt(items + more, outcome);
    OutcomesAt(items, outcome);
    OutcomesAt(more, outcome);
    var all, a, b := Outcomes(items + more, outcome), Outcomes(items, outcome), Outcomes(more, outcome);
    forall j | 0 <= j < |all| ensures all[j] == (a + b)[j] {
      if j >= |items| {
        assert (items + more)[j] == more[j - |items|];
      }
    }
  }

  /** Scraping the listings in two halves gives the records of the first half followed by
      those of the second. */
  lemma KeptRecordsAppend(items: seq<Listing>, more: seq<Listing>, hasKey: bool,
                          api: (string, string, string) -> Response)
    ensures KeptRecords(items + more, hasKey, api) == KeptRecords(items, hasKey, api) + KeptRecords(more, hasKey, api)
  {
    OutcomesAppend(items, more, OutcomeWith(hasKey, api));
    KeptOfAppend(Outcomes(items, OutcomeWith(hasKey, api)), Outcomes(more, OutcomeWith(hasKey, api)));
  }

  /** The page step as the extractor runs it. */
  method ScrapePropertyData(page: Page, hasKey: bool, api: (string, string, string) -> Response)
    returns (properties: seq<Record>)
    ensures properties == PropertyData(page, hasKey, api)
  {
    if page.Unreachable? {
      return [];
    }
    var items := LocateListings(page.select);
    properties := [];
    for i := 0 to |items|
      invariant properties == KeptRecords(items[..i], hasKey, api)
    {
      var outcome := ScrapeListing(items[i], hasKey, api);
      KeptRecordsStep(items, i, hasKey, api);
      if outcome.Kept? {
        properties := properties + [outcome.record];
      }
    }
    assert items[..|items|] == items;
  }

  /** One more listing adds its record when it is kept and nothing otherwise. */
  lemma KeptRecordsStep(items: seq<Listing>, i: nat, hasKey: bool, api: (string, string, string) -> Response)
    requires i < |items|
    ensures var o := OutcomeOf(items[i], hasKey, api);
      KeptRecords(items[..i + 1], hasKey, api) == KeptRecords(items[..i], hasKey, api) + (if o.Kept? then [o.record] else [])
  {
    var f := OutcomeWith(hasKey, api);
    assert items[..i + 1][..i] == items[..i];
    var outs := Outcomes(items[..i], f);
    assert Outcomes(items[..i + 1], f) == outs + [f(items[i])];
    assert (outs + [f(items[i])])[..i] == outs;
  }

  // ---------------------------------------------------------------------------
  // The Markdown page

  /** A calendar date as `datetime` holds it. */
  datatype Date = Date(year: nat, month: nat, day: nat)

  predicate ValidDate(d: Date) {
    1 <= d.month <= 12 && 1 <= d.day <= 31
  }

  /** The column headings of the table. */
  const TableHead := "| 所在地（町名） | 総額 | 建物価格 | 建物面積 | 建物単価（万円/m²） | 土地価格 | 土地面積 | 土地単価（万円/m²） | 地価（万円/m²） | 地価倍率 | ハウスメーカー |"

  /** The line under the headings. */
  const TableRule := "|----------------|-------|------------|-------------|------------------------|------------|-------------|------------------------|----------------|----------|----------------|"

  /** The front matter, headings and table head of a page. */
  function Header(url: string, date: Date): string
    requires ValidDate(date)
  {
    var y, m, d := ShowNat(date.year), Pad2(date.month), Pad2(date.day);
    "---\nlayout: default\ntitle: " + y + "-" + m + "-" + d
      + "\nparent: データ一覧\nnav_order: " + y + m + d
      + "\n---\n\n# スムストック物件データ\n\n## 取得日: " + y + "年" + m + "月" + d + "日"
      + "\n### 参照URL: [" + url + "](" + url + ")\n\n" + TableHead + "\n" + TableRule + "\n"
  }

  /** The closing note of a page. */
  const Footer := "\n---\n\n**注意**: データは自動的に取得されます。\n"

  /** The columns of a record, in table order. */
  function Fields(r: Record): (fs: seq<string>)
    ensures |fs| == 11
  {
    [r.location, r.totalPrice, r.buildingPrice, r.buildingArea, r.buildingUnitPrice,
     r.landPrice, r.landArea, r.landUnitPrice, r.landPriceValue, r.landPriceRatio, r.maker]
  }

  /** Each column followed by its closing bar, with a space on either side of the text. */
  function Cells(fs: seq<string>): string {
    if fs == [] then [] else " " + fs[0] + " |" + Cells(fs[1..])
  }

  /** A table row. */
  function Row(fs: seq<string>): string {
    "|" + Cells(fs) + "\n"
  }

  /** The placeholder row of a page without records. */
  const NoDataRow := Row(["データなし", "-", "-", "-", "-", "-", "-", "-", "-", "-", "-"])

  /** The rows of the records, in order. */
  function Rows(records: seq<Record>): string {
    Joined(records, RecordRow)
  }

  /** The row of one record. */
  function RecordRow(r: Record): string {
    Row(Fields(r))
  }

  /** The table body: the placeholder row when there are no records, else one row each. */
  function Body(records: seq<Record>): string {
    if records == [] then NoDataRow else Rows(records)
  }

  /** `format_markdown`: header, table body, footer. */
  function Markdown(records: seq<Record>, url: string, date: Date): (md: string)
    requires ValidDate(date)
    ensures StartsWith(md, Header(url, date))
    ensures EndsWith(md, Footer)
  {
    Framed(Header(url, date), Body(records), Footer);
    Header(url, date) + Body(records) + Footer
  }

  /** A text without `c`. */
  predicate Without(s: string, c: char) {
    forall k :: 0 <= k < |s| ==> s[k] != c
  }

  /** A record none of whose columns holds a bar or a line break, so that its row is one
      table line. */
  predicate Clean(r: Record) {
    forall k :: 0 <= k < 11 ==> Without(Fields(r)[k], '|') && Without(Fields(r)[k], '\n')
  }

  lemma {:induction false} CountAbsent(s: string, c: char)
    requires Without(s, c)
    ensures CountChar(s, c) == 0
  {
    if s != [] {
      CountAbsent(s[1..], c);
    }
  }

  /** How often `c` occurs in the columns, all together. */
  function CountInColumns(fs: seq<string>, c: char): nat {
    if fs == [] then 0 else CountChar(fs[0], c) + CountInColumns(fs[1..], c)
  }

  /** Columns free of `c` hold no `c`. */
  lemma {:induction false} CleanColumns(fs: seq<string>, c: char)
    requires forall k :: 0 <= k < |fs| ==> Without(fs[k], c)
    ensures CountInColumns(fs, c) == 0
  {
    if fs != [] {
      CountAbsent(fs[0], c);
      CleanColumns(fs[1..], c);
    }
  }

  /** The cells hold one bar per column, plus the bars and line breaks of the columns. */
  lemma {:induction false} CellsCount(fs: seq<string>, c: char)
    requires c == '|' || c == '\n'
    ensures CountChar(Cells(fs), c) == (if c == '|' then |fs| else 0) + CountInColumns(fs, c)
  {
    if fs != [] {
      CellsCount(fs[1..], c);
      CountCharAppend(" " + fs[0] + " |", Cells(fs[1..]), c);
      CountCharAppend(" " + fs[0], " |", c);
      CountCharAppend(" ", fs[0], c);
      assert CountChar(" ", c) == 0;
      assert CountChar(" |", c) == if c == '|' then 1 else 0 by {
        assert " |"[1..] == "|";
      }
    }
  }

  /** A row of `n` columns has `n + 1` bars and one line break of its own, and it carries
      every bar and line break of its columns unescaped. */
  lemma RowCount(fs: seq<string>)
    ensures CountChar(Row(fs), '|') == |fs| + 1 + CountInColumns(fs, '|')
    ensures CountChar(Row(fs), '\n') == 1 + CountInColumns(fs, '\n')
  {
    CellsCount(fs, '|');
    CellsCount(fs, '\n');
    CountCharAppend("|" + Cells(fs), "\n", '|');
    CountCharAppend("|", Cells(fs), '|');
    CountCharAppend("|" + Cells(fs), "\n", '\n');
    CountCharAppend("|", Cells(fs), '\n');
  }

  /** The row of a record has twelve bars and one line break of its own, plus those inside
      its columns; a clean record's row has exactly eleven cells on one line. */
  lemma RecordRowCount(r: Record)
    ensures CountChar(Row(Fields(r)), '|') == 12 + CountInColumns(Fields(r), '|')
    ensures CountChar(Row(Fields(r)), '\n') == 1 + CountInColumns(Fields(r), '\n')
    ensures Clean(r) ==> CountChar(Row(Fields(r)), '|') == 12 && CountChar(Row(Fields(r)), '\n') == 1
  {
    RowCount(Fields(r));
    if Clean(r) {
      CleanColumns(Fields(r), '|');
      CleanColumns(Fields(r), '\n');
    }
  }

  /** The placeholder row has eleven cells too. */
  lemma NoDataRowCount()
    ensures CountChar(NoDataRow, '|') == 12
    ensures CountChar(NoDataRow, '\n') == 1
  {
    var fs := PlaceholderFields();
    RowCount(fs);
    CleanColumns(fs, '|');
    CleanColumns(fs, '\n');
  }

  /** The columns of the placeholder row: データなし and ten dashes. */
  function PlaceholderFields(): (fs: seq<string>)
    ensures |fs| == 11 && Row(fs) == NoDataRow
    ensures forall k :: 0 <= k < |fs| ==> Without(fs[k], '|') && Without(fs[k], '\n')
  {
    var fs := ["データなし", "-", "-", "-", "-", "-", "-", "-", "-", "-", "-"];
    assert Without(fs[0], '|') && Without(fs[0], '\n');
    fs
  }

  /** Rendering records in two parts gives the rows of the first part followed by those of
      the second: one row per record, in input order. */
  lemma RowsAppend(a: seq<Record>, b: seq<Record>)
    ensures Rows(a + b) == Rows(a) + Rows(b)
  {
    JoinedAppend(a, b, RecordRow);
  }

  /** The rows of clean records: one line and twelve bars per record. */
  lemma {:induction false} RowsCount(records: seq<Record>)
    requires forall k :: 0 <= k < |records| ==> Clean(records[k])
    ensures CountChar(Rows(records), '\n') == |records|
    ensures CountChar(Rows(records), '|') == 12 * |records|
  {
    if records != [] {
      var init := records[..|records| - 1];
      RowsCount(init);
      RecordRowCount(records[|records| - 1]);
      CountCharAppend(Rows(init), Row(Fields(records[|records| - 1])), '\n');
      CountCharAppend(Rows(init), Row(Fields(records[|records| - 1])), '|');
    }
  }

  /** The table body has exactly one line per record, or the single placeholder line when
      there are none; every line has eleven cells. */
  lemma BodyLines(records: seq<Record>)
    requires forall k :: 0 <= k < |records| ==> Clean(records[k])
    ensures CountChar(Body(records), '\n') == if records == [] then 1 else |records|
    ensures CountChar(Body(records), '|') == 12 * (if records == [] then 1 else |records|)
  {
    if records == [] {
      NoDataRowCount();
    } else {
      RowsCount(records);
    }
  }

  /** The rendering as the formatter runs it: appending to the page text row by row. */
  method FormatMarkdown(records: seq<Record>, url: string, date: Date) returns (md: string)
    requires ValidDate(date)
    ensures md == Markdown(records, url, date)
  {
    md := Header(url, date);
    md := AppendBody(md, records);
    md := md + Footer;
  }

  /** The table body appended to the text so far. */
  method AppendBody(text: string, records: seq<Record>) returns (md: string)
    ensures md == text + Body(records)
  {
    md := text;
    if records == [] {
      md := md + NoDataRow;
    } else {
      for i := 0 to |records|
        invariant md == text + Rows(records[..i])
      {
        assert records[..i + 1][..i] == records[..i];
        md := md + Row(Fields(records[i]));
      }
      assert records[..|records|] == records;
    }
  }
}
