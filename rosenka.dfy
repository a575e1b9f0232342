/** Reference-price lookup (`scripts/rosenka.py`): the built-in geocoding table, the
    extraction of the municipality from an address, the four-step lookup of a reference
    price per square metre and the ratio of a displayed unit price to it. */
module Rosenka {
  import opened Wrappers
  import opened Text
  import opened Numerals
  import opened Patterns

  /** The position of `key` among the keys of a dictionary held as its items in insertion
      order: `key in d`. */
  function KeyIndex<V>(items: seq<(string, V)>, key: string): (r: Option<nat>)
    ensures r.Some? ==> r.value < |items| && items[r.value].0 == key
    ensures r.Some? ==> forall j :: 0 <= j < r.value ==> items[j].0 != key
    ensures r.None? ==> forall j :: 0 <= j < |items| ==> items[j].0 != key
  {
    if items == [] then None
    else if items[0].0 == key then Some(0)
    else match KeyIndex(items[1..], key)
      case None => None
      case Some(k) => Some(k + 1)
  }

  /** `d[key]` when `key in d`. */
  function Lookup<V>(items: seq<(string, V)>, key: string): (r: Option<V>)
    ensures r.Some? <==> KeyIndex(items, key).Some?
    ensures r.Some? ==> r.value == items[KeyIndex(items, key).value].1
  {
    match KeyIndex(items, key)
    case None => None
    case Some(k) => Some(items[k].1)
  }

  /** The keys of a dictionary, in insertion order. */
  function Keys<V>(items: seq<(string, V)>): (ks: seq<string>)
    ensures |ks| == |items| && forall j :: 0 <= j < |items| ==> ks[j] == items[j].0
  {
    if items == [] then [] else [items[0].0] + Keys(items[1..])
  }

  /** The `for key, value in d.items(): if key in text or text in key: return ...` loop:
      the position of the first key that overlaps `text`. */
  method FirstOverlappingKey<V>(items: seq<(string, V)>, text: string) returns (r: Option<nat>)
    ensures r == FirstOverlapping(Keys(items), text)
  {
    for i := 0 to |items|
      invariant forall j :: 0 <= j < i ==> !Overlaps(items[j].0, text)
    {
      var key := items[i].0;
      if Contains(text, key) || Contains(key, text) {
        var f := FirstOverlapping(Keys(items), text);
        assert f.None? || f.value >= i;
        return Some(i);
      }
    }
    return None;
  }

  /** The `for key, value in d.items(): if key in text: return ...` loop: the position of
      the first key that occurs in `text`. */
  method FirstContainedKey<V>(items: seq<(string, V)>, text: string) returns (r: Option<nat>)
    ensures r == FirstContained(Keys(items), text)
  {
    for i := 0 to |items|
      invariant forall j :: 0 <= j < i ==> !Contains(text, items[j].0)
    {
      if Contains(text, items[i].0) {
        var f := FirstContained(Keys(items), text);
        assert f.None? || f.value >= i;
        return Some(i);
      }
    }
    return None;
  }

  // ---------------------------------------------------------------------------
  // geocode

  /** The built-in coordinates (latitude, longitude), in table order. */
  const MockGeocoding: seq<(string, (real, real))> := [
    ("松戸市中金杉1丁目", (35.7873, 139.9026)),
    ("松戸市小金原2丁目", (35.7991, 139.9486)),
    ("柏市", (35.8677, 139.9750)),
    ("市川市", (35.7226, 139.9306))
  ]

  /** The table entry `geocode` answers with: the entry whose key is the address, else the
      first entry whose key occurs in the address or contains it. */
  function GeocodeEntry(table: seq<(string, (real, real))>, address: string): (r: Option<nat>)
    ensures KeyIndex(table, address).Some? ==> r == KeyIndex(table, address)
    ensures KeyIndex(table, address).None? && r.Some? ==>
              && r.value < |table| && Overlaps(table[r.value].0, address)
              && forall j :: 0 <= j < r.value ==> !Overlaps(table[j].0, address)
    ensures r.None? <==> forall j :: 0 <= j < |table| ==> !Overlaps(table[j].0, address)
  {
    match KeyIndex(table, address)
    case Some(k) =>
      assert OccursAt(address, table[k].0, 0);
      Some(k)
    case None => FirstOverlapping(Keys(table), address)
  }

  /** `geocode`: the exact key first, then the partial matches in table order. */
  method Geocode(address: string) returns (r: Option<(real, real)>)
    ensures r.None? <==> GeocodeEntry(MockGeocoding, address).None?
    ensures r.Some? ==> r.value == MockGeocoding[GeocodeEntry(MockGeocoding, address).value].1
  {
    var table := MockGeocoding;
    var exact := Lookup(table, address);
    if exact.Some? {
      return exact;
    }
    var k := FirstOverlappingKey(table, address);
    if k.Some? {
      return Some(table[k.value].1);
    }
    return None;
  }

  /** The empty address occurs in every key, so `geocode("")` answers with the first
      entry. */
  lemma GeocodeEmpty()
    ensures GeocodeEntry(MockGeocoding, "") == Some(0)
  {
    assert OccursAt(MockGeocoding[0].0, "", 0);
    assert Overlaps(Keys(MockGeocoding)[0], "");
  }

  // ---------------------------------------------------------------------------
  // normalize_location

  /** `normalize_location`: in the stripped input, the leftmost shortest piece that holds
      no 都道府県 and ends with one of 市区町村; the stripped input when there is none. */
  function NormalizeLocation(location: string): (r: string)
    ensures (forall a, e :: !CityTokenAt(Strip(location), a, e)) ==> r == Strip(location)
    ensures r == Strip(location) || (
              && |r| >= 2 && IsMunicipalityMark(r[|r| - 1])
              && forall j :: 0 <= j < |r| ==> !IsPrefectureMark(r[j]))
  {
    var t := Strip(location);
    match CitySearch(t, 0)
    case None => t
    case Some((a, e)) =>
      CityTokenPiece(t, a, e);
      t[a..e]
  }

  /** A city token, cut out of the text. */
  lemma CityTokenPiece(t: string, a: nat, e: nat)
    requires CityTokenAt(t, a, e)
    ensures var r := t[a..e];
      && |r| >= 2 && IsMunicipalityMark(r[|r| - 1])
      && forall j :: 0 <= j < |r| ==> !IsPrefectureMark(r[j])
  {
    var r := t[a..e];
    forall j | 0 <= j < |r| ensures !IsPrefectureMark(r[j]) {
      assert r[j] == t[a + j];
    }
  }

  /** The reference definition: when `Strip(location)[a..e]` is a city token, no token
      starts further left and none starting at `a` is shorter, it is the result. */
  lemma NormalizeIsLeftmostShortest(location: string, a: nat, e: nat)
    requires CityTokenAt(Strip(location), a, e)
    requires forall a': nat, e': nat :: a' < a ==> !CityTokenAt(Strip(location), a', e')
    requires forall e': nat :: e' < e ==> !CityTokenAt(Strip(location), a, e')
    ensures NormalizeLocation(location) == Strip(location)[a..e]
  {
    var t := Strip(location);
    var r := CitySearch(t, 0);
    assert r.Some?;
    assert r.value.0 == a;
    assert r.value.1 == e;
  }

  /** `normalize_location("松戸市中金杉1丁目")` is `松戸市`. */
  lemma NormalizeExample()
    ensures NormalizeLocation("松戸市中金杉1丁目") == "松戸市"
  {
    var s := "松戸市中金杉1丁目";
    assert !IsSpace(s[0]) && !IsSpace(s[|s| - 1]);
    MatsudoCity();
    assert CitySearch(s, 0) == Some((0, 3));
  }

  /** The lazy city match at the start of `松戸市中金杉1丁目` stops after `市`. */
  lemma MatsudoCity()
    ensures CityAt("松戸市中金杉1丁目", 0) == Some(3)
  {
    var s := "松戸市中金杉1丁目";
    assert LazyCity(s, 0, 2) == Some(3);
  }

  // ---------------------------------------------------------------------------
  // find_rosenka

  /** The built-in reference prices per municipality, in 万円/m², in table order. */
  const MockRosenka: seq<(string, real)> := [
    ("松戸市", 12.5),
    ("柏市", 15.0),
    ("市川市", 18.0),
    ("船橋市", 20.0)
  ]

  /** Which step of `find_rosenka` answers, and with which entry. */
  datatype RosenkaHit =
    | ExactKey(k: nat)        // the address is a key of the data
    | NormalizedKey(k: nat)   // its normalized form is
    | PartialKey(k: nat)      // the first key occurring in the address or containing it
    | BuiltIn(k: nat)         // the first built-in municipality occurring in the address
    | NoHit

  /** The precedence of `find_rosenka` over the loaded data. */
  function RosenkaHitFor(address: string, data: seq<(string, real)>): (h: RosenkaHit)
    ensures h.ExactKey? <==> KeyIndex(data, address).Some?
    ensures h.NormalizedKey? <==> KeyIndex(data, address).None? && KeyIndex(data, NormalizeLocation(address)).Some?
    ensures h.PartialKey? ==> KeyIndex(data, address).None? && KeyIndex(data, NormalizeLocation(address)).None?
    ensures h.PartialKey? ==> h.k < |data| && Overlaps(data[h.k].0, address)
    ensures h.PartialKey? ==> forall j :: 0 <= j < h.k ==> !Overlaps(data[j].0, address)
    ensures h.BuiltIn? || h.NoHit? ==> forall j :: 0 <= j < |data| ==> !Overlaps(data[j].0, address)
    ensures h.BuiltIn? ==> h.k < |MockRosenka| && Contains(address, MockRosenka[h.k].0)
    ensures h.BuiltIn? ==> forall j :: 0 <= j < h.k ==> !Contains(address, MockRosenka[j].0)
    ensures h.NoHit? ==> forall j :: 0 <= j < |MockRosenka| ==> !Contains(address, MockRosenka[j].0)
  {
    match KeyIndex(data, address)
    case Some(k) => ExactKey(k)
    case None =>
      match KeyIndex(data, NormalizeLocation(address))
      case Some(k) => NormalizedKey(k)
      case None =>
        match FirstOverlapping(Keys(data), address)
        case Some(k) => PartialKey(k)
        case None =>
          assert forall j :: 0 <= j < |data| ==> !Overlaps(data[j].0, address) by {
            assert forall j :: 0 <= j < |data| ==> Keys(data)[j] == data[j].0;
          }
          match FirstContained(Keys(MockRosenka), address)
          case Some(k) => BuiltIn(k)
          case None => NoHit
  }

  /** The price a hit stands for. */
  function HitValue(h: RosenkaHit, data: seq<(string, real)>): Option<real> {
    match h
    case ExactKey(k) => if k < |data| then Some(data[k].1) else None
    case NormalizedKey(k) => if k < |data| then Some(data[k].1) else None
    case PartialKey(k) => if k < |data| then Some(data[k].1) else None
    case BuiltIn(k) => if k < |MockRosenka| then Some(MockRosenka[k].1) else None
    case NoHit => None
  }

  /** `find_rosenka` with the data given: exact key, normalized key, first partial match in
      data order, built-in table, in that order, stopping at the first hit. */
  method FindRosenka(address: string, data: seq<(string, real)>) returns (r: Option<real>)
    ensures r == HitValue(RosenkaHitFor(address, data), data)
  {
    var exact := Lookup(data, address);
    if exact.Some? {
      return exact;
    }
    var normalized := NormalizeLocation(address);
    var byName := Lookup(data, normalized);
    if byName.Some? {
      return byName;
    }
    var partial := FirstOverlappingKey(data, address);
    if partial.Some? {
      return Some(data[partial.value].1);
    }
    var mock := MockRosenka;
    var city := FirstContainedKey(mock, address);
    if city.Some? {
      return Some(mock[city.value].1);
    }
    return None;
  }

  /** With no loaded data, the first built-in municipality occurring in the address gives
      the price. */
  lemma EmptyDataUsesBuiltIn(address: string, k: nat)
    requires k < |MockRosenka| && Contains(address, MockRosenka[k].0)
    requires forall j :: 0 <= j < k ==> !Contains(address, MockRosenka[j].0)
    ensures HitValue(RosenkaHitFor(address, []), []) == Some(MockRosenka[k].1)
  {
    var h := RosenkaHitFor(address, []);
    assert h.BuiltIn?;
    assert h.k == k;
  }

  /** An address containing 松戸市 is priced at 12.5 when no data is loaded. */
  lemma EmptyDataMatsudo(address: string)
    requires Contains(address, "松戸市")
    ensures HitValue(RosenkaHitFor(address, []), []) == Some(12.5)
  {
    EmptyDataUsesBuiltIn(address, 0);
  }

  /** An address that is a key of the data gets that key's price, whatever else matches. */
  lemma ExactKeyFirst(address: string, data: seq<(string, real)>, k: nat)
    requires k < |data| && data[k].0 == address
    requires forall j :: 0 <= j < k ==> data[j].0 != address
    ensures HitValue(RosenkaHitFor(address, data), data) == Some(data[k].1)
  {
    assert KeyIndex(data, address) == Some(k);
  }

  // ---------------------------------------------------------------------------
  // calculate_rosenka_ratio

  /** `calculate_rosenka_ratio`: nothing for an empty or `-` string, a missing or zero
      reference, no run of digits and dots or a run `float()` rejects; otherwise the run's
      value over the reference. */
  function RosenkaRatio(unitPrice: string, rosenka: Option<real>): (r: Option<real>)
    ensures unitPrice == [] || unitPrice == "-" || rosenka.None? || rosenka.value == 0.0 ==> r.None?
    ensures FirstNumberRun(unitPrice).None? ==> r.None?
    ensures FirstNumberRun(unitPrice).Some? && ParseFloat(FirstNumberRun(unitPrice).value).None? ==> r.None?
    ensures rosenka.Some? && rosenka.value != 0.0 && FirstNumberRun(unitPrice).Some?
            && ParseFloat(FirstNumberRun(unitPrice).value).Some? ==>
              r.Some? && r.value == ParseFloat(FirstNumberRun(unitPrice).value).value / rosenka.value
  {
    if unitPrice == [] || unitPrice == "-" then None
    else if rosenka.None? || rosenka.value == 0.0 then None
    else match FirstNumberRun(unitPrice)
      case None => None
      case Some(run) =>
        match ParseFloat(run)
        case None => None
        case Some(x) => Some(x / rosenka.value)
  }

  /** On a displayed unit price `約{u:.2f}万円/m²` with `u >= 0`, the ratio is the displayed
      (rounded) unit price over the reference. */
  lemma RosenkaRatioOfDisplay(u: real, v: real)
    requires u >= 0.0 && v != 0.0
    ensures RosenkaRatio(PerSquareMetre(u), Some(v)).Some?
    ensures RosenkaRatio(PerSquareMetre(u), Some(v)).value == RoundTo2(u) / v
  {
    var f := Fixed2(u);
    FirstRunOfPerSquareMetre(u);
    Fixed2ReadBack(u);
  }

  /** The display form of 15 is `約15.00万円/m²`; by `RosenkaRatioOfDisplay` its ratio
      against 10.0 is 15.0 / 10.0 = 1.5. */
  lemma DisplayFifteen()
    ensures PerSquareMetre(15.0) == "約15.00万円/m²"
  {
    FixedFifteen();
    assert PerSquareMetre(15.0) == "約" + "15.00" + "万円/m²";
  }

  /** `f"{15.0:.2f}"` is `15.00`. */
  lemma FixedFifteen()
    ensures Fixed2(15.0) == "15.00"
  {
    assert RoundCents(Abs(15.0)) == 1500;
    CentsFifteen();
  }

  lemma CentsFifteen()
    ensures ShowCents(1500) == "15.00"
  {
    assert ShowNat(15) == "15" by {
      assert ShowNat(1) == "1";
    }
    assert DigitChar(0) == '0';
  }
}
