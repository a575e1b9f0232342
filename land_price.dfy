/** Address-to-code lookup and land-price averaging (`scripts/land_price.py`): the table of
    municipality names, the longest-name-first search, the averaging of the price points a
    land-price service returns, the ratio string and the combined lookup. The service itself
    is a parameter. */
module LandPrice {
  import opened Wrappers
  import opened Text
  import opened Numerals
  import opened Patterns

  /** One row of the municipality table: the name looked for in an address, the
      prefecture code and the municipality code. */
  datatype CityEntry = CityEntry(name: string, pref: string, city: string)

  /** The municipality table, in the order its entries are written. */
  const CityCodes: seq<CityEntry> := [
    CityEntry("千葉市", "12", "100"),
    CityEntry("千葉市中央区", "12", "101"),
    CityEntry("千葉市花見川区", "12", "102"),
    CityEntry("千葉市稲毛区", "12", "103"),
    CityEntry("千葉市若葉区", "12", "104"),
    CityEntry("千葉市緑区", "12", "105"),
    CityEntry("千葉市美浜区", "12", "106"),
    CityEntry("銚子市", "12", "202"),
    CityEntry("市川市", "12", "203"),
    CityEntry("船橋市", "12", "204"),
    CityEntry("館山市", "12", "205"),
    CityEntry("木更津市", "12", "206"),
    CityEntry("松戸市", "12", "207"),
    CityEntry("野田市", "12", "208"),
    CityEntry("茂原市", "12", "209"),
    CityEntry("成田市", "12", "210"),
    CityEntry("佐倉市", "12", "211"),
    CityEntry("東金市", "12", "212"),
    CityEntry("旭市", "12", "213"),
    CityEntry("習志野市", "12", "214"),
    CityEntry("柏市", "12", "215"),
    CityEntry("勝浦市", "12", "216"),
    CityEntry("市原市", "12", "217"),
    CityEntry("流山市", "12", "218"),
    CityEntry("八千代市", "12", "219"),
    CityEntry("我孫子市", "12", "220"),
    CityEntry("鴨川市", "12", "221"),
    CityEntry("鎌ケ谷市", "12", "222"),
    CityEntry("君津市", "12", "223"),
    CityEntry("富津市", "12", "224"),
    CityEntry("浦安市", "12", "225"),
    CityEntry("四街道市", "12", "226"),
    CityEntry("袖ケ浦市", "12", "227"),
    CityEntry("八街市", "12", "228"),
    CityEntry("印西市", "12", "229"),
    CityEntry("白井市", "12", "230"),
    CityEntry("富里市", "12", "231"),
    CityEntry("南房総市", "12", "232"),
    CityEntry("匝瑳市", "12", "233"),
    CityEntry("香取市", "12", "234"),
    CityEntry("山武市", "12", "235"),
    CityEntry("いすみ市", "12", "236"),
    CityEntry("大網白里市", "12", "237"),
    CityEntry("千代田区", "13", "101"),
    CityEntry("中央区", "13", "102"),
    CityEntry("港区", "13", "103"),
    CityEntry("新宿区", "13", "104"),
    CityEntry("文京区", "13", "105"),
    CityEntry("台東区", "13", "106"),
    CityEntry("墨田区", "13", "107"),
    CityEntry("江東区", "13", "108"),
    CityEntry("品川区", "13", "109"),
    CityEntry("目黒区", "13", "110"),
    CityEntry("大田区", "13", "111"),
    CityEntry("世田谷区", "13", "112"),
    CityEntry("渋谷区", "13", "113"),
    CityEntry("中野区", "13", "114"),
    CityEntry("杉並区", "13", "115"),
    CityEntry("豊島区", "13", "116"),
    CityEntry("北区", "13", "117"),
    CityEntry("荒川区", "13", "118"),
    CityEntry("板橋区", "13", "119"),
    CityEntry("練馬区", "13", "120"),
    CityEntry("足立区", "13", "121"),
    CityEntry("葛飾区", "13", "122"),
    CityEntry("江戸川区", "13", "123"),
    CityEntry("八王子市", "13", "201"),
    CityEntry("立川市", "13", "202"),
    CityEntry("武蔵野市", "13", "203"),
    CityEntry("三鷹市", "13", "204"),
    CityEntry("青梅市", "13", "205"),
    CityEntry("府中市", "13", "206"),
    CityEntry("昭島市", "13", "207"),
    CityEntry("調布市", "13", "208"),
    CityEntry("町田市", "13", "209"),
    CityEntry("小金井市", "13", "210"),
    CityEntry("小平市", "13", "211"),
    CityEntry("日野市", "13", "212"),
    CityEntry("東村山市", "13", "213"),
    CityEntry("国分寺市", "13", "214"),
    CityEntry("国立市", "13", "215"),
    CityEntry("福生市", "13", "218"),
    CityEntry("狛江市", "13", "219"),
    CityEntry("東大和市", "13", "220"),
    CityEntry("清瀬市", "13", "221"),
    CityEntry("東久留米市", "13", "222"),
    CityEntry("武蔵村山市", "13", "223"),
    CityEntry("多摩市", "13", "224"),
    CityEntry("稲城市", "13", "225"),
    CityEntry("羽村市", "13", "227"),
    CityEntry("あきる野市", "13", "228"),
    CityEntry("西東京市", "13", "229"),
    CityEntry("さいたま市", "11", "100"),
    CityEntry("さいたま市西区", "11", "101"),
    CityEntry("さいたま市北区", "11", "102"),
    CityEntry("さいたま市大宮区", "11", "103"),
    CityEntry("さいたま市見沼区", "11", "104"),
    CityEntry("さいたま市中央区", "11", "105"),
    CityEntry("さいたま市桜区", "11", "106"),
    CityEntry("さいたま市浦和区", "11", "107"),
    CityEntry("さいたま市南区", "11", "108"),
    CityEntry("さいたま市緑区", "11", "109"),
    CityEntry("さいたま市岩槻区", "11", "110"),
    CityEntry("横浜市", "14", "100"),
    CityEntry("横浜市鶴見区", "14", "101"),
    CityEntry("横浜市神奈川区", "14", "102"),
    CityEntry("横浜市西区", "14", "103"),
    CityEntry("横浜市中区", "14", "104"),
    CityEntry("横浜市南区", "14", "105"),
    CityEntry("横浜市保土ケ谷区", "14", "106"),
    CityEntry("横浜市磯子区", "14", "107"),
    CityEntry("横浜市金沢区", "14", "108"),
    CityEntry("横浜市港北区", "14", "109"),
    CityEntry("横浜市戸塚区", "14", "110"),
    CityEntry("横浜市港南区", "14", "111"),
    CityEntry("横浜市旭区", "14", "112"),
    CityEntry("横浜市緑区", "14", "113"),
    CityEntry("横浜市瀬谷区", "14", "114"),
    CityEntry("横浜市栄区", "14", "115"),
    CityEntry("横浜市泉区", "14", "116"),
    CityEntry("横浜市青葉区", "14", "117"),
    CityEntry("横浜市都筑区", "14", "118")
  ]

  // ---------------------------------------------------------------------------
  // sorted(city_to_codes.keys(), key=len, reverse=True)

  /** Entry `j` is visited before entry `k`: its name is longer, or equally long and
      earlier in the table (the sort is stable). */
  predicate Before(t: seq<CityEntry>, j: nat, k: nat) {
    j < |t| && k < |t| && (|t[j].name| > |t[k].name| || (|t[j].name| == |t[k].name| && j < k))
  }

  /** `order` lists table positions in visiting order. */
  predicate Ranked(t: seq<CityEntry>, order: seq<nat>) {
    forall p, q :: 0 <= p < q < |order| ==> Before(t, order[p], order[q])
  }

  /** The positions from `i` on whose names have length `n`, in table order. */
  function LengthGroup(t: seq<CityEntry>, n: nat, i: nat): (g: seq<nat>)
    ensures forall p :: 0 <= p < |g| ==> i <= g[p] < |t| && |t[g[p]].name| == n
    ensures forall j :: i <= j < |t| && |t[j].name| == n ==> j in g
    ensures Ranked(t, g)
    decreases |t| - i
  {
    if i >= |t| then []
    else if |t[i].name| == n then [i] + LengthGroup(t, n, i + 1)
    else LengthGroup(t, n, i + 1)
  }

  /** The groups of length `n`, `n - 1`, ..., `0`, one after the other. */
  function LongestFirstFrom(t: seq<CityEntry>, n: nat): (order: seq<nat>)
    ensures forall p :: 0 <= p < |order| ==> order[p] < |t| && |t[order[p]].name| <= n
    ensures forall j :: 0 <= j < |t| && |t[j].name| <= n ==> j in order
    ensures Ranked(t, order)
  {
    var g := LengthGroup(t, n, 0);
    if n == 0 then g
    else
      var rest := LongestFirstFrom(t, n - 1);
      assert forall p, q :: 0 <= p < |g| && 0 <= q < |rest| ==> Before(t, g[p], rest[q]);
      g + rest
  }

  /** The length of the longest name in the table. */
  function MaxNameLength(t: seq<CityEntry>): (n: nat)
    ensures forall j :: 0 <= j < |t| ==> |t[j].name| <= n
  {
    if t == [] then 0
    else
      var m := MaxNameLength(t[1..]);
      assert forall j :: 1 <= j < |t| ==> t[j] == t[1..][j - 1];
      if |t[0].name| > m then |t[0].name| else m
  }

  /** The visiting order of the lookup: every table position once, longest names first,
      equally long names in table order. */
  function LongestFirst(t: seq<CityEntry>): (order: seq<nat>)
    ensures forall p :: 0 <= p < |order| ==> order[p] < |t|
    ensures forall j :: 0 <= j < |t| ==> j in order
    ensures Ranked(t, order)
  {
    LongestFirstFrom(t, MaxNameLength(t))
  }

  // ---------------------------------------------------------------------------
  // parse_address

  /** The first position in `order`, from `p` on, whose name occurs in `address`. */
  function FirstHit(t: seq<CityEntry>, order: seq<nat>, address: string, p: nat): (r: Option<nat>)
    requires forall q :: 0 <= q < |order| ==> order[q] < |t|
    ensures r.Some? ==> p <= r.value < |order| && Contains(address, t[order[r.value]].name)
    ensures r.Some? ==> forall q :: p <= q < r.value ==> !Contains(address, t[order[q]].name)
    ensures r.None? ==> forall q :: p <= q < |order| ==> !Contains(address, t[order[q]].name)
    decreases |order| - p
  {
    if p >= |order| then None
    else if Contains(address, t[order[p]].name) then Some(p)
    else FirstHit(t, order, address, p + 1)
  }

  /** The table position `parse_address` settles on: the longest name occurring in the
      address, the earliest in the table among names of that length; none for an empty
      address or when no name occurs in it. */
  function ChosenEntry(t: seq<CityEntry>, address: string): (r: Option<nat>)
    ensures r.Some? ==> address != [] && r.value < |t| && Contains(address, t[r.value].name)
    ensures r.Some? ==> forall j :: 0 <= j < |t| && j != r.value && Contains(address, t[j].name) ==>
                          Before(t, r.value, j)
    ensures r.None? <==> address == [] || forall j :: 0 <= j < |t| ==> !Contains(address, t[j].name)
  {
    if address == [] then None
    else
      var order := LongestFirst(t);
      var hit := FirstHit(t, order, address, 0);
      if hit.None? then
        assert forall j :: 0 <= j < |t| ==> !Contains(address, t[j].name) by {
          forall j | 0 <= j < |t| ensures !Contains(address, t[j].name) {
            assert j in order;
            var q :| 0 <= q < |order| && order[q] == j;
          }
        }
        None
      else
        var k := order[hit.value];
        assert forall j :: 0 <= j < |t| && j != k && Contains(address, t[j].name) ==> Before(t, k, j) by {
          forall j | 0 <= j < |t| && j != k && Contains(address, t[j].name)
            ensures Before(t, k, j)
          {
            assert j in order;
            var q :| 0 <= q < |order| && order[q] == j;
            assert hit.value < q;
          }
        }
        Some(k)
  }

  /** The search over a table: the codes of the chosen entry. */
  function CodesIn(t: seq<CityEntry>, address: string): (r: Option<(string, string)>)
    ensures r.None? <==> ChosenEntry(t, address).None?
    ensures r.Some? ==> r.value == (t[ChosenEntry(t, address).value].pref, t[ChosenEntry(t, address).value].city)
  {
    match ChosenEntry(t, address)
    case None => None
    case Some(k) => Some((t[k].pref, t[k].city))
  }

  /** The search over a table as `parse_address` runs it: names in visiting order, the
      first one occurring in the address wins. */
  method SearchTable(t: seq<CityEntry>, address: string) returns (r: Option<(string, string)>)
    ensures r == CodesIn(t, address)
  {
    if address == [] {
      return None;
    }
    var order := LongestFirst(t);
    for p := 0 to |order|
      invariant FirstHit(t, order, address, 0) == FirstHit(t, order, address, p)
    {
      var entry := t[order[p]];
      if Contains(address, entry.name) {
        return Some((entry.pref, entry.city));
      }
    }
    return None;
  }

  /** `parse_address` on the municipality table. */
  function CodesFor(address: string): Option<(string, string)> {
    CodesIn(CityCodes, address)
  }

  /** `parse_address`: an empty address gives nothing; otherwise the table names are tried
      longest first and the codes of the first one occurring in the address are returned. */
  method ParseAddress(address: string) returns (r: Option<(string, string)>)
    ensures r == CodesFor(address)
  {
    r := SearchTable(CityCodes, address);
  }

  // ---------------------------------------------------------------------------
  // fetch_land_price

  /** The year the lookup asks for. */
  const DefaultYear := "2023"

  /** A decoded JSON value; integers and floats are both numbers. */
  datatype Json =
    | JNull
    | JBool(b: bool)
    | JNum(x: real)
    | JStr(s: string)
    | JArr(items: seq<Json>)
    | JObj(fields: map<string, Json>)

  /** Python truthiness of a decoded JSON value. */
  predicate Truthy(v: Json) {
    match v
    case JNull => false
    case JBool(b) => b
    case JNum(x) => x != 0.0
    case JStr(s) => s != []
    case JArr(a) => a != []
    case JObj(m) => m != map[]
  }

  /** `d.get(key)`: the value under `key`, or `None`. */
  function Get(m: map<string, Json>, key: string): Json {
    if key in m then m[key] else JNull
  }

  /** What the land-price service answered: the request failed (a `RequestException`),
      the body was not JSON (a `ValueError`), or a decoded body. */
  datatype Response = RequestFailed | BadJson | Body(data: Json)

  /** What one price point adds to the average, in 万円/m²: its `currentYearPrice`, or its
      `price` when that is falsy, provided the value is a non-zero number (a boolean `true`
      counts as the number 1), divided by 10000. */
  function Contribution(m: map<string, Json>): (c: Option<real>)
    ensures c.Some? ==> c.value != 0.0
    ensures Get(m, "currentYearPrice").JNum? && Get(m, "currentYearPrice").x != 0.0 ==>
              c == Some(Get(m, "currentYearPrice").x / 10000.0)
    ensures !Truthy(Get(m, "currentYearPrice")) && Get(m, "price").JNum? && Get(m, "price").x != 0.0 ==>
              c == Some(Get(m, "price").x / 10000.0)
    ensures c.Some? ==> Truthy(Get(m, "currentYearPrice")) || Truthy(Get(m, "price"))
    ensures var v := if Truthy(Get(m, "currentYearPrice")) then Get(m, "currentYearPrice") else Get(m, "price");
            !(v.JNum? || v.JBool?) ==> c.None?
    ensures var v := if Truthy(Get(m, "currentYearPrice")) then Get(m, "currentYearPrice") else Get(m, "price");
            v == JBool(true) ==> c == Some(1.0 / 10000.0)
  {
    var v := if Truthy(Get(m, "currentYearPrice")) then Get(m, "currentYearPrice") else Get(m, "price");
    match v
    case JNum(x) => if x != 0.0 then Some(x / 10000.0) else None
    case JBool(b) => if b then Some(1.0 / 10000.0) else None
    case _ => None
  }

  /** Every point is a JSON object; any other point makes `point.get` raise. */
  predicate AllObjects(points: seq<Json>) {
    forall k :: 0 <= k < |points| ==> points[k].JObj?
  }

  /** The contributions of the points, in order; points without one add nothing. */
  function Contributions(points: seq<Json>): (cs: seq<real>)
    requires AllObjects(points)
    ensures |cs| <= |points|
    ensures forall k :: 0 <= k < |cs| ==> cs[k] != 0.0
  {
    if points == [] then []
    else
      var init := points[..|points| - 1];
      assert AllObjects(init) by {
        forall k | 0 <= k < |init| ensures init[k].JObj? { assert init[k] == points[k]; }
      }
      var c := Contribution(points[|points| - 1].fields);
      Contributions(init) + (if c.Some? then [c.value] else [])
  }

  function Sum(xs: seq<real>): real {
    if xs == [] then 0.0 else Sum(xs[..|xs| - 1]) + xs[|xs| - 1]
  }

  /** `sum(xs) / len(xs)`. */
  function Mean(xs: seq<real>): real
    requires xs != []
  {
    Sum(xs) / |xs| as real
  }

  /** A sum of values within `[lo, hi]` lies between `|xs|` times each bound. */
  lemma {:induction false} SumBounds(xs: seq<real>, lo: real, hi: real)
    requires forall k :: 0 <= k < |xs| ==> lo <= xs[k] <= hi
    ensures |xs| as real * lo <= Sum(xs) <= |xs| as real * hi
  {
    if xs != [] {
      var init := xs[..|xs| - 1];
      assert forall k :: 0 <= k < |init| ==> init[k] == xs[k];
      SumBounds(init, lo, hi);
      var n, last := |init| as real, xs[|xs| - 1];
      assert Sum(xs) == Sum(init) + last && lo <= last <= hi;
      assert |xs| as real == n + 1.0;
      assert (n + 1.0) * lo == n * lo + lo;
      assert (n + 1.0) * hi == n * hi + hi;
    }
  }

  /** The mean lies between the least and the greatest value. */
  lemma MeanBounds(xs: seq<real>, lo: real, hi: real)
    requires xs != []
    requires forall k :: 0 <= k < |xs| ==> lo <= xs[k] <= hi
    ensures lo <= Mean(xs) <= hi
  {
    SumBounds(xs, lo, hi);
    var n := |xs| as real;
    assert Mean(xs) * n == Sum(xs);
  }

  /** What `fetch_land_price` makes of the service's answer: nothing for a failed request,
      a body that is not JSON, a falsy or non-object body, or a `data` entry that is not a
      non-empty list; an exception for a point that is not an object; nothing when no point
      contributes; otherwise the mean contribution rounded to hundredths. */
  function PriceFromResponse(resp: Response): (r: Fetched<Option<real>>)
    ensures r.Raised? ==> resp.Body? && resp.data.JObj? && Get(resp.data.fields, "data").JArr?
                          && !AllObjects(Get(resp.data.fields, "data").items)
    ensures resp.RequestFailed? || resp.BadJson? ==> r == Returned(None)
  {
    match resp
    case RequestFailed => Returned(None)
    case BadJson => Returned(None)
    case Body(data) =>
      if !Truthy(data) || !data.JObj? then Returned(None)
      else
        var points := Get(data.fields, "data");
        if !Truthy(points) || !points.JArr? then Returned(None)
        else if !AllObjects(points.items) then Raised
        else
          var prices := Contributions(points.items);
          if prices == [] then Returned(None) else Returned(Some(RoundTo2(Mean(prices))))
  }

  /** `fetch_land_price` as a function of the key's presence, the codes and the service,
      which is asked for the codes and `DefaultYear`. */
  function LandPriceLookup(hasKey: bool, pref: string, city: string,
                           api: (string, string, string) -> Response): (r: Fetched<Option<real>>)
    ensures !hasKey || pref == [] || city == [] ==> r == Returned(None)
  {
    if !hasKey || pref == [] || city == [] then Returned(None)
    else PriceFromResponse(api(pref, city, DefaultYear))
  }

  /** A returned land price is within half a hundredth of the band its contributions span. */
  lemma LandPriceWithinContributions(data: Json, lo: real, hi: real)
    requires data.JObj? && Get(data.fields, "data").JArr?
    requires AllObjects(Get(data.fields, "data").items)
    requires forall k :: 0 <= k < |Contributions(Get(data.fields, "data").items)| ==>
               lo <= Contributions(Get(data.fields, "data").items)[k] <= hi
    ensures PriceFromResponse(Body(data)).Returned?
    ensures PriceFromResponse(Body(data)).value.Some? ==>
              lo - 0.005 <= PriceFromResponse(Body(data)).value.value <= hi + 0.005
    ensures PriceFromResponse(Body(data)).value.None? <==> Contributions(Get(data.fields, "data").items) == []
    ensures var cs := Contributions(Get(data.fields, "data").items);
            cs != [] ==> PriceFromResponse(Body(data)).value.Some?
                         && PriceFromResponse(Body(data)).value.value == RoundTo2(Mean(cs))
  {
    var cs := Contributions(Get(data.fields, "data").items);
    if cs != [] {
      MeanBounds(cs, lo, hi);
    }
  }

  /** `fetch_land_price`: the guards, then one pass over the points collecting
      contributions, then the rounded mean. */
  method FetchLandPrice(hasKey: bool, pref: string, city: string,
                        api: (string, string, string) -> Response) returns (r: Fetched<Option<real>>)
    ensures r == LandPriceLookup(hasKey, pref, city, api)
  {
    if !hasKey || pref == [] || city == [] {
      return Returned(None);
    }
    var resp := api(pref, city, DefaultYear);
    if !resp.Body? {
      return Returned(None);
    }
    var data := resp.data;
    if !Truthy(data) || !data.JObj? {
      return Returned(None);
    }
    var points := Get(data.fields, "data");
    if !Truthy(points) || !points.JArr? {
      return Returned(None);
    }
    var prices: seq<real> := [];
    for k := 0 to |points.items|
      invariant AllObjects(points.items[..k])
      invariant prices == Contributions(points.items[..k])
    {
      var point := points.items[k];
      if !point.JObj? {
        return Raised;
      }
      var c := Contribution(point.fields);
      assert points.items[..k + 1][..k] == points.items[..k];
      if c.Some? {
        prices := prices + [c.value];
      }
    }
    assert points.items[..|points.items|] == points.items;
    if prices == [] {
      return Returned(None);
    }
    return Returned(Some(RoundTo2(Sum(prices) / |prices| as real)));
  }

  // ---------------------------------------------------------------------------
  // calculate_ratio

  /** `calculate_ratio`: nothing when either price is missing or the land price is zero,
      otherwise the quotient with two decimals and an `x`. */
  function CalculateRatio(unitPrice: Option<real>, landPrice: Option<real>): (r: Option<string>)
    ensures r.None? <==> unitPrice.None? || landPrice.None? || landPrice.value == 0.0
    ensures r.Some? ==> |r.value| >= 5 && r.value[|r.value| - 1] == 'x'
  {
    if unitPrice.None? || landPrice.None? || landPrice.value == 0.0 then None
    else Some(Fixed2(unitPrice.value / landPrice.value) + "x")
  }

  /** Reading the ratio back without its `x` gives the quotient rounded to hundredths. */
  lemma RatioReadBack(u: real, l: real)
    requires l != 0.0
    ensures CalculateRatio(Some(u), Some(l)).Some?
    ensures ParseFloat(DropLast(CalculateRatio(Some(u), Some(l)).value)).Some?
    ensures ParseFloat(DropLast(CalculateRatio(Some(u), Some(l)).value)).value == RoundTo2(u / l)
  {
    RatioDigits(u, l);
    Fixed2ReadBack(u / l);
  }

  function DropLast(s: string): string
    requires s != []
  {
    s[..|s| - 1]
  }

  lemma RatioDigits(u: real, l: real)
    requires l != 0.0
    ensures CalculateRatio(Some(u), Some(l)).Some?
    ensures DropLast(CalculateRatio(Some(u), Some(l)).value) == Fixed2(u / l)
  {
    var f := Fixed2(u / l);
    assert (f + "x")[..|f|] == f;
  }

  /** A zero unit price against a non-zero land price gives `0.00x`. */
  lemma RatioOfZero(l: real)
    requires l != 0.0
    ensures CalculateRatio(Some(0.0), Some(l)) == Some("0.00x")
  {
    assert 0.0 / l == 0.0;
    assert RoundCents(Abs(0.0)) == 0;
    assert DigitChar(0) == '0';
    assert ShowNat(0) == "0";
    assert ShowCents(0) == "0.00";
    assert Fixed2(0.0 / l) == "0.00";
    assert Fixed2(0.0 / l) + "x" == "0.00x";
  }

  // ---------------------------------------------------------------------------
  // get_land_price_info

  /** `get_land_price_info`: the codes for the address, then the lookup; the value with its
      display string, nothing, or the lookup's exception. */
  function LandPriceInfo(address: string, hasKey: bool,
                         api: (string, string, string) -> Response): (r: Fetched<Option<(real, string)>>)
    ensures CodesFor(address).None? || !hasKey ==> r == Returned(None)
    ensures r.Raised? ==>
              && CodesFor(address).Some?
              && LandPriceLookup(hasKey, CodesFor(address).value.0, CodesFor(address).value.1, api).Raised?
    ensures r.Returned? && r.value.Some? ==>
              && CodesFor(address).Some?
              && LandPriceLookup(hasKey, CodesFor(address).value.0, CodesFor(address).value.1, api)
                   == Returned(Some(r.value.value.0))
              && r.value.value.1 == PerSquareMetre(r.value.value.0)
  {
    match CodesFor(address)
    case None => Returned(None)
    case Some((pref, city)) =>
      if pref == [] || city == [] then Returned(None)
      else match LandPriceLookup(hasKey, pref, city, api)
        case Raised => Raised
        case Returned(None) => Returned(None)
        case Returned(Some(v)) => Returned(Some((v, PerSquareMetre(v))))
  }
}
