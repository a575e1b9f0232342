# sumstock pipeline in Dafny

This project models the deterministic part of the sumstock scripts, which turn listing pages
of the SumStock used-house site into Markdown tables. It covers four steps:

- **Listing extraction** (`scripts/scrape_sumstock.py`):
  - listing URLs are pulled out of an issue text;
  - the first CSS selector that finds listings is used;
  - each listing element is read into a record of eleven columns: location, total price,
    building price / area / unit price, land price / area / unit price, reference land price,
    land-price ratio and house maker;
  - a listing is kept only when it has a location or a price;
  - the kept records are rendered as a Markdown page.
- **Land prices** (`scripts/land_price.py`):
  - an address is mapped to a prefecture and city code through the longest city name it
    contains;
  - the price points returned by the land-price service are averaged;
  - the ratio of a unit price to the reference price is formatted.
- **Reference values** (`scripts/rosenka.py`):
  - the mock geocoder;
  - location normalisation to the city token;
  - the four-level reference-value lookup;
  - the unit-price ratio.
- **Navigation pages** (`scripts/generate_index_pages.py`):
  - the prefecture and city index pages;
  - the in-place rewrite of a data page's `parent:` line;
  - the counters of the walk over the data directory.

## Modules

- `Wrappers`: Python's `None` (`Option`) and an exception that escapes a step (`Fetched`).
- `Text`: `strip`, `in`, `startswith`, `replace(p, '')` and ordered name searches.
- `Numerals`: `float()` on decimal numerals, `round(x, 2)` and `f"{x:.2f}"`, over exact
  reals.
- `Patterns`: the regular expressions of the scripts, each written out as a scanner.
  - Its lemmas relate each scanner to a declarative description of the matches:
    - every non-overlapping occurrence, in order;
    - maximal runs;
    - the leftmost match;
    - the shortest lazy match;
    - the backtracking of a greedy gap.
- `Scraper`, `LandPrice`, `Rosenka` and `IndexPages`: one module per script.

Where the source works by loops that update variables or a list in place, the model has a
method with the loop. Each such method is proved equal to a specification function. The
source's promises are then proved about that function as lemmas.

The HTML document is abstract:

- A listing element is a `Listing` value holding the texts the extractor reads:
  - the `h5.bukkenName` text;
  - the first `div.price` text and the `div.priceItems` text;
  - the `span.bold` texts;
  - the `div.area` label/value pairs;
  - the `.area .value` texts;
  - the whole text of the element.
- A fetched page is a function from selector to listings.
- The land-price service is a function from (prefecture code, city code, year) to a response.

## Model

| member | source | states |
|---|---|---|
| Scraper.ExtractUrls | scripts/scrape_sumstock.py:27-32 | the URLs found are exactly the occurrences of `https://sumstock.jp/search/<digits>/<digits>/<digits>`, in order of appearance, duplicates kept |
| Scraper.ExtractedAreListingUrls | scripts/scrape_sumstock.py:27-32 | every extracted URL is the listing prefix followed by three slash-separated digit runs |
| Scraper.NoUrlsFound | scripts/scrape_sumstock.py:27-32 | a text without the listing prefix gives no URL |
| Patterns.FindUrlsAreOccurrences | scripts/scrape_sumstock.py:30-31 | the left-to-right scan with maximal digit runs reports exactly the positions where a URL starts and which no earlier match covers |
| Scraper.ParsePrice | scripts/scrape_sumstock.py:35-44 | an empty string or `-` gives no price, and so does a text without a digit, since removing 万円 and commas and stripping add none and `float()` then fails |
| Scraper.PriceFieldReadBack | scripts/scrape_sumstock.py:35-44 | `<p>万円` parses as `float()` of `p` with its commas removed and stripped |
| Scraper.PriceOfAmount | scripts/scrape_sumstock.py:35-44 | a captured amount such as `1,054` followed by 万円 parses as the value of its digits, 1054 |
| Scraper.ParseArea | scripts/scrape_sumstock.py:47-56 | an empty string or `-` gives no area, and so does a text without a digit, since removing m², ㎡ and commas and stripping add none and `float()` then fails |
| Scraper.AreaFieldReadBack | scripts/scrape_sumstock.py:47-56 | `<a>m²` for a run of digits and dots parses as `float()` of `a` |
| Scraper.UnitPrice | scripts/scrape_sumstock.py:59-63 | a unit price exists exactly when price and area exist and the area is not zero, and then unit × area = price (no rounding) |
| Scraper.FirstSelector | scripts/scrape_sumstock.py:80-100 | the chosen selector finds listings and every earlier selector finds none; no choice means no selector finds any |
| Scraper.LocateListings | scripts/scrape_sumstock.py:93-100 | the selector loop returns the listings of the first selector with results, never a mix, and nothing when none has results |
| Scraper.LocationOf | scripts/scrape_sumstock.py:127-145 | the stripped name element if there is one; else the match of the first location pattern that matches; else `不明` |
| Scraper.FindListingLocation | scripts/scrape_sumstock.py:127-145 | the location loop, which stops at the first matching pattern, computes `LocationOf` |
| Patterns.FindLocation | scripts/scrape_sumstock.py:135-145 | a location match is longer than its fixed head and has no whitespace at either end |
| Patterns.LocationSearch | scripts/scrape_sumstock.py:135-145 | the match found is the leftmost start where the pattern matches, ending at the first place the lazy `.*?` can stop |
| Scraper.LabelledPrices | scripts/scrape_sumstock.py:150-170 | the total comes only from the price element's first `<amount>万円`; building and land come only from the labelled patterns on the price-items element |
| Patterns.FindLabelled | scripts/scrape_sumstock.py:165-166 | a labelled price is a non-empty run of digits and commas |
| Patterns.LabelledSearch | scripts/scrape_sumstock.py:165-166 | the match is the leftmost label with a price after an allowed gap, and the captured run starts as late as backtracking lets it |
| Scraper.BoldPrices | scripts/scrape_sumstock.py:175-181 | no more bold prices than bold texts, and none of them empty |
| Scraper.BoldPricesAppend | scripts/scrape_sumstock.py:177-181 | the bold prices of two runs of bold texts are those of the first run followed by those of the second: document order is kept |
| Scraper.BoldPricesOne | scripts/scrape_sumstock.py:179-181 | one bold text gives itself with 万円 removed, or nothing when that leaves it empty |
| Scraper.WithBoldPrices | scripts/scrape_sumstock.py:172-188 | with two bold prices, a missing building becomes bold[0] and a missing land bold[1]; a key already set and the total are never changed |
| Scraper.WithTextPrices | scripts/scrape_sumstock.py:190-200 | missing total, building and land come from whole-text amounts 0, 1 and 2 when they exist; a key already set is never changed |
| Scraper.PricesNeverOverwritten | scripts/scrape_sumstock.py:150-200 | a key set by an earlier step of the cascade keeps its value to the end |
| Scraper.ExtractPrices | scripts/scrape_sumstock.py:150-200 | the key-by-key filling of the price dictionary computes the cascade |
| Patterns.FirstAmount | scripts/scrape_sumstock.py:156 | `re.search` for an amount gives the first match `findall` reports, and nothing exactly when there is none |
| Patterns.FindAmountsAreRuns | scripts/scrape_sumstock.py:192-193 | `findall` of `([0-9,]+)\s*万円` returns exactly the maximal number runs followed by optional whitespace and the unit, in order |
| Scraper.KindOfLabel | scripts/scrape_sumstock.py:213-222 | a label names the building area when its whitespace-free text has both 建物 and 面積; otherwise it names the land area when it has both 土地 and 面積; only elements with both a label and a value count |
| Scraper.LabelPassLastWins | scripts/scrape_sumstock.py:206-222 | each area key of the label pass holds the value of the last element whose label names it, and is unset when none does |
| Scraper.ValueTexts | scripts/scrape_sumstock.py:226-233 | no more texts than `.value` elements, and none of them empty |
| Scraper.ValueTextsAppend | scripts/scrape_sumstock.py:230-233 | the texts of two runs of `.value` elements are those of the first run followed by those of the second: document order is kept |
| Scraper.ValueTextsOne | scripts/scrape_sumstock.py:231-233 | one `.value` element gives its text with m² and ㎡ removed and stripped, or nothing when that leaves it empty |
| Scraper.FromPositions | scripts/scrape_sumstock.py:240-243 | the first positional area is the building's, the second the land's |
| Scraper.AreasNeverMix | scripts/scrape_sumstock.py:224-243 | when any label names an area, the result is the label pass alone; otherwise it is the positional fallback alone |
| Scraper.ExtractAreas | scripts/scrape_sumstock.py:203-243 | the area loops compute the area cascade |
| Scraper.SideFields | scripts/scrape_sumstock.py:249-267 | price column `<p>万円` only when the price key is set; area column only when the area key is set too; the unit column is `約X.XX万円/m²` of price ÷ area exactly when both parse and the quotient is not zero, `-` otherwise |
| Scraper.UnitPriceColumn | scripts/scrape_sumstock.py:249-267 | for an amount like `1,054` and an area like `105.5`, the unit column is the amount over the area, or `-` when the amount is zero or the area is not a non-zero number |
| Scraper.MakerOf | scripts/scrape_sumstock.py:269-276 | the first maker of the fixed list, in list order, named in the text; `-` when none is |
| Scraper.FindMaker | scripts/scrape_sumstock.py:273-276 | the maker loop with `break` computes `MakerOf` |
| Scraper.LandColumns | scripts/scrape_sumstock.py:278-293 | nothing is looked up for `不明`; the display is the lookup's formatted price; the ratio is `calculate_ratio` of the number after 約 and the looked-up price, only when the land unit column starts with 約 |
| Scraper.LandColumnsRaiseOnlyFromLookup | scripts/scrape_sumstock.py:285-291 | the land unit column the extractor writes never makes `float()` fail, so only the lookup can make the listing fail |
| Scraper.LandRatioColumn | scripts/scrape_sumstock.py:285-293 | for a land unit column of a non-negative x and a non-zero reference price v, the ratio column is round(x, 2) ÷ v in the `X.XXx` form |
| Scraper.NegativeLandUnitNoRatio | scripts/scrape_sumstock.py:288-289 | a negative land unit price is not matched by `約([0-9.]+)万円`, so its ratio column stays `-` |
| Scraper.KeepRule | scripts/scrape_sumstock.py:295-301 | a listing is kept exactly when it does not fail and has a location other than `不明` or a price key; a failing listing has a location and a lookup that raised |
| Scraper.KeptRecordHasData | scripts/scrape_sumstock.py:295-297 | a kept record has a location or a price column other than `-` |
| Scraper.ScrapeListing | scripts/scrape_sumstock.py:108-301 | processing one listing step by step gives its outcome |
| Scraper.PropertyData | scripts/scrape_sumstock.py:66-107 | an unreachable page or a page no selector matches gives no records; there are never more records than listings |
| Scraper.KeptRecordsHaveData | scripts/scrape_sumstock.py:295-297 | every record of a page has a location or a price |
| Scraper.KeptRecordsAppend | scripts/scrape_sumstock.py:108-301 | the records of a list of listings are those of its first part followed by those of its second: input order is kept |
| Scraper.ScrapePropertyData | scripts/scrape_sumstock.py:66-307 | the page loop appends exactly the kept records, in order |
| Numerals.Pad2 | scripts/scrape_sumstock.py:312-318 | months and days are written with two digits that read back as the number |
| Scraper.Markdown | scripts/scrape_sumstock.py:310-338 | the page starts with the front matter and table head and ends with the note |
| Scraper.RecordRowCount | scripts/scrape_sumstock.py:333-334 | a record row has twelve bars and one line break of its own plus every bar and line break inside its columns, unescaped; so exactly eleven cells on one line when no column holds a bar or a line break |
| Scraper.NoDataRowCount | scripts/scrape_sumstock.py:330-331 | the placeholder row for an empty list has eleven cells too |
| Scraper.RowsAppend | scripts/scrape_sumstock.py:332-334 | one row per record, in input order |
| Scraper.BodyLines | scripts/scrape_sumstock.py:330-334 | for records without `|` or line breaks in their columns, the table body has exactly one line per record, or the single `データなし` line for no records, each with twelve bars |
| Scraper.FormatMarkdown | scripts/scrape_sumstock.py:310-338 | the appending loop renders the page |
| LandPrice.LongestFirst | scripts/land_price.py:164 | the search order lists every table index once, longer names first and table order among names of equal length |
| LandPrice.ChosenEntry | scripts/land_price.py:28-169 | nothing for an empty address or one containing no table name; otherwise the chosen name occurs in the address and is longer than every other contained name, or as long and earlier in the table |
| LandPrice.SearchTable | scripts/land_price.py:164-169 | the loop over names in length order returns the codes of the chosen entry |
| LandPrice.ParseAddress | scripts/land_price.py:18-169 | `parse_address` on the 122-entry city table |
| LandPrice.Contribution | scripts/land_price.py:222-227 | a point adds `currentYearPrice` / 10000, or `price` / 10000 when the former is falsy, and only a non-zero number; a selected value that is not a number (a string, a list, an object, `None`) adds nothing, and `true` adds 1 / 10000 |
| LandPrice.Contributions | scripts/land_price.py:220-227 | the collected prices are all non-zero and there are at most as many as points |
| LandPrice.MeanBounds | scripts/land_price.py:232-234 | the mean lies between the smallest and the largest contribution |
| LandPrice.LandPriceWithinContributions | scripts/land_price.py:211-234 | an answer whose points are all objects never raises; it gives nothing exactly when no point contributes, and otherwise the mean of the contributions rounded to hundredths, which lies within 0.005 of their range |
| LandPrice.PriceFromResponse | scripts/land_price.py:194-241 | request and JSON errors give nothing; only a point list with a non-object in it raises |
| LandPrice.LandPriceLookup | scripts/land_price.py:185-192 | no API key or an empty code gives nothing, before any request |
| LandPrice.FetchLandPrice | scripts/land_price.py:172-241 | the loop that appends contributions computes the lookup |
| LandPrice.CalculateRatio | scripts/land_price.py:244-259 | nothing exactly when either input is missing or the land price is zero; otherwise a string ending in `x` |
| LandPrice.RatioReadBack | scripts/land_price.py:258-259 | the ratio without its `x` reads back as the quotient rounded to hundredths |
| LandPrice.RatioOfZero | scripts/land_price.py:258-259 | a unit price of 0 gives `0.00x` |
| LandPrice.LandPriceInfo | scripts/land_price.py:262-289 | nothing for an address without codes or without a key; otherwise the lookup's value with the display `約X.XX万円/m²` of it, and an exception passes through |
| Numerals.Fixed2ReadBack | scripts/land_price.py:286-288 | `float()` of `f"{x:.2f}"` is `round(x, 2)` |
| Numerals.ParseFloatNeedsDigit | scripts/scrape_sumstock.py:41-44 | `float()` fails on a text without a digit |
| Rosenka.Geocode | scripts/rosenka.py:62-88 | the coordinates of the entry `GeocodeEntry` chooses, nothing when it chooses none |
| Rosenka.GeocodeEntry | scripts/rosenka.py:80-88 | an exact key first; else the first entry in table order where one string contains the other; nothing exactly when no entry overlaps |
| Rosenka.GeocodeEmpty | scripts/rosenka.py:84-86 | the empty address partially matches the first entry |
| Rosenka.NormalizeLocation | scripts/rosenka.py:91-111 | the stripped input when no city token occurs in it; otherwise a token of at least two characters ending in 市/区/町/村 with no 都/道/府/県 |
| Rosenka.NormalizeIsLeftmostShortest | scripts/rosenka.py:107-109 | the token returned is the leftmost-starting and then shortest one |
| Rosenka.NormalizeExample | scripts/rosenka.py:91-111 | `松戸市中金杉1丁目` normalises to `松戸市` |
| Rosenka.RosenkaHitFor | scripts/rosenka.py:128-156 | exact key, then normalised key, then first partial match in data order, then the built-in city table, then nothing; each level only when all earlier ones miss |
| Rosenka.FindRosenka | scripts/rosenka.py:114-156 | the cascade of loops with early returns gives the value of that hit |
| Rosenka.ExactKeyFirst | scripts/rosenka.py:129-130 | an address that is a key gets that key's value |
| Rosenka.EmptyDataUsesBuiltIn | scripts/rosenka.py:144-154 | with no data, the value of the first built-in city the address contains |
| Rosenka.EmptyDataMatsudo | scripts/rosenka.py:144-154 | with no data, an address containing 松戸市 gets 12.5 |
| Rosenka.RosenkaRatio | scripts/rosenka.py:178-206 | nothing for an empty or `-` unit price, a missing or zero reference, a text without a digit-or-dot run, or a run `float()` rejects (such as `1.2.3`); otherwise the run's value divided by the reference |
| Rosenka.RosenkaRatioOfDisplay | scripts/rosenka.py:197-204 | for a unit price display of u ≥ 0 and a non-zero reference v, the ratio is round(u, 2) ÷ v |
| Rosenka.DisplayFifteen | scripts/rosenka.py:196 | 15 is displayed as `約15.00万円/m²` |
| IndexPages.PrefectureIndexFront | scripts/generate_index_pages.py:16-29 | a prefecture page has `title: <pref>`, `parent: データ一覧` and `has_children: true` |
| IndexPages.CityIndexFront | scripts/generate_index_pages.py:41-54 | a city page has `title: <city>`, `parent: <pref>` and `has_children: true` |
| IndexPages.RewrittenShape | scripts/generate_index_pages.py:68-73 | only the first line starting with `parent:` changes, to `parent: <city>`; the line count and every other line stay; nothing changes without such a line |
| IndexPages.RewriteIdempotent | scripts/generate_index_pages.py:68-73 | rewriting twice for the same city is the same as rewriting once |
| IndexPages.DataPageUnderCity | scripts/generate_index_pages.py:62-79 | after the rewrite a data page's parent is the title of its city page, whose parent is the title of its prefecture page |
| IndexPages.UpdateFrontmatter | scripts/generate_index_pages.py:62-79 | reports true exactly when some line starts with `parent:`, and leaves the line array rewritten in place |
| IndexPages.ProcessedDirs | scripts/generate_index_pages.py:106-114 | the walk descends only into directories whose name does not start with `.` |
| IndexPages.UpdatedPagesCounts | scripts/generate_index_pages.py:140-146 | the page counter of a city is zero exactly when none of its entries is a data page with a `parent:` line, and equals the number of entries exactly when all are |
| IndexPages.UpdatedPagesAppend | scripts/generate_index_pages.py:140-146 | the counts of two runs of entries add up, so each data page with a `parent:` line counts once |
| IndexPages.IndexPageSkipped | scripts/generate_index_pages.py:141-143 | `index.md` is never rewritten or counted |
| IndexPages.SkippedEntry | scripts/generate_index_pages.py:106-131 | files and hidden entries change no counter |
| IndexPages.CityStatsCounts | scripts/generate_index_pages.py:123-137 | the city counter counts exactly the city directories descended into |
| IndexPages.WalkCountsPrefectures | scripts/generate_index_pages.py:106-120 | the prefecture counter counts exactly the prefecture directories descended into |
| IndexPages.RewrittenPages | scripts/generate_index_pages.py:140-146 | in a city directory every data page is rewritten for that city, and every other entry is as it was |
| IndexPages.UpdateCityPages | scripts/generate_index_pages.py:140-146 | the loop over a city's pages rewrites them and counts those with a `parent:` line |
| IndexPages.RewrittenCities | scripts/generate_index_pages.py:123-146 | below a prefecture, each city directory descended into has its data pages rewritten for that city, and every other entry is as it was |
| IndexPages.RewrittenTree | scripts/generate_index_pages.py:106-146 | in the data directory, each prefecture directory descended into has its cities rewritten, and every other entry is as it was |
| IndexPages.ProcessPrefecture | scripts/generate_index_pages.py:123-146 | the loop over one prefecture's cities computes its city and page counters and leaves its cities rewritten |
| IndexPages.Walk | scripts/generate_index_pages.py:98-146 | the walk's counters, with the prefecture counter equal to the number of prefecture directories processed, and the data directory it leaves behind |

## Left out

- HTTP requests, HTML parsing and CSS selection. A page is a function from selector to
  listings, and a listing holds the texts the extractor reads. Unreachable stands for a
  `RequestException` or an error status.
- The land-price service. It is a deterministic function of prefecture code, city code and
  year. `REINFOLIB_API_KEY` is a boolean input. Which exception escapes is not modelled,
  only that one does.
- Binary floating point. Numbers are exact reals, so:
  - `round` and `:.2f` round halves away from zero, where Python rounds the binary double
    half to even;
  - `float()` accepts only an optional sign, digits with at most one dot, and surrounding
    whitespace. Exponents, `inf`, `nan`, underscores and non-ASCII digits are not accepted.
- `\d` in the URL pattern covers ASCII and fullwidth digits. Python also accepts every other
  Unicode decimal digit.
- The digits in the labelled price patterns cover ASCII only, as `[0-9,]` does.
- Scraper.LocationOf: does not state that a pattern match is never `不明`. The model keeps the
  keep rule's comparison with `不明` as the source writes it.
- `strftime('%Y')` is modelled as the year's decimal numeral, without zero padding.
- `save_markdown_file`, `main`, the `GITHUB_OUTPUT` writes and the command-line handling of
  `scripts/scrape_sumstock.py` are file and environment I/O. `parse_url_location` is also not
  part of this model: `location_mapping` is not part of this model.
- `load_rosenka_data` (CSV reading) and `get_rosenka_for_property`, which only loads that data
  and calls `find_rosenka`. The data is a parameter of `FindRosenka`.
- Python dictionaries are modelled as sequences of pairs in insertion order. A sequence with
  a repeated key stands for no dictionary, and what the model does with it has no meaning.
- `MOCK_GEOCODING` coordinates are kept only as opaque values.
- The prints and the file reads and writes of `scripts/generate_index_pages.py`. The directory
  iteration order is taken as given.
- The directory `Walk` leaves behind does not show the `index.md` pages it writes. Their
  contents are the functions `PrefectureIndex` and `CityIndex`.
- Scraper.BodyLines: holds only for records whose columns hold no `|` and no line break.
  The scraper can produce such columns: the location is the stripped name text, which
  keeps inner line breaks and bars. For such a record the source writes no escaping, so
  its row has more than eleven cells or spans several lines, as `RecordRowCount` counts.
- A directory named `*.md` inside a city directory is not modelled. The source would fail to
  open it as a file.
- `scripts/real_estate_api.py` and `scripts/real_estate_api_example.py`, which are a network
  client and a demo.
- The per-item `except Exception` is modelled only as "a failing listing is skipped". In the
  model the only exception is the land-price lookup raising, which `KeepRule` shows.
- Rosenka: a concrete ratio example (`約15.00万円/m²` with 10.0 giving 1.5) is not stated on its
  own. `RosenkaRatioOfDisplay` covers it with u = 15 and v = 10, and `DisplayFifteen` gives the
  display.
- Tests that disagree with the code follow the code:
  - `tests/test_scraper_integration.py:104-105` expects the building price from a labelled
    block, where the code takes the first bold price;
  - `tests/test_price_field_shift_bug.py:68` expects a shift the code no longer produces;
  - `tests/test_scraper_with_rosenka.py:193-195` expects columns the table does not have.
