/** The navigation pages of the published data tree: an index page per prefecture
    directory and per city directory, and the `parent:` line of every data page rewritten
    to name its city. */
module IndexPages {
  import opened Wrappers
  import opened Text

  /** A text made of lines, each ending with its own line break as `readlines()` gives them. */
  function Concat(lines: seq<string>): string {
    if lines == [] then [] else lines[0] + Concat(lines[1..])
  }

  /** A front-matter line: the key, a space, the value and a line break. */
  function Field(key: string, value: string): (line: string)
    ensures StartsWith(line, key)
  {
    var line := key + " " + value + "\n";
    assert line[..|key|] == key;
    line
  }

  /** The lines of a prefecture's index page. */
  function PrefectureIndexLines(pref: string): (ls: seq<string>)
    ensures |ls| == 13
  {
    ["---\n",
     Field("layout:", "default"),
     Field("title:", pref),
     Field("parent:", "データ一覧"),
     Field("has_children:", "true"),
     Field("nav_order:", "10"),
     "---\n",
     "\n",
     "# " + pref + "\n",
     "\n",
     "このページには" + pref + "の市町村別データが表示されています。\n",
     "\n",
     "各市町村を選択してデータをご覧ください。\n"]
  }

  /** `generate_prefecture_index`: the page written to `<prefecture>/index.md`. */
  function PrefectureIndex(pref: string): string {
    Concat(PrefectureIndexLines(pref))
  }

  /** The lines of a city's index page. */
  function CityIndexLines(city: string, pref: string): (ls: seq<string>)
    ensures |ls| == 13
  {
    ["---\n",
     Field("layout:", "default"),
     Field("title:", city),
     Field("parent:", pref),
     Field("has_children:", "true"),
     Field("nav_order:", "10"),
     "---\n",
     "\n",
     "# " + city + "\n",
     "\n",
     "このページには" + pref + city + "の日付別データが表示されています。\n",
     "\n",
     "各日付を選択してデータをご覧ください。\n"]
  }

  /** `generate_city_index`: the page written to `<prefecture>/<city>/index.md`. */
  function CityIndex(city: string, pref: string): string {
    Concat(CityIndexLines(city, pref))
  }

  /** The position of the first line starting with `prefix`. */
  function FirstWith(lines: seq<string>, prefix: string): (r: Option<nat>)
    ensures r.Some? ==> r.value < |lines| && StartsWith(lines[r.value], prefix)
    ensures r.Some? ==> forall j :: 0 <= j < r.value ==> !StartsWith(lines[j], prefix)
    ensures r.None? ==> forall j :: 0 <= j < |lines| ==> !StartsWith(lines[j], prefix)
  {
    if lines == [] then None
    else if StartsWith(lines[0], prefix) then Some(0)
    else match FirstWith(lines[1..], prefix)
      case Some(k) => Some(k + 1)
      case None => None
  }

  /** The front-matter line a reader takes for `key`: the first one starting with it. */
  function FieldLine(lines: seq<string>, key: string): Option<string> {
    match FirstWith(lines, key)
    case Some(i) => Some(lines[i])
    case None => None
  }

  lemma NotStarting(s: string, prefix: string)
    requires prefix != [] && (|s| < |prefix| || s[0] != prefix[0])
    ensures !StartsWith(s, prefix)
  {
    if |prefix| <= |s| {
      assert s[..|prefix|][0] == s[0];
    }
  }

  /** A prefecture page is titled with the prefecture, sits under the data list and has
      children. */
  lemma PrefectureIndexFront(pref: string)
    ensures FieldLine(PrefectureIndexLines(pref), "title:") == Some(Field("title:", pref))
    ensures FieldLine(PrefectureIndexLines(pref), "parent:") == Some(Field("parent:", "データ一覧"))
    ensures FieldLine(PrefectureIndexLines(pref), "has_children:") == Some(Field("has_children:", "true"))
  {
    var ls := PrefectureIndexLines(pref);
    FrontOrder(ls, pref, "データ一覧");
  }

  /** A city page is titled with the city, sits under its prefecture and has children. */
  lemma CityIndexFront(city: string, pref: string)
    ensures FieldLine(CityIndexLines(city, pref), "title:") == Some(Field("title:", city))
    ensures FieldLine(CityIndexLines(city, pref), "parent:") == Some(Field("parent:", pref))
    ensures FieldLine(CityIndexLines(city, pref), "has_children:") == Some(Field("has_children:", "true"))
  {
    var ls := CityIndexLines(city, pref);
    FrontOrder(ls, city, pref);
  }

  /** The first three lines of both templates after the opening `---` and `layout:` lines. */
  lemma FrontOrder(ls: seq<string>, title: string, parent: string)
    requires |ls| >= 5
    requires ls[0] == "---\n" && ls[1] == Field("layout:", "default")
    requires ls[2] == Field("title:", title) && ls[3] == Field("parent:", parent)
    requires ls[4] == Field("has_children:", "true")
    ensures FieldLine(ls, "title:") == Some(ls[2])
    ensures FieldLine(ls, "parent:") == Some(ls[3])
    ensures FieldLine(ls, "has_children:") == Some(ls[4])
  {
    NotStarting(ls[0], "title:");
    NotStarting(ls[1], "title:");
    NotStarting(ls[0], "parent:");
    NotStarting(ls[1], "parent:");
    NotStarting(ls[2], "parent:");
    NotStarting(ls[0], "has_children:");
    NotStarting(ls[1], "has_children:");
    NotStarting(ls[2], "has_children:");
    NotStarting(ls[3], "has_children:");
    FirstWithAt(ls, "title:", 2);
    FirstWithAt(ls, "parent:", 3);
    FirstWithAt(ls, "has_children:", 4);
  }

  lemma {:induction false} FirstWithAt(ls: seq<string>, prefix: string, i: nat)
    requires i < |ls| && StartsWith(ls[i], prefix)
    requires forall j :: 0 <= j < i ==> !StartsWith(ls[j], prefix)
    ensures FirstWith(ls, prefix) == Some(i)
  {
    if i > 0 {
      FirstWithAt(ls[1..], prefix, i - 1);
    }
  }

  // ---------------------------------------------------------------------------
  // The data pages

  /** The `parent:` line written into a data page of a city. */
  function ParentLine(city: string): string {
    Field("parent:", city)
  }

  /** The lines of a data page after the rewrite: the first line starting with `parent:`
      replaced by the city's parent line, or the lines as they were when there is none. */
  function Rewritten(lines: seq<string>, city: string): seq<string> {
    match FirstWith(lines, "parent:")
    case Some(i) => lines[i := ParentLine(city)]
    case None => lines
  }

  /** The rewrite touches one line at most, keeps the number of lines, and leaves the first
      `parent:` line where it was, now naming the city. */
  lemma RewrittenShape(lines: seq<string>, city: string)
    ensures |Rewritten(lines, city)| == |lines|
    ensures FirstWith(lines, "parent:").None? ==> Rewritten(lines, city) == lines
    ensures FirstWith(lines, "parent:").Some? ==>
              var i := FirstWith(lines, "parent:").value;
              && Rewritten(lines, city)[i] == ParentLine(city)
              && (forall j :: 0 <= j < |lines| && j != i ==> Rewritten(lines, city)[j] == lines[j])
              && FirstWith(Rewritten(lines, city), "parent:") == Some(i)
  {
    match FirstWith(lines, "parent:")
    case None =>
    case Some(i) =>
      var r := lines[i := ParentLine(city)];
      FirstWithAt(r, "parent:", i);
  }

  /** Rewriting twice for the same city changes nothing more. */
  lemma RewriteIdempotent(lines: seq<string>, city: string)
    ensures Rewritten(Rewritten(lines, city), city) == Rewritten(lines, city)
  {
    RewrittenShape(lines, city);
  }

  /** After the rewrite a data page sits under its city's page: its parent is the city
      that titles the city page, and that city page sits under the prefecture page. */
  lemma DataPageUnderCity(lines: seq<string>, city: string, pref: string)
    requires FirstWith(lines, "parent:").Some?
    ensures FieldLine(Rewritten(lines, city), "parent:") == Some(Field("parent:", city))
    ensures FieldLine(CityIndexLines(city, pref), "title:") == Some(Field("title:", city))
    ensures FieldLine(CityIndexLines(city, pref), "parent:") == Some(Field("parent:", pref))
    ensures FieldLine(PrefectureIndexLines(pref), "title:") == Some(Field("title:", pref))
  {
    RewrittenShape(lines, city);
    CityIndexFront(city, pref);
    PrefectureIndexFront(pref);
  }

  /** `update_data_file_frontmatter` on the lines read from a data page: replace the first
      `parent:` line in place and report whether there was one; the page is written back
      only in that case, and writing back the lines unchanged is the same as not writing. */
  method UpdateFrontmatter(lines: array<string>, city: string) returns (updated: bool)
    modifies lines
    ensures updated <==> FirstWith(old(lines[..]), "parent:").Some?
    ensures lines[..] == Rewritten(old(lines[..]), city)
  {
    updated := false;
    var i := 0;
    while i < lines.Length
      invariant 0 <= i <= lines.Length
      invariant lines[..] == old(lines[..])
      invariant forall j :: 0 <= j < i ==> !StartsWith(lines[j], "parent:")
    {
      if StartsWith(lines[i], "parent:") {
        FirstWithAt(lines[..], "parent:", i);
        lines[i] := ParentLine(city);
        return true;
      }
      i := i + 1;
    }
  }

  // ---------------------------------------------------------------------------
  // The walk over the data directory

  /** An entry of the data directory: a file with its lines, or a directory with its entries
      in iteration order. */
  datatype Entry = File(name: string, lines: seq<string>) | Dir(name: string, children: seq<Entry>)

  /** The counters the walk reports. */
  datatype Stats = Stats(prefectureIndexes: nat, cityIndexes: nat, dataFilesUpdated: nat)

  /** A name starting with `.`: hidden, skipped. */
  predicate Hidden(name: string) {
    StartsWith(name, ".")
  }

  /** A directory the walk descends into: not a file, not hidden. */
  predicate Processed(e: Entry) {
    e.Dir? && !Hidden(e.name)
  }

  /** A data page: a `*.md` file other than `index.md`. */
  predicate IsDataPage(e: Entry) {
    e.File? && EndsWith(e.name, ".md") && e.name != "index.md"
  }

  /** A data page whose front matter has a `parent:` line, so the rewrite reports it. */
  predicate Rewrites(e: Entry) {
    IsDataPage(e) && FirstWith(e.lines, "parent:").Some?
  }

  /** The directories the walk descends into, in order. */
  function ProcessedDirs(es: seq<Entry>): (r: seq<Entry>)
    ensures |r| <= |es|
    ensures forall k :: 0 <= k < |r| ==> Processed(r[k]) && r[k] in es
  {
    if es == [] then []
    else
      var last := es[|es| - 1];
      ProcessedDirs(es[..|es| - 1]) + (if Processed(last) then [last] else [])
  }

  /** The number of data pages of a city directory that the rewrite reports as updated. */
  function UpdatedPages(es: seq<Entry>): (n: nat)
    ensures n <= |es|
  {
    if es == [] then 0
    else UpdatedPages(es[..|es| - 1]) + (if Rewrites(es[|es| - 1]) then 1 else 0)
  }

  /** No page is counted exactly when no entry is a data page with a `parent:` line, and
      every entry is counted exactly when all are. */
  lemma {:induction false} UpdatedPagesCounts(es: seq<Entry>)
    ensures UpdatedPages(es) == 0 <==> forall k :: 0 <= k < |es| ==> !Rewrites(es[k])
    ensures UpdatedPages(es) == |es| <==> forall k :: 0 <= k < |es| ==> Rewrites(es[k])
  {
    if es != [] {
      var init := es[..|es| - 1];
      UpdatedPagesCounts(init);
      assert forall k :: 0 <= k < |init| ==> init[k] == es[k];
    }
  }

  /** The counts of consecutive runs of entries add up. */
  lemma {:induction false} UpdatedPagesAppend(a: seq<Entry>, b: seq<Entry>)
    ensures UpdatedPages(a + b) == UpdatedPages(a) + UpdatedPages(b)
    decreases |b|
  {
    if b == [] {
      assert a + b == a;
    } else {
      var init := b[..|b| - 1];
      assert (a + b)[..|a + b| - 1] == a + init;
      UpdatedPagesAppend(a, init);
    }
  }

  /** What the walk below one prefecture adds to the counters. */
  function CityStats(cities: seq<Entry>): (s: Stats)
    ensures s.prefectureIndexes == 0
  {
    if cities == [] then Stats(0, 0, 0)
    else
      var s := CityStats(cities[..|cities| - 1]);
      var last := cities[|cities| - 1];
      if Processed(last) then Stats(0, s.cityIndexes + 1, s.dataFilesUpdated + UpdatedPages(last.children))
      else s
  }

  /** The counters of the whole walk. */
  function WalkStats(root: seq<Entry>): Stats {
    if root == [] then Stats(0, 0, 0)
    else
      var s := WalkStats(root[..|root| - 1]);
      var last := root[|root| - 1];
      if Processed(last) then
        var c := CityStats(last.children);
        Stats(s.prefectureIndexes + 1, s.cityIndexes + c.cityIndexes, s.dataFilesUpdated + c.dataFilesUpdated)
      else s
  }

  /** The city counter counts exactly the directories descended into. */
  lemma {:induction false} CityStatsCounts(cities: seq<Entry>)
    ensures CityStats(cities).cityIndexes == |ProcessedDirs(cities)|
  {
    if cities != [] {
      CityStatsCounts(cities[..|cities| - 1]);
    }
  }

  /** The prefecture counter counts exactly the directories descended into at the top. */
  lemma {:induction false} WalkCountsPrefectures(root: seq<Entry>)
    ensures WalkStats(root).prefectureIndexes == |ProcessedDirs(root)|
  {
    if root != [] {
      WalkCountsPrefectures(root[..|root| - 1]);
    }
  }

  /** Files and hidden entries are skipped: adding one changes no counter. */
  lemma SkippedEntry(root: seq<Entry>, e: Entry)
    requires !Processed(e)
    ensures WalkStats(root + [e]) == WalkStats(root)
    ensures CityStats(root + [e]) == CityStats(root)
    ensures ProcessedDirs(root + [e]) == ProcessedDirs(root)
  {
    assert (root + [e])[..|root|] == root;
  }

  /** An `index.md` page is never rewritten. */
  lemma IndexPageSkipped(es: seq<Entry>, lines: seq<string>)
    ensures UpdatedPages(es + [File("index.md", lines)]) == UpdatedPages(es)
  {
    assert (es + [File("index.md", lines)])[..|es|] == es;
  }

  /** The entries of a city directory after the walk: every data page rewritten for the
      city, everything else as it was. */
  function RewrittenPages(city: string, es: seq<Entry>): (r: seq<Entry>)
    ensures |r| == |es|
    ensures forall k :: 0 <= k < |es| && !IsDataPage(es[k]) ==> r[k] == es[k]
    ensures forall k :: 0 <= k < |es| && IsDataPage(es[k]) ==> r[k] == es[k].(lines := Rewritten(es[k].lines, city))
  {
    if es == [] then []
    else
      var last := es[|es| - 1];
      RewrittenPages(city, es[..|es| - 1]) + [if IsDataPage(last) then last.(lines := Rewritten(last.lines, city)) else last]
  }

  /** The pages below one city directory as the walk runs them: each data page is read
      into a line array, rewritten in place and counted when it had a `parent:` line. */
  method UpdateCityPages(city: string, files: seq<Entry>) returns (updated: nat, pages: seq<Entry>)
    ensures updated == UpdatedPages(files)
    ensures pages == RewrittenPages(city, files)
  {
    updated := 0;
    pages := [];
    for i := 0 to |files|
      invariant updated == UpdatedPages(files[..i])
      invariant pages == RewrittenPages(city, files[..i])
    {
      assert files[..i + 1][..i] == files[..i];
      var e := files[i];
      if e.File? && EndsWith(e.name, ".md") && e.name != "index.md" {
        var lines := new string[|e.lines|](k requires 0 <= k < |e.lines| => e.lines[k]);
        assert lines[..] == e.lines;
        var done := UpdateFrontmatter(lines, city);
        if done {
          updated := updated + 1;
        }
        pages := pages + [e.(lines := lines[..])];
      } else {
        pages := pages + [e];
      }
    }
    assert files[..|files|] == files;
  }

  /** The city directories of one prefecture after the walk: in every directory descended
      into, the data pages are rewritten for that city; every other entry is as it was. */
  function RewrittenCities(cities: seq<Entry>): (r: seq<Entry>)
    ensures |r| == |cities|
    ensures forall k :: 0 <= k < |cities| && !Processed(cities[k]) ==> r[k] == cities[k]
    ensures forall k :: 0 <= k < |cities| && Processed(cities[k]) ==>
              r[k] == cities[k].(children := RewrittenPages(cities[k].name, cities[k].children))
  {
    if cities == [] then []
    else
      var c := cities[|cities| - 1];
      RewrittenCities(cities[..|cities| - 1])
        + [if Processed(c) then c.(children := RewrittenPages(c.name, c.children)) else c]
  }

  /** The data directory after the walk: below every prefecture directory descended into,
      the cities are rewritten; every other entry is as it was. */
  function RewrittenTree(root: seq<Entry>): (r: seq<Entry>)
    ensures |r| == |root|
    ensures forall k :: 0 <= k < |root| && !Processed(root[k]) ==> r[k] == root[k]
    ensures forall k :: 0 <= k < |root| && Processed(root[k]) ==>
              r[k] == root[k].(children := RewrittenCities(root[k].children))
  {
    if root == [] then []
    else
      var p := root[|root| - 1];
      RewrittenTree(root[..|root| - 1])
        + [if Processed(p) then p.(children := RewrittenCities(p.children)) else p]
  }

  /** The city directories of one prefecture as the walk runs them. */
  method ProcessPrefecture(cities: seq<Entry>) returns (s: Stats, after: seq<Entry>)
    ensures s == CityStats(cities)
    ensures after == RewrittenCities(cities)
  {
    s := Stats(0, 0, 0);
    after := [];
    for i := 0 to |cities|
      invariant s == CityStats(cities[..i])
      invariant after == RewrittenCities(cities[..i])
    {
      assert cities[..i + 1][..i] == cities[..i];
      var c := cities[i];
      if c.Dir? && !StartsWith(c.name, ".") {
        var updated, pages := UpdateCityPages(c.name, c.children);
        s := Stats(0, s.cityIndexes + 1, s.dataFilesUpdated + updated);
        after := after + [c.(children := pages)];
      } else {
        after := after + [c];
      }
    }
    assert cities[..|cities|] == cities;
  }

  /** The walk of `main` over the data directory's entries: its counters and the directory
      it leaves behind. */
  method Walk(root: seq<Entry>) returns (stats: Stats, after: seq<Entry>)
    ensures stats == WalkStats(root)
    ensures stats.prefectureIndexes == |ProcessedDirs(root)|
    ensures after == RewrittenTree(root)
  {
    stats := Stats(0, 0, 0);
    after := [];
    for i := 0 to |root|
      invariant stats == WalkStats(root[..i])
      invariant after == RewrittenTree(root[..i])
    {
      assert root[..i + 1][..i] == root[..i];
      var p := root[i];
      if p.Dir? && !StartsWith(p.name, ".") {
        var c, cities := ProcessPrefecture(p.children);
        stats := Stats(stats.prefectureIndexes + 1, stats.cityIndexes + c.cityIndexes,
                       stats.dataFilesUpdated + c.dataFilesUpdated);
        after := after + [p.(children := cities)];
      } else {
        after := after + [p];
      }
    }
    assert root[..|root|] == root;
    WalkCountsPrefectures(root);
  }
}
