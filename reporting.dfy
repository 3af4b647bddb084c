/** The deterministic part of the PDF report (app/reporting.py): which
    blocks of text the report holds and in what order, the sorting of the
    indicator rows by threat level, the classification of the summary lines,
    the latin-1 sanitising, `capitalize` and the output file name. Fonts,
    colours, cell geometry and page breaks are not modelled. */
module Reporting {
  import opened Common
  import Enrichment

  // ---------------------------------------------------------------------
  // String shaping

  /** `s.encode('latin-1', 'replace').decode('latin-1')`: every character
      outside latin-1 becomes '?'. */
  function Latin1Safe(s: string): (r: string)
    ensures |r| == |s|
    ensures forall i :: 0 <= i < |s| ==> r[i] == if s[i] as int > 255 then '?' else s[i]
  {
    seq(|s|, i requires 0 <= i < |s| => if s[i] as int > 255 then '?' else s[i])
  }

  predicate IsLatin1(s: string) {
    forall i :: 0 <= i < |s| ==> s[i] as int <= 255
  }

  /** The result always encodes, sanitising again changes nothing, and a
      string that already encodes is left as it is. */
  lemma Latin1SafeProperties(s: string)
    ensures IsLatin1(Latin1Safe(s))
    ensures Latin1Safe(Latin1Safe(s)) == Latin1Safe(s)
    ensures IsLatin1(s) ==> Latin1Safe(s) == s
  {
  }

  /** `str.capitalize()` on ASCII letters: first character upper-cased, the
      rest lower-cased. */
  function Capitalize(s: string): (r: string)
    ensures |r| == |s|
    ensures |s| > 0 ==> r[0] == UpperChar(s[0])
    ensures forall i :: 1 <= i < |s| ==> r[i] == LowerChar(s[i])
  {
    if s == [] then [] else [UpperChar(s[0])] + Lower(s[1..])
  }

  lemma CapitalizeIdempotent(s: string)
    ensures Capitalize(Capitalize(s)) == Capitalize(s)
  {
    var c := Capitalize(s);
    assert forall i :: 0 <= i < |s| ==> Capitalize(c)[i] == c[i];
  }

  lemma CapitalizeLevels()
    ensures Capitalize("high") == "High" && Capitalize("HIGH") == "High"
    ensures Capitalize("ip") == "Ip" && Capitalize("N/A") == "N/a"
  {
    assert Capitalize("high") == [UpperChar('h')] + Lower("igh");
    assert Lower("igh") == "igh";
    assert Lower("IGH") == "igh";
    assert Lower("p") == "p";
    assert Lower("/A") == "/a";
  }

  /** `os.path.basename` for '/'-separated paths: the text after the last '/'. */
  function Basename(path: string): (name: string)
    ensures '/' !in name
    ensures EndsWith(path, name)
    ensures |name| < |path| ==> path[|path| - |name| - 1] == '/'
  {
    if path == [] || path[|path| - 1] == '/' then []
    else Basename(path[..|path| - 1]) + [path[|path| - 1]]
  }

  /** `name.replace('.', '_')` */
  function ReplaceDots(name: string): (r: string)
    ensures |r| == |name| && '.' !in r
    ensures forall i :: 0 <= i < |name| ==> r[i] == if name[i] == '.' then '_' else name[i]
  {
    seq(|name|, i requires 0 <= i < |name| => if name[i] == '.' then '_' else name[i])
  }

  /** Line 151: where the report is written. */
  function OutputPath(filename: string): string {
    "/tmp/" + ReplaceDots(Basename(filename)) + "_report.pdf"
  }

  /** The report lands directly in /tmp, its name is the base name with
      every dot made an underscore, and "_report.pdf" is its only suffix. */
  lemma OutputPathShape(filename: string)
    ensures var path := OutputPath(filename); var middle := path[5..|path| - 11];
      && StartsWith(path, "/tmp/") && EndsWith(path, "_report.pdf")
      && middle == ReplaceDots(Basename(filename))
      && '/' !in middle && '.' !in middle
      && |path| == |Basename(filename)| + 16
  {
    var name := ReplaceDots(Basename(filename));
    var path := OutputPath(filename);
    assert path == "/tmp/" + name + "_report.pdf";
    assert path[5..|path| - 11] == name;
    assert '/' !in name by {
      forall i | 0 <= i < |name| ensures name[i] != '/' {
        assert Basename(filename)[i] != '/';
      }
    }
  }

  /** Only the last path segment decides the output file. */
  lemma {:induction false} BasenameAfterSlash(dir: string, name: string)
    requires '/' !in name
    ensures Basename(dir + "/" + name) == name
    decreases |name|
  {
    if name == [] {
      assert (dir + "/" + name)[|dir + "/" + name| - 1] == '/';
    } else {
      var init := name[..|name| - 1];
      assert (dir + "/" + name)[..|dir + "/" + name| - 1] == dir + "/" + init;
      BasenameAfterSlash(dir, init);
      assert init + [name[|name| - 1]] == name;
    }
  }

  lemma OutputPathIgnoresDirectory(dir: string, name: string)
    requires '/' !in name
    ensures OutputPath(dir + "/" + name) == OutputPath(name)
  {
    BasenameAfterSlash(dir, name);
    BasenameAfterSlash("", name);
    assert "" + "/" + name == "/" + name;
    assert Basename(name) == name by {
      if name == [] {
      } else {
        BasenameOfPlain(name);
      }
    }
  }

  lemma {:induction false} BasenameOfPlain(name: string)
    requires '/' !in name
    ensures Basename(name) == name
    decreases |name|
  {
    if name != [] {
      var init := name[..|name| - 1];
      BasenameOfPlain(init);
      assert init + [name[|name| - 1]] == name;
    }
  }

  // ---------------------------------------------------------------------
  // Rows by threat level

  /** An enrichment dictionary as the report reads it: every key may be
      missing. */
  datatype ReportItem = ReportItem(kind: Option<string>, indicator: Option<string>, score: Option<int>, level: Option<string>)

  function FromEnriched(e: Enrichment.Enriched): ReportItem {
    ReportItem(Some(e.kind), Some(e.indicator), Some(e.score), Some(e.level))
  }

  /** The keys of `levels`, in the order the table is drained. */
  const LEVEL_ORDER: seq<string> := ["high", "medium", "low", "unknown"]

  /** `item.get("level", "unknown").lower()` */
  function LevelKey(item: ReportItem): string {
    Lower(item.level.GetOr("unknown"))
  }

  /** The items whose key is `key`, in input order. */
  function Bucket(items: seq<ReportItem>, key: string): seq<ReportItem> {
    if items == [] then []
    else
      var last := items[|items| - 1];
      Bucket(items[..|items| - 1], key) + (if LevelKey(last) == key then [last] else [])
  }

  /** The first `j` buckets of LEVEL_ORDER, one after the other. */
  function RowsUpTo(items: seq<ReportItem>, j: nat): seq<ReportItem>
    requires j <= |LEVEL_ORDER|
  {
    if j == 0 then [] else RowsUpTo(items, j - 1) + Bucket(items, LEVEL_ORDER[j - 1])
  }

  /** The table rows: high, medium, low, then unknown. */
  function OrderedRows(items: seq<ReportItem>): seq<ReportItem> {
    RowsUpTo(items, 4)
  }

  predicate KnownLevels(items: seq<ReportItem>) {
    forall i :: 0 <= i < |items| ==> LevelKey(items[i]) in LEVEL_ORDER
  }

  /** Lines 112-121 up to the drawing: bucket each item by its level key,
      then drain the buckets in order. A key outside the four buckets is the
      source's KeyError, reported with the offending key. */
  method OrderRows(items: seq<ReportItem>) returns (r: Result<seq<ReportItem>, string>)
    ensures r.Ok? <==> KnownLevels(items)
    ensures r.Ok? ==> r.value == OrderedRows(items)
    ensures r.Err? ==>
      exists k :: 0 <= k < |items| && r.error == LevelKey(items[k]) && r.error !in LEVEL_ORDER && KnownLevels(items[..k])
  {
    var levels: map<string, seq<ReportItem>> := map["high" := [], "medium" := [], "low" := [], "unknown" := []];
    var n := 0;
    while n < |items|
      invariant 0 <= n <= |items|
      invariant KnownLevels(items[..n])
      invariant forall k :: k in levels <==> k in LEVEL_ORDER
      invariant forall k :: k in levels ==> levels[k] == Bucket(items[..n], k)
    {
      var key := LevelKey(items[n]);
      if key !in levels {
        return Err(key);
      }
      forall k | k in levels
        ensures Bucket(items[..n + 1], k) == levels[k] + if key == k then [items[n]] else []
      {
        BucketStep(items, n, k);
      }
      KnownLevelsStep(items, n);
      levels := levels[key := levels[key] + [items[n]]];
      n := n + 1;
    }
    assert items[..n] == items;
    var rows := [];
    for j := 0 to |LEVEL_ORDER|
      invariant rows == RowsUpTo(items, j)
    {
      rows := rows + levels[LEVEL_ORDER[j]];
    }
    return Ok(rows);
  }

  /** One more item extends its own bucket and no other. */
  lemma BucketStep(items: seq<ReportItem>, n: nat, key: string)
    requires n < |items|
    ensures Bucket(items[..n + 1], key) ==
      Bucket(items[..n], key) + if LevelKey(items[n]) == key then [items[n]] else []
  {
    assert items[..n + 1][..n] == items[..n];
  }

  lemma KnownLevelsStep(items: seq<ReportItem>, n: nat)
    requires n < |items| && KnownLevels(items[..n]) && LevelKey(items[n]) in LEVEL_ORDER
    ensures KnownLevels(items[..n + 1])
  {
    assert forall i :: 0 <= i < n ==> items[..n + 1][i] == items[..n][i];
  }

  lemma {:induction false} BucketKeys(items: seq<ReportItem>, key: string)
    ensures forall x :: x in Bucket(items, key) ==> LevelKey(x) == key && x in items
  {
    if items != [] {
      BucketKeys(items[..|items| - 1], key);
    }
  }

  /** Bucketing keeps input order: the bucket of a concatenation is the
      bucket of the first part followed by the bucket of the second. */
  lemma {:induction false} BucketAppend(a: seq<ReportItem>, b: seq<ReportItem>, key: string)
    ensures Bucket(a + b, key) == Bucket(a, key) + Bucket(b, key)
  {
    if b != [] {
      var init := b[..|b| - 1];
      var last := b[|b| - 1];
      BucketAppend(a, init, key);
      assert (a + b)[..|a + b| - 1] == a + init;
      assert (a + b)[|a + b| - 1] == last;
    } else {
      assert a + b == a;
    }
  }

  /** A bucket holds every copy of each item with its key and nothing else. */
  lemma {:induction false} BucketCount(items: seq<ReportItem>, key: string, x: ReportItem)
    ensures multiset(Bucket(items, key))[x] == if LevelKey(x) == key then multiset(items)[x] else 0
  {
    if items != [] {
      var init := items[..|items| - 1];
      var last := items[|items| - 1];
      BucketCount(init, key, x);
      assert items == init + [last];
    }
  }

  /** An item is counted in its own bucket and in no other. */
  lemma PartitionAt(items: seq<ReportItem>, x: ReportItem)
    requires KnownLevels(items)
    ensures multiset(Bucket(items, "high"))[x] + multiset(Bucket(items, "medium"))[x]
      + multiset(Bucket(items, "low"))[x] + multiset(Bucket(items, "unknown"))[x] == multiset(items)[x]
  {
    BucketCount(items, "high", x);
    BucketCount(items, "medium", x);
    BucketCount(items, "low", x);
    BucketCount(items, "unknown", x);
    if x in items {
      var i :| 0 <= i < |items| && items[i] == x;
      assert LevelKey(x) in LEVEL_ORDER;
    }
  }

  /** With every key known, the four buckets split the items exactly. */
  lemma BucketsPartition(items: seq<ReportItem>)
    requires KnownLevels(items)
    ensures multiset(Bucket(items, "high")) + multiset(Bucket(items, "medium"))
      + multiset(Bucket(items, "low")) + multiset(Bucket(items, "unknown")) == multiset(items)
  {
    var h, m, l, u := multiset(Bucket(items, "high")), multiset(Bucket(items, "medium")),
      multiset(Bucket(items, "low")), multiset(Bucket(items, "unknown"));
    forall x ensures (h + m + l + u)[x] == multiset(items)[x] {
      PartitionAt(items, x);
    }
  }

  lemma OrderedRowsUnfold(items: seq<ReportItem>)
    ensures OrderedRows(items) == Bucket(items, "high") + Bucket(items, "medium")
      + Bucket(items, "low") + Bucket(items, "unknown")
  {
    assert RowsUpTo(items, 1) == Bucket(items, "high");
    assert RowsUpTo(items, 2) == RowsUpTo(items, 1) + Bucket(items, "medium");
    assert RowsUpTo(items, 3) == RowsUpTo(items, 2) + Bucket(items, "low");
    assert RowsUpTo(items, 4) == RowsUpTo(items, 3) + Bucket(items, "unknown");
  }

  /** The rows are a permutation of the items when every level is known. */
  lemma OrderedRowsPermutation(items: seq<ReportItem>)
    requires KnownLevels(items)
    ensures multiset(OrderedRows(items)) == multiset(items)
  {
    BucketsPartition(items);
    OrderedRowsUnfold(items);
  }

  /** No row is lost or added when every level is known. */
  lemma OrderedRowsLength(items: seq<ReportItem>)
    requires KnownLevels(items)
    ensures |OrderedRows(items)| == |items|
  {
    OrderedRowsPermutation(items);
    assert |multiset(OrderedRows(items))| == |multiset(items)|;
  }

  /** Position of a key in LEVEL_ORDER. */
  function LevelRank(key: string): nat {
    if key == "high" then 0 else if key == "medium" then 1 else if key == "low" then 2 else 3
  }

  /** Rows never go back up in severity. */
  predicate GroupedByLevel(rows: seq<ReportItem>) {
    forall a, b :: 0 <= a < b < |rows| ==> LevelRank(LevelKey(rows[a])) <= LevelRank(LevelKey(rows[b]))
  }

  /** The first `j` buckets hold only keys among the first `j` levels, and
      they come in level order. */
  lemma {:induction false} RowsUpToGrouped(items: seq<ReportItem>, j: nat)
    requires j <= |LEVEL_ORDER|
    ensures forall x :: x in RowsUpTo(items, j) ==> LevelRank(LevelKey(x)) < j && LevelKey(x) in LEVEL_ORDER
    ensures GroupedByLevel(RowsUpTo(items, j))
  {
    if j > 0 {
      RowsUpToGrouped(items, j - 1);
      var key := LEVEL_ORDER[j - 1];
      BucketKeys(items, key);
      var front := RowsUpTo(items, j - 1);
      var back := Bucket(items, key);
      var rows := front + back;
      assert LevelRank(key) == j - 1;
      forall a, b | 0 <= a < b < |rows|
        ensures LevelRank(LevelKey(rows[a])) <= LevelRank(LevelKey(rows[b]))
      {
        if b < |front| {
          assert rows[a] == front[a] && rows[b] == front[b];
          assert LevelRank(LevelKey(front[a])) <= LevelRank(LevelKey(front[b]));
        } else {
          var y := back[b - |front|];
          assert rows[b] == y && y in back;
          assert LevelRank(LevelKey(y)) == j - 1;
          if a < |front| {
            assert rows[a] == front[a] && front[a] in front;
            assert LevelRank(LevelKey(front[a])) < j - 1;
          } else {
            var x := back[a - |front|];
            assert rows[a] == x && x in back;
            assert LevelRank(LevelKey(x)) == j - 1;
          }
        }
      }
      assert rows == RowsUpTo(items, j);
    }
  }

  /** The table shows all high rows, then medium, then low, then unknown. */
  lemma OrderedRowsGrouped(items: seq<ReportItem>)
    ensures GroupedByLevel(OrderedRows(items))
  {
    RowsUpToGrouped(items, 4);
  }

  /** Records made by `enrich_indicators` never hit the KeyError. */
  lemma EnrichedLevelsKnown(enriched: seq<Enrichment.Enriched>)
    requires forall i :: 0 <= i < |enriched| ==>
      enriched[i].level in {Enrichment.HIGH, Enrichment.MEDIUM, Enrichment.LOW, Enrichment.UNKNOWN}
    ensures KnownLevels(seq(|enriched|, i requires 0 <= i < |enriched| => FromEnriched(enriched[i])))
  {
    assert Lower("High") == "high";
    assert Lower("Medium") == "medium";
    assert Lower("Low") == "low";
    assert Lower("Unknown") == "unknown";
    var items := seq(|enriched|, i requires 0 <= i < |enriched| => FromEnriched(enriched[i]));
    forall i | 0 <= i < |items| ensures LevelKey(items[i]) in LEVEL_ORDER {
      assert LevelKey(items[i]) == Lower(enriched[i].level);
    }
  }

  // ---------------------------------------------------------------------
  // The report as a sequence of blocks

  datatype Block =
    | Title(text: string)
    | Section(text: string)
    | Meta(key: string, value: string)
    | Bullet(text: string)
    | SubHeading(text: string)
    | Paragraph(text: string)
    | TableHeader
    | Row(kind: string, indicator: string, score: string, level: string)
    | Notice(text: string)

  const REPORT_TITLE := "Cyber Threat Analysis Report"
  const OVERVIEW_SECTION := "Analysis Overview"
  const SUMMARY_SECTION := "Executive Summary (AI Analysis)"
  const INDICATORS_SECTION := "Threat Indicators Found"
  const NO_INDICATORS := "No threat indicators were extracted from the file."

  /** Lines 85-98: what one line of the model's answer becomes. */
  function LineBlocks(line: string): seq<Block> {
    var safe := Latin1Safe(line);
    var stripped := Strip(safe);
    if StartsWith(stripped, "* ") || StartsWith(stripped, "- ") then [Bullet("- " + stripped[2..])]
    else if EndsWith(stripped, ":") && |safe| < 80 then [SubHeading(safe)]
    else if safe != "" then [Paragraph(safe)]
    else []
  }

  /** `LineBlocks` in terms of the sanitised and stripped line, for the
      method that renders it. */
  lemma LineBlocksUnfold(line: string, safe: string, stripped: string)
    requires safe == Latin1Safe(line) && stripped == Strip(safe)
    ensures LineBlocks(line) ==
      if StartsWith(stripped, "* ") || StartsWith(stripped, "- ") then [Bullet("- " + stripped[2..])]
      else if EndsWith(stripped, ":") && |safe| < 80 then [SubHeading(safe)]
      else if safe != "" then [Paragraph(safe)]
      else []
  {
  }

  /** Stripping keeps a string latin-1. */
  lemma StripKeepsLatin1(s: string)
    requires IsLatin1(s)
    ensures IsLatin1(Strip(s))
  {
    var k := SpaceRunFrom(s, 0);
    var t := s[k..];
    assert forall i :: 0 <= i < |t| ==> t[i] == s[k + i];
    var u := t[..SpaceRunBack(t, |t|)];
    assert forall i :: 0 <= i < |u| ==> u[i] == t[i];
  }

  /** Only the empty line is dropped, and no line gives more than one
      block. */
  lemma LineBlocksDropsOnlyEmpty(line: string)
    ensures LineBlocks(line) == [] <==> line == ""
    ensures |LineBlocks(line)| <= 1
  {
    if line == "" {
      assert Latin1Safe(line) == "";
      assert Strip("") == "";
    }
  }

  /** A line whose stripped text starts with "* " or "- " is a bullet
      holding the text after the marker; otherwise a short line ending in
      ':' is a heading, and anything else (whitespace-only lines too) is a
      paragraph of the sanitised line. */
  lemma LineBlocksCases(line: string)
    requires line != ""
    ensures var b := LineBlocks(line)[0]; var safe := Latin1Safe(line); var stripped := Strip(safe);
      var bullet := StartsWith(stripped, "* ") || StartsWith(stripped, "- ");
      var heading := EndsWith(stripped, ":") && |safe| < 80;
      && (b.Bullet? <==> bullet)
      && (b.Bullet? ==> b.text == "- " + stripped[2..])
      && (b.SubHeading? <==> !bullet && heading)
      && (b.SubHeading? ==> b.text == safe)
      && (b.Paragraph? <==> !bullet && !heading)
      && (b.Paragraph? ==> b.text == safe)
  {
    var safe := Latin1Safe(line);
    var stripped := Strip(safe);
    assert safe != "";
    if StartsWith(stripped, "* ") || StartsWith(stripped, "- ") {
      assert LineBlocks(line) == [Bullet("- " + stripped[2..])];
    } else if EndsWith(stripped, ":") && |safe| < 80 {
      assert LineBlocks(line) == [SubHeading(safe)];
    } else {
      assert LineBlocks(line) == [Paragraph(safe)];
    }
  }

  /** Every text the summary writes can be encoded in latin-1. */
  lemma LineBlocksLatin1(line: string)
    requires line != ""
    ensures IsLatin1(LineBlocks(line)[0].text)
  {
    LineBlocksDropsOnlyEmpty(line);
    var safe := Latin1Safe(line);
    assert IsLatin1(safe);
    var stripped := Strip(safe);
    StripKeepsLatin1(safe);
    if StartsWith(stripped, "* ") || StartsWith(stripped, "- ") {
      var text := "- " + stripped[2..];
      forall i | 0 <= i < |text| ensures text[i] as int <= 255 {
        if i >= 2 {
          assert text[i] == stripped[i];
        }
      }
      assert LineBlocks(line)[0].text == text;
    } else {
      assert LineBlocks(line)[0].text == safe;
    }
  }

  /** The blocks of all lines, in order. */
  function AllLineBlocks(lines: seq<string>): seq<Block> {
    if lines == [] then [] else AllLineBlocks(lines[..|lines| - 1]) + LineBlocks(lines[|lines| - 1])
  }

  /** Lines 71-99: nothing at all for an empty answer. */
  function SummaryBlocks(gptOutput: string): seq<Block> {
    if gptOutput == "" then [] else [Section(SUMMARY_SECTION)] + AllLineBlocks(SplitLines(gptOutput))
  }

  function ScoreText(score: Option<int>): string {
    match score
    case Some(n) => IntToString(n)
    case None => "N/A"
  }

  /** Lines 128-131: the four cells of one row. */
  function RowOf(item: ReportItem): Block {
    Row(Latin1Safe(Capitalize(item.kind.GetOr("N/A"))),
        Latin1Safe(item.indicator.GetOr("N/A")),
        Latin1Safe(ScoreText(item.score)),
        Latin1Safe(Capitalize(item.level.GetOr("N/A"))))
  }

  function RowBlocks(rows: seq<ReportItem>): seq<Block> {
    if rows == [] then [] else RowBlocks(rows[..|rows| - 1]) + [RowOf(rows[|rows| - 1])]
  }

  lemma RowBlocksStep(rows: seq<ReportItem>, k: nat)
    requires k < |rows|
    ensures RowBlocks(rows[..k + 1]) == RowBlocks(rows[..k]) + [RowOf(rows[k])]
  {
    assert rows[..k + 1][..k] == rows[..k];
  }

  /** The header row followed by one row per item. */
  function TableBlocks(rows: seq<ReportItem>): seq<Block> {
    [TableHeader] + RowBlocks(rows)
  }

  /** Lines 102-142: the notice when there are no enrichments, the table
      otherwise. */
  function IndicatorBlocks(items: seq<ReportItem>): seq<Block> {
    [Section(INDICATORS_SECTION)] + if items == [] then [Notice(NO_INDICATORS)] else TableBlocks(OrderedRows(items))
  }

  function HeaderBlocks(filename: string, analysisDate: string, userIp: string): seq<Block> {
    [Title(REPORT_TITLE), Section(OVERVIEW_SECTION),
     Meta("File Analyzed", Latin1Safe(Basename(filename))),
     Meta("Analysis Date", Latin1Safe(analysisDate)),
     Meta("Requesting IP", Latin1Safe(userIp))]
  }

  datatype Report = Report(path: string, blocks: seq<Block>)

  lemma {:induction false} AllLineBlocksKinds(lines: seq<string>)
    ensures forall b :: b in AllLineBlocks(lines) ==> b.Bullet? || b.SubHeading? || b.Paragraph?
  {
    if lines != [] {
      AllLineBlocksKinds(lines[..|lines| - 1]);
    }
  }

  lemma {:induction false} RowBlocksKinds(rows: seq<ReportItem>)
    ensures forall b :: b in RowBlocks(rows) ==> b.Row?
    ensures |RowBlocks(rows)| == |rows|
  {
    if rows != [] {
      RowBlocksKinds(rows[..|rows| - 1]);
    }
  }

  /** Lines 56-67: the title, the overview heading and the three metadata
      lines. */
  method RenderHeader(filename: string, userIp: string, analysisDate: string) returns (blocks: seq<Block>)
    ensures blocks == HeaderBlocks(filename, analysisDate, userIp)
  {
    blocks := [Title(REPORT_TITLE), Section(OVERVIEW_SECTION)];
    var metaInfo := [("File Analyzed", Basename(filename)), ("Analysis Date", analysisDate), ("Requesting IP", userIp)];
    for m := 0 to |metaInfo|
      invariant blocks == [Title(REPORT_TITLE), Section(OVERVIEW_SECTION)]
        + seq(m, i requires 0 <= i < m => Meta(metaInfo[i].0, Latin1Safe(metaInfo[i].1)))
    {
      blocks := blocks + [Meta(metaInfo[m].0, Latin1Safe(metaInfo[m].1))];
    }
  }

  /** Lines 85-98: one line of the model's answer, drawn as a bullet, a
      heading, a paragraph or nothing. */
  method RenderLine(line: string) returns (added: seq<Block>)
    ensures added == LineBlocks(line)
  {
    var safeLine := Latin1Safe(line);
    var stripped := Strip(safeLine);
    LineBlocksUnfold(line, safeLine, stripped);
    if StartsWith(stripped, "* ") || StartsWith(stripped, "- ") {
      added := [Bullet("- " + stripped[2..])];
    } else if EndsWith(stripped, ":") && |safeLine| < 80 {
      added := [SubHeading(safeLine)];
    } else if safeLine != "" {
      added := [Paragraph(safeLine)];
    } else {
      added := [];
    }
  }

  /** Lines 84-98: the lines of the answer, in order. */
  method RenderLines(lines: seq<string>) returns (blocks: seq<Block>)
    ensures blocks == AllLineBlocks(lines)
  {
    blocks := [];
    for j := 0 to |lines|
      invariant blocks == AllLineBlocks(lines[..j])
    {
      var added := RenderLine(lines[j]);
      assert lines[..j + 1][..j] == lines[..j];
      blocks := blocks + added;
    }
    assert lines[..|lines|] == lines;
  }

  /** Lines 71-99: the executive summary, one block per non-empty line. */
  method RenderSummary(gptOutput: string) returns (blocks: seq<Block>)
    ensures blocks == SummaryBlocks(gptOutput)
    ensures Section(SUMMARY_SECTION) in blocks <==> gptOutput != ""
    ensures forall b :: b in blocks ==> b.Section? || b.Bullet? || b.SubHeading? || b.Paragraph?
  {
    blocks := [];
    if gptOutput != "" {
      var lines := SplitLines(gptOutput);
      var body := RenderLines(lines);
      AllLineBlocksKinds(lines);
      blocks := [Section(SUMMARY_SECTION)] + body;
    }
  }

  /** Lines 124-131: one table row per item, in the given order. */
  method RenderRows(rows: seq<ReportItem>) returns (blocks: seq<Block>)
    ensures blocks == RowBlocks(rows)
  {
    blocks := [];
    for k := 0 to |rows|
      invariant blocks == RowBlocks(rows[..k])
    {
      blocks := blocks + [RowOf(rows[k])];
      RowBlocksStep(rows, k);
    }
    assert rows[..|rows|] == rows;
  }

  /** Lines 102-142: the indicator table, or the notice when there is
      nothing to show; a level outside the four buckets aborts. */
  method RenderIndicators(enrichments: seq<ReportItem>) returns (r: Result<seq<Block>, string>)
    ensures r.Err? <==> enrichments != [] && !KnownLevels(enrichments)
    ensures r.Ok? ==> r.value == IndicatorBlocks(enrichments)
    ensures r.Ok? && enrichments != [] ==> |r.value| == |enrichments| + 2
  {
    if enrichments == [] {
      IndicatorsWithoutItems(enrichments);
      return Ok([Section(INDICATORS_SECTION), Notice(NO_INDICATORS)]);
    }
    var ordered := OrderRows(enrichments);
    if ordered.Err? {
      return Err(ordered.error);
    }
    var rows := ordered.value;
    var body := RenderRows(rows);
    IndicatorsRendered(enrichments, rows, body);
    return Ok([Section(INDICATORS_SECTION), TableHeader] + body);
  }

  lemma HeaderShape(filename: string, analysisDate: string, userIp: string)
    ensures var h := HeaderBlocks(filename, analysisDate, userIp);
      Section(SUMMARY_SECTION) !in h && Notice(NO_INDICATORS) !in h && TableHeader !in h
  {
  }

  lemma SummaryShape(gptOutput: string)
    ensures var s := SummaryBlocks(gptOutput);
      (Section(SUMMARY_SECTION) in s <==> gptOutput != "") && Notice(NO_INDICATORS) !in s && TableHeader !in s
  {
    if gptOutput != "" {
      AllLineBlocksKinds(SplitLines(gptOutput));
    }
  }

  lemma IndicatorsWithoutItems(items: seq<ReportItem>)
    requires items == []
    ensures IndicatorBlocks(items) == [Section(INDICATORS_SECTION), Notice(NO_INDICATORS)]
  {
  }

  // NotInTable, PrependTwo and MemberOfThree are small sequence facts stated
  // on plain arguments, so that the shape lemmas below use them without
  // unfolding the recursive block functions.

  /** Behind the header row there are only rows. */
  lemma NotInTable(rb: seq<Block>, x: Block)
    requires forall b :: b in rb ==> b.Row?
    requires !x.Row? && x != TableHeader
    ensures x !in [TableHeader] + rb
  {
  }

  lemma TableShape(rows: seq<ReportItem>)
    ensures var t := TableBlocks(rows);
      Section(SUMMARY_SECTION) !in t && Section(INDICATORS_SECTION) !in t && Notice(NO_INDICATORS) !in t && TableHeader in t
  {
    var rb := RowBlocks(rows);
    RowBlocksKinds(rows);
    NotInTable(rb, Section(SUMMARY_SECTION));
    NotInTable(rb, Section(INDICATORS_SECTION));
    NotInTable(rb, Notice(NO_INDICATORS));
    assert ([TableHeader] + rb)[0] == TableHeader;
  }

  lemma IndicatorsUnfold(items: seq<ReportItem>)
    requires items != []
    ensures IndicatorBlocks(items) == [Section(INDICATORS_SECTION)] + TableBlocks(OrderedRows(items))
  {
  }

  /** The table drawn from the ordered rows is the indicator section, one
      row per item behind two header blocks. */
  lemma IndicatorsRendered(items: seq<ReportItem>, rows: seq<ReportItem>, body: seq<Block>)
    requires items != [] && KnownLevels(items)
    requires rows == OrderedRows(items) && body == RowBlocks(rows)
    ensures IndicatorBlocks(items) == [Section(INDICATORS_SECTION), TableHeader] + body
    ensures |body| == |items|
  {
    OrderedRowsLength(items);
    RowBlocksKinds(rows);
    IndicatorsUnfold(items);
    assert TableBlocks(rows) == [TableHeader] + body;
    PrependTwo(Section(INDICATORS_SECTION), TableHeader, body);
  }

  lemma PrependTwo(a: Block, b: Block, rest: seq<Block>)
    ensures [a] + ([b] + rest) == [a, b] + rest
  {
  }

  lemma IndicatorsWithItems(items: seq<ReportItem>)
    requires items != []
    ensures var t := IndicatorBlocks(items);
      Section(SUMMARY_SECTION) !in t && Notice(NO_INDICATORS) !in t && TableHeader in t
  {
    var rows := OrderedRows(items);
    TableShape(rows);
    IndicatorsUnfold(items);
    assert |INDICATORS_SECTION| != |SUMMARY_SECTION|;
  }

  lemma IndicatorShape(items: seq<ReportItem>)
    ensures var t := IndicatorBlocks(items);
      Section(SUMMARY_SECTION) !in t && (Notice(NO_INDICATORS) in t <==> items == []) && (TableHeader in t <==> items != [])
  {
    if items == [] {
      IndicatorsWithoutItems(items);
      assert |INDICATORS_SECTION| != |SUMMARY_SECTION|;
    } else {
      IndicatorsWithItems(items);
    }
  }

  lemma MemberOfThree(a: seq<Block>, b: seq<Block>, c: seq<Block>, x: Block)
    ensures x in a + b + c <==> x in a || x in b || x in c
  {
  }

  /** The summary section appears exactly when the model's answer is
      non-empty, the table header exactly when there are enrichments and the
      notice exactly when there are none. */
  lemma ReportSections(filename: string, analysisDate: string, userIp: string, gptOutput: string, items: seq<ReportItem>)
    ensures var blocks := HeaderBlocks(filename, analysisDate, userIp) + SummaryBlocks(gptOutput) + IndicatorBlocks(items);
      && (Section(SUMMARY_SECTION) in blocks <==> gptOutput != "")
      && (Notice(NO_INDICATORS) in blocks <==> items == [])
      && (TableHeader in blocks <==> items != [])
  {
    var header := HeaderBlocks(filename, analysisDate, userIp);
    var summary := SummaryBlocks(gptOutput);
    var table := IndicatorBlocks(items);
    HeaderShape(filename, analysisDate, userIp);
    SummaryShape(gptOutput);
    IndicatorShape(items);
    MemberOfThree(header, summary, table, Section(SUMMARY_SECTION));
    MemberOfThree(header, summary, table, Notice(NO_INDICATORS));
    MemberOfThree(header, summary, table, TableHeader);
  }

  /** `generate_report` without the drawing: `analysisDate` stands for
      `datetime.now()`. An unknown level aborts the report. */
  method GenerateReport(filename: string, userIp: string, enrichments: seq<ReportItem>,
                        gptOutput: string, analysisDate: string)
    returns (r: Result<Report, string>)
    ensures r.Err? <==> enrichments != [] && !KnownLevels(enrichments)
    ensures r.Ok? ==> r.value.path == OutputPath(filename)
    ensures r.Ok? ==>
      r.value.blocks == HeaderBlocks(filename, analysisDate, userIp) + SummaryBlocks(gptOutput) + IndicatorBlocks(enrichments)
  {
    var header := RenderHeader(filename, userIp, analysisDate);
    var summary := RenderSummary(gptOutput);
    var indicators := RenderIndicators(enrichments);
    if indicators.Err? {
      return Err(indicators.error);
    }
    r := Ok(Report(OutputPath(filename), header + summary + indicators.value));
  }
}
