# Cyber threat analyzer: a verified model of the indicator pipeline

This project models the deterministic core of a small cyber-threat analyzer in Dafny:

- **Extraction** (`app/parser.py`): `parse_file` dispatches on the file name. A capture goes to `parse_pcap_with_tshark`, which walks the packets tshark has decoded. It writes one summary line per packet and collects the distinct IPv4 addresses and domains. Any other file goes to `parse_log`, which deduplicates the IP, URL and domain matches of the text and filters the domains.
- **Classification** (`app/enrichment.py`): the `THREAT_SCORES` table, the first-match `classify_score` and `enrich_indicators`. The random score is an input in [10, 100].
- **Report** (`app/reporting.py`): the deterministic part of `generate_report`. The report is a sequence of text blocks: title, metadata, the summary lines classified as bullet, heading or paragraph, and the indicator rows bucketed high, medium, low, unknown. It also covers latin-1 sanitising, `capitalize` of the cells and the output path.

Modules:

- `common.dfy`: `Option`/`Result` and the slice of Python's `str` behaviour the code relies on (`isspace`, `strip`, `startswith`/`endswith`, `in`, `join`, ASCII `lower`/`upper`, `splitlines`, `str(int)`).
- `parser.dfy`, `enrichment.dfy`, `reporting.dfy`: one module per source file.

The loops of the source are methods with loop invariants. Each method is proved against a specification function or predicate (`PcapResult`, `LogResult`, `OrderedRows`, `SummaryBlocks`, and so on), and the lemmas prove what those specifications promise.

A Python `for` loop over a `set` visits the elements in an arbitrary order. The model's loops pick each element with `:|`, so every contract holds for every visiting order. Records are stated as "each distinct value exactly once, grouped by kind".

## Behaviour of the code worth knowing

- **Log cross-filter.** The comment at `app/parser.py:144` says parts of URLs are excluded from the domain list. The test at `app/parser.py:146` goes the other way: it drops a domain when a URL occurs inside the domain. Every URL holds "://", and the hostname pattern never matches ':'. So the filter never removes anything, and the host of `http://bad.example.com/x` is still reported as a domain. `Parser.CrossFilterOnlyOnColon` and `Parser.UrlHostStillReported` prove this, and the model keeps the test as written.
- **No cap on summary lines.** The capture path emits one summary line per packet, however many packets there are.
- **Only the `ip` layer is read.** Addresses come from `ip.src`/`ip.dst`; an IPv6-only packet contributes no address.
- **Empty-capture sentinel.** "No processable packets with IP layers were found…" is returned exactly when the packet list is empty, whether or not any packet has an IP layer (`Parser.ParsePcap`).
- **Non-empty values.** Indicator values are non-empty on the capture path (`Parser.CollectedValuesNonEmpty`), and every URL the scanner returns is longer than 7 characters. For log IP and domain matches this rests on the regular expressions, which are inputs here.

## Model

| member | source | states |
|---|---|---|
| `Parser.ParseFile` | app/parser.py:152-162 | A path whose lower-cased name ends in ".pcap" or ".pcapng" gets the capture result; any other path gets the log result. |
| `Parser.CaptureTestIgnoresCase` | app/parser.py:157 | Upper-casing a path never changes whether it counts as a capture. |
| `Parser.ParsePcap` | app/parser.py:28-121 | Each tshark failure returns its own message and no indicators. For a decoded list: the summary is the summary lines joined by "\n", and the indicators hold each collected address once and each collected non-dotted-quad domain once. The sentinel with no indicators is returned exactly when the packet list is empty. |
| `Parser.SummaryLinesAt` | app/parser.py:60-105 | There is one summary line per packet, and line k is the summary of packet k. |
| `Parser.CollectedStep` | app/parser.py:60-105 | One more packet adds exactly its own addresses and domain candidates to the collected sets and its own line after the earlier lines. |
| `Parser.WalkPackets` | app/parser.py:55-105 | Exactly one summary line per packet, in packet order. The address and domain sets are those collected over all packets. |
| `Parser.SummarizePacket` | app/parser.py:60-105 | The line is the frame header, IP, DNS and HTTP parts, joined with the separator of line 105. The sets grow by exactly this packet's addresses and domains. |
| `Parser.PcapRecords` | app/parser.py:107-114 | Records carry no duplicates and are grouped ip before domain. A record is present iff it is an address, or a domain that is not a dotted quad. |
| `Parser.AppendEach` | app/parser.py:108-110 | Appending one record per set element, in any order, keeps the list duplicate-free and grouped, and adds exactly those records. |
| `Parser.AllIpsSpec` | app/parser.py:73-79 | An address is collected iff some packet has an IP layer with both ends present and non-empty, and the address is one of the two ends. |
| `Parser.AllDomainsSpec` | app/parser.py:82-103 | A domain is collected iff some packet carries it as a non-empty DNS query name or HTTP host. |
| `Parser.CollectedValuesNonEmpty` | app/parser.py:76-100 | No collected address or domain is the empty string. |
| `Parser.AnswerAndUriNotIndicators` | app/parser.py:89-103 | Changing a packet's DNS answer or HTTP request URI changes neither its addresses nor its domains. |
| `Parser.SummaryLineStartsWithFrame` | app/parser.py:65-70 | Every summary line begins with "Frame " and the packet's frame header. |
| `Parser.DigitEnd` | app/parser.py:113 | The end of a digit run lies between its start and the stopping point. |
| `Parser.DigitEndSpec` | app/parser.py:113 | A digit run holds only ASCII digits and is followed by a non-digit or by the stopping point. |
| `Parser.DigitEndOfBlock` | app/parser.py:113 | A block of digits followed by a non-digit or by the stopping point is exactly the digit run found there. |
| `Parser.GroupsChars` | app/parser.py:113 | A run of dot-separated digit groups holds only digits and dots. |
| `Parser.DottedQuadChars` | app/parser.py:113 | A string the dotted-quad pattern accepts holds only digits, dots and at most one final newline. |
| `Parser.GroupAt` | app/parser.py:113 | One to three digits followed by a dot or by the end are one group of the pattern. |
| `Parser.FourGroups` | app/parser.py:113 | Four digit runs of one to three digits, separated by dots, are accepted as four groups. |
| `Parser.DottedQuadOfGroups` | app/parser.py:113 | Any four groups of one to three ASCII digits joined by dots are a dotted quad. |
| `Parser.GroupSlice` | app/parser.py:113 | A digit run of one to three characters is one `\d{1,3}` group. |
| `Parser.GroupsSplit` | app/parser.py:113 | Four accepted groups are four one-to-three digit groups joined by dots. |
| `Parser.DottedQuadExact` | app/parser.py:113 | The test accepts exactly four groups of one to three ASCII digits joined by dots, optionally followed by one "\n", in both directions. |
| `Parser.DigitEndPrefix` | app/parser.py:113 | Text after the stopping point does not change a digit run. |
| `Parser.GroupsPrefix` | app/parser.py:113 | Text after the end does not change whether the groups are accepted. |
| `Parser.DottedQuadBeforeNewline` | app/parser.py:113 | A dotted quad followed by one "\n" still matches, because `$` matches before a final newline. |
| `Parser.DottedQuadRejects` | app/parser.py:113 | "1234.0.0.5" and "bad.example.com" are not dotted quads. |
| `Parser.UrlBodyEnd` | app/parser.py:134 | The end of the `[^\s"']` run from a position lies between that position and the end of the text. |
| `Parser.UrlBodyEndSpec` | app/parser.py:134 | The run holds no whitespace or quote and stops at one or at the end: the greedy `+`. |
| `Parser.SchemeAt` | app/parser.py:134 | The `https?://` found at a position fits in the text. |
| `Parser.UrlMatchAt` | app/parser.py:134 | A match at a position fits in the text. |
| `Parser.UrlMatchShape` | app/parser.py:134 | A match starts with "http://" or "https://", is longer than 7 characters, holds no whitespace or quote after the scheme, occurs in the text, and is followed by a whitespace or quote or by the end. |
| `Parser.FindUrlsFromSpec` | app/parser.py:134 | Every URL found from a position has the shape of a match and occurs in the text. |
| `Parser.FindUrlsSpec` | app/parser.py:134 | Every URL `re.findall` returns has the shape of a match and occurs in the text. |
| `Parser.FindUrlsNone` | app/parser.py:134 | When the pattern matches at no position from i on, no URL is found. |
| `Parser.FindUrlsFirst` | app/parser.py:134 | The first position from i where the pattern matches gives the first URL found, the whole match, and scanning resumes right after it. |
| `Parser.CrossFilterOnlyOnColon` | app/parser.py:145-146 | For a domain without ':', the filter keeps it iff it is not a dotted quad and holds a '.'; the URL test never fires. |
| `Parser.UrlHostStillReported` | app/parser.py:146 | "bad.example.com" passes the filter whatever URLs the text holds. |
| `Parser.ParseLog` | app/parser.py:124-149 | The text comes back unchanged. Indicators are duplicate-free and grouped ip, url, domain. Every IP match and URL appears exactly once. A domain match appears exactly once iff it passes the filter as written. |
| `Parser.AppendLogDomains` | app/parser.py:143-147 | Adds exactly the distinct domain matches that are not dotted quads, hold a '.', and contain no extracted URL. Keeps the list duplicate-free and grouped. |
| `Common.NotContainsChar` | app/parser.py:146 | A string holding a character is never a substring of a string without it. |
| `Common.SpaceRunFrom` | app/reporting.py:87 | The end of the whitespace run from a position lies between that position and the end of the text. |
| `Common.SpaceRunFromSpec` | app/reporting.py:87 | A forward whitespace run holds only whitespace and stops at a non-space or at the end. |
| `Common.SpaceRunBack` | app/reporting.py:87 | The start of the whitespace run before a position lies at or before it. |
| `Common.SpaceRunBackSpec` | app/reporting.py:87 | A backward whitespace run holds only whitespace and stops after a non-space or at the start. |
| `Common.TrimStartSpec` | app/reporting.py:87 | `lstrip` removes only a whitespace prefix and leaves a suffix that does not start with whitespace. |
| `Common.TrimEndSpec` | app/reporting.py:87 | `rstrip` removes only a whitespace suffix and leaves a prefix that does not end with whitespace. |
| `Common.JoinStartsWithFirst` | app/parser.py:105 | A join begins with its first part. |
| `Common.Lower` | app/parser.py:157 | Same length; every ASCII capital becomes its small letter, everything else is kept. |
| `Common.Upper` | app/parser.py:157 | Same length; every ASCII small letter becomes its capital, everything else is kept. The source never upper-cases; this exists only to state `Parser.CaptureTestIgnoresCase`. |
| `Common.LowerOfUpper` | app/parser.py:157 | Lower-casing forgets an earlier upper-casing. |
| `Common.LineEndFrom` | app/reporting.py:79 | The next line break at or after a position lies between that position and the end of the text. |
| `Common.LineEndFromSpec` | app/reporting.py:79 | No line break lies before the index found, and a line break lies at it unless it is the end. |
| `Common.NextLine` | app/reporting.py:79 | The next line starts after the break; "\r\n" is one break. |
| `Common.SplitLinesFrom` | app/reporting.py:79 | The lines of a suffix are empty exactly when the suffix is. |
| `Common.SplitLinesFromUnfold` | app/reporting.py:79 | The lines are the text up to the first break, then the lines after it; text without a break is one line. |
| `Common.SplitLines` | app/reporting.py:79 | The empty text has no lines and any other text has some. |
| `Common.SplitLinesFromNoBreaks` | app/reporting.py:79 | No line of a suffix holds a line break. |
| `Common.SplitLinesNoBreaks` | app/reporting.py:79 | No line holds a line break. |
| `Common.JoinCons` | app/parser.py:117 | Joining a first part before other parts puts the separator between the first part and the join of the rest. |
| `Common.JoinAtNewline` | app/parser.py:117 | A line, a "\n" and the joined rest give the text from the line onwards back. |
| `Common.SplitLinesFromJoin` | app/parser.py:117 | For text with only "\n" breaks and no final "\n", joining the lines of any suffix with "\n" gives the suffix back. |
| `Common.SplitLinesJoin` | app/parser.py:117 | For text with only "\n" breaks and no final "\n", joining its lines with "\n" gives the text back. |
| `Common.NatToString` | app/reporting.py:130 | `str(n)` is non-empty and all digits. |
| `Common.NatToStringValue` | app/reporting.py:130 | `str(n)` reads back as n, has no leading zero for n > 0, and is "0" for 0. |
| `Enrichment.FirstMatch` | app/enrichment.py:9-14 | The result is "Unknown" or one of the table's labels. |
| `Enrichment.FirstMatchAt` | app/enrichment.py:11-13 | The label of entry k is returned when the score reaches entry k and no earlier threshold. |
| `Enrichment.FirstMatchNone` | app/enrichment.py:11-14 | For a table without an "Unknown" label, "Unknown" comes back iff the score is below every threshold. |
| `Enrichment.FirstMatchMonotone` | app/enrichment.py:11-13 | Over a descending table, a higher score never gets a less severe label. |
| `Enrichment.ThresholdsDescending` | app/enrichment.py:3-7 | Every table falls strictly in threshold and in severity. |
| `Enrichment.ClassifyMonotone` | app/enrichment.py:3-13 | For each type, `classify_score` is monotone in the score. |
| `Enrichment.FirstMatchThree` | app/enrichment.py:11-14 | A High/Medium/Low table gives the first band the score reaches, else "Unknown". |
| `Enrichment.ClassifyBands` | app/enrichment.py:3-7 | The bands: ip 90/60/30, domain 85/55/25, url 80/50/20. |
| `Enrichment.IpBoundaries` | app/enrichment.py:4 | For ip: 90 is High, 89 Medium, 30 Low, 29 Unknown. |
| `Enrichment.UnlistedKindUnknown` | app/enrichment.py:10-14 | A type missing from the table always classifies as "Unknown". |
| `Enrichment.ClassifyLabels` | app/enrichment.py:9-14 | Every level is High, Medium, Low or Unknown. |
| `Enrichment.EnrichIndicators` | app/enrichment.py:16-33 | One record per item, in order. Each record has: the type (default "unknown"); the value (default "N/A") as indicator; details "Simulated enrichment details for " + value; the given score, in [10, 100]; and `classify_score` of the score and type as level. |
| `Reporting.Latin1Safe` | app/reporting.py:63 | Same length; every character above 255 becomes '?', all others are kept. |
| `Reporting.Latin1SafeProperties` | app/reporting.py:85 | The result is latin-1, sanitising twice equals sanitising once, and a latin-1 string is left as it is. |
| `Reporting.Capitalize` | app/reporting.py:128 | Same length; the first character is upper-cased and the rest lower-cased. |
| `Reporting.CapitalizeIdempotent` | app/reporting.py:128 | Capitalizing twice equals capitalizing once. |
| `Reporting.CapitalizeLevels` | app/reporting.py:131 | "high" and "HIGH" become "High", "ip" becomes "Ip", "N/A" becomes "N/a". |
| `Reporting.Basename` | app/reporting.py:57 | The base name holds no '/', ends the path, and is preceded by '/' when shorter than the path. |
| `Reporting.ReplaceDots` | app/reporting.py:151 | Same length, no '.' left, every '.' is now '_', and nothing else changes. |
| `Reporting.OutputPathShape` | app/reporting.py:151 | The path is "/tmp/" + the base name with dots made underscores + "_report.pdf". It is 16 characters longer than the base name, and its middle holds no '/' and no '.'. |
| `Reporting.BasenameAfterSlash` | app/reporting.py:151 | The base name of dir + "/" + name is name. |
| `Reporting.OutputPathIgnoresDirectory` | app/reporting.py:151 | Files with the same last segment get the same report path. |
| `Reporting.BasenameOfPlain` | app/reporting.py:151 | A name without '/' is its own base name. |
| `Reporting.OrderRows` | app/reporting.py:112-121 | If every lower-cased level (default "unknown") is one of the four keys, returns the high, medium, low, unknown buckets in order. Otherwise fails with the first unknown key, like the KeyError. |
| `Reporting.BucketStep` | app/reporting.py:113-114 | One more item is appended to its own bucket and to no other. |
| `Reporting.KnownLevelsStep` | app/reporting.py:113-114 | A known key on the next item keeps every key seen so far known. |
| `Reporting.BucketKeys` | app/reporting.py:113-114 | A bucket holds only items with its key, taken from the input. |
| `Reporting.BucketAppend` | app/reporting.py:113-114 | Bucketing keeps input order: the bucket of a + b is the bucket of a followed by the bucket of b. |
| `Reporting.BucketCount` | app/reporting.py:113-114 | A bucket holds every copy of each item with its key and no other item. |
| `Reporting.PartitionAt` | app/reporting.py:112-114 | With every key known, each item is counted in its own bucket as often as in the input and in no other bucket. |
| `Reporting.BucketsPartition` | app/reporting.py:112-114 | With every key known, the four buckets together are the input as a multiset. |
| `Reporting.OrderedRowsPermutation` | app/reporting.py:112-121 | With every key known, the table rows are a permutation of the enrichments. |
| `Reporting.OrderedRowsLength` | app/reporting.py:117-121 | With every key known, there is exactly one row per enrichment. |
| `Reporting.RowsUpToGrouped` | app/reporting.py:117-121 | The first j buckets hold only keys of the first j levels, in level order. |
| `Reporting.OrderedRowsGrouped` | app/reporting.py:117-121 | All high rows come first, then medium, then low, then unknown. |
| `Reporting.EnrichedLevelsKnown` | app/reporting.py:114 | Records from `enrich_indicators` never hit the KeyError. |
| `Reporting.StripKeepsLatin1` | app/reporting.py:87 | Stripping a latin-1 string leaves it latin-1. |
| `Reporting.LineBlocksDropsOnlyEmpty` | app/reporting.py:87-98 | A summary line gives at most one block, and none iff it is empty. |
| `Reporting.LineBlocksCases` | app/reporting.py:87-98 | The block is a bullet iff the stripped line starts with "* " or "- ", and then holds "- " + the stripped text after the marker. It is a heading iff it is not a bullet, the stripped line ends in ':' and the sanitised line is shorter than 80. It is a paragraph iff it is neither. Headings and paragraphs show the sanitised line. |
| `Reporting.LineBlocksLatin1` | app/reporting.py:85-98 | Every summary text written is latin-1. |
| `Reporting.AllLineBlocksKinds` | app/reporting.py:79-98 | The summary lines give only bullets, headings and paragraphs. |
| `Reporting.RowBlocksKinds` | app/reporting.py:121-137 | One table row per item, and nothing but rows. |
| `Reporting.RenderHeader` | app/reporting.py:43-67 | Title, overview heading, then the sanitised file base name, date and requesting IP. |
| `Reporting.RenderLine` | app/reporting.py:85-98 | The loop body for one summary line gives that line's blocks. |
| `Reporting.RenderLines` | app/reporting.py:79-98 | The summary loop gives the blocks of all lines, in order. |
| `Reporting.RenderSummary` | app/reporting.py:71-99 | The summary section exists iff the answer is non-empty, and holds only its heading, bullets, headings and paragraphs. |
| `Reporting.RenderRows` | app/reporting.py:121-137 | One row per item in the given order, with capitalized type and level and sanitised cells. |
| `Reporting.RenderIndicators` | app/reporting.py:101-142 | Fails iff there are enrichments and one has an unknown level. Otherwise gives the indicator section, with two blocks more than there are enrichments when there are any. |
| `Reporting.HeaderShape` | app/reporting.py:43-67 | The header holds no summary heading, no table header and no notice. |
| `Reporting.SummaryShape` | app/reporting.py:71-99 | The summary heading appears iff the answer is non-empty; the summary holds no table header and no notice. |
| `Reporting.IndicatorsWithoutItems` | app/reporting.py:140-142 | With no enrichments the section is its heading and the "No threat indicators…" notice. |
| `Reporting.IndicatorsRendered` | app/reporting.py:102-139 | With enrichments whose levels are all known, the section is its heading, the table header and one drawn row per enrichment in bucket order. |
| `Reporting.TableShape` | app/reporting.py:108-137 | A table holds its header, rows, and no notice or section heading. |
| `Reporting.IndicatorsWithItems` | app/reporting.py:108-139 | With enrichments the section has the table header and no notice. |
| `Reporting.IndicatorShape` | app/reporting.py:108-142 | The notice appears iff there are no enrichments, and the table header iff there are some. |
| `Reporting.ReportSections` | app/reporting.py:43-142 | In the whole report: the summary section appears iff the answer is non-empty, the notice iff there are no enrichments, and the table iff there are some. |
| `Reporting.GenerateReport` | app/reporting.py:14-153 | Fails exactly on an unknown level. Otherwise the path is the output-path rule, and the blocks are header, summary and indicator section in that order. |

## Left out

- tshark itself: `shutil.which`, `subprocess.run` and `json.loads` (app/parser.py:7-14, 33-40) are external. Their result is the `TsharkOutcome` input, including the error text of an unexpected exception.
- The shape of the decoded JSON: a packet whose `_source`/`layers` is missing has no layers. Fields that tshark emits as lists, and non-string values, are not modelled: every field is an optional string.
- The file read of `parse_log` (UTF-8, undecodable bytes ignored, app/parser.py:129-130): the text is an input.
- The IP and hostname regular expressions (app/parser.py:133, 135) and their `\b` rules: their matches are input sequences. Only the URL pattern and the dotted-quad test are specified.
- Parser.IsDottedQuad: `\d` is ASCII digits only; Python also accepts other Unicode decimal digits.
- Common.Lower: ASCII letters only; Python's `lower` also maps non-ASCII letters.
- Common.Upper: ASCII letters only, for the same reason.
- Reporting.Capitalize: ASCII letters only; Python's `capitalize` also maps non-ASCII letters and uses title case for the first character.
- Reporting.Basename: '/' is the only separator, as on POSIX.
- The order of records within one kind: Python's set order is arbitrary, so the contracts say each value appears once, not where.
- `random.randint` (app/enrichment.py:23): the scores are an input.
- `datetime.now().strftime(...)` (app/reporting.py:58): the formatted date is an input.
- All FPDF drawing: fonts, `format_options`, cell widths, borders, fills and `THREAT_COLORS`, cursor movement, the page-break checks (app/reporting.py:81-82, 122-125) and the page-number footer (146-149). Writing the PDF file (152) is also left out; the report is a sequence of text blocks and its path.
- Score cells: the score of a report item is an optional integer. Other Python values passed through `str()` are not modelled.
- app/main_app.py, app/llm.py, app/prompts.py and pcap_to_json_converter.py are not part of this model. They are UI, a network call to the language model, an unused template and a conversion script.
