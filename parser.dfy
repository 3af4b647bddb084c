/** Indicator extraction (app/parser.py): the walk over the packets that
    tshark has already decoded, the log-text extractor and the dispatch on the
    file name. tshark itself, the file read and the IP and hostname regular
    expressions are inputs; the URL regular expression is a small scanner. */
module Parser {
  import opened Common

  const IP_KIND := "ip"
  const DOMAIN_KIND := "domain"
  const URL_KIND := "url"

  /** One `{"type": ..., "value": ...}` record. */
  datatype Indicator = Indicator(kind: string, value: string)

  /** The layers of one packet of `tshark -T json` output; a missing layer
      or a missing field is `None`. */
  datatype FrameLayer = FrameLayer(time: Option<string>, number: Option<string>, protocols: Option<string>)
  datatype IpLayer = IpLayer(src: Option<string>, dst: Option<string>)
  datatype DnsLayer = DnsLayer(queryName: Option<string>, answer: Option<string>)
  datatype HttpLayer = HttpLayer(host: Option<string>, requestUri: Option<string>)
  datatype Packet = Packet(frame: Option<FrameLayer>, ip: Option<IpLayer>, dns: Option<DnsLayer>, http: Option<HttpLayer>)

  /** What running tshark and decoding its JSON produced. */
  datatype TsharkOutcome =
    | TsharkMissing                     // `shutil.which('tshark')` found nothing
    | CommandNotFound                   // FileNotFoundError from subprocess.run
    | ProcessFailed(stderr: string)     // CalledProcessError: non-zero exit status
    | InvalidJson                       // JSONDecodeError
    | UnexpectedError(detail: string)   // any other exception, as `str(e)`
    | Decoded(packets: seq<Packet>)

  const TSHARK_MISSING_MESSAGE := "Error: tshark is not installed or not in the system's PATH. Please install it to analyze pcap files."
  const COMMAND_NOT_FOUND_MESSAGE := "Error: tshark command not found. Please ensure it is installed and in your PATH."
  const PROCESS_FAILED_PREFIX := "Error running tshark. The file might be corrupted or in an unsupported format.\nDetails: "
  const INVALID_JSON_MESSAGE := "Error: tshark produced invalid JSON. The pcap file might be empty or corrupted."
  const UNEXPECTED_PREFIX := "An unexpected error occurred during pcap parsing: "
  const NO_PACKETS_MESSAGE := "No processable packets with IP layers " + "were found in the PCAP file."

  // ---------------------------------------------------------------------
  // Dotted quads

  /** End of the run of ASCII digits that starts at `i` and stops at `e`
      at the latest. */
  function DigitEnd(s: string, i: nat, e: nat): (k: nat)
    requires i <= e <= |s|
    ensures i <= k <= e
    decreases e - i
  {
    if i < e && IsDigit(s[i]) then DigitEnd(s, i + 1, e) else i
  }

  lemma {:induction false} DigitEndSpec(s: string, i: nat, e: nat)
    requires i <= e <= |s|
    ensures forall j :: i <= j < DigitEnd(s, i, e) ==> IsDigit(s[j])
    ensures DigitEnd(s, i, e) < e ==> !IsDigit(s[DigitEnd(s, i, e)])
    decreases e - i
  {
    if i < e && IsDigit(s[i]) {
      DigitEndSpec(s, i + 1, e);
    }
  }

  /** A block of digits ending at `k`, where a non-digit or the end `e`
      follows, is the whole digit run from `i`. */
  lemma {:induction false} DigitEndOfBlock(s: string, i: nat, k: nat, e: nat)
    requires i <= k <= e <= |s|
    requires forall j :: i <= j < k ==> IsDigit(s[j])
    requires k == e || !IsDigit(s[k])
    ensures DigitEnd(s, i, e) == k
    decreases k - i
  {
    if i < k {
      DigitEndOfBlock(s, i + 1, k, e);
    }
  }

  /** `s[i..e]` is exactly `n` groups of one to three digits separated by
      dots. */
  predicate GroupsFrom(s: string, i: nat, e: nat, n: nat)
    requires i <= e <= |s|
    decreases n
  {
    var k := DigitEnd(s, i, e);
    1 <= k - i <= 3 &&
    if n <= 1 then k == e
    else k < e && s[k] == '.' && GroupsFrom(s, k + 1, e, n - 1)
  }

  /** `re.match(r"^\d{1,3}\.\d{1,3}\.\d{1,3}\.\d{1,3}$", s)` succeeds; `$`
      also matches just before one final newline. */
  predicate IsDottedQuad(s: string) {
    GroupsFrom(s, 0, |s|, 4) || (|s| > 0 && s[|s| - 1] == '\n' && GroupsFrom(s, 0, |s| - 1, 4))
  }

  /** Only digits and dots make up a run of digit groups. */
  lemma {:induction false} GroupsChars(s: string, i: nat, e: nat, n: nat)
    requires i <= e <= |s| && GroupsFrom(s, i, e, n)
    ensures forall j :: i <= j < e ==> IsDigit(s[j]) || s[j] == '.'
    decreases n
  {
    DigitEndSpec(s, i, e);
    if n > 1 {
      GroupsChars(s, DigitEnd(s, i, e) + 1, e, n - 1);
    }
  }

  /** A dotted quad holds nothing but digits, dots and at most a final
      newline, so no letter, ':' or '/' can appear in one. */
  lemma DottedQuadChars(s: string)
    requires IsDottedQuad(s)
    ensures forall j :: 0 <= j < |s| ==> IsDigit(s[j]) || s[j] == '.' || (j == |s| - 1 && s[j] == '\n')
  {
    if GroupsFrom(s, 0, |s|, 4) {
      GroupsChars(s, 0, |s|, 4);
    } else {
      GroupsChars(s, 0, |s| - 1, 4);
    }
  }

  /** One to three ASCII digits: one group of the pattern. */
  predicate DigitGroup(d: string) {
    1 <= |d| <= 3 && forall j :: 0 <= j < |d| ==> IsDigit(d[j])
  }

  /** A group `g` placed at `i` and followed by a dot (or by the end `e`) is
      the digit run found there. */
  lemma GroupAt(s: string, i: nat, g: string, e: nat)
    requires DigitGroup(g) && i + |g| <= e <= |s|
    requires forall j :: 0 <= j < |g| ==> s[i + j] == g[j]
    requires i + |g| == e || s[i + |g|] == '.'
    ensures DigitEnd(s, i, e) == i + |g|
  {
    forall j | i <= j < i + |g|
      ensures IsDigit(s[j])
    {
      assert s[i + (j - i)] == g[j - i];
    }
    DigitEndOfBlock(s, i, i + |g|, e);
  }

  /** Four digit runs of one to three digits, each but the last ending at a
      dot, cover `s[i..e]` as four groups. */
  lemma FourGroups(s: string, e: nat, p0: nat, p1: nat, p2: nat, p3: nat)
    requires p0 <= p1 < p2 < p3 < e <= |s|
    requires DigitEnd(s, p0, e) == p1 && 1 <= p1 - p0 <= 3 && s[p1] == '.'
    requires DigitEnd(s, p1 + 1, e) == p2 && 1 <= p2 - p1 - 1 <= 3 && s[p2] == '.'
    requires DigitEnd(s, p2 + 1, e) == p3 && 1 <= p3 - p2 - 1 <= 3 && s[p3] == '.'
    requires DigitEnd(s, p3 + 1, e) == e && 1 <= e - p3 - 1 <= 3
    ensures GroupsFrom(s, p0, e, 4)
  {
    assert GroupsFrom(s, p3 + 1, e, 1);
    assert GroupsFrom(s, p2 + 1, e, 2);
    assert GroupsFrom(s, p1 + 1, e, 3);
  }

  /** Four groups joined by dots make a dotted quad. */
  lemma DottedQuadOfGroups(a: string, b: string, c: string, d: string)
    requires DigitGroup(a) && DigitGroup(b) && DigitGroup(c) && DigitGroup(d)
    ensures IsDottedQuad(a + "." + b + "." + c + "." + d)
    ensures var s := a + "." + b + "." + c + "." + d; GroupsFrom(s, 0, |s|, 4)
  {
    var s := a + "." + b + "." + c + "." + d;
    var p1, p2, p3 := |a|, |a| + 1 + |b|, |a| + |b| + |c| + 2;
    GroupAt(s, 0, a, |s|);
    GroupAt(s, p1 + 1, b, |s|);
    GroupAt(s, p2 + 1, c, |s|);
    GroupAt(s, p3 + 1, d, |s|);
    FourGroups(s, |s|, 0, p1, p2, p3);
  }

  /** `$` also matches before a final newline, so a dotted quad followed by
      "\n" still counts as one. */
  lemma DottedQuadBeforeNewline(s: string)
    requires GroupsFrom(s, 0, |s|, 4)
    ensures IsDottedQuad(s + "\n")
  {
    GroupsPrefix(s, "\n", 0, 4);
  }

  /** Appending text after the end `e` does not change what `s[i..e]` is. */
  lemma {:induction false} GroupsPrefix(s: string, t: string, i: nat, n: nat)
    requires i <= |s| && GroupsFrom(s, i, |s|, n)
    ensures GroupsFrom(s + t, i, |s|, n)
    decreases n
  {
    DigitEndPrefix(s, t, i);
    if n > 1 {
      GroupsPrefix(s, t, DigitEnd(s, i, |s|) + 1, n - 1);
    }
  }

  lemma {:induction false} DigitEndPrefix(s: string, t: string, i: nat)
    requires i <= |s|
    ensures DigitEnd(s + t, i, |s|) == DigitEnd(s, i, |s|)
    decreases |s| - i
  {
    if i < |s| {
      assert (s + t)[i] == s[i];
      DigitEndPrefix(s, t, i + 1);
    }
  }

  /** `s` is the groups `a`, `b`, `c`, `d` joined by dots, optionally
      followed by one "\n". */
  predicate QuadOf(s: string, a: string, b: string, c: string, d: string) {
    DigitGroup(a) && DigitGroup(b) && DigitGroup(c) && DigitGroup(d)
    && (s == a + "." + b + "." + c + "." + d || s == a + "." + b + "." + c + "." + d + "\n")
  }

  /** The digit run at `i`, when one to three long, is one group. */
  lemma GroupSlice(s: string, i: nat, e: nat)
    requires i <= e <= |s| && 1 <= DigitEnd(s, i, e) - i <= 3
    ensures DigitGroup(s[i..DigitEnd(s, i, e)])
  {
    DigitEndSpec(s, i, e);
    var g := s[i..DigitEnd(s, i, e)];
    forall j | 0 <= j < |g| ensures IsDigit(g[j]) {
      assert g[j] == s[i + j];
    }
  }

  // PrefixThen and PrefixThenDot are slicing facts for GroupsSplit.

  lemma PrefixThen(s: string, p: nat, q: nat)
    requires p <= q <= |s|
    ensures s[..q] == s[..p] + s[p..q]
  {
  }

  lemma PrefixThenDot(s: string, p: nat)
    requires p < |s| && s[p] == '.'
    ensures s[..p + 1] == s[..p] + "."
  {
  }

  /** Cutting `s[..e]` at three dots. */
  lemma CutAtDots(s: string, e: nat, p1: nat, p2: nat, p3: nat)
    requires p1 < p2 < p3 < e <= |s| && s[p1] == '.' && s[p2] == '.' && s[p3] == '.'
    ensures s[..e] == s[..p1] + "." + s[p1 + 1..p2] + "." + s[p2 + 1..p3] + "." + s[p3 + 1..e]
  {
    PrefixThenDot(s, p1);
    PrefixThen(s, p1 + 1, p2);
    PrefixThenDot(s, p2);
    PrefixThen(s, p2 + 1, p3);
    PrefixThenDot(s, p3);
    PrefixThen(s, p3 + 1, e);
  }

  /** Four groups accepted in `s[..e]` are four digit groups joined by dots. */
  lemma GroupsSplit(s: string, e: nat) returns (a: string, b: string, c: string, d: string)
    requires e <= |s| && GroupsFrom(s, 0, e, 4)
    ensures DigitGroup(a) && DigitGroup(b) && DigitGroup(c) && DigitGroup(d)
    ensures s[..e] == a + "." + b + "." + c + "." + d
  {
    var p1 := DigitEnd(s, 0, e);
    var p2 := DigitEnd(s, p1 + 1, e);
    var p3 := DigitEnd(s, p2 + 1, e);
    GroupSlice(s, 0, e);
    GroupSlice(s, p1 + 1, e);
    GroupSlice(s, p2 + 1, e);
    GroupSlice(s, p3 + 1, e);
    assert s[..p1] == s[0..p1];
    CutAtDots(s, e, p1, p2, p3);
    a, b, c, d := s[..p1], s[p1 + 1..p2], s[p2 + 1..p3], s[p3 + 1..e];
  }

  /** The dotted-quad test accepts exactly four groups of one to three
      ASCII digits joined by dots, optionally followed by one "\n". */
  lemma DottedQuadExact(s: string)
    ensures IsDottedQuad(s) <==> exists a, b, c, d :: QuadOf(s, a, b, c, d)
  {
    if IsDottedQuad(s) {
      if GroupsFrom(s, 0, |s|, 4) {
        var a, b, c, d := GroupsSplit(s, |s|);
        assert s[..|s|] == s;
        assert QuadOf(s, a, b, c, d);
      } else {
        var a, b, c, d := GroupsSplit(s, |s| - 1);
        assert s == s[..|s| - 1] + "\n";
        assert QuadOf(s, a, b, c, d);
      }
    }
    if exists a, b, c, d :: QuadOf(s, a, b, c, d) {
      var a, b, c, d :| QuadOf(s, a, b, c, d);
      var t := a + "." + b + "." + c + "." + d;
      DottedQuadOfGroups(a, b, c, d);
      if s != t {
        DottedQuadBeforeNewline(t);
      }
    }
  }

  lemma DottedQuadRejects()
    ensures !IsDottedQuad("1234.0.0.5")
    ensures !IsDottedQuad("bad.example.com")
  {
    DigitEndOfBlock("1234.0.0.5", 0, 4, 10);
    DigitEndOfBlock("bad.example.com", 0, 0, 15);
  }

  // ---------------------------------------------------------------------
  // The packet walk

  /** A field counts only when present and non-empty (Python truthiness). */
  predicate Truthy(field: Option<string>) {
    field.Some? && field.value != ""
  }

  function FrameHeader(p: Packet): string {
    var frame := p.frame.GetOr(FrameLayer(None, None, None));
    "Frame " + frame.number.GetOr("") + " (" + frame.protocols.GetOr("") + ") at " + frame.time.GetOr("No Timestamp")
  }

  function IpParts(p: Packet): seq<string> {
    if p.ip.Some? && Truthy(p.ip.value.src) && Truthy(p.ip.value.dst)
    then ["IP: " + p.ip.value.src.value + " -> " + p.ip.value.dst.value] else []
  }

  function DnsParts(p: Packet): seq<string> {
    if p.dns.Some? then
      (if Truthy(p.dns.value.queryName) then ["DNS Query: " + p.dns.value.queryName.value] else [])
      + (if p.dns.value.answer.Some? then ["DNS Answer: " + p.dns.value.answer.value] else [])
    else []
  }

  function HttpParts(p: Packet): seq<string> {
    if p.http.Some? then
      (if Truthy(p.http.value.host) then ["HTTP Host: " + p.http.value.host.value] else [])
      + (if Truthy(p.http.value.requestUri) then ["HTTP URI: " + p.http.value.requestUri.value] else [])
    else []
  }

  /** The parts of one summary line, in the order the source appends them. */
  function SummaryParts(p: Packet): seq<string> {
    [FrameHeader(p)] + IpParts(p) + DnsParts(p) + HttpParts(p)
  }

  function SummaryLine(p: Packet): string {
    Join(" | ", SummaryParts(p))
  }

  /** The addresses one packet contributes: both ends of an IP pair, and only
      when both are present and non-empty. */
  function PacketIps(p: Packet): set<string> {
    if p.ip.Some? && Truthy(p.ip.value.src) && Truthy(p.ip.value.dst)
    then {p.ip.value.src.value, p.ip.value.dst.value} else {}
  }

  /** The domain candidates one packet contributes. */
  function PacketDomains(p: Packet): set<string> {
    (if p.dns.Some? && Truthy(p.dns.value.queryName) then {p.dns.value.queryName.value} else {})
    + (if p.http.Some? && Truthy(p.http.value.host) then {p.http.value.host.value} else {})
  }

  function AllIps(packets: seq<Packet>): set<string> {
    if packets == [] then {} else AllIps(packets[..|packets| - 1]) + PacketIps(packets[|packets| - 1])
  }

  function AllDomains(packets: seq<Packet>): set<string> {
    if packets == [] then {} else AllDomains(packets[..|packets| - 1]) + PacketDomains(packets[|packets| - 1])
  }

  /** The summary line of each packet, in packet order. */
  function SummaryLines(packets: seq<Packet>): seq<string> {
    if packets == [] then [] else SummaryLines(packets[..|packets| - 1]) + [SummaryLine(packets[|packets| - 1])]
  }

  lemma {:induction false} SummaryLinesAt(packets: seq<Packet>)
    ensures |SummaryLines(packets)| == |packets|
    ensures forall k :: 0 <= k < |packets| ==> SummaryLines(packets)[k] == SummaryLine(packets[k])
  {
    if packets != [] {
      SummaryLinesAt(packets[..|packets| - 1]);
    }
  }

  /** One more packet adds its own addresses and domain candidates. */
  lemma CollectedStep(packets: seq<Packet>, n: nat)
    requires n < |packets|
    ensures AllIps(packets[..n + 1]) == AllIps(packets[..n]) + PacketIps(packets[n])
    ensures AllDomains(packets[..n + 1]) == AllDomains(packets[..n]) + PacketDomains(packets[n])
    ensures SummaryLines(packets[..n + 1]) == SummaryLines(packets[..n]) + [SummaryLine(packets[n])]
  {
    assert packets[..n + 1][..n] == packets[..n];
  }

  /** An address is collected exactly when some packet has an IP layer whose
      source and destination are both non-empty and it is one of the two. */
  lemma {:induction false} AllIpsSpec(packets: seq<Packet>, v: string)
    ensures v in AllIps(packets) <==>
      exists i :: 0 <= i < |packets| && packets[i].ip.Some?
        && Truthy(packets[i].ip.value.src) && Truthy(packets[i].ip.value.dst)
        && (v == packets[i].ip.value.src.value || v == packets[i].ip.value.dst.value)
  {
    if packets != [] {
      var init := packets[..|packets| - 1];
      AllIpsSpec(init, v);
      forall i | 0 <= i < |init| ensures init[i] == packets[i] { }
    }
  }

  /** A domain is collected exactly when some packet carries it as a
      non-empty DNS query name or a non-empty HTTP host. */
  lemma {:induction false} AllDomainsSpec(packets: seq<Packet>, v: string)
    ensures v in AllDomains(packets) <==>
      exists i :: 0 <= i < |packets| &&
        ((packets[i].dns.Some? && Truthy(packets[i].dns.value.queryName) && v == packets[i].dns.value.queryName.value)
        || (packets[i].http.Some? && Truthy(packets[i].http.value.host) && v == packets[i].http.value.host.value))
  {
    if packets != [] {
      var init := packets[..|packets| - 1];
      AllDomainsSpec(init, v);
      forall i | 0 <= i < |init| ensures init[i] == packets[i] { }
    }
  }

  /** No collected address or domain is the empty string. */
  lemma CollectedValuesNonEmpty(packets: seq<Packet>, v: string)
    requires v in AllIps(packets) || v in AllDomains(packets)
    ensures v != ""
  {
    AllIpsSpec(packets, v);
    AllDomainsSpec(packets, v);
  }

  /** DNS answers and HTTP request URIs show up in the summary line only:
      changing them changes no indicator. */
  lemma AnswerAndUriNotIndicators(p: Packet, answer: Option<string>, uri: Option<string>)
    requires p.dns.Some? && p.http.Some?
    ensures var q := p.(dns := Some(p.dns.value.(answer := answer)), http := Some(p.http.value.(requestUri := uri)));
      PacketIps(q) == PacketIps(p) && PacketDomains(q) == PacketDomains(p)
  {
  }

  /** Every summary line opens with the frame header. */
  lemma SummaryLineStartsWithFrame(p: Packet)
    ensures StartsWith(SummaryLine(p), FrameHeader(p))
    ensures StartsWith(SummaryLine(p), "Frame ")
  {
    JoinStartsWithFirst(" | ", SummaryParts(p));
  }

  /** Records are grouped by kind: every "ip" record comes before every "url"
      record, which comes before every "domain" record. */
  function KindRank(kind: string): nat {
    if kind == IP_KIND then 0 else if kind == URL_KIND then 1 else 2
  }

  predicate GroupedByKind(inds: seq<Indicator>) {
    forall i, j :: 0 <= i < j < |inds| ==> KindRank(inds[i].kind) <= KindRank(inds[j].kind)
  }

  /** What `parse_pcap_with_tshark` returns for a decoded packet list. */
  ghost predicate PcapIndicators(packets: seq<Packet>, inds: seq<Indicator>) {
    && NoDup(inds)
    && GroupedByKind(inds)
    && (forall r :: r in inds ==>
          (r.kind == IP_KIND && r.value in AllIps(packets))
          || (r.kind == DOMAIN_KIND && r.value in AllDomains(packets) && !IsDottedQuad(r.value)))
    && (forall v :: v in AllIps(packets) ==> Indicator(IP_KIND, v) in inds)
    && (forall v :: v in AllDomains(packets) && !IsDottedQuad(v) ==> Indicator(DOMAIN_KIND, v) in inds)
  }

  ghost predicate PcapResult(outcome: TsharkOutcome, summary: string, inds: seq<Indicator>) {
    match outcome
    case TsharkMissing => summary == TSHARK_MISSING_MESSAGE && inds == []
    case CommandNotFound => summary == COMMAND_NOT_FOUND_MESSAGE && inds == []
    case ProcessFailed(stderr) => summary == PROCESS_FAILED_PREFIX + stderr && inds == []
    case InvalidJson => summary == INVALID_JSON_MESSAGE && inds == []
    case UnexpectedError(detail) => summary == UNEXPECTED_PREFIX + detail && inds == []
    case Decoded(packets) =>
      if packets == [] then summary == NO_PACKETS_MESSAGE && inds == []
      else
        && summary == Join("\n", seq(|packets|, i requires 0 <= i < |packets| => SummaryLine(packets[i])))
        && PcapIndicators(packets, inds)
  }

  /** Appends one record of `kind` per element of `values`, in any order,
      as the source's `for v in some_set: indicators.append(...)` loops do. */
  method AppendEach(inds: seq<Indicator>, kind: string, values: set<string>) returns (res: seq<Indicator>)
    requires NoDup(inds) && GroupedByKind(inds)
    requires forall r :: r in inds ==> KindRank(r.kind) <= KindRank(kind) && r.kind != kind
    ensures NoDup(res) && GroupedByKind(res)
    ensures forall r :: r in res <==> r in inds || (r.kind == kind && r.value in values)
  {
    res := inds;
    var rest := values;
    while rest != {}
      invariant rest <= values
      invariant forall r :: r in res <==> r in inds || (r.kind == kind && r.value in values - rest)
      invariant forall r :: r in res ==> KindRank(r.kind) <= KindRank(kind)
      invariant NoDup(res) && GroupedByKind(res)
      decreases rest
    {
      var v :| v in rest;
      res := res + [Indicator(kind, v)];
      rest := rest - {v};
    }
  }

  /** Lines 60-105: one summary line per packet while collecting the
      addresses and domain candidates. */
  method WalkPackets(packets: seq<Packet>) returns (lines: seq<string>, ips: set<string>, domains: set<string>)
    ensures |lines| == |packets|
    ensures forall k :: 0 <= k < |packets| ==> lines[k] == SummaryLine(packets[k])
    ensures ips == AllIps(packets) && domains == AllDomains(packets)
  {
    lines, ips, domains := [], {}, {};
    var n := 0;
    while n < |packets|
      invariant 0 <= n <= |packets|
      invariant |lines| == n
      invariant lines == SummaryLines(packets[..n])
      invariant ips == AllIps(packets[..n])
      invariant domains == AllDomains(packets[..n])
    {
      var line;
      line, ips, domains := SummarizePacket(packets[n], ips, domains);
      lines := lines + [line];
      CollectedStep(packets, n);
      n := n + 1;
    }
    assert packets[..n] == packets;
    SummaryLinesAt(packets);
  }

  /** The body of the packet loop for one packet. */
  method SummarizePacket(p: Packet, ips0: set<string>, domains0: set<string>)
    returns (line: string, ips: set<string>, domains: set<string>)
    ensures line == SummaryLine(p)
    ensures ips == ips0 + PacketIps(p) && domains == domains0 + PacketDomains(p)
  {
    ips, domains := ips0, domains0;
    var frame := p.frame.GetOr(FrameLayer(None, None, None));
    var parts := ["Frame " + frame.number.GetOr("") + " (" + frame.protocols.GetOr("") + ") at " + frame.time.GetOr("No Timestamp")];
    if p.ip.Some? {
      var src := p.ip.value.src;
      var dst := p.ip.value.dst;
      if Truthy(src) && Truthy(dst) {
        ips := ips + {src.value};
        ips := ips + {dst.value};
        parts := parts + ["IP: " + src.value + " -> " + dst.value];
      }
    }
    assert parts == [FrameHeader(p)] + IpParts(p);
    ghost var afterIp := parts;
    if p.dns.Some? {
      var queryName := p.dns.value.queryName;
      if Truthy(queryName) {
        domains := domains + {queryName.value};
        parts := parts + ["DNS Query: " + queryName.value];
      }
      if p.dns.value.answer.Some? {
        parts := parts + ["DNS Answer: " + p.dns.value.answer.value];
      }
    }
    assert parts == afterIp + DnsParts(p);
    ghost var afterDns := parts;
    if p.http.Some? {
      var host := p.http.value.host;
      var requestUri := p.http.value.requestUri;
      if Truthy(host) {
        domains := domains + {host.value};
        parts := parts + ["HTTP Host: " + host.value];
      }
      if Truthy(requestUri) {
        parts := parts + ["HTTP URI: " + requestUri.value];
      }
    }
    assert parts == afterDns + HttpParts(p);
    line := Join(" | ", parts);
  }

  /** Lines 108-114: every address, then every domain that is not a dotted quad. */
  method PcapRecords(ips: set<string>, domains: set<string>) returns (inds: seq<Indicator>)
    ensures NoDup(inds) && GroupedByKind(inds)
    ensures forall r :: r in inds <==>
      (r.kind == IP_KIND && r.value in ips) || (r.kind == DOMAIN_KIND && r.value in domains && !IsDottedQuad(r.value))
  {
    inds := AppendEach([], IP_KIND, ips);
    var rest := domains;
    while rest != {}
      invariant rest <= domains
      invariant forall r :: r in inds <==>
        (r.kind == IP_KIND && r.value in ips)
        || (r.kind == DOMAIN_KIND && r.value in domains - rest && !IsDottedQuad(r.value))
      invariant NoDup(inds) && GroupedByKind(inds)
      decreases rest
    {
      var domain :| domain in rest;
      if !IsDottedQuad(domain) {
        inds := inds + [Indicator(DOMAIN_KIND, domain)];
      }
      rest := rest - {domain};
    }
  }

  /** `parse_pcap_with_tshark` after tshark has run: one summary line per
      packet, each distinct address once, each distinct non-dotted-quad
      domain once; every failure carries its message and no indicators. */
  method ParsePcap(outcome: TsharkOutcome) returns (summary: string, inds: seq<Indicator>)
    ensures PcapResult(outcome, summary, inds)
    ensures outcome.Decoded? ==> (summary == NO_PACKETS_MESSAGE <==> outcome.packets == [])
  {
    match outcome {
      case TsharkMissing => return TSHARK_MISSING_MESSAGE, [];
      case CommandNotFound => return COMMAND_NOT_FOUND_MESSAGE, [];
      case ProcessFailed(stderr) => return PROCESS_FAILED_PREFIX + stderr, [];
      case InvalidJson => return INVALID_JSON_MESSAGE, [];
      case UnexpectedError(detail) => return UNEXPECTED_PREFIX + detail, [];
      case Decoded(packets) =>
        var lines, ips, domains := WalkPackets(packets);
        inds := PcapRecords(ips, domains);
        summary := Join("\n", lines);
        if packets != [] {
          assert lines == seq(|packets|, i requires 0 <= i < |packets| => SummaryLine(packets[i]));
          JoinStartsWithFirst("\n", lines);
          SummaryLineStartsWithFrame(packets[0]);
          assert summary[0] == 'F';
          assert NO_PACKETS_MESSAGE[0] == 'N';
        }
        if summary == "" {
          return NO_PACKETS_MESSAGE, [];
        }
    }
  }

  // ---------------------------------------------------------------------
  // The log extractor

  predicate IsUrlStop(c: char) {
    IsSpace(c) || c == '"' || c == '\''
  }

  /** End of the run of characters that `[^\s"']` accepts, from `i`. */
  function UrlBodyEnd(s: string, i: nat): (k: nat)
    requires i <= |s|
    ensures i <= k <= |s|
    decreases |s| - i
  {
    if i < |s| && !IsUrlStop(s[i]) then UrlBodyEnd(s, i + 1) else i
  }

  lemma {:induction false} UrlBodyEndSpec(s: string, i: nat)
    requires i <= |s|
    ensures forall j :: i <= j < UrlBodyEnd(s, i) ==> !IsUrlStop(s[j])
    ensures UrlBodyEnd(s, i) < |s| ==> IsUrlStop(s[UrlBodyEnd(s, i)])
    decreases |s| - i
  {
    if i < |s| && !IsUrlStop(s[i]) {
      UrlBodyEndSpec(s, i + 1);
    }
  }

  /** Length of the `https?://` at `p`: "https://" is tried first. */
  function SchemeAt(s: string, p: nat): (n: nat)
    requires p <= |s|
    ensures p + n <= |s|
  {
    if OccursAt(s, "https://", p) then 8 else if OccursAt(s, "http://", p) then 7 else 0
  }

  /** Length of the match of `https?://[^\s"']+` at `p`, or 0. */
  function UrlMatchAt(s: string, p: nat): (m: nat)
    requires p <= |s|
    ensures p + m <= |s|
  {
    var scheme := SchemeAt(s, p);
    if scheme == 0 then 0
    else
      var e := UrlBodyEnd(s, p + scheme);
      if e == p + scheme then 0 else e - p
  }

  /** What a match of the URL pattern looks like. */
  predicate UrlShaped(u: string) {
    (StartsWith(u, "https://") || StartsWith(u, "http://"))
    && (forall j :: 4 <= j < |u| ==> !IsUrlStop(u[j]))
    && |u| > 7
  }

  /** A match is the scheme followed by a maximal non-empty run of
      characters other than whitespace and quotes. */
  lemma UrlMatchShape(s: string, p: nat)
    requires p <= |s| && UrlMatchAt(s, p) > 0
    ensures UrlShaped(s[p..p + UrlMatchAt(s, p)])
    ensures Contains(s, s[p..p + UrlMatchAt(s, p)])
    ensures p + UrlMatchAt(s, p) < |s| ==> IsUrlStop(s[p + UrlMatchAt(s, p)])
  {
    var scheme := SchemeAt(s, p);
    var n := UrlMatchAt(s, p);
    UrlBodyEndSpec(s, p + scheme);
    var u := s[p..p + n];
    assert OccursAt(s, u, p);
    var pre := if scheme == 8 then "https://" else "http://";
    assert s[p..p + scheme] == pre;
    assert u[..scheme] == pre;
    assert forall j :: 0 <= j < n ==> u[j] == s[p + j];
    forall j | 4 <= j < |u| ensures !IsUrlStop(u[j]) {
      if j < scheme {
        assert u[j] == pre[j];
      }
    }
  }

  /** `re.findall(r"https?://[^\s\"']+", s[i..])`: scan left to right and
      resume after each match. */
  function FindUrlsFrom(s: string, i: nat): (urls: seq<string>)
    requires i <= |s|
    decreases |s| - i
  {
    if i == |s| then []
    else
      var m := UrlMatchAt(s, i);
      if m == 0 then FindUrlsFrom(s, i + 1)
      else [s[i..i + m]] + FindUrlsFrom(s, i + m)
  }

  function FindUrls(content: string): seq<string> {
    FindUrlsFrom(content, 0)
  }

  /** Every URL found has the shape of a match and occurs in the text. */
  lemma {:induction false} FindUrlsFromSpec(s: string, i: nat)
    requires i <= |s|
    ensures forall u :: u in FindUrlsFrom(s, i) ==> UrlShaped(u) && Contains(s, u)
    decreases |s| - i
  {
    if i < |s| {
      var m := UrlMatchAt(s, i);
      if m == 0 {
        FindUrlsFromSpec(s, i + 1);
      } else {
        FindUrlsFromSpec(s, i + m);
        UrlMatchShape(s, i);
      }
    }
  }

  lemma FindUrlsSpec(content: string)
    ensures forall u :: u in FindUrls(content) ==> UrlShaped(u) && Contains(content, u)
  {
    FindUrlsFromSpec(content, 0);
  }

  /** With no match of the pattern at or after `i`, nothing is found. */
  lemma {:induction false} FindUrlsNone(s: string, i: nat)
    requires i <= |s|
    requires forall p :: i <= p < |s| ==> UrlMatchAt(s, p) == 0
    ensures FindUrlsFrom(s, i) == []
    decreases |s| - i
  {
    if i < |s| {
      FindUrlsNone(s, i + 1);
    }
  }

  /** The first position at or after `i` where the pattern matches gives the
      first URL found, and the scan resumes right after that match. */
  lemma {:induction false} FindUrlsFirst(s: string, i: nat, j: nat)
    requires i <= j < |s| && UrlMatchAt(s, j) > 0
    requires forall p :: i <= p < j ==> UrlMatchAt(s, p) == 0
    ensures FindUrlsFrom(s, i) == [s[j..j + UrlMatchAt(s, j)]] + FindUrlsFrom(s, j + UrlMatchAt(s, j))
    decreases j - i
  {
    if i < j {
      FindUrlsFirst(s, i + 1, j);
    }
  }

  /** The domain filter of `parse_log` as written: not a dotted quad, holds a
      dot, and no extracted URL is a substring of it. */
  predicate KeepLogDomain(domain: string, urls: seq<string>) {
    !IsDottedQuad(domain) && '.' in domain && !(exists u :: u in urls && Contains(domain, u))
  }

  /** Every URL holds "://", so the substring test can only drop a domain
      that itself holds ':'; the hostname pattern never matches one. */
  lemma CrossFilterOnlyOnColon(content: string, domain: string)
    requires ':' !in domain
    ensures KeepLogDomain(domain, FindUrls(content)) <==> !IsDottedQuad(domain) && '.' in domain
  {
    var urls := FindUrls(content);
    FindUrlsSpec(content);
    forall u | u in urls ensures !Contains(domain, u) {
      assert UrlShaped(u);
      assert u[4] == ':' || u[5] == ':';
      NotContainsChar(domain, u, ':');
    }
  }

  /** The host of an extracted URL is still reported as a domain. */
  lemma UrlHostStillReported(content: string)
    ensures KeepLogDomain("bad.example.com", FindUrls(content))
  {
    assert "bad.example.com"[3] == '.';
    DigitEndOfBlock("bad.example.com", 0, 0, 15);
    CrossFilterOnlyOnColon(content, "bad.example.com");
  }

  /** What `parse_log` returns for file text `content`, given the matches of
      the IP and hostname patterns. */
  ghost predicate LogResult(content: string, ipMatches: seq<string>, domainMatches: seq<string>,
                            text: string, inds: seq<Indicator>) {
    var urls := FindUrls(content);
    && text == content
    && NoDup(inds)
    && GroupedByKind(inds)
    && (forall r :: r in inds ==>
          (r.kind == IP_KIND && r.value in ipMatches)
          || (r.kind == URL_KIND && r.value in urls)
          || (r.kind == DOMAIN_KIND && r.value in domainMatches && KeepLogDomain(r.value, urls)))
    && (forall v :: v in ipMatches ==> Indicator(IP_KIND, v) in inds)
    && (forall v :: v in urls ==> Indicator(URL_KIND, v) in inds)
    && (forall v :: v in domainMatches && KeepLogDomain(v, urls) ==> Indicator(DOMAIN_KIND, v) in inds)
  }

  /** `parse_log` once the file is read: the content unchanged, every
      distinct IP, URL and kept domain match exactly once. */
  method ParseLog(content: string, ipMatches: seq<string>, domainMatches: seq<string>)
    returns (text: string, inds: seq<Indicator>)
    ensures LogResult(content, ipMatches, domainMatches, text, inds)
  {
    var urls := FindUrls(content);
    inds := AppendEach([], IP_KIND, set ip | ip in ipMatches :: ip);
    inds := AppendEach(inds, URL_KIND, set url | url in urls :: url);
    inds := AppendLogDomains(inds, set domain | domain in domainMatches :: domain, urls);
    text := content;
  }

  /** Lines 143-147: the distinct hostname matches that pass the filter. */
  method AppendLogDomains(inds0: seq<Indicator>, domains: set<string>, urls: seq<string>) returns (inds: seq<Indicator>)
    requires NoDup(inds0) && GroupedByKind(inds0)
    requires forall r :: r in inds0 ==> r.kind != DOMAIN_KIND
    ensures NoDup(inds) && GroupedByKind(inds)
    ensures forall r :: r in inds <==> r in inds0 || (r.kind == DOMAIN_KIND && r.value in domains && KeepLogDomain(r.value, urls))
  {
    inds := inds0;
    var rest := domains;
    while rest != {}
      invariant rest <= domains
      invariant forall r :: r in inds <==>
        r in inds0 || (r.kind == DOMAIN_KIND && r.value in domains - rest && KeepLogDomain(r.value, urls))
      invariant NoDup(inds) && GroupedByKind(inds)
      decreases rest
    {
      var domain :| domain in rest;
      if !IsDottedQuad(domain) && '.' in domain {
        if !(exists url :: url in urls && Contains(domain, url)) {
          inds := inds + [Indicator(DOMAIN_KIND, domain)];
        }
      }
      rest := rest - {domain};
    }
  }

  // ---------------------------------------------------------------------
  // Dispatch

  /** `filepath.lower().endswith(('.pcap', '.pcapng'))` */
  predicate IsCaptureFile(path: string) {
    EndsWith(Lower(path), ".pcap") || EndsWith(Lower(path), ".pcapng")
  }

  /** The extension test ignores letter case. */
  lemma CaptureTestIgnoresCase(path: string)
    ensures IsCaptureFile(Upper(path)) <==> IsCaptureFile(path)
  {
    LowerOfUpper(path);
  }

  /** `parse_file`: capture files go to the tshark parser, everything else to
      the log parser. The tshark run, the file text and the regex matches are
      supplied by the caller. */
  method ParseFile(path: string, tshark: TsharkOutcome, content: string,
                   ipMatches: seq<string>, domainMatches: seq<string>)
    returns (text: string, inds: seq<Indicator>)
    ensures IsCaptureFile(path) ==> PcapResult(tshark, text, inds)
    ensures !IsCaptureFile(path) ==> LogResult(content, ipMatches, domainMatches, text, inds)
  {
    if IsCaptureFile(path) {
      text, inds := ParsePcap(tshark);
    } else {
      text, inds := ParseLog(content, ipMatches, domainMatches);
    }
  }
}
