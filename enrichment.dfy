/** Threat-level classification and enrichment (app/enrichment.py). The
    random score of the source is an input here. */
module Enrichment {
  import opened Common

  const HIGH := "High"
  const MEDIUM := "Medium"
  const LOW := "Low"
  const UNKNOWN := "Unknown"

  /** `THREAT_SCORES`: per indicator type, `(threshold, label)` pairs from
      the highest threshold down. */
  const THREAT_SCORES: map<string, seq<(int, string)>> := map[
    "ip" := [(90, HIGH), (60, MEDIUM), (30, LOW)],
    "domain" := [(85, HIGH), (55, MEDIUM), (25, LOW)],
    "url" := [(80, HIGH), (50, MEDIUM), (20, LOW)]
  ]

  /** `THREAT_SCORES.get(type_, [])` */
  function Thresholds(kind: string): seq<(int, string)> {
    if kind in THREAT_SCORES then THREAT_SCORES[kind] else []
  }

  /** The label of the first entry whose threshold `score` reaches, or
      "Unknown" when none does. */
  function FirstMatch(table: seq<(int, string)>, score: int): (level: string)
    ensures level == UNKNOWN || exists i :: 0 <= i < |table| && level == table[i].1
  {
    if table == [] then UNKNOWN
    else if score >= table[0].0 then table[0].1
    else FirstMatch(table[1..], score)
  }

  /** `classify_score(score, type_)` */
  function ClassifyScore(score: int, kind: string): string {
    FirstMatch(Thresholds(kind), score)
  }

  /** The first entry reached decides: the label at index `k` is returned
      exactly when the score reaches `table[k]` and none before it. */
  lemma {:induction false} FirstMatchAt(table: seq<(int, string)>, score: int, k: nat)
    requires k < |table| && score >= table[k].0
    requires forall j :: 0 <= j < k ==> score < table[j].0
    ensures FirstMatch(table, score) == table[k].1
  {
    if k > 0 {
      FirstMatchAt(table[1..], score, k - 1);
    }
  }

  /** "Unknown" comes back from a table without an "Unknown" label exactly
      when the score is below every threshold. */
  lemma {:induction false} FirstMatchNone(table: seq<(int, string)>, score: int)
    requires forall j :: 0 <= j < |table| ==> table[j].1 != UNKNOWN
    ensures FirstMatch(table, score) == UNKNOWN <==> forall j :: 0 <= j < |table| ==> score < table[j].0
  {
    if table != [] {
      FirstMatchNone(table[1..], score);
      assert forall j :: 1 <= j < |table| ==> table[j] == table[1..][j - 1];
    }
  }

  /** How severe a label is: High 3, Medium 2, Low 1, anything else 0. */
  function Severity(level: string): nat {
    if level == HIGH then 3 else if level == MEDIUM then 2 else if level == LOW then 1 else 0
  }

  /** Thresholds strictly fall and severities strictly fall along the table,
      and every label is more severe than "Unknown". */
  ghost predicate Descending(table: seq<(int, string)>) {
    (forall i, j :: 0 <= i < j < |table| ==> table[i].0 > table[j].0 && Severity(table[i].1) > Severity(table[j].1))
    && forall i :: 0 <= i < |table| ==> Severity(table[i].1) > 0
  }

  /** Over a descending table a higher score never gets a less severe label. */
  lemma {:induction false} FirstMatchMonotone(table: seq<(int, string)>, lo: int, hi: int)
    requires Descending(table) && lo <= hi
    ensures Severity(FirstMatch(table, lo)) <= Severity(FirstMatch(table, hi))
  {
    if table != [] && hi < table[0].0 {
      FirstMatchMonotone(table[1..], lo, hi);
    } else if table != [] {
      var r := FirstMatch(table, lo);
      if r != UNKNOWN {
        var i :| 0 <= i < |table| && r == table[i].1;
        assert Severity(r) <= Severity(table[0].1);
      }
    }
  }

  lemma ThresholdsDescending(kind: string)
    ensures Descending(Thresholds(kind))
  {
  }

  /** `classify_score` is monotone in the score for every indicator type. */
  lemma ClassifyMonotone(kind: string, lo: int, hi: int)
    requires lo <= hi
    ensures Severity(ClassifyScore(lo, kind)) <= Severity(ClassifyScore(hi, kind))
  {
    ThresholdsDescending(kind);
    FirstMatchMonotone(Thresholds(kind), lo, hi);
  }

  /** A High/Medium/Low table read from the top. */
  lemma FirstMatchThree(high: int, medium: int, low: int, score: int)
    ensures FirstMatch([(high, HIGH), (medium, MEDIUM), (low, LOW)], score) ==
      if score >= high then HIGH else if score >= medium then MEDIUM else if score >= low then LOW else UNKNOWN
  {
    var t := [(high, HIGH), (medium, MEDIUM), (low, LOW)];
    assert t[1..] == [(medium, MEDIUM), (low, LOW)];
    assert t[1..][1..] == [(low, LOW)];
    assert t[1..][1..][1..] == [];
    assert FirstMatch(t[1..][1..], score) == if score >= low then LOW else UNKNOWN;
    assert FirstMatch(t[1..], score) == if score >= medium then MEDIUM else FirstMatch(t[1..][1..], score);
  }

  /** The three bands of each type, written out. */
  lemma ClassifyBands(score: int)
    ensures ClassifyScore(score, "ip") ==
      if score >= 90 then HIGH else if score >= 60 then MEDIUM else if score >= 30 then LOW else UNKNOWN
    ensures ClassifyScore(score, "domain") ==
      if score >= 85 then HIGH else if score >= 55 then MEDIUM else if score >= 25 then LOW else UNKNOWN
    ensures ClassifyScore(score, "url") ==
      if score >= 80 then HIGH else if score >= 50 then MEDIUM else if score >= 20 then LOW else UNKNOWN
  {
    assert Thresholds("ip") == [(90, HIGH), (60, MEDIUM), (30, LOW)];
    assert Thresholds("domain") == [(85, HIGH), (55, MEDIUM), (25, LOW)];
    assert Thresholds("url") == [(80, HIGH), (50, MEDIUM), (20, LOW)];
    FirstMatchThree(90, 60, 30, score);
    FirstMatchThree(85, 55, 25, score);
    FirstMatchThree(80, 50, 20, score);
  }

  /** The boundary values of the "ip" table. */
  lemma IpBoundaries()
    ensures ClassifyScore(90, "ip") == HIGH && ClassifyScore(89, "ip") == MEDIUM
    ensures ClassifyScore(30, "ip") == LOW && ClassifyScore(29, "ip") == UNKNOWN
  {
    ClassifyBands(90);
    ClassifyBands(89);
    ClassifyBands(30);
    ClassifyBands(29);
  }

  /** A type without a table, such as "unknown", is always "Unknown". */
  lemma UnlistedKindUnknown(kind: string, score: int)
    requires kind !in THREAT_SCORES
    ensures ClassifyScore(score, kind) == UNKNOWN
  {
  }

  /** Every label is one of the four levels. */
  lemma ClassifyLabels(score: int, kind: string)
    ensures ClassifyScore(score, kind) in {HIGH, MEDIUM, LOW, UNKNOWN}
  {
    var r := ClassifyScore(score, kind);
    if r != UNKNOWN {
      var i :| 0 <= i < |Thresholds(kind)| && r == Thresholds(kind)[i].1;
    }
  }

  /** An indicator dictionary as `enrich_indicators` reads it: either key may
      be missing. */
  datatype Item = Item(kind: Option<string>, value: Option<string>)

  /** One enriched record. */
  datatype Enriched = Enriched(kind: string, indicator: string, details: string, score: int, level: string)

  const DETAILS_PREFIX := "Simulated enrichment details for "

  /** `enrich_indicators`, with `scores[i]` standing for the
      `random.randint(10, 100)` drawn for the i-th item. */
  method EnrichIndicators(items: seq<Item>, scores: seq<int>) returns (enriched: seq<Enriched>)
    requires |scores| == |items|
    requires forall i :: 0 <= i < |scores| ==> 10 <= scores[i] <= 100
    ensures |enriched| == |items|
    ensures forall i :: 0 <= i < |items| ==>
      && enriched[i].kind == items[i].kind.GetOr("unknown")
      && enriched[i].indicator == items[i].value.GetOr("N/A")
      && enriched[i].details == DETAILS_PREFIX + items[i].value.GetOr("N/A")
      && enriched[i].score == scores[i]
      && 10 <= enriched[i].score <= 100
      && enriched[i].level == ClassifyScore(scores[i], enriched[i].kind)
      && enriched[i].level in {HIGH, MEDIUM, LOW, UNKNOWN}
  {
    enriched := [];
    var n := 0;
    while n < |items|
      invariant 0 <= n <= |items|
      invariant |enriched| == n
      invariant forall i :: 0 <= i < n ==>
        && enriched[i].kind == items[i].kind.GetOr("unknown")
        && enriched[i].indicator == items[i].value.GetOr("N/A")
        && enriched[i].details == DETAILS_PREFIX + items[i].value.GetOr("N/A")
        && enriched[i].score == scores[i]
        && enriched[i].level == ClassifyScore(scores[i], enriched[i].kind)
        && enriched[i].level in {HIGH, MEDIUM, LOW, UNKNOWN}
    {
      var kind := items[n].kind.GetOr("unknown");
      var value := items[n].value.GetOr("N/A");
      var score := scores[n];
      var level := ClassifyScore(score, kind);
      ClassifyLabels(score, kind);
      enriched := enriched + [Enriched(kind, value, DETAILS_PREFIX + value, score, level)];
      n := n + 1;
    }
  }
}
