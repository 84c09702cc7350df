/**
 * The analyst agent: turns the detected anomalous revenue values into typed
 * patterns (spike, drop, trend or fluctuation, by deviation from the mean
 * revenue), ranks candidate root causes, gathers market trends for the first
 * two patterns, rolls the patterns up into one severity and a confidence score,
 * and publishes the analysis in the shared context under "analysis_result".
 *
 * Revenues and deviations are Python floats in the original; here they are exact
 * reals.
 */
module Analyst {
  import opened Wrappers
  import opened Json
  import opened Seqs
  import opened Context
  import MarketTrends

  datatype Row = Row(date: string, revenue: real)

  datatype PatternType = Spike | Drop | Trend | Fluctuation

  datatype Severity = Low | Medium | High

  datatype AnomalyPattern = AnomalyPattern(
    metric: string,
    patternType: PatternType,
    severity: Severity,
    values: seq<real>,
    timestamps: seq<string>,
    magnitude: real,
    confidence: real)

  datatype Cause = Cause(cause: string, confidence: real, category: string)

  datatype AnalysisResult = AnalysisResult(
    patterns: seq<AnomalyPattern>,
    potentialCauses: seq<Cause>,
    severityAssessment: Severity,
    marketContext: seq<MarketTrends.Trend>,
    confidenceScore: real)

  /** `sum([]) / len([])` with no rows divides the integer 0 by 0. */
  const NoRowsError := "division by zero"
  /** A zero mean revenue is a float, so the deviation divides by `0.0`. */
  const ZeroMeanError := "float division by zero"
  /** The region the analyst asks the market-trends tool about. */
  const Region := "Global"
  const PatternConfidence: real := 0.85
  const MaxCauses: nat := 5

  function TypeName(t: PatternType): string {
    match t
    case Spike => "spike"
    case Drop => "drop"
    case Trend => "trend"
    case Fluctuation => "fluctuation"
  }

  function SeverityName(s: Severity): string {
    match s
    case Low => "LOW"
    case Medium => "MEDIUM"
    case High => "HIGH"
  }

  function Rank(s: Severity): nat {
    match s
    case Low => 0
    case Medium => 1
    case High => 2
  }

  // ---- pattern extraction ----

  function Revenues(rows: seq<Row>): (r: seq<real>)
    ensures |r| == |rows| && forall i :: 0 <= i < |rows| ==> r[i] == rows[i].revenue
  {
    seq(|rows|, i requires 0 <= i < |rows| => rows[i].revenue)
  }

  function Sum(xs: seq<real>): real {
    if xs == [] then 0.0 else xs[0] + Sum(xs[1..])
  }

  /** A sum of numbers within [lo, hi] lies within [n·lo, n·hi]. */
  lemma {:induction false} SumBounds(xs: seq<real>, lo: real, hi: real)
    requires forall i :: 0 <= i < |xs| ==> lo <= xs[i] <= hi
    ensures (|xs| as real) * lo <= Sum(xs) <= (|xs| as real) * hi
  {
    if xs != [] {
      SumBounds(xs[1..], lo, hi);
    }
  }

  lemma {:induction false} SumPositive(xs: seq<real>)
    ensures xs != [] && (forall i :: 0 <= i < |xs| ==> xs[i] > 0.0) ==> Sum(xs) > 0.0
  {
    if |xs| > 1 {
      SumPositive(xs[1..]);
    }
  }

  /** `sum(revenues) / len(revenues)`: positive revenues have a positive mean. */
  function Mean(xs: seq<real>): (m: real)
    requires xs != []
    ensures (forall i :: 0 <= i < |xs| ==> xs[i] > 0.0) ==> m > 0.0
  {
    SumPositive(xs);
    Sum(xs) / (|xs| as real)
  }

  /** The mean lies between any lower and upper bound of the values. */
  lemma MeanWithin(xs: seq<real>, lo: real, hi: real)
    requires xs != [] && forall i :: 0 <= i < |xs| ==> lo <= xs[i] <= hi
    ensures lo <= Mean(xs) <= hi
  {
    SumBounds(xs, lo, hi);
    QuotientWithin(Sum(xs), |xs| as real, lo, hi);
  }

  /** Dividing a number within [n·lo, n·hi] by a positive `n`. */
  lemma QuotientWithin(s: real, n: real, lo: real, hi: real)
    requires n > 0.0 && n * lo <= s <= n * hi
    ensures lo <= s / n <= hi
  {
    var q := s / n;
    assert q * n == s;
    ScaleOrder(q, lo, n);
    ScaleOrder(q, hi, n);
  }

  function Abs(x: real): (r: real)
    ensures r >= 0.0 && (r == x || r == -x)
  {
    if x < 0.0 then -x else x
  }

  /** `((v - avg) / avg) * 100`. */
  function Deviation(v: real, avg: real): real
    requires avg != 0.0
  {
    ((v - avg) / avg) * 100.0
  }

  /** `revenues.index(v)`: the first position holding `v`, `None` for the `ValueError`. */
  function FirstIndexOf(xs: seq<real>, v: real): (r: Option<nat>)
    ensures r.Some? ==> r.value < |xs| && xs[r.value] == v && forall j :: 0 <= j < r.value ==> xs[j] != v
    ensures r.None? ==> forall j :: 0 <= j < |xs| ==> xs[j] != v
  {
    if xs == [] then None
    else if xs[0] == v then Some(0)
    else match FirstIndexOf(xs[1..], v)
      case None => None
      case Some(k) => Some(k + 1)
  }

  /** The date of the first row whose revenue is `v`, or "unknown". */
  function TimestampOf(rows: seq<Row>, v: real): (t: string)
    ensures (forall j :: 0 <= j < |rows| ==> rows[j].revenue != v) ==> t == "unknown"
    ensures forall i :: 0 <= i < |rows| && rows[i].revenue == v && (forall j :: 0 <= j < i ==> rows[j].revenue != v)
                        ==> t == rows[i].date
  {
    match FirstIndexOf(Revenues(rows), v)
    case Some(i) => rows[i].date
    case None => "unknown"
  }

  /** The deviation bands: beyond ±20% a spike or drop (HIGH), beyond ±10% a trend (MEDIUM), else a fluctuation (LOW). */
  function Classify(d: real): (c: (PatternType, Severity))
    ensures c.0 == Spike <==> d > 20.0
    ensures c.0 == Drop <==> d < -20.0
    ensures c.0 == Fluctuation <==> -10.0 <= d <= 10.0
    ensures c.1 == (if c.0 == Spike || c.0 == Drop then High else if c.0 == Trend then Medium else Low)
  {
    if d > 20.0 then (Spike, High)
    else if d < -20.0 then (Drop, High)
    else if Abs(d) > 10.0 then (Trend, Medium)
    else (Fluctuation, Low)
  }

  /** The pattern recorded for one anomalous value against the mean revenue `avg`. */
  function PatternFor(v: real, rows: seq<Row>, avg: real): (p: AnomalyPattern)
    requires avg != 0.0
    ensures p.metric == "revenue" && p.values == [v] && p.timestamps == [TimestampOf(rows, v)]
    ensures p.confidence == PatternConfidence && p.magnitude >= 0.0
  {
    var d := Deviation(v, avg);
    var c := Classify(d);
    AnomalyPattern("revenue", c.0, c.1, [v], [TimestampOf(rows, v)], Abs(d), PatternConfidence)
  }

  /** Multiplying both sides by a positive number keeps the order. */
  lemma ScaleOrder(a: real, b: real, c: real)
    requires c > 0.0
    ensures a > b <==> a * c > b * c
    ensures a < b <==> a * c < b * c
  {
    if a > b {
      assert (a - b) * c > 0.0;
    }
    if a < b {
      assert (b - a) * c > 0.0;
    }
    if a * c > b * c {
      assert (a - b) * c > 0.0;
    }
    if a * c < b * c {
      assert (b - a) * c > 0.0;
    }
  }

  /** A band edge `c` of a relative deviation `q`, read as a multiple of the mean. */
  lemma BandEdge(v: real, avg: real, q: real, c: real)
    requires avg > 0.0 && q * avg == v - avg
    ensures q > c <==> v > (1.0 + c) * avg
    ensures q < c <==> v < (1.0 + c) * avg
  {
    ScaleOrder(q, c, avg);
    assert (1.0 + c) * avg == avg + c * avg;
  }

  /**
   * For a positive mean, the bands in terms of the value itself: a spike is
   * more than 120% of the mean, a drop less than 80%, a fluctuation within
   * 90%..110%, and a trend anything else.
   */
  lemma {:induction false} ClassificationThresholds(v: real, rows: seq<Row>, avg: real)
    requires avg > 0.0
    ensures var p := PatternFor(v, rows, avg);
            && (p.patternType == Spike <==> v > 1.2 * avg)
            && (p.patternType == Drop <==> v < 0.8 * avg)
            && (p.patternType == Fluctuation <==> 0.9 * avg <= v <= 1.1 * avg)
            && (p.patternType == Trend <==> (0.8 * avg <= v < 0.9 * avg || 1.1 * avg < v <= 1.2 * avg))
            && (p.severity == High <==> p.patternType == Spike || p.patternType == Drop)
            && (p.severity == Medium <==> p.patternType == Trend)
            && p.magnitude * avg == Abs(v - avg) * 100.0
  {
    var q := (v - avg) / avg;
    var d := Deviation(v, avg);
    assert q * avg == v - avg;
    assert d == q * 100.0;
    BandEdge(v, avg, q, 0.2);
    BandEdge(v, avg, q, -0.2);
    BandEdge(v, avg, q, 0.1);
    BandEdge(v, avg, q, -0.1);
    assert PatternFor(v, rows, avg).patternType == Classify(d).0;
    assert d * avg == (v - avg) * 100.0;
    if d < 0.0 {
      assert Abs(d) * avg == -(d * avg);
    }
  }

  /** The patterns `_extract_patterns` returns when it does not raise: one per anomaly, in input order. */
  function PatternsFor(rows: seq<Row>, anomalies: seq<real>): (ps: seq<AnomalyPattern>)
    requires anomalies != [] ==> rows != [] && Mean(Revenues(rows)) != 0.0
    ensures |ps| == |anomalies|
    ensures forall i :: 0 <= i < |ps| ==> ps[i].values == [anomalies[i]] && ps[i].confidence == PatternConfidence
  {
    if anomalies == [] then []
    else seq(|anomalies|, i requires 0 <= i < |anomalies| => PatternFor(anomalies[i], rows, Mean(Revenues(rows))))
  }

  /**
   * `_extract_patterns`: one pattern per anomaly, in input order. With anomalies
   * but no rows, or a zero mean revenue, the division raises.
   */
  method ExtractPatterns(rows: seq<Row>, anomalies: seq<real>) returns (r: Result<seq<AnomalyPattern>>)
    ensures anomalies == [] ==> r == Success([])
    ensures anomalies != [] ==> (r.Failure? <==> rows == [] || Mean(Revenues(rows)) == 0.0)
    ensures r.Failure? ==> r.error == if rows == [] then NoRowsError else ZeroMeanError
    ensures anomalies != [] && rows != [] && r.Success? ==>
              && |r.value| == |anomalies|
              && forall i :: 0 <= i < |anomalies| ==> r.value[i] == PatternFor(anomalies[i], rows, Mean(Revenues(rows)))
    ensures r.Success? ==> r.value == PatternsFor(rows, anomalies)
  {
    if anomalies == [] {
      return Success([]);
    }
    var revenues := Revenues(rows);
    if |revenues| == 0 {
      return Failure(NoRowsError);
    }
    var avg := Sum(revenues) / (|revenues| as real);
    if avg == 0.0 {
      return Failure(ZeroMeanError);
    }
    var patterns: seq<AnomalyPattern> := [];
    for i := 0 to |anomalies|
      invariant |patterns| == i
      invariant forall j :: 0 <= j < i ==> patterns[j] == PatternFor(anomalies[j], rows, avg)
    {
      var v := anomalies[i];
      var timestamp := match FirstIndexOf(revenues, v) case Some(k) => rows[k].date case None => "unknown";
      var d := ((v - avg) / avg) * 100.0;
      var patternType: PatternType;
      var severity: Severity;
      if d > 20.0 {
        patternType, severity := Spike, High;
      } else if d < -20.0 {
        patternType, severity := Drop, High;
      } else if Abs(d) > 10.0 {
        patternType, severity := Trend, Medium;
      } else {
        patternType, severity := Fluctuation, Low;
      }
      assert (patternType, severity) == Classify(d) && d == Deviation(v, avg);
      assert timestamp == TimestampOf(rows, v);
      patterns := patterns + [AnomalyPattern("revenue", patternType, severity, [v], [timestamp], Abs(d), PatternConfidence)];
    }
    assert avg == Mean(revenues);
    assert patterns == PatternsFor(rows, anomalies);
    r := Success(patterns);
  }

  // ---- causes ----

  predicate IsSpikeOrDrop(p: AnomalyPattern) {
    p.patternType == Spike || p.patternType == Drop
  }

  /** The three candidate causes listed for one pattern (none for trends and fluctuations). */
  function CausesOf(p: AnomalyPattern): (cs: seq<Cause>)
    ensures |cs| == if IsSpikeOrDrop(p) then 3 else 0
  {
    match p.patternType
    case Spike => [Cause("Seasonal demand increase", 0.75, "market"),
                   Cause("New product launch or promotion", 0.7, "internal"),
                   Cause("One-time large transaction", 0.65, "operational")]
    case Drop => [Cause("Market downturn or economic factors", 0.75, "market"),
                  Cause("Operational issues or outages", 0.7, "operational"),
                  Cause("Increased competition", 0.65, "competitive")]
    case _ => []
  }

  /** The causes of every pattern, in pattern order, before ranking. */
  function AllCauses(ps: seq<AnomalyPattern>): seq<Cause> {
    if ps == [] then [] else AllCauses(ps[..|ps| - 1]) + CausesOf(ps[|ps| - 1])
  }

  /** The sort key for `sort(key=confidence, reverse=True)`: ascending by the negated confidence. */
  function NegConfidence(c: Cause): real { -c.confidence }

  lemma {:induction false} AllCausesLength(ps: seq<AnomalyPattern>)
    ensures |AllCauses(ps)| == 3 * Count(ps, IsSpikeOrDrop)
  {
    if ps != [] {
      var init := ps[..|ps| - 1];
      AllCausesLength(init);
      assert ps == init + [ps[|ps| - 1]];
      CountAppend(init, [ps[|ps| - 1]], IsSpikeOrDrop);
      assert [ps[|ps| - 1]][1..] == [];
    }
  }

  /** Ranking then truncating keeps at most five of the causes, in non-increasing confidence. */
  lemma RankedCauses(causes: seq<Cause>)
    ensures var r := Take(SortBy(causes, NegConfidence), MaxCauses);
            && |r| == (if |causes| < MaxCauses then |causes| else MaxCauses)
            && (forall i, j :: 0 <= i < j < |r| ==> r[i].confidence >= r[j].confidence)
            && (forall i :: 0 <= i < |r| ==> r[i] in causes)
  {
    var sorted := SortBy(causes, NegConfidence);
    SortByIsStable(causes, NegConfidence);
    var r := Take(sorted, MaxCauses);
    forall i, j | 0 <= i < j < |r| ensures r[i].confidence >= r[j].confidence {
      assert r[i] == sorted[i] && r[j] == sorted[j];
      assert NegConfidence(sorted[i]) <= NegConfidence(sorted[j]);
    }
    forall i | 0 <= i < |r| ensures r[i] in causes {
      assert r[i] == sorted[i];
      assert sorted[i] in multiset(causes);
    }
  }

  /**
   * `_identify_causes`: the causes of all patterns, ranked by non-increasing
   * confidence (ties keep their order), at most five.
   */
  method IdentifyCauses(patterns: seq<AnomalyPattern>) returns (r: seq<Cause>)
    ensures r == Take(SortBy(AllCauses(patterns), NegConfidence), MaxCauses)
    ensures |r| == if 3 * Count(patterns, IsSpikeOrDrop) < MaxCauses then 3 * Count(patterns, IsSpikeOrDrop) else MaxCauses
    ensures forall i, j :: 0 <= i < j < |r| ==> r[i].confidence >= r[j].confidence
    ensures forall i :: 0 <= i < |r| ==> r[i] in AllCauses(patterns)
  {
    var causes: seq<Cause> := [];
    for i := 0 to |patterns|
      invariant causes == AllCauses(patterns[..i])
    {
      assert patterns[..i + 1][..i] == patterns[..i];
      causes := causes + CausesOf(patterns[i]);
    }
    assert patterns[..|patterns|] == patterns;
    AllCausesLength(patterns);
    RankedCauses(causes);
    causes := SortBy(causes, NegConfidence);
    r := Take(causes, MaxCauses);
  }

  // ---- market context ----

  /** `f"{pattern.pattern_type} in {pattern.metric}"`. */
  function Topic(p: AnomalyPattern): (t: string)
    ensures |t| == |TypeName(p.patternType)| + 4 + |p.metric|
    ensures t[..|TypeName(p.patternType)|] == TypeName(p.patternType)
    ensures t[|TypeName(p.patternType)|..] == " in " + p.metric
  {
    TypeName(p.patternType) + " in " + p.metric
  }

  /** Two patterns share a topic exactly when they share type and metric (the type names start differently). */
  lemma TopicsDistinguishPatterns(p: AnomalyPattern, q: AnomalyPattern)
    ensures Topic(p) == Topic(q) <==> p.patternType == q.patternType && p.metric == q.metric
  {
    if Topic(p) == Topic(q) {
      assert Topic(p)[0] == TypeName(p.patternType)[0] && Topic(q)[0] == TypeName(q.patternType)[0];
      assert p.patternType == q.patternType;
      assert p.metric == Topic(p)[|TypeName(p.patternType)| + 4..];
    }
  }

  /**
   * What `_search_market_context` returns and leaves in the tool when it asks
   * about `patterns` in order, starting from tool state `s`: the first three
   * trends of every answer, concatenated. Every topic asked about ends up in
   * the cache, nothing cached before is replaced, and each question uses the
   * search-API quota at most once.
   */
  function SearchFrom(s: MarketTrends.ToolState, hasCredentials: bool, patterns: seq<AnomalyPattern>,
                      api: string -> MarketTrends.ApiOutcome): (r: (seq<MarketTrends.Trend>, MarketTrends.ToolState))
    ensures |r.0| <= 3 * |patterns|
  {
    if patterns == [] then ([], s)
    else
      var prev := SearchFrom(s, hasCredentials, patterns[..|patterns| - 1], api);
      var topic := Topic(patterns[|patterns| - 1]);
      var step := MarketTrends.Answer(prev.1, hasCredentials, topic, Region, true, api(topic));
      (prev.0 + Take(step.0.trends, 3), step.1)
  }

  /** One more question: the state after it is the answer's next state. */
  lemma SearchStep(s: MarketTrends.ToolState, hasCredentials: bool, patterns: seq<AnomalyPattern>,
                   api: string -> MarketTrends.ApiOutcome)
    requires patterns != []
    ensures var prev := SearchFrom(s, hasCredentials, patterns[..|patterns| - 1], api);
            var topic := Topic(patterns[|patterns| - 1]);
            var step := MarketTrends.Answer(prev.1, hasCredentials, topic, Region, true, api(topic));
            SearchFrom(s, hasCredentials, patterns, api) == (prev.0 + Take(step.0.trends, 3), step.1)
  {
  }

  /** Nothing cached before the search is replaced, and each question uses the search-API quota at most once. */
  lemma {:induction false} SearchKeepsCache(s: MarketTrends.ToolState, hasCredentials: bool, patterns: seq<AnomalyPattern>,
                                            api: string -> MarketTrends.ApiOutcome)
    ensures var t := SearchFrom(s, hasCredentials, patterns, api).1;
            && s.requestCount <= t.requestCount <= s.requestCount + |patterns|
            && (forall k :: k in s.cache ==> k in t.cache && t.cache[k] == s.cache[k])
  {
    if patterns != [] {
      SearchKeepsCache(s, hasCredentials, patterns[..|patterns| - 1], api);
      SearchStep(s, hasCredentials, patterns, api);
    }
  }

  /** A key cached after asking about a prefix of the patterns stays cached once all of them are asked about. */
  lemma {:induction false} SearchPrefixKeeps(s: MarketTrends.ToolState, hasCredentials: bool, patterns: seq<AnomalyPattern>,
                                             api: string -> MarketTrends.ApiOutcome, j: nat, key: string)
    requires j <= |patterns| && key in SearchFrom(s, hasCredentials, patterns[..j], api).1.cache
    ensures key in SearchFrom(s, hasCredentials, patterns, api).1.cache
    decreases |patterns| - j
  {
    if j == |patterns| {
      assert patterns[..j] == patterns;
    } else {
      var init := patterns[..|patterns| - 1];
      assert init[..j] == patterns[..j];
      SearchPrefixKeeps(s, hasCredentials, init, api, j, key);
      SearchStep(s, hasCredentials, patterns, api);
    }
  }

  /** The topic of pattern `i` is in the cache after the search. */
  lemma SearchCachesTopic(s: MarketTrends.ToolState, hasCredentials: bool, patterns: seq<AnomalyPattern>,
                          api: string -> MarketTrends.ApiOutcome, i: nat)
    requires i < |patterns|
    ensures MarketTrends.CacheKey(Topic(patterns[i]), Region) in SearchFrom(s, hasCredentials, patterns, api).1.cache
  {
    var upTo := patterns[..i + 1];
    assert upTo[..|upTo| - 1] == patterns[..i] && upTo[|upTo| - 1] == patterns[i];
    SearchStep(s, hasCredentials, upTo, api);
    SearchPrefixKeeps(s, hasCredentials, patterns, api, i + 1, MarketTrends.CacheKey(Topic(patterns[i]), Region));
  }

  /** Every topic asked about is in the cache after the search. */
  lemma SearchCachesTopics(s: MarketTrends.ToolState, hasCredentials: bool, patterns: seq<AnomalyPattern>,
                           api: string -> MarketTrends.ApiOutcome)
    ensures var t := SearchFrom(s, hasCredentials, patterns, api).1;
            forall i :: 0 <= i < |patterns| ==> MarketTrends.CacheKey(Topic(patterns[i]), Region) in t.cache
  {
    forall i | 0 <= i < |patterns|
      ensures MarketTrends.CacheKey(Topic(patterns[i]), Region) in SearchFrom(s, hasCredentials, patterns, api).1.cache
    {
      SearchCachesTopic(s, hasCredentials, patterns, api, i);
    }
  }

  /**
   * Without search-API credentials every answer is a mock answer or a cached
   * one, so each pattern asked about contributes two or three trends, and the
   * quota is not touched.
   */
  lemma {:induction false} SearchWithoutCredentials(s: MarketTrends.ToolState, patterns: seq<AnomalyPattern>,
                                                    api: string -> MarketTrends.ApiOutcome)
    requires MarketTrends.MockSized(s.cache)
    ensures var r := SearchFrom(s, false, patterns, api);
            && 2 * |patterns| <= |r.0|
            && MarketTrends.MockSized(r.1.cache)
            && r.1.requestCount == s.requestCount
  {
    if patterns != [] {
      SearchWithoutCredentials(s, patterns[..|patterns| - 1], api);
      SearchStep(s, false, patterns, api);
    }
  }

  /**
   * `_search_market_context`: asks the market-trends tool about the first two
   * patterns (region "Global", API allowed) and keeps at most three trends per
   * answer. `api` gives the search API's answer for a query topic.
   */
  method SearchMarketContext(tool: MarketTrends.MarketTrendsTool, patterns: seq<AnomalyPattern>, api: string -> MarketTrends.ApiOutcome)
    returns (trends: seq<MarketTrends.Trend>)
    requires tool.Valid()
    modifies tool
    ensures tool.Valid()
    ensures (trends, tool.State()) == SearchFrom(old(tool.State()), tool.hasCredentials, Take(patterns, 2), api)
  {
    trends := [];
    ghost var start := tool.State();
    var asked := Take(patterns, 2);
    for i := 0 to |asked|
      invariant tool.Valid()
      invariant (trends, tool.State()) == SearchFrom(start, tool.hasCredentials, asked[..i], api)
    {
      ghost var upTo := asked[..i + 1];
      assert upTo[..|upTo| - 1] == asked[..i] && upTo[|upTo| - 1] == asked[i];
      SearchStep(start, tool.hasCredentials, upTo, api);
      var topic := Topic(asked[i]);
      var result := tool.Execute(topic, Region, true, api(topic));
      if result.success && result.data.Some? {
        trends := trends + Take(result.data.value.trends, 3);
      }
    }
    assert asked[..|asked|] == asked;
  }

  // ---- severity and confidence ----

  predicate IsHigh(p: AnomalyPattern) { p.severity == High }

  /** `_assess_severity`: two HIGH patterns make HIGH, exactly one MEDIUM, otherwise LOW. */
  function AssessSeverity(patterns: seq<AnomalyPattern>): (s: Severity)
    ensures s == High <==> Count(patterns, IsHigh) >= 2
    ensures s == Medium <==> Count(patterns, IsHigh) == 1
    ensures patterns == [] ==> s == Low
  {
    if patterns == [] then Low
    else
      var highCount := Count(patterns, IsHigh);
      if highCount >= 2 then High else if highCount == 1 then Medium else Low
  }

  /** One more pattern never lowers the overall severity. */
  lemma SeverityMonotone(patterns: seq<AnomalyPattern>, p: AnomalyPattern)
    ensures Rank(AssessSeverity(patterns)) <= Rank(AssessSeverity(patterns + [p]))
  {
    CountAppend(patterns, [p], IsHigh);
  }

  function SumConfidence(ps: seq<AnomalyPattern>): real {
    if ps == [] then 0.0 else ps[0].confidence + SumConfidence(ps[1..])
  }

  function Min(a: real, b: real): real { if a <= b then a else b }

  /** `_calculate_confidence`: mean pattern confidence plus 0.05 per trend (at most 0.15), capped at 1. */
  function CalculateConfidence(patterns: seq<AnomalyPattern>, contextSize: nat): (c: real)
    ensures patterns == [] ==> c == 0.0
    ensures c <= 1.0
  {
    if patterns == [] then 0.0
    else Min(1.0, SumConfidence(patterns) / (|patterns| as real) + Min(0.15, (contextSize as real) * 0.05))
  }

  lemma {:induction false} SumConfidenceBounds(ps: seq<AnomalyPattern>)
    requires forall i :: 0 <= i < |ps| ==> 0.0 <= ps[i].confidence <= 1.0
    ensures 0.0 <= SumConfidence(ps) <= |ps| as real
  {
    if ps != [] {
      SumConfidenceBounds(ps[1..]);
    }
  }

  /** With every pattern confidence in [0, 1] the score is in [0, 1]. */
  lemma ConfidenceBounds(patterns: seq<AnomalyPattern>, contextSize: nat)
    requires forall i :: 0 <= i < |patterns| ==> 0.0 <= patterns[i].confidence <= 1.0
    ensures 0.0 <= CalculateConfidence(patterns, contextSize) <= 1.0
  {
    if patterns != [] {
      SumConfidenceBounds(patterns);
      var n := |patterns| as real;
      assert 0.0 <= SumConfidence(patterns) / n;
    }
  }

  lemma {:induction false} SumOfConstantConfidence(ps: seq<AnomalyPattern>, c: real)
    requires forall i :: 0 <= i < |ps| ==> ps[i].confidence == c
    ensures SumConfidence(ps) == (|ps| as real) * c
  {
    if ps != [] {
      SumOfConstantConfidence(ps[1..], c);
    }
  }

  /** Extracted patterns all carry 0.85, so the score is 0.85 plus the market-context bonus. */
  lemma ConfidenceOfExtractedPatterns(patterns: seq<AnomalyPattern>, contextSize: nat)
    requires patterns != []
    requires forall i :: 0 <= i < |patterns| ==> patterns[i].confidence == PatternConfidence
    ensures CalculateConfidence(patterns, contextSize) == PatternConfidence + Min(0.15, (contextSize as real) * 0.05)
  {
    SumOfConstantConfidence(patterns, PatternConfidence);
    var n := |patterns| as real;
    assert SumConfidence(patterns) / n == PatternConfidence;
  }

  /**
   * A tool without search-API credentials that has cached nothing yet answers
   * each of the (at most two) patterns asked about with two or three trends, so
   * extracted patterns score at least 0.95, and 1.0 from two patterns on.
   */
  lemma ConfidenceWithoutCredentials(patterns: seq<AnomalyPattern>, api: string -> MarketTrends.ApiOutcome)
    requires patterns != []
    requires forall i :: 0 <= i < |patterns| ==> patterns[i].confidence == PatternConfidence
    ensures var context := SearchFrom(MarketTrends.ToolState(map[], 0), false, Take(patterns, 2), api).0;
            && CalculateConfidence(patterns, |context|) >= 0.95
            && (|patterns| >= 2 ==> CalculateConfidence(patterns, |context|) == 1.0)
  {
    var context := SearchFrom(MarketTrends.ToolState(map[], 0), false, Take(patterns, 2), api).0;
    SearchWithoutCredentials(MarketTrends.ToolState(map[], 0), Take(patterns, 2), api);
    ConfidenceOfExtractedPatterns(patterns, |context|);
    assert |context| >= 2;
    if |patterns| >= 2 {
      assert |context| >= 4;
    }
  }

  // ---- what is published in the shared context ----

  /** `_pattern_to_dict`: the type and severity are written by name. */
  function PatternToJson(p: AnomalyPattern): (j: Json)
    ensures j.Obj? && "pattern_type" in j.fields && "severity" in j.fields && "values" in j.fields
    ensures j.fields["pattern_type"] == Str(TypeName(p.patternType)) && j.fields["severity"] == Str(SeverityName(p.severity))
    ensures j.fields["values"] == Arr(Nums(p.values))
  {
    Obj(PatternEntries(Str(p.metric), Str(TypeName(p.patternType)), Str(SeverityName(p.severity)),
                       Arr(Nums(p.values)), Arr(Strs(p.timestamps)), Num(p.magnitude), Num(p.confidence)))
  }

  /** The seven entries of a pattern dictionary. */
  function PatternEntries(metric: Json, patternType: Json, severity: Json, values: Json, timestamps: Json,
                          magnitude: Json, confidence: Json): (m: map<string, Json>)
    ensures "metric" in m && m["metric"] == metric
    ensures "pattern_type" in m && m["pattern_type"] == patternType
    ensures "severity" in m && m["severity"] == severity
    ensures "values" in m && m["values"] == values
    ensures "timestamps" in m && m["timestamps"] == timestamps
    ensures "magnitude" in m && m["magnitude"] == magnitude
    ensures "confidence" in m && m["confidence"] == confidence
  {
    map["metric" := metric, "pattern_type" := patternType, "severity" := severity, "values" := values,
        "timestamps" := timestamps, "magnitude" := magnitude, "confidence" := confidence]
  }

  function TypeFromName(s: string): Option<PatternType> {
    if s == "spike" then Some(Spike) else if s == "drop" then Some(Drop)
    else if s == "trend" then Some(Trend) else if s == "fluctuation" then Some(Fluctuation) else None
  }

  function SeverityFromName(s: string): Option<Severity> {
    if s == "HIGH" then Some(High) else if s == "MEDIUM" then Some(Medium) else if s == "LOW" then Some(Low) else None
  }

  /** Reads a pattern dictionary back; `None` when a field is missing or of the wrong kind. */
  function PatternFromJson(j: Json): Option<AnomalyPattern> {
    if !j.Obj? then None
    else
      var f := j.fields;
      if !("metric" in f && "pattern_type" in f && "severity" in f && "values" in f
           && "timestamps" in f && "magnitude" in f && "confidence" in f) then None
      else if !(f["metric"].Str? && f["pattern_type"].Str? && f["severity"].Str? && f["values"].Arr?
                && f["timestamps"].Arr? && f["magnitude"].Num? && f["confidence"].Num?) then None
      else
        match (TypeFromName(f["pattern_type"].s), SeverityFromName(f["severity"].s),
               AsNums(f["values"].items), AsStrs(f["timestamps"].items))
        case (Some(t), Some(sev), Some(vs), Some(ts)) =>
          Some(AnomalyPattern(f["metric"].s, t, sev, vs, ts, f["magnitude"].n, f["confidence"].n))
        case _ => None
  }

  /** `_pattern_to_dict` loses nothing: reading the dictionary back gives the pattern. */
  lemma PatternRoundTrip(p: AnomalyPattern)
    ensures PatternFromJson(PatternToJson(p)) == Some(p)
  {
    AsNumsOfNums(p.values);
    AsStrsOfStrs(p.timestamps);
    TypeNameRoundTrip(p.patternType);
    SeverityNameRoundTrip(p.severity);
  }

  lemma TypeNameRoundTrip(t: PatternType)
    ensures TypeFromName(TypeName(t)) == Some(t)
  {
    match t
    case Spike =>
    case Drop =>
    case Trend =>
    case Fluctuation =>
  }

  lemma SeverityNameRoundTrip(s: Severity)
    ensures SeverityFromName(SeverityName(s)) == Some(s)
  {
    match s
    case Low =>
    case Medium =>
    case High =>
  }

  function PatternsToJson(ps: seq<AnomalyPattern>): (r: seq<Json>)
    ensures |r| == |ps| && forall i :: 0 <= i < |ps| ==> r[i] == PatternToJson(ps[i])
  {
    if ps == [] then [] else [PatternToJson(ps[0])] + PatternsToJson(ps[1..])
  }

  function PatternsFromJson(js: seq<Json>): Option<seq<AnomalyPattern>> {
    DecodeEach(js, PatternFromJson)
  }

  lemma PatternsRoundTrip(ps: seq<AnomalyPattern>)
    ensures PatternsFromJson(PatternsToJson(ps)) == Some(ps)
  {
    var js := PatternsToJson(ps);
    forall i | 0 <= i < |ps| ensures PatternFromJson(js[i]) == Some(ps[i]) {
      PatternRoundTrip(ps[i]);
    }
    var decoded := PatternsFromJson(js);
    assert decoded.Some?;
    assert decoded.value == ps;
  }

  function CauseToJson(c: Cause): Json {
    Obj(map["cause" := Str(c.cause), "confidence" := Num(c.confidence), "category" := Str(c.category)])
  }

  function TrendToJson(t: MarketTrends.Trend): Json {
    Obj(map["trend" := Str(t.trend), "confidence" := Num(t.confidence), "region" := Str(t.region), "source" := Str(t.source)])
  }

  /** The dictionary `analyze` stores under "analysis_result". */
  function AnalysisToJson(a: AnalysisResult): (j: Json)
    ensures j.Obj? && "patterns" in j.fields && "severity" in j.fields
    ensures j.fields["patterns"] == Arr(PatternsToJson(a.patterns))
    ensures j.fields["severity"] == Str(SeverityName(a.severityAssessment))
  {
    Obj(map["patterns" := Arr(PatternsToJson(a.patterns)),
            "potential_causes" := Arr(seq(|a.potentialCauses|, i requires 0 <= i < |a.potentialCauses| => CauseToJson(a.potentialCauses[i]))),
            "severity" := Str(SeverityName(a.severityAssessment)),
            "market_context" := Arr(seq(|a.marketContext|, i requires 0 <= i < |a.marketContext| => TrendToJson(a.marketContext[i]))),
            "confidence" := Num(a.confidenceScore)])
  }

  /**
   * The analysis `analyze` builds from the rows, the anomalies and the state
   * of the market-trends tool before the search: the patterns, the top causes,
   * the market context the search returns, the severity roll-up and the
   * confidence derived from them.
   */
  ghost function AnalysisFor(rows: seq<Row>, anomalies: seq<real>, s: MarketTrends.ToolState, hasCredentials: bool,
                             api: string -> MarketTrends.ApiOutcome): AnalysisResult
    requires anomalies != [] ==> rows != [] && Mean(Revenues(rows)) != 0.0
  {
    var patterns := PatternsFor(rows, anomalies);
    var context := SearchFrom(s, hasCredentials, Take(patterns, 2), api).0;
    AnalysisResult(patterns, Take(SortBy(AllCauses(patterns), NegConfidence), MaxCauses), AssessSeverity(patterns),
                   context, CalculateConfidence(patterns, |context|))
  }

  /**
   * `analyze(raw_data, anomalies)`: extracts the patterns and, unless that
   * raised, ranks causes, gathers market context, rolls up severity and
   * confidence, and stores the analysis under "analysis_result" (one `set`).
   */
  method Analyze(ctx: SharedContext, tool: MarketTrends.MarketTrendsTool, rows: seq<Row>, anomalies: seq<real>, api: string -> MarketTrends.ApiOutcome)
    returns (r: Result<AnalysisResult>)
    requires ctx.Valid() && tool.Valid()
    modifies ctx, tool
    ensures ctx.Valid() && tool.Valid()
    ensures anomalies != [] ==> (r.Failure? <==> rows == [] || Mean(Revenues(rows)) == 0.0)
    ensures anomalies == [] ==> r.Success? && r.value.patterns == []
    ensures r.Failure? ==> unchanged(ctx) && unchanged(tool)
    ensures r.Success? ==>
              var a := r.value;
              && a.patterns == PatternsFor(rows, anomalies)
              && a.potentialCauses == Take(SortBy(AllCauses(a.patterns), NegConfidence), MaxCauses)
              && (a.marketContext, tool.State()) == SearchFrom(old(tool.State()), tool.hasCredentials, Take(a.patterns, 2), api)
              && a.severityAssessment == AssessSeverity(a.patterns)
              && a.confidenceScore == CalculateConfidence(a.patterns, |a.marketContext|)
              && a == AnalysisFor(rows, anomalies, old(tool.State()), tool.hasCredentials, api)
              && ctx.data == old(ctx.data)["analysis_result" := AnalysisToJson(a)]
              && ctx.keys == KeysAfterSet(old(ctx.keys), "analysis_result")
              && ctx.updatedAt == old(ctx.updatedAt) + 1
  {
    var extracted := ExtractPatterns(rows, anomalies);
    if extracted.Failure? {
      return Failure(extracted.error);
    }
    var patterns := extracted.value;
    var causes := IdentifyCauses(patterns);
    var marketContext := SearchMarketContext(tool, patterns, api);
    var severity := AssessSeverity(patterns);
    var confidence := CalculateConfidence(patterns, |marketContext|);
    var result := AnalysisResult(patterns, causes, severity, marketContext, confidence);
    ctx.Set("analysis_result", AnalysisToJson(result));
    r := Success(result);
  }
}
