/**
 * The coordinator: `execute_analysis` runs the whole pipeline over one data
 * file. It loads the rows, asks the anomaly detector twice (IQR with threshold
 * 1.5, z-score with threshold 2.0) and merges the two answers as a set, hands
 * the anomalies to the analyst, the stored analysis to the recommendation
 * agent, and assembles the report data from what both agents left in the
 * shared context.
 *
 * The loader, the detector and the HTML generator are tools whose code is not
 * part of this model: the loader's answer is a parameter, the detector and the
 * generator are functions from their arguments to their answers, and the
 * search API behind the market-trends tool is a function of the topic.
 */
module Coordinator {
  import opened Wrappers
  import opened Json
  import opened Seqs
  import opened Text
  import opened Context
  import MarketTrends
  import opened Analyst
  import opened Recommendation

  /** One call of the `detect_anomalies` tool: the values, the method name and its threshold. */
  datatype DetectorCall = DetectorCall(values: seq<real>, technique: string, threshold: real)

  /**
   * One entry of the report's `issues`: a detected value with the pattern that
   * holds it, or the placeholder used when there is no detected value.
   */
  datatype Issue =
    | Detected(patternType: string, metric: string, value: real, magnitude: real, severity: string)
    | Placeholder(description: string, severity: string)

  datatype ReportData = ReportData(title: string, issues: seq<Issue>, recommendations: seq<string>)

  const ReportTitle := "Business Analytics Report - Multi-Agent Analysis"
  const NoAnomalies := Placeholder("No significant anomalies detected", "low")
  const KeepMonitoring := "Continue monitoring business metrics"
  /** The report lists the first five action items. */
  const TopActions: nat := 5

  // ---------------------------------------------------------------- anomalies

  /** `result.data.get('anomalies', [])` of a successful detector call, as a set; nothing from a failed call. */
  function Found(result: ToolResult<seq<real>>): (s: set<real>)
    ensures forall x :: x in s <==> result.success && result.data.Some? && x in result.data.value
  {
    if result.success && result.data.Some? then set x | x in result.data.value else {}
  }

  /** What the two detector calls contribute together: everything either successful call reports, and nothing else. */
  function FoundBoth(revenues: seq<real>, detector: DetectorCall -> ToolResult<seq<real>>): (s: set<real>)
    ensures Found(detector(DetectorCall(revenues, "iqr", 1.5))) <= s
    ensures Found(detector(DetectorCall(revenues, "zscore", 2.0))) <= s
    ensures forall x :: x in s ==> exists c :: c in {DetectorCall(revenues, "iqr", 1.5), DetectorCall(revenues, "zscore", 2.0)}
                                              && detector(c).success && detector(c).data.Some? && x in detector(c).data.value
  {
    Found(detector(DetectorCall(revenues, "iqr", 1.5))) + Found(detector(DetectorCall(revenues, "zscore", 2.0)))
  }

  /** `list(all_anomalies)`: every member of the set exactly once, in an order the model leaves open. */
  method ListOf(s: set<real>) returns (xs: seq<real>)
    ensures forall x :: x in xs <==> x in s
    ensures NoDuplicates(xs) && |xs| == |s|
  {
    xs := [];
    var remaining := s;
    while remaining != {}
      invariant remaining <= s
      invariant forall x :: x in xs <==> x in s && x !in remaining
      invariant NoDuplicates(xs)
      invariant |xs| + |remaining| == |s|
      decreases |remaining|
    {
      if forall y :: y !in remaining {
        assert false;
      }
      var x :| x in remaining;
      xs := xs + [x];
      remaining := remaining - {x};
    }
  }

  /** Step 2 of the pipeline: both detector calls on the revenues, merged without repetition. */
  method DetectAnomalies(revenues: seq<real>, detector: DetectorCall -> ToolResult<seq<real>>) returns (anomalies: seq<real>)
    ensures forall x :: x in anomalies <==> x in FoundBoth(revenues, detector)
    ensures NoDuplicates(anomalies) && |anomalies| == |FoundBoth(revenues, detector)|
  {
    var iqrResult := detector(DetectorCall(revenues, "iqr", 1.5));
    var zscoreResult := detector(DetectorCall(revenues, "zscore", 2.0));
    var allAnomalies: set<real> := {};
    if iqrResult.success {
      allAnomalies := allAnomalies + Found(iqrResult);
    }
    if zscoreResult.success {
      allAnomalies := allAnomalies + Found(zscoreResult);
    }
    anomalies := ListOf(allAnomalies);
  }

  /** How the rows are stored under `raw_data`: one dictionary per row. */
  function RowsToJson(rows: seq<Row>): (js: seq<Json>)
    ensures |js| == |rows|
    ensures forall i :: 0 <= i < |rows| ==>
              && js[i].Obj? && js[i].fields.Keys == {"date", "revenue"}
              && js[i].fields["date"] == Str(rows[i].date) && js[i].fields["revenue"] == Num(rows[i].revenue)
  {
    seq(|rows|, i requires 0 <= i < |rows| => Obj(map["date" := Str(rows[i].date), "revenue" := Num(rows[i].revenue)]))
  }

  /** The list stored under `detected_anomalies` holds numbers only, each once, exactly the found ones. */
  ghost predicate StoredAnomalies(j: Json, found: set<real>) {
    && j.Arr?
    && AsNums(j.items).Some?
    && NoDuplicates(AsNums(j.items).value)
    && (forall x :: x in AsNums(j.items).value <==> x in found)
    && |j.items| == |found|
  }

  // ---------------------------------------------------- reading the agents' output

  /** `analysis_dict.get("patterns", [])`, decoded. */
  function AnalysisPatterns(analysis: map<string, Json>): Option<seq<AnomalyPattern>> {
    if "patterns" !in analysis then Some([])
    else if analysis["patterns"].Arr? then PatternsFromJson(analysis["patterns"].items)
    else None
  }

  /** `recommendation_dict.get("action_items", [])`; `None` when it is not a list. */
  function ActionDicts(recommendation: map<string, Json>): Option<seq<Json>> {
    if "action_items" !in recommendation then Some([])
    else if recommendation["action_items"].Arr? then Some(recommendation["action_items"].items)
    else None
  }

  /** The dictionary stored under `key`, when there is one. */
  function StoredDict(data: map<string, Json>, key: string): Option<map<string, Json>> {
    if key in data && data[key].Obj? then Some(data[key].fields) else None
  }

  function KindOfType(t: PatternType): PatternKind {
    match t
    case Spike => SpikePattern
    case Drop => DropPattern
    case _ => OtherPattern
  }

  predicate IsSpikeType(p: AnomalyPattern) { p.patternType == Spike }
  predicate IsDropType(p: AnomalyPattern) { p.patternType == Drop }

  lemma TypeNameInverts(s: string, t: PatternType)
    requires TypeFromName(s) == Some(t)
    ensures s == TypeName(t)
  {
  }

  /** A pattern dictionary that decodes is one the recommendation agent classifies by the decoded type. */
  lemma KindOfDecodedPattern(j: Json, p: AnomalyPattern)
    requires PatternFromJson(j) == Some(p)
    ensures j.Obj? && KindOf(j) == KindOfType(p.patternType)
  {
    var f := j.fields;
    TypeNameInverts(f["pattern_type"].s, p.patternType);
    assert GetOr(f, "pattern_type", Str("unknown")) == Str(TypeName(p.patternType));
  }

  /** Every dictionary of a decodable pattern list is classified by its decoded type. */
  lemma KindsOfDecodedPatterns(js: seq<Json>, ps: seq<AnomalyPattern>)
    requires PatternsFromJson(js) == Some(ps)
    ensures |js| == |ps|
    ensures forall i :: 0 <= i < |js| ==> js[i].Obj? && KindOf(js[i]) == KindOfType(ps[i].patternType)
  {
    forall i | 0 <= i < |js| ensures js[i].Obj? && KindOf(js[i]) == KindOfType(ps[i].patternType) {
      KindOfDecodedPattern(js[i], ps[i]);
    }
  }

  /** An analysis whose patterns decode is one the recommendation agent accepts, and it sees the decoded types. */
  lemma DecodedAnalysisKinds(analysis: map<string, Json>)
    requires AnalysisPatterns(analysis).Some?
    ensures WellFormedAnalysis(analysis)
    ensures var ps := AnalysisPatterns(analysis).value;
            |Kinds(analysis)| == |ps| && forall i :: 0 <= i < |ps| ==> Kinds(analysis)[i] == KindOfType(ps[i].patternType)
  {
    if "patterns" in analysis {
      KindsOfDecodedPatterns(analysis["patterns"].items, AnalysisPatterns(analysis).value);
    }
  }

  lemma {:induction false} CountMapped<A, B>(s: seq<A>, t: seq<B>, p: A -> bool, q: B -> bool)
    requires |s| == |t|
    requires forall i :: 0 <= i < |s| ==> (p(s[i]) <==> q(t[i]))
    ensures Count(s, p) == Count(t, q)
  {
    if s != [] {
      forall i | 0 <= i < |s[1..]| ensures p(s[1..][i]) <==> q(t[1..][i]) {
        assert s[1..][i] == s[i + 1] && t[1..][i] == t[i + 1];
      }
      CountMapped(s[1..], t[1..], p, q);
    }
  }

  /**
   * The recommendation agent, given an analysis whose patterns decode, produces
   * two items per spike and per drop pattern, one executive review when the
   * severity is HIGH and one monitoring item; never none.
   */
  lemma ActionCountOfAnalysis(analysis: map<string, Json>)
    requires AnalysisPatterns(analysis).Some?
    ensures WellFormedAnalysis(analysis)
    ensures var ps := AnalysisPatterns(analysis).value;
            |SortBy(Unsorted(analysis), PriorityKey)|
              == 2 * (Count(ps, IsSpikeType) + Count(ps, IsDropType)) + (if SeverityIsHigh(analysis) then 1 else 0) + 1
  {
    DecodedAnalysisKinds(analysis);
    var ps := AnalysisPatterns(analysis).value;
    CountMapped(Kinds(analysis), ps, IsSpike, IsSpikeType);
    CountMapped(Kinds(analysis), ps, IsDrop, IsDropType);
    GeneratedCount(analysis);
  }

  // ---------------------------------------------------------------- the report

  /** The issue's type label: the type name with its first letter upper-cased. */
  function IssueType(t: PatternType): string {
    [UpperChar(TypeName(t)[0])] + TypeName(t)[1..]
  }

  /** The issue's severity label, `severity.value.lower()`. */
  function IssueSeverity(s: Severity): string {
    match s
    case Low => "low"
    case Medium => "medium"
    case High => "high"
  }

  /** The issue for one value of a pattern: capitalised type, metric, value, magnitude, lower-case severity. */
  function PatternIssue(p: AnomalyPattern, v: real): Issue {
    Detected(IssueType(p.patternType), p.metric, v, p.magnitude, IssueSeverity(p.severity))
  }

  function ValueIssues(p: AnomalyPattern): (r: seq<Issue>)
    ensures |r| == |p.values| && forall i :: 0 <= i < |r| ==> r[i] == PatternIssue(p, p.values[i])
  {
    seq(|p.values|, i requires 0 <= i < |p.values| => PatternIssue(p, p.values[i]))
  }

  /** The issues of a pattern list: one per value, pattern by pattern; never the placeholder. */
  function IssuesOf(ps: seq<AnomalyPattern>): (r: seq<Issue>)
    ensures forall i :: 0 <= i < |r| ==> r[i].Detected?
  {
    if ps == [] then [] else IssuesOf(ps[..|ps| - 1]) + ValueIssues(ps[|ps| - 1])
  }

  /** With one value per pattern, there is one issue per pattern. */
  lemma {:induction false} OneIssuePerPattern(ps: seq<AnomalyPattern>)
    requires forall i :: 0 <= i < |ps| ==> |ps[i].values| == 1
    ensures |IssuesOf(ps)| == |ps|
  {
    if ps != [] {
      OneIssuePerPattern(ps[..|ps| - 1]);
    }
  }

  /** The analyst records one single-valued pattern per anomaly, so each anomaly yields one issue. */
  lemma ExtractedIssueCount(rows: seq<Row>, anomalies: seq<real>, patterns: seq<AnomalyPattern>)
    requires rows != [] && Mean(Revenues(rows)) != 0.0
    requires |patterns| == |anomalies|
    requires forall i :: 0 <= i < |anomalies| ==> patterns[i] == PatternFor(anomalies[i], rows, Mean(Revenues(rows)))
    ensures |IssuesOf(patterns)| == |anomalies|
  {
    OneIssuePerPattern(patterns);
  }

  /** With one value per pattern, issue `i` is pattern `i`'s value. */
  lemma {:induction false} IssueAt(ps: seq<AnomalyPattern>, i: nat)
    requires forall k :: 0 <= k < |ps| ==> |ps[k].values| == 1
    requires i < |ps|
    ensures |IssuesOf(ps)| == |ps| && IssuesOf(ps)[i] == PatternIssue(ps[i], ps[i].values[0])
  {
    var init, last := ps[..|ps| - 1], ps[|ps| - 1];
    OneIssuePerPattern(init);
    assert IssuesOf(ps) == IssuesOf(init) + [PatternIssue(last, last.values[0])];
    if i < |init| {
      IssueAt(init, i);
      assert ps[i] == init[i];
    }
  }

  /** With one value per pattern, the issues are the patterns' values in pattern order. */
  lemma IssuePerPattern(ps: seq<AnomalyPattern>)
    requires forall i :: 0 <= i < |ps| ==> |ps[i].values| == 1
    ensures |IssuesOf(ps)| == |ps|
    ensures forall i :: 0 <= i < |ps| ==> IssuesOf(ps)[i] == PatternIssue(ps[i], ps[i].values[0])
  {
    OneIssuePerPattern(ps);
    forall i | 0 <= i < |ps| ensures IssuesOf(ps)[i] == PatternIssue(ps[i], ps[i].values[0]) {
      IssueAt(ps, i);
    }
  }

  /** The type label is `pattern_type.value.capitalize()`: the names are lower case, so only the first letter changes. */
  lemma IssueTypeIsCapitalized(t: PatternType)
    ensures IssueType(t) == Capitalize(TypeName(t))
  {
    LowerOfLowercase(TypeName(t)[1..]);
  }

  /** The severity label is `severity.value.lower()`; a low pattern is labelled as the placeholder issue is. */
  lemma IssueSeverityIsLowered(s: Severity)
    ensures IssueSeverity(s) == Lower(SeverityName(s))
    ensures IssueSeverity(Analyst.Low) == NoAnomalies.severity
  {
    match s
    case Low => assert Lower("LOW") == [LowerChar('L'), LowerChar('O'), LowerChar('W')];
    case Medium => assert Lower("MEDIUM") == [LowerChar('M'), LowerChar('E'), LowerChar('D'), LowerChar('I'), LowerChar('U'), LowerChar('M')];
    case High => assert Lower("HIGH") == [LowerChar('H'), LowerChar('I'), LowerChar('G'), LowerChar('H')];
  }

  /** `f"[Priority {priority}] {title}: {description}"`. */
  function Line(priority: string, title: string, description: string): string {
    "[Priority " + priority + "] " + title + ": " + description
  }

  /** A whole number as Python prints an `int`. */
  function IntText(n: real): string {
    if n >= 0.0 then NatToString(n.Floor) else "-" + NatToString((-n).Floor)
  }

  /**
   * The line for one action dictionary, read from its `priority`, `title` and
   * `description` entries; `None` where one is missing or is not a number, a
   * string and a string (the original raises `KeyError` on a missing one).
   */
  function ActionText(action: Json): (r: Option<string>)
    ensures r.Some? ==> action.Obj? && "priority" in action.fields && "title" in action.fields && "description" in action.fields
    ensures r.Some? ==> IsPrefix("[Priority ", r.value)
  {
    if action.Obj? && "priority" in action.fields && action.fields["priority"].Num?
       && StrField(action.fields, "title").Some? && StrField(action.fields, "description").Some?
    then Some(Line(IntText(action.fields["priority"].n), StrField(action.fields, "title").value,
                   StrField(action.fields, "description").value))
    else None
  }

  /** The lines of a list of action dictionaries; `None` when any of them has none. */
  function ActionTexts(actions: seq<Json>): (r: Option<seq<string>>)
    ensures r.Some? <==> forall i :: 0 <= i < |actions| ==> ActionText(actions[i]).Some?
    ensures r.Some? ==> |r.value| == |actions| && forall i :: 0 <= i < |actions| ==> ActionText(actions[i]) == Some(r.value[i])
  {
    if forall i :: 0 <= i < |actions| ==> ActionText(actions[i]).Some?
    then Some(seq(|actions|, i requires 0 <= i < |actions| => ActionText(actions[i]).value))
    else None
  }

  /** The line an item's template calls for. */
  function ActionLine(a: ActionItem): string {
    Line(NatToString(Priority(a.rule)), Title(a.rule), Description(a.rule))
  }

  /** The entries a template fixes survive the item's own entries. */
  lemma TemplateEntriesKept(base: map<string, Json>, title: string, owner: Json, status: string, id: string, key: string)
    requires key in base && key !in {"title", "owner", "status", "id"}
    ensures var f := WithEntries(base, title, owner, status, id); key in f && f[key] == base[key]
  {
  }

  lemma TemplatePriorityAndDescription(description: string, priority: nat, impact: string, effort: string,
                                       timeline: string, metrics: seq<string>)
    ensures var f := TemplateEntries(description, priority, impact, effort, timeline, metrics);
            && "priority" in f && f["priority"] == Num(priority as real)
            && StrField(f, "description") == Some(description)
  {
  }

  /** The line rendered from an item's dictionary is the one its template calls for. */
  lemma ActionTextOfItem(a: ActionItem)
    ensures ActionText(ActionToJson(a)) == Some(ActionLine(a))
  {
    var base := TemplateFields(a.rule);
    var f := ActionToJson(a).fields;
    TemplatePriorityAndDescription(Description(a.rule), Priority(a.rule), LevelName(Impact(a.rule)), LevelName(Effort(a.rule)),
                                   HorizonName(Timeline(a.rule)), SuccessMetrics(a.rule));
    TemplateEntriesKept(base, Title(a.rule), OwnerToJson(a.owner), a.status, ActionId(a.number), "priority");
    TemplateEntriesKept(base, Title(a.rule), OwnerToJson(a.owner), a.status, ActionId(a.number), "description");
    ActionEntries(base, Title(a.rule), OwnerToJson(a.owner), a.status, ActionId(a.number));
    assert (Priority(a.rule) as real).Floor == Priority(a.rule);
  }

  /** The lines of the first five dictionaries written for a list of items are those items' template lines. */
  lemma TopActionTexts(items: seq<ActionItem>)
    ensures var r := ActionTexts(Take(ActionsToJson(items), TopActions));
            && r.Some? && |r.value| == |Take(items, TopActions)|
            && forall i :: 0 <= i < |r.value| ==> r.value[i] == ActionLine(items[i])
  {
    var top := Take(ActionsToJson(items), TopActions);
    forall i | 0 <= i < |top| ensures ActionText(top[i]) == Some(ActionLine(items[i])) {
      ActionTextOfItem(items[i]);
    }
  }

  /** The report dictionary: a placeholder issue and a default recommendation stand in for empty lists. */
  function Assemble(issues: seq<Issue>, lines: seq<string>): (r: ReportData)
    ensures r.title == ReportTitle && r.issues != [] && r.recommendations != []
    ensures issues != [] ==> r.issues == issues
    ensures lines != [] ==> r.recommendations == lines
  {
    ReportData(ReportTitle, if issues == [] then [NoAnomalies] else issues,
               if lines == [] then [KeepMonitoring] else lines)
  }

  /** The nested loop over the patterns and their values. */
  method CollectIssues(patterns: seq<AnomalyPattern>) returns (issues: seq<Issue>)
    ensures issues == IssuesOf(patterns)
  {
    issues := [];
    for i := 0 to |patterns|
      invariant issues == IssuesOf(patterns[..i])
    {
      var pattern := patterns[i];
      ghost var before := issues;
      for j := 0 to |pattern.values|
        invariant issues == before + ValueIssues(pattern)[..j]
      {
        assert ValueIssues(pattern)[..j + 1] == ValueIssues(pattern)[..j] + [PatternIssue(pattern, pattern.values[j])];
        issues := issues + [PatternIssue(pattern, pattern.values[j])];
      }
      assert ValueIssues(pattern)[..|pattern.values|] == ValueIssues(pattern);
      assert patterns[..i + 1][..i] == patterns[..i];
    }
    assert patterns[..|patterns|] == patterns;
  }

  /** The loop over the first five action dictionaries. */
  method CollectRecommendations(actions: seq<Json>) returns (lines: Option<seq<string>>)
    ensures lines == ActionTexts(Take(actions, TopActions))
  {
    var top := Take(actions, TopActions);
    var collected: seq<string> := [];
    for i := 0 to |top|
      invariant |collected| == i
      invariant forall k :: 0 <= k < i ==> ActionText(top[k]) == Some(collected[k])
    {
      var text := ActionText(top[i]);
      if text.None? {
        return None;
      }
      collected := collected + [text.value];
    }
    assert ActionTexts(top).Some? && ActionTexts(top).value == collected;
    lines := Some(collected);
  }

  /**
   * The report data for the decoded patterns and the action dictionaries;
   * `None` when one of the first five dictionaries has no line.
   */
  function ReportOf(patterns: seq<AnomalyPattern>, actions: seq<Json>): (r: Option<ReportData>)
    ensures r.Some? ==> r.value.title == ReportTitle && r.value.issues != [] && 1 <= |r.value.recommendations| <= TopActions
  {
    match ActionTexts(Take(actions, TopActions))
    case None => None
    case Some(lines) => Some(Assemble(IssuesOf(patterns), lines))
  }

  /** Step 5: the report data built from the patterns and the action dictionaries. */
  method PrepareReport(patterns: seq<AnomalyPattern>, actions: seq<Json>) returns (report: Option<ReportData>)
    ensures report == ReportOf(patterns, actions)
  {
    var issues := CollectIssues(patterns);
    var recommendations := CollectRecommendations(actions);
    if recommendations.None? {
      return None;
    }
    var lines := recommendations.value;
    report := Some(ReportData(ReportTitle, if issues == [] then [NoAnomalies] else issues,
                              if lines == [] then [KeepMonitoring] else lines));
  }

  // ---------------------------------------------------------------- the agent

  /** The anomalies stored as a list of numbers read back as that list: each found value once. */
  lemma StoredAnomalyList(xs: seq<real>, found: set<real>)
    requires forall x :: x in xs <==> x in found
    requires NoDuplicates(xs) && |xs| == |found|
    ensures StoredAnomalies(Arr(Nums(xs)), found)
  {
    AsNumsOfNums(xs);
  }

  /** The dictionaries of a non-empty item list always yield a report. */
  lemma ReportExists(patterns: seq<AnomalyPattern>, items: seq<ActionItem>)
    requires items != []
    ensures ReportOf(patterns, ActionsToJson(items)).Some?
  {
    var top := Take(ActionsToJson(items), TopActions);
    forall i | 0 <= i < |top| ensures ActionText(top[i]).Some? {
      ActionTextOfItem(items[i]);
    }
  }

  /**
   * The report built from any patterns and the dictionaries of a non-empty item
   * list: one issue per pattern value (or the placeholder), and the lines of the
   * first five items, never the default.
   */
  lemma ReportOfItems(patterns: seq<AnomalyPattern>, items: seq<ActionItem>)
    requires items != []
    ensures var report := ReportOf(patterns, ActionsToJson(items));
            && report.Some?
            && report.value.title == ReportTitle
            && report.value.issues == (if IssuesOf(patterns) == [] then [NoAnomalies] else IssuesOf(patterns))
            && |report.value.recommendations| == |Take(items, TopActions)|
            && forall i :: 0 <= i < |report.value.recommendations| ==> report.value.recommendations[i] == ActionLine(items[i])
  {
    TopActionTexts(items);
  }

  /**
   * The analysis dictionary the analyst stores for `rows` and `anomalies`: its
   * patterns decode to one pattern per anomaly, in order, each classified
   * against the mean revenue, and its severity is the roll-up of those patterns.
   */
  ghost predicate AnalysisOf(analysis: map<string, Json>, rows: seq<Row>, anomalies: seq<real>) {
    && (anomalies != [] ==> rows != [] && Mean(Revenues(rows)) != 0.0)
    && AnalysisPatterns(analysis) == Some(PatternsFor(rows, anomalies))
    && "severity" in analysis && analysis["severity"] == Str(SeverityName(AssessSeverity(PatternsFor(rows, anomalies))))
  }

  /** The report data is the one built from the two dictionaries stored in `data`, and there is one. */
  ghost predicate Reported(data: map<string, Json>, report: Option<ReportData>) {
    var analysis := StoredDict(data, "analysis_result");
    var recommendation := StoredDict(data, "recommendation_result");
    && analysis.Some? && recommendation.Some?
    && AnalysisPatterns(analysis.value).Some? && ActionDicts(recommendation.value).Some?
    && report == ReportOf(AnalysisPatterns(analysis.value).value, ActionDicts(recommendation.value).value)
    && report.Some?
  }

  /**
   * The two dictionaries the agents store, in full: under "analysis_result" the
   * analysis the analyst builds from the rows, the anomalies and the trends
   * tool's state `s` before the search, and under "recommendation_result" the
   * recommendation built from that analysis dictionary.
   */
  ghost predicate AgentsStored(data: map<string, Json>, rows: seq<Row>, anomalies: seq<real>,
                               s: MarketTrends.ToolState, hasCredentials: bool, api: string -> MarketTrends.ApiOutcome) {
    && (anomalies != [] ==> rows != [] && Mean(Revenues(rows)) != 0.0)
    && var analysis := AnalysisToJson(AnalysisFor(rows, anomalies, s, hasCredentials, api));
    && "analysis_result" in data && data["analysis_result"] == analysis
    && WellFormedAnalysis(analysis.fields)
    && "recommendation_result" in data && data["recommendation_result"] == RecommendationToJson(RecommendationFor(analysis.fields))
  }

  /**
   * The report lists one issue per anomaly handed to the analyst, in that order:
   * the anomaly with its pattern's type, metric, magnitude and severity; with no
   * anomaly it lists the placeholder alone.
   */
  lemma ReportedIssues(data: map<string, Json>, rows: seq<Row>, anomalies: seq<real>, s: MarketTrends.ToolState,
                       hasCredentials: bool, api: string -> MarketTrends.ApiOutcome, report: Option<ReportData>)
    requires AgentsStored(data, rows, anomalies, s, hasCredentials, api) && Reported(data, report)
    ensures anomalies == [] ==> report.value.issues == [NoAnomalies]
    ensures anomalies != [] ==>
              && rows != [] && Mean(Revenues(rows)) != 0.0
              && |report.value.issues| == |anomalies|
              && forall i :: 0 <= i < |anomalies| ==>
                   report.value.issues[i] == PatternIssue(PatternFor(anomalies[i], rows, Mean(Revenues(rows))), anomalies[i])
  {
    var analysis := StoredDict(data, "analysis_result").value;
    var items := SortBy(Unsorted(analysis), PriorityKey);
    AnalysisForDecodes(rows, anomalies, s, hasCredentials, api);
    assert AnalysisPatterns(analysis).value == PatternsFor(rows, anomalies);
    assert ActionDicts(StoredDict(data, "recommendation_result").value).value == ActionsToJson(items);
    IssuesFromPatterns(rows, anomalies, items, report);
  }

  /** The issues of a report built from the patterns of `anomalies` and a non-empty item list. */
  lemma IssuesFromPatterns(rows: seq<Row>, anomalies: seq<real>, items: seq<ActionItem>, report: Option<ReportData>)
    requires items != []
    requires anomalies != [] ==> rows != [] && Mean(Revenues(rows)) != 0.0
    requires report == ReportOf(PatternsFor(rows, anomalies), ActionsToJson(items))
    ensures report.Some?
    ensures anomalies == [] ==> report.value.issues == [NoAnomalies]
    ensures anomalies != [] ==>
              && |report.value.issues| == |anomalies|
              && forall i :: 0 <= i < |anomalies| ==>
                   report.value.issues[i] == PatternIssue(PatternFor(anomalies[i], rows, Mean(Revenues(rows))), anomalies[i])
  {
    var ps := PatternsFor(rows, anomalies);
    ReportOfItems(ps, items);
    IssuePerPattern(ps);
    if anomalies != [] {
      forall i | 0 <= i < |anomalies|
        ensures report.value.issues[i] == PatternIssue(PatternFor(anomalies[i], rows, Mean(Revenues(rows))), anomalies[i])
      {
        assert ps[i] == PatternFor(anomalies[i], rows, Mean(Revenues(rows)));
      }
    }
  }

  /** The entries stored before the agents run are still there once the agents have stored theirs. */
  lemma EarlierEntriesKept(before: map<string, Json>, rawData: Json, anomalies: seq<real>, analysis: Json,
                           recommendation: Json, after: map<string, Json>)
    requires after == before["raw_data" := rawData]["detected_anomalies" := Arr(Nums(anomalies))]
                            ["analysis_result" := analysis]["recommendation_result" := recommendation]
    ensures "raw_data" in after && after["raw_data"] == rawData
    ensures "detected_anomalies" in after && after["detected_anomalies"] == Arr(Nums(anomalies))
    ensures AsNums(after["detected_anomalies"].items) == Some(anomalies)
  {
    AsNumsOfNums(anomalies);
  }

  /**
   * The analysis dictionary the analyst builds decodes to one pattern per
   * anomaly, in order, with their severity roll-up, and the recommendation agent
   * generates at least one item for it.
   */
  lemma AnalysisForDecodes(rows: seq<Row>, anomalies: seq<real>, s: MarketTrends.ToolState, hasCredentials: bool,
                           api: string -> MarketTrends.ApiOutcome)
    requires anomalies != [] ==> rows != [] && Mean(Revenues(rows)) != 0.0
    ensures var analysis := AnalysisToJson(AnalysisFor(rows, anomalies, s, hasCredentials, api)).fields;
            && AnalysisOf(analysis, rows, anomalies)
            && WellFormedAnalysis(analysis)
            && SortBy(Unsorted(analysis), PriorityKey) != []
  {
    var a := AnalysisFor(rows, anomalies, s, hasCredentials, api);
    var analysis := AnalysisToJson(a).fields;
    PatternsRoundTrip(a.patterns);
    assert AnalysisPatterns(analysis) == Some(PatternsFor(rows, anomalies));
    ActionCountOfAnalysis(analysis);
  }

  /**
   * The two dictionaries read back, each the one its agent builds, make up what
   * `AgentsStored` asks for, and the report built from them exists.
   */
  lemma AgentsOutcome(data: map<string, Json>, rows: seq<Row>, anomalies: seq<real>, s: MarketTrends.ToolState,
                      hasCredentials: bool, api: string -> MarketTrends.ApiOutcome,
                      analysis: map<string, Json>, recommendation: map<string, Json>)
    requires anomalies != [] ==> rows != [] && Mean(Revenues(rows)) != 0.0
    requires Obj(analysis) == AnalysisToJson(AnalysisFor(rows, anomalies, s, hasCredentials, api))
    requires WellFormedAnalysis(analysis)
    requires Obj(recommendation) == RecommendationToJson(RecommendationFor(analysis))
    requires "analysis_result" in data && data["analysis_result"] == Obj(analysis)
    requires "recommendation_result" in data && data["recommendation_result"] == Obj(recommendation)
    ensures AgentsStored(data, rows, anomalies, s, hasCredentials, api)
    ensures AnalysisPatterns(analysis).Some? && ActionDicts(recommendation).Some?
    ensures Reported(data, ReportOf(AnalysisPatterns(analysis).value, ActionDicts(recommendation).value))
  {
    AnalysisForDecodes(rows, anomalies, s, hasCredentials, api);
    var items := SortBy(Unsorted(analysis), PriorityKey);
    assert ActionDicts(recommendation) == Some(ActionsToJson(items));
    ReportExists(AnalysisPatterns(analysis).value, items);
  }

  class CoordinatorAgent {
    const context: SharedContext
    /** The market-trends tool the analyst consults. */
    const trends: MarketTrends.MarketTrendsTool

    ghost predicate Valid()
      reads this, context, trends
    {
      context.Valid() && trends.Valid()
    }

    constructor (hasCredentials: bool)
      ensures Valid() && fresh(context) && fresh(trends)
      ensures context.data == map[] && trends.hasCredentials == hasCredentials
      ensures trends.requestCount == 0 && trends.cache == map[]
    {
      context := new SharedContext();
      trends := new MarketTrends.MarketTrendsTool(hasCredentials);
    }

    /** Steps 1 and 2: stores the rows, asks the detector twice and stores the merged anomalies. */
    method StoreAndDetect(rows: seq<Row>, detector: DetectorCall -> ToolResult<seq<real>>) returns (anomalies: seq<real>)
      requires Valid()
      modifies context
      ensures Valid()
      ensures forall x :: x in anomalies <==> x in FoundBoth(Revenues(rows), detector)
      ensures NoDuplicates(anomalies) && |anomalies| == |FoundBoth(Revenues(rows), detector)|
      ensures StoredAnomalies(Arr(Nums(anomalies)), FoundBoth(Revenues(rows), detector))
      ensures context.data == old(context.data)["raw_data" := Arr(RowsToJson(rows))]["detected_anomalies" := Arr(Nums(anomalies))]
      ensures context.keys == KeysAfterSet(KeysAfterSet(old(context.keys), "raw_data"), "detected_anomalies")
      ensures context.updatedAt == old(context.updatedAt) + 2
    {
      context.Set("raw_data", Arr(RowsToJson(rows)));
      anomalies := DetectAnomalies(Revenues(rows), detector);
      StoredAnomalyList(anomalies, FoundBoth(Revenues(rows), detector));
      context.Set("detected_anomalies", Arr(Nums(anomalies)));
    }

    /**
     * Step 3: the analyst on the rows and anomalies, and the analysis dictionary
     * read back from the context. A failure is the analyst's.
     */
    method AnalyzeStep(rows: seq<Row>, anomalies: seq<real>, api: string -> MarketTrends.ApiOutcome)
      returns (r: Result<map<string, Json>>)
      requires Valid()
      modifies context, trends
      ensures Valid()
      ensures anomalies != [] ==> (r.Failure? <==> rows == [] || Mean(Revenues(rows)) == 0.0)
      ensures anomalies == [] ==> r.Success?
      ensures r.Failure? ==> unchanged(context) && unchanged(trends)
      ensures r.Success? ==>
                && WellFormedAnalysis(r.value)
                && Obj(r.value) == AnalysisToJson(AnalysisFor(rows, anomalies, old(trends.State()), trends.hasCredentials, api))
                && context.data == old(context.data)["analysis_result" := Obj(r.value)]
                && context.keys == KeysAfterSet(old(context.keys), "analysis_result")
                && context.updatedAt == old(context.updatedAt) + 1
                && trends.State() == SearchFrom(old(trends.State()), trends.hasCredentials, Take(PatternsFor(rows, anomalies), 2), api).1
    {
      var analysisResult := Analyze(context, trends, rows, anomalies, api);
      if analysisResult.Failure? {
        return Failure(analysisResult.error);
      }
      var analysisJson := context.Get("analysis_result", Null);
      AnalysisForDecodes(rows, anomalies, old(trends.State()), trends.hasCredentials, api);
      r := Success(analysisJson.fields);
    }

    /** Step 4: the recommendation agent on the analysis, and its dictionary read back from the context. */
    method RecommendStep(analysis: map<string, Json>) returns (recommendation: map<string, Json>)
      requires Valid() && WellFormedAnalysis(analysis)
      modifies context
      ensures Valid()
      ensures Obj(recommendation) == RecommendationToJson(RecommendationFor(analysis))
      ensures context.data == old(context.data)["recommendation_result" := Obj(recommendation)]
      ensures context.keys == KeysAfterSet(old(context.keys), "recommendation_result")
      ensures context.updatedAt == old(context.updatedAt) + 1
    {
      var recommendationResult := GenerateRecommendations(context, analysis);
      var recommendationJson := context.Get("recommendation_result", Null);
      recommendation := recommendationJson.fields;
    }

    /**
     * Steps 3 to 6: the analyst, the recommendation agent, the report data built
     * from the two dictionaries they stored, and the generator's answer, kept
     * only when it reports success. A failure is the analyst's.
     */
    method RunAgents(rows: seq<Row>, anomalies: seq<real>, api: string -> MarketTrends.ApiOutcome,
                     generate: ReportData -> ToolResult<string>)
      returns (r: Result<Option<ToolResult<string>>>, report: Option<ReportData>)
      requires Valid()
      modifies context, trends
      ensures Valid()
      ensures anomalies != [] ==> (r.Failure? <==> rows == [] || Mean(Revenues(rows)) == 0.0)
      ensures anomalies == [] ==> r.Success?
      ensures r.Failure? ==> report == None && unchanged(context) && unchanged(trends)
      ensures r.Success? ==>
                && Reported(context.data, report)
                && AgentsStored(context.data, rows, anomalies, old(trends.State()), trends.hasCredentials, api)
                && r.value == (if generate(report.value).success then Some(generate(report.value)) else None)
                && context.data == old(context.data)["analysis_result" := context.data["analysis_result"]]
                                                    ["recommendation_result" := context.data["recommendation_result"]]
                && context.keys == KeysAfterSet(KeysAfterSet(old(context.keys), "analysis_result"), "recommendation_result")
                && context.updatedAt == old(context.updatedAt) + 2
                && trends.State() == SearchFrom(old(trends.State()), trends.hasCredentials, Take(PatternsFor(rows, anomalies), 2), api).1
    {
      ghost var start := trends.State();
      var analyzed := AnalyzeStep(rows, anomalies, api);
      if analyzed.Failure? {
        return Failure(analyzed.error), None;
      }
      var analysis := analyzed.value;
      var recommendation := RecommendStep(analysis);
      AgentsOutcome(context.data, rows, anomalies, start, trends.hasCredentials, api, analysis, recommendation);
      report := PrepareReport(AnalysisPatterns(analysis).value, ActionDicts(recommendation).value);
      var reportResult := generate(report.value);
      r := Success(if reportResult.success then Some(reportResult) else None);
    }

    /**
     * `execute_analysis`: `loaded` is the loader's answer, `detector`, `api` and
     * `generate` stand for the anomaly detector, the search API and the HTML
     * generator. The result is `Success(None)` when loading fails or the report
     * is not generated, `Success(Some(_))` with the generator's answer otherwise,
     * and `Failure` when the analyst raises (a zero mean revenue). `report` is the
     * report data handed to the generator.
     */
    method ExecuteAnalysis(loaded: ToolResult<seq<Row>>, detector: DetectorCall -> ToolResult<seq<real>>,
                           api: string -> MarketTrends.ApiOutcome, generate: ReportData -> ToolResult<string>)
      returns (r: Result<Option<ToolResult<string>>>, report: Option<ReportData>)
      requires Valid()
      requires loaded.success ==> loaded.data.Some?
      modifies context, trends
      ensures Valid()
      ensures !loaded.success ==> r == Success(None) && report == None && unchanged(context) && unchanged(trends)
      ensures loaded.success ==>
                var rows := loaded.data.value;
                var found := FoundBoth(Revenues(rows), detector);
                && "raw_data" in context.data && context.data["raw_data"] == Arr(RowsToJson(rows))
                && "detected_anomalies" in context.data && StoredAnomalies(context.data["detected_anomalies"], found)
                && var listed := AsNums(context.data["detected_anomalies"].items).value;
                && (r.Failure? <==> found != {} && (rows == [] || Mean(Revenues(rows)) == 0.0))
                && (r.Failure? ==> report == None
                                   && context.data == old(context.data)["raw_data" := Arr(RowsToJson(rows))]
                                                      ["detected_anomalies" := context.data["detected_anomalies"]]
                                   && context.keys == KeysAfterSet(KeysAfterSet(old(context.keys), "raw_data"), "detected_anomalies")
                                   && context.updatedAt == old(context.updatedAt) + 2
                                   && unchanged(trends))
                && (r.Success? ==>
                      && Reported(context.data, report)
                      && AgentsStored(context.data, rows, listed, old(trends.State()), trends.hasCredentials, api)
                      && r.value == (if generate(report.value).success then Some(generate(report.value)) else None)
                      && context.data == old(context.data)["raw_data" := Arr(RowsToJson(rows))]
                                            ["detected_anomalies" := context.data["detected_anomalies"]]
                                            ["analysis_result" := context.data["analysis_result"]]
                                            ["recommendation_result" := context.data["recommendation_result"]]
                      && context.keys == KeysAfterSet(KeysAfterSet(KeysAfterSet(KeysAfterSet(old(context.keys),
                                           "raw_data"), "detected_anomalies"), "analysis_result"), "recommendation_result")
                      && context.updatedAt == old(context.updatedAt) + 4
                      && trends.State() == SearchFrom(old(trends.State()), trends.hasCredentials, Take(PatternsFor(rows, listed), 2), api).1)
    {
      if !loaded.success {
        return Success(None), None;
      }
      var rows := loaded.data.value;
      ghost var before := context.data;
      var anomalies := StoreAndDetect(rows, detector);
      ghost var stored := context.data;
      ghost var start := trends.State();
      assert start == old(trends.State());
      AsNumsOfNums(anomalies);
      assert anomalies == [] <==> FoundBoth(Revenues(rows), detector) == {};
      r, report := RunAgents(rows, anomalies, api, generate);
      if r.Success? {
        EarlierEntriesKept(before, Arr(RowsToJson(rows)), anomalies,
                           context.data["analysis_result"], context.data["recommendation_result"], context.data);
      } else {
        assert context.data == stored;
      }
    }
  }
}
