/**
 * The recommendation agent: reads the analysis dictionary, generates action
 * items by fixed rules (two per spike, two per drop, an executive review for a
 * HIGH severity, and always a monitoring item), numbers them "ACT-001",
 * "ACT-002", ... in generation order, sorts them by priority (stable), and
 * derives quick wins, strategic initiatives, a risk assessment and expected
 * outcomes; the result is stored in the shared context under
 * "recommendation_result".
 *
 * Every item the agent builds comes from one of six fixed templates, so an item
 * is its number, the rule (template) that produced it, its owner and its status;
 * the template fixes the title, description, priority, impact, effort, timeline
 * and success metrics.
 */
module Recommendation {
  import opened Wrappers
  import opened Json
  import opened Seqs
  import opened Text
  import opened Context

  datatype Rule =
    | InvestigateSpike | CapitalizeOnSpike
    | RecoveryPlan | RetentionAnalysis
    | ExecutiveReview | EnhancedMonitoring

  /** The values of `expected_impact` and `implementation_effort`. */
  datatype Level = Low | Medium | High

  /** The values of `timeline`. */
  datatype Horizon = Immediate | ShortTerm | LongTerm

  datatype ActionItem = ActionItem(number: nat, rule: Rule, owner: Option<string>, status: string)

  datatype RiskAssessment = RiskAssessment(
    overallRiskLevel: string,
    resourceConstraints: bool,
    timelinePressure: bool,
    mitigationStrategies: seq<string>)

  datatype Outcome = Outcome(outcome: string, probability: string, timeframe: string, quantitativeImpact: string)

  datatype RecommendationResult = RecommendationResult(
    actionItems: seq<ActionItem>,
    quickWins: seq<ActionItem>,
    strategicInitiatives: seq<ActionItem>,
    riskAssessment: RiskAssessment,
    expectedOutcomes: seq<Outcome>)

  // ---- the templates ----

  function Title(r: Rule): string {
    match r
    case InvestigateSpike => "Investigate Revenue Spike Root Cause"
    case CapitalizeOnSpike => "Capitalize on Spike Drivers"
    case RecoveryPlan => "Emergency Revenue Recovery Plan"
    case RetentionAnalysis => "Customer Retention Analysis"
    case ExecutiveReview => "Executive Review and Decision"
    case EnhancedMonitoring => "Enhanced Monitoring System"
  }

  function Description(r: Rule): string {
    match r
    case InvestigateSpike =>
      "Analyze the factors contributing to the revenue spike to determine if it's sustainable or one-time event."
    case CapitalizeOnSpike =>
      "If spike is driven by specific factors (promotion, product), develop strategy to replicate success."
    case RecoveryPlan => "Develop and implement immediate actions to stabilize and recover revenue."
    case RetentionAnalysis => "Analyze customer churn and implement retention strategies."
    case ExecutiveReview => "Escalate findings to executive team for strategic review and decision-making."
    case EnhancedMonitoring => "Implement real-time monitoring to detect similar patterns early."
  }

  function Priority(r: Rule): nat {
    match r
    case InvestigateSpike => 2
    case CapitalizeOnSpike => 1
    case RecoveryPlan => 1
    case RetentionAnalysis => 2
    case ExecutiveReview => 1
    case EnhancedMonitoring => 3
  }

  function Impact(r: Rule): Level {
    match r
    case RetentionAnalysis => Medium
    case EnhancedMonitoring => Medium
    case _ => High
  }

  function Effort(r: Rule): Level {
    match r
    case RecoveryPlan => High
    case ExecutiveReview => Low
    case _ => Medium
  }

  function Timeline(r: Rule): Horizon {
    match r
    case CapitalizeOnSpike => ShortTerm
    case RetentionAnalysis => ShortTerm
    case EnhancedMonitoring => LongTerm
    case _ => Immediate
  }

  function SuccessMetrics(r: Rule): seq<string> {
    match r
    case InvestigateSpike => ["Root cause identified", "Sustainability assessment completed"]
    case CapitalizeOnSpike => ["Strategy documented", "Implementation plan created"]
    case RecoveryPlan => ["Recovery plan deployed", "Revenue stabilized"]
    case RetentionAnalysis => ["Churn rate reduced by 15%", "Retention program launched"]
    case ExecutiveReview => ["Executive briefing completed", "Strategic decisions documented"]
    case EnhancedMonitoring => ["Monitoring system deployed", "Alert thresholds configured"]
  }

  function LevelName(l: Level): string {
    match l
    case Low => "Low"
    case Medium => "Medium"
    case High => "High"
  }

  function HorizonName(h: Horizon): string {
    match h
    case Immediate => "Immediate"
    case ShortTerm => "Short-term"
    case LongTerm => "Long-term"
  }

  // ---- identifiers ----

  /** `f"ACT-{n:03d}"`. */
  function ActionId(n: nat): string {
    "ACT-" + ZeroPadded(n, 3)
  }

  /** Reads the number back out of an identifier. */
  function ParseActionId(s: string): Option<nat> {
    if |s| >= 4 && s[..4] == "ACT-" && AllDigits(s[4..]) then Some(DigitsValue(s[4..])) else None
  }

  lemma ActionIdRoundTrip(n: nat)
    ensures ParseActionId(ActionId(n)) == Some(n)
  {
    assert ActionId(n)[..4] == "ACT-";
    assert ActionId(n)[4..] == ZeroPadded(n, 3);
    ZeroPaddedValue(n, 3);
  }

  /** Distinct numbers give distinct identifiers. */
  lemma ActionIdInjective(a: nat, b: nat)
    ensures ActionId(a) == ActionId(b) <==> a == b
  {
    ActionIdRoundTrip(a);
    ActionIdRoundTrip(b);
  }

  // ---- reading the analysis dictionary ----

  /** What iterating `analysis.get("patterns", [])` and calling `pattern.get` needs: a list of dictionaries. */
  ghost predicate WellFormedAnalysis(analysis: map<string, Json>) {
    "patterns" in analysis ==>
      && analysis["patterns"].Arr?
      && forall i :: 0 <= i < |analysis["patterns"].items| ==> analysis["patterns"].items[i].Obj?
  }

  function PatternsOf(analysis: map<string, Json>): (ps: seq<Json>)
    requires WellFormedAnalysis(analysis)
    ensures forall i :: 0 <= i < |ps| ==> ps[i].Obj?
  {
    if "patterns" in analysis then analysis["patterns"].items else []
  }

  /** `pattern.get("pattern_type", "unknown") == kind`. */
  predicate HasType(p: Json, kind: string) {
    p.Obj? && GetOr(p.fields, "pattern_type", Str("unknown")) == Str(kind)
  }

  /** Which rule a pattern triggers, decided once from its `pattern_type`. */
  datatype PatternKind = SpikePattern | DropPattern | OtherPattern

  function KindOf(p: Json): (k: PatternKind)
    ensures k == SpikePattern <==> HasType(p, "spike")
    ensures k == DropPattern <==> HasType(p, "drop")
  {
    if HasType(p, "spike") then SpikePattern else if HasType(p, "drop") then DropPattern else OtherPattern
  }

  function KindsOf(ps: seq<Json>): (ks: seq<PatternKind>)
    ensures |ks| == |ps| && forall i :: 0 <= i < |ps| ==> ks[i] == KindOf(ps[i])
  {
    seq(|ps|, i requires 0 <= i < |ps| => KindOf(ps[i]))
  }

  /** The kinds of the analysis's patterns, in order. */
  function Kinds(analysis: map<string, Json>): seq<PatternKind>
    requires WellFormedAnalysis(analysis)
  {
    KindsOf(PatternsOf(analysis))
  }

  predicate IsSpike(k: PatternKind) { k == SpikePattern }
  predicate IsDrop(k: PatternKind) { k == DropPattern }

  /** `analysis.get("severity", "MEDIUM") == "HIGH"`. */
  predicate SeverityIsHigh(analysis: map<string, Json>): (b: bool)
    ensures b ==> "severity" in analysis && analysis["severity"] == Str("HIGH")
  {
    GetOr(analysis, "severity", Str("MEDIUM")) == Str("HIGH")
  }

  /** A freshly built item: no owner, status "pending". */
  function NewItem(n: nat, r: Rule): ActionItem {
    ActionItem(n, r, None, "pending")
  }

  function ActionsFor(k: PatternKind, n: nat): (r: seq<ActionItem>)
    ensures |r| == if k == OtherPattern then 0 else 2
  {
    match k
    case SpikePattern => [NewItem(n, InvestigateSpike), NewItem(n + 1, CapitalizeOnSpike)]
    case DropPattern => [NewItem(n, RecoveryPlan), NewItem(n + 1, RetentionAnalysis)]
    case OtherPattern => []
  }

  /** A rule the pattern loop applies: one of the two spike and the two drop templates. */
  predicate IsPatternRule(r: Rule) {
    r == InvestigateSpike || r == CapitalizeOnSpike || r == RecoveryPlan || r == RetentionAnalysis
  }

  /** The items generated for the patterns, numbered from 1 in generation order. */
  function PatternActions(ps: seq<PatternKind>): (r: seq<ActionItem>)
    ensures forall i :: 0 <= i < |r| ==> IsPatternRule(r[i].rule) && r[i].owner.None? && r[i].status == "pending"
  {
    if ps == [] then []
    else
      var init := PatternActions(ps[..|ps| - 1]);
      init + ActionsFor(ps[|ps| - 1], |init| + 1)
  }

  /** Every item generated for one analysis, before the sort. */
  function Unsorted(analysis: map<string, Json>): (r: seq<ActionItem>)
    requires WellFormedAnalysis(analysis)
    ensures r != [] && r[|r| - 1] == NewItem(|r|, EnhancedMonitoring)
    ensures SeverityIsHigh(analysis) ==> |r| >= 2 && r[|r| - 2] == NewItem(|r| - 1, ExecutiveReview)
  {
    var items := PatternActions(Kinds(analysis));
    var reviewed := if SeverityIsHigh(analysis) then items + [NewItem(|items| + 1, ExecutiveReview)] else items;
    reviewed + [NewItem(|reviewed| + 1, EnhancedMonitoring)]
  }

  function PriorityKey(a: ActionItem): real { Priority(a.rule) as real }

  function ItemId(a: ActionItem): string { ActionId(a.number) }

  /**
   * `_generate_base_recommendations`: the rule loop over the patterns with a
   * running `action_id`, the severity and monitoring items, then
   * `sort(key=priority)`.
   */
  method GenerateBaseRecommendations(analysis: map<string, Json>) returns (r: seq<ActionItem>)
    requires WellFormedAnalysis(analysis)
    ensures r == SortBy(Unsorted(analysis), PriorityKey)
  {
    var recommendations, actionId := GeneratePatternItems(PatternsOf(analysis));
    if SeverityIsHigh(analysis) {
      recommendations := recommendations + [NewItem(actionId, ExecutiveReview)];
      actionId := actionId + 1;
    }
    recommendations := recommendations + [NewItem(actionId, EnhancedMonitoring)];
    r := SortBy(recommendations, PriorityKey);
  }

  /** The rule loop over the patterns, with the running `action_id` it leaves behind. */
  method GeneratePatternItems(patterns: seq<Json>) returns (items: seq<ActionItem>, actionId: nat)
    requires forall i :: 0 <= i < |patterns| ==> patterns[i].Obj?
    ensures items == PatternActions(KindsOf(patterns))
    ensures actionId == |items| + 1
  {
    ghost var kinds := KindsOf(patterns);
    items := [];
    actionId := 1;
    for i := 0 to |patterns|
      invariant items == PatternActions(kinds[..i])
      invariant actionId == |items| + 1
    {
      PatternActionsStep(kinds, i);
      items, actionId := AddPatternItems(items, actionId, KindOf(patterns[i]));
    }
    assert kinds[..|kinds|] == kinds;
  }

  /** The rule branch for one pattern: two numbered items for a spike or a drop, none otherwise. */
  method AddPatternItems(items: seq<ActionItem>, actionId: nat, kind: PatternKind)
    returns (items': seq<ActionItem>, actionId': nat)
    ensures items' == items + ActionsFor(kind, actionId)
    ensures actionId' == actionId + |ActionsFor(kind, actionId)|
  {
    items', actionId' := items, actionId;
    if kind == SpikePattern {
      items' := items' + [NewItem(actionId', InvestigateSpike)];
      actionId' := actionId' + 1;
      items' := items' + [NewItem(actionId', CapitalizeOnSpike)];
      actionId' := actionId' + 1;
    } else if kind == DropPattern {
      items' := items' + [NewItem(actionId', RecoveryPlan)];
      actionId' := actionId' + 1;
      items' := items' + [NewItem(actionId', RetentionAnalysis)];
      actionId' := actionId' + 1;
    }
  }

  lemma PatternActionsStep(ks: seq<PatternKind>, i: nat)
    requires i < |ks|
    ensures PatternActions(ks[..i + 1]) == PatternActions(ks[..i]) + ActionsFor(ks[i], |PatternActions(ks[..i])| + 1)
  {
    assert ks[..i + 1][..i] == ks[..i];
  }

  // ---- properties of the generated items ----

  lemma Count1<T>(a: T, p: T -> bool)
    ensures Count([a], p) == if p(a) then 1 else 0
  {
    assert [a][1..] == [];
  }

  lemma Count2<T>(a: T, b: T, p: T -> bool)
    ensures Count([a, b], p) == (if p(a) then 1 else 0) + (if p(b) then 1 else 0)
  {
    assert [a, b][1..] == [b];
    Count1(b, p);
  }

  function HasRule(q: Rule -> bool): ActionItem -> bool {
    (a: ActionItem) => q(a.rule)
  }

  /** `n` when `q` holds of `r`, else nothing: what the items built from rule `r` add to a count. */
  function IfRule(q: Rule -> bool, r: Rule, n: nat): nat {
    if q(r) then n else 0
  }

  /**
   * Counting a rule property over the pattern items: each spike adds its
   * investigation and capitalisation items, each drop its recovery and retention
   * items.
   */
  lemma {:induction false} CountPatternActions(ps: seq<PatternKind>, q: Rule -> bool)
    ensures var spikes := Count(ps, IsSpike);
            var drops := Count(ps, IsDrop);
            Count(PatternActions(ps), HasRule(q))
              == IfRule(q, InvestigateSpike, spikes) + IfRule(q, CapitalizeOnSpike, spikes)
                 + IfRule(q, RecoveryPlan, drops) + IfRule(q, RetentionAnalysis, drops)
  {
    if ps != [] {
      CountPatternActions(ps[..|ps| - 1], q);
      CountPatternActionsStep(ps, q);
    }
  }

  /** The arithmetic of one step: the new pattern's items add to the tally of its kind. */
  lemma TallyStep(q: Rule -> bool, a: nat, spikes: nat, drops: nat, last: PatternKind, b: nat, spikes': nat, drops': nat)
    requires a == IfRule(q, InvestigateSpike, spikes) + IfRule(q, CapitalizeOnSpike, spikes)
                 + IfRule(q, RecoveryPlan, drops) + IfRule(q, RetentionAnalysis, drops)
    requires b == (if last == SpikePattern then IfRule(q, InvestigateSpike, 1) + IfRule(q, CapitalizeOnSpike, 1)
                   else if last == DropPattern then IfRule(q, RecoveryPlan, 1) + IfRule(q, RetentionAnalysis, 1)
                   else 0)
    requires spikes' == spikes + (if last == SpikePattern then 1 else 0)
    requires drops' == drops + (if last == DropPattern then 1 else 0)
    ensures a + b == IfRule(q, InvestigateSpike, spikes') + IfRule(q, CapitalizeOnSpike, spikes')
                     + IfRule(q, RecoveryPlan, drops') + IfRule(q, RetentionAnalysis, drops')
  {
  }

  /** The tally of `CountPatternActions` carries over from all but the last pattern to all of them. */
  lemma CountPatternActionsStep(ps: seq<PatternKind>, q: Rule -> bool)
    requires ps != []
    requires var init := ps[..|ps| - 1];
             var spikes := Count(init, IsSpike);
             var drops := Count(init, IsDrop);
             Count(PatternActions(init), HasRule(q))
               == IfRule(q, InvestigateSpike, spikes) + IfRule(q, CapitalizeOnSpike, spikes)
                  + IfRule(q, RecoveryPlan, drops) + IfRule(q, RetentionAnalysis, drops)
    ensures var spikes := Count(ps, IsSpike);
            var drops := Count(ps, IsDrop);
            Count(PatternActions(ps), HasRule(q))
              == IfRule(q, InvestigateSpike, spikes) + IfRule(q, CapitalizeOnSpike, spikes)
                 + IfRule(q, RecoveryPlan, drops) + IfRule(q, RetentionAnalysis, drops)
  {
    var init, last := ps[..|ps| - 1], ps[|ps| - 1];
    var added := ActionsFor(last, |PatternActions(init)| + 1);
    LastPatternCounts(ps, q);
    TallyStep(q, Count(PatternActions(init), HasRule(q)), Count(init, IsSpike), Count(init, IsDrop), last,
              Count(added, HasRule(q)), Count(ps, IsSpike), Count(ps, IsDrop));
  }

  /** The last pattern adds the count of its own items to those before it. */
  lemma LastPatternCounts(ps: seq<PatternKind>, q: Rule -> bool)
    requires ps != []
    ensures var init, last := ps[..|ps| - 1], ps[|ps| - 1];
            var added := ActionsFor(last, |PatternActions(init)| + 1);
            && Count(PatternActions(ps), HasRule(q)) == Count(PatternActions(init), HasRule(q)) + Count(added, HasRule(q))
            && Count(ps, IsSpike) == Count(init, IsSpike) + (if last == SpikePattern then 1 else 0)
            && Count(ps, IsDrop) == Count(init, IsDrop) + (if last == DropPattern then 1 else 0)
            && Count(added, HasRule(q))
               == (if last == SpikePattern then IfRule(q, InvestigateSpike, 1) + IfRule(q, CapitalizeOnSpike, 1)
                   else if last == DropPattern then IfRule(q, RecoveryPlan, 1) + IfRule(q, RetentionAnalysis, 1)
                   else 0)
  {
    var init, last := ps[..|ps| - 1], ps[|ps| - 1];
    assert init + [last] == ps;
    var before := PatternActions(init);
    var added := ActionsFor(last, |before| + 1);
    CountAppend(before, added, HasRule(q));
    CountAppend(init, [last], IsSpike);
    CountAppend(init, [last], IsDrop);
    Count1(last, IsSpike);
    Count1(last, IsDrop);
    if last != OtherPattern {
      Count2(added[0], added[1], HasRule(q));
      assert added == [added[0], added[1]];
    }
  }

  /**
   * Counting a rule property over everything generated, sorted or not: the
   * pattern items, then the review item and the monitoring item.
   */
  lemma CountGenerated(analysis: map<string, Json>, q: Rule -> bool)
    requires WellFormedAnalysis(analysis)
    ensures var ps := Kinds(analysis);
            var spikes := Count(ps, IsSpike);
            var drops := Count(ps, IsDrop);
            Count(SortBy(Unsorted(analysis), PriorityKey), HasRule(q))
              == IfRule(q, InvestigateSpike, spikes) + IfRule(q, CapitalizeOnSpike, spikes)
                 + IfRule(q, RecoveryPlan, drops) + IfRule(q, RetentionAnalysis, drops)
                 + (if SeverityIsHigh(analysis) then IfRule(q, ExecutiveReview, 1) else 0)
                 + IfRule(q, EnhancedMonitoring, 1)
  {
    var ps := Kinds(analysis);
    var items := PatternActions(ps);
    CountPatternActions(ps, q);
    var review := NewItem(|items| + 1, ExecutiveReview);
    var reviewed := if SeverityIsHigh(analysis) then items + [review] else items;
    if SeverityIsHigh(analysis) {
      CountAppend(items, [review], HasRule(q));
      Count1(review, HasRule(q));
    }
    var monitoring := NewItem(|reviewed| + 1, EnhancedMonitoring);
    CountAppend(reviewed, [monitoring], HasRule(q));
    Count1(monitoring, HasRule(q));
    assert Unsorted(analysis) == reviewed + [monitoring];
    CountSortBy(Unsorted(analysis), PriorityKey, HasRule(q));
  }

  lemma {:induction false} PatternActionsNumbers(ps: seq<PatternKind>)
    ensures forall i :: 0 <= i < |PatternActions(ps)| ==> PatternActions(ps)[i].number == i + 1
  {
    if ps != [] {
      var init: seq<ActionItem> := PatternActions(ps[..|ps| - 1]);
      var added: seq<ActionItem> := ActionsFor(ps[|ps| - 1], |init| + 1);
      var all: seq<ActionItem> := init + added;
      PatternActionsNumbers(ps[..|ps| - 1]);
      forall i | 0 <= i < |all| ensures all[i].number == i + 1 {
        if i >= |init| {
          assert all[i] == added[i - |init|];
        }
      }
    }
  }

  /** Before the sort, the items are numbered 1, 2, 3, ... in generation order. */
  lemma NumbersAreSequential(analysis: map<string, Json>)
    requires WellFormedAnalysis(analysis)
    ensures forall i :: 0 <= i < |Unsorted(analysis)| ==> Unsorted(analysis)[i].number == i + 1
  {
    PatternActionsNumbers(Kinds(analysis));
  }

  /** The identifiers of the generated items are pairwise distinct, before and after the sort. */
  lemma IdsAreDistinct(analysis: map<string, Json>)
    requires WellFormedAnalysis(analysis)
    ensures DistinctBy(Unsorted(analysis), ItemId)
    ensures DistinctBy(SortBy(Unsorted(analysis), PriorityKey), ItemId)
  {
    var u := Unsorted(analysis);
    NumbersAreSequential(analysis);
    forall i, j | 0 <= i < j < |u| ensures ItemId(u[i]) != ItemId(u[j]) {
      ActionIdInjective(u[i].number, u[j].number);
    }
    SortByKeepsDistinct(u, PriorityKey, ItemId);
  }

  /** Two items per spike, two per drop, one for a HIGH severity and the monitoring item. */
  lemma GeneratedCount(analysis: map<string, Json>)
    requires WellFormedAnalysis(analysis)
    ensures var ps := Kinds(analysis);
            |SortBy(Unsorted(analysis), PriorityKey)|
              == 2 * (Count(ps, IsSpike) + Count(ps, IsDrop)) + (if SeverityIsHigh(analysis) then 1 else 0) + 1
  {
    var any := (r: Rule) => true;
    CountGenerated(analysis, any);
    CountAll(SortBy(Unsorted(analysis), PriorityKey), HasRule(any));
  }

  lemma {:induction false} CountAll<T>(s: seq<T>, p: T -> bool)
    requires forall x :: p(x)
    ensures Count(s, p) == |s|
  {
    if s != [] {
      CountAll(s[1..], p);
    }
  }

  /** The items are ordered by priority, and items of equal priority keep their generation order. */
  lemma GeneratedOrder(analysis: map<string, Json>)
    requires WellFormedAnalysis(analysis)
    ensures StablySorted(SortBy(Unsorted(analysis), PriorityKey), Unsorted(analysis), PriorityKey)
    ensures multiset(SortBy(Unsorted(analysis), PriorityKey)) == multiset(Unsorted(analysis))
  {
    SortByIsStable(Unsorted(analysis), PriorityKey);
  }

  /** Exactly one monitoring item is generated. */
  lemma ExactlyOneMonitoringItem(analysis: map<string, Json>)
    requires WellFormedAnalysis(analysis)
    ensures Count(SortBy(Unsorted(analysis), PriorityKey), HasRule(r => r == EnhancedMonitoring)) == 1
  {
    CountGenerated(analysis, r => r == EnhancedMonitoring);
  }

  /** The monitoring item is the only one with priority 3, so the sort puts it last. */
  lemma MonitoringSortsLast(analysis: map<string, Json>)
    requires WellFormedAnalysis(analysis)
    ensures var sorted := SortBy(Unsorted(analysis), PriorityKey);
            sorted != [] && sorted[|sorted| - 1].rule == EnhancedMonitoring
  {
    var u := Unsorted(analysis);
    var sorted := SortBy(u, PriorityKey);
    SortByIsStable(u, PriorityKey);
    var monitoring := u[|u| - 1];
    assert monitoring.rule == EnhancedMonitoring;
    assert monitoring in multiset(u);
    assert monitoring in sorted;
    SortedLastIsMax(sorted, PriorityKey, monitoring);
    OnlyMonitoringIsLowPriority(sorted[|sorted| - 1].rule);
  }

  lemma OnlyMonitoringIsLowPriority(r: Rule)
    requires Priority(r) >= 3
    ensures r == EnhancedMonitoring
  {
  }

  /** Without a "severity" entry the severity is taken as MEDIUM, so no executive review is generated. */
  lemma MissingSeverityAddsNoReview(analysis: map<string, Json>)
    requires WellFormedAnalysis(analysis) && "severity" !in analysis
    ensures Count(SortBy(Unsorted(analysis), PriorityKey), HasRule(r => r == ExecutiveReview)) == 0
  {
    CountGenerated(analysis, r => r == ExecutiveReview);
  }

  // ---- categories, risks and outcomes ----

  predicate IsQuickWin(a: ActionItem) { Effort(a.rule) == Low && Priority(a.rule) <= 2 }
  predicate IsStrategic(a: ActionItem) { (Timeline(a.rule) == LongTerm || Timeline(a.rule) == ShortTerm) && Impact(a.rule) == High }

  /**
   * `_categorize_recommendations`: the quick wins (low effort, priority at most 2)
   * and the strategic initiatives (long- or short-term, high impact), each an
   * order-preserving selection of the items.
   */
  function Categorize(items: seq<ActionItem>): (r: (seq<ActionItem>, seq<ActionItem>))
    ensures IsSubsequence(r.0, items) && IsSubsequence(r.1, items)
    ensures forall i :: 0 <= i < |r.0| ==> IsQuickWin(r.0[i])
    ensures forall i :: 0 <= i < |items| && IsQuickWin(items[i]) ==> items[i] in r.0
    ensures forall i :: 0 <= i < |r.1| ==> IsStrategic(r.1[i])
    ensures forall i :: 0 <= i < |items| && IsStrategic(items[i]) ==> items[i] in r.1
    ensures |r.0| == Count(items, IsQuickWin) && |r.1| == Count(items, IsStrategic)
  {
    FilterIsSubsequence(items, IsQuickWin);
    FilterIsSubsequence(items, IsStrategic);
    (Filter(items, IsQuickWin), Filter(items, IsStrategic))
  }

  /** Among generated items the only quick win is the executive review. */
  lemma QuickWinsOfGenerated(analysis: map<string, Json>)
    requires WellFormedAnalysis(analysis)
    ensures |Categorize(SortBy(Unsorted(analysis), PriorityKey)).0| == if SeverityIsHigh(analysis) then 1 else 0
  {
    var quick := (r: Rule) => Effort(r) == Low && Priority(r) <= 2;
    CountGenerated(analysis, quick);
    SameCount(SortBy(Unsorted(analysis), PriorityKey), IsQuickWin, HasRule(quick));
  }

  /** Among generated items the strategic initiatives are the capitalisation items, one per spike. */
  lemma StrategicOfGenerated(analysis: map<string, Json>)
    requires WellFormedAnalysis(analysis)
    ensures |Categorize(SortBy(Unsorted(analysis), PriorityKey)).1| == Count(Kinds(analysis), IsSpike)
  {
    var strategic := (r: Rule) => (Timeline(r) == LongTerm || Timeline(r) == ShortTerm) && Impact(r) == High;
    CountGenerated(analysis, strategic);
    SameCount(SortBy(Unsorted(analysis), PriorityKey), IsStrategic, HasRule(strategic));
  }

  lemma {:induction false} SameCount<T>(s: seq<T>, p: T -> bool, q: T -> bool)
    requires forall x :: p(x) == q(x)
    ensures Count(s, p) == Count(s, q)
  {
    if s != [] {
      SameCount(s[1..], p, q);
    }
  }

  predicate IsPriorityOne(a: ActionItem) { Priority(a.rule) == 1 }
  predicate IsHighEffort(a: ActionItem) { Effort(a.rule) == High }
  predicate IsHighImpact(a: ActionItem) { Impact(a.rule) == High }

  const MitigationStrategies := ["Prioritize critical actions", "Allocate dedicated resources",
                                 "Establish clear ownership", "Regular progress monitoring"]

  /**
   * `_assess_risks`: HIGH with at least three priority-1 items or two high-effort
   * items, else MEDIUM with at least two priority-1 items or one high-effort
   * item, else LOW.
   */
  function AssessRisks(items: seq<ActionItem>): (r: RiskAssessment)
    ensures var urgent := Count(items, IsPriorityOne);
            var heavy := Count(items, IsHighEffort);
            && (r.overallRiskLevel == "HIGH" <==> urgent >= 3 || heavy >= 2)
            && (r.overallRiskLevel == "MEDIUM" <==> !(urgent >= 3 || heavy >= 2) && (urgent >= 2 || heavy >= 1))
            && (r.overallRiskLevel == "LOW" <==> urgent < 2 && heavy == 0)
            && (r.resourceConstraints <==> heavy >= 2)
            && (r.timelinePressure <==> urgent >= 3)
            && r.mitigationStrategies == MitigationStrategies
  {
    var urgent := Count(items, IsPriorityOne);
    var heavy := Count(items, IsHighEffort);
    var level := if urgent >= 3 || heavy >= 2 then "HIGH" else if urgent >= 2 || heavy >= 1 then "MEDIUM" else "LOW";
    RiskAssessment(level, heavy >= 2, urgent >= 3, MitigationStrategies)
  }

  /**
   * For generated items: every drop adds one high-effort item, and every spike,
   * drop and HIGH severity one priority-1 item.
   */
  lemma RisksOfGenerated(analysis: map<string, Json>)
    requires WellFormedAnalysis(analysis)
    ensures var ps := Kinds(analysis);
            var urgent := Count(ps, IsSpike) + Count(ps, IsDrop) + (if SeverityIsHigh(analysis) then 1 else 0);
            var risk := AssessRisks(SortBy(Unsorted(analysis), PriorityKey));
            && (risk.resourceConstraints <==> Count(ps, IsDrop) >= 2)
            && (risk.timelinePressure <==> urgent >= 3)
            && (risk.overallRiskLevel == "HIGH" <==> urgent >= 3 || Count(ps, IsDrop) >= 2)
  {
    var sorted := SortBy(Unsorted(analysis), PriorityKey);
    var one := (r: Rule) => Priority(r) == 1;
    var heavy := (r: Rule) => Effort(r) == High;
    CountGenerated(analysis, one);
    CountGenerated(analysis, heavy);
    SameCount(sorted, IsPriorityOne, HasRule(one));
    SameCount(sorted, IsHighEffort, HasRule(heavy));
  }

  const Stabilization := Outcome("Revenue stabilization and growth", "High", "1-3 months", "10-25% improvement")
  const Visibility := Outcome("Improved operational visibility", "High", "1-2 months", "Real-time monitoring established")
  const DecisionMaking := Outcome("Enhanced decision-making capability", "Medium", "3-6 months", "Reduced response time by 50%")

  /** `_predict_outcomes`: the growth outcome only with two or more high-impact items, then the two fixed ones. */
  function PredictOutcomes(items: seq<ActionItem>): (r: seq<Outcome>)
    ensures |r| == if Count(items, IsHighImpact) >= 2 then 3 else 2
    ensures r[|r| - 2] == Visibility && r[|r| - 1] == DecisionMaking
    ensures |r| == 3 ==> r[0] == Stabilization
  {
    (if Count(items, IsHighImpact) >= 2 then [Stabilization] else []) + [Visibility, DecisionMaking]
  }

  /** For generated items the growth outcome appears exactly when spikes, drops and a HIGH severity make two high-impact items. */
  lemma OutcomesOfGenerated(analysis: map<string, Json>)
    requires WellFormedAnalysis(analysis)
    ensures var ps := Kinds(analysis);
            (|PredictOutcomes(SortBy(Unsorted(analysis), PriorityKey))| == 3)
              <==> (2 * Count(ps, IsSpike) + Count(ps, IsDrop) + (if SeverityIsHigh(analysis) then 1 else 0) >= 2)
  {
    var high := (r: Rule) => Impact(r) == High;
    CountGenerated(analysis, high);
    SameCount(SortBy(Unsorted(analysis), PriorityKey), IsHighImpact, HasRule(high));
  }

  // ---- dictionaries ----

  function OwnerToJson(owner: Option<string>): Json {
    match owner
    case Some(s) => Str(s)
    case None => Null
  }

  function OwnerFromJson(j: Json): Option<Option<string>> {
    match j
    case Null => Some(None)
    case Str(s) => Some(Some(s))
    case _ => None
  }

  /** `_action_to_dict`: the template's entries with the item's identifier, title, owner and status. */
  function ActionToJson(a: ActionItem): (j: Json)
    ensures j.Obj? && StrField(j.fields, "id") == Some(ActionId(a.number)) && StrField(j.fields, "title") == Some(Title(a.rule))
    ensures StrField(j.fields, "status") == Some(a.status) && "owner" in j.fields && j.fields["owner"] == OwnerToJson(a.owner)
  {
    ActionEntries(TemplateFields(a.rule), Title(a.rule), OwnerToJson(a.owner), a.status, ActionId(a.number));
    Obj(WithEntries(TemplateFields(a.rule), Title(a.rule), OwnerToJson(a.owner), a.status, ActionId(a.number)))
  }

  /** `base` with the item's own title, owner, status and identifier added. */
  function WithEntries(base: map<string, Json>, title: string, owner: Json, status: string, id: string): map<string, Json> {
    base["title" := Str(title)]["owner" := owner]["status" := Str(status)]["id" := Str(id)]
  }

  /** The entries of `_action_to_dict` that the template fixes, apart from the title. */
  function TemplateFields(r: Rule): map<string, Json> {
    TemplateEntries(Description(r), Priority(r), LevelName(Impact(r)), LevelName(Effort(r)),
                    HorizonName(Timeline(r)), SuccessMetrics(r))
  }

  function TemplateEntries(description: string, priority: nat, impact: string, effort: string,
                           timeline: string, metrics: seq<string>): map<string, Json> {
    map["description" := Str(description), "priority" := Num(priority as real),
        "expected_impact" := Str(impact), "implementation_effort" := Str(effort),
        "timeline" := Str(timeline), "success_metrics" := Arr(Strs(metrics))]
  }

  /** The template with a given title. */
  function RuleOfTitle(title: string): Option<Rule> {
    if title == Title(InvestigateSpike) then Some(InvestigateSpike)
    else if title == Title(CapitalizeOnSpike) then Some(CapitalizeOnSpike)
    else if title == Title(RecoveryPlan) then Some(RecoveryPlan)
    else if title == Title(RetentionAnalysis) then Some(RetentionAnalysis)
    else if title == Title(ExecutiveReview) then Some(ExecutiveReview)
    else if title == Title(EnhancedMonitoring) then Some(EnhancedMonitoring)
    else None
  }

  /** Titles tell the templates apart. */
  lemma RuleOfTitleInverts(r: Rule)
    ensures RuleOfTitle(Title(r)) == Some(r)
  {
    assert |Title(InvestigateSpike)| == 36;
    assert |Title(CapitalizeOnSpike)| == 27;
    assert |Title(RecoveryPlan)| == 31;
    assert |Title(RetentionAnalysis)| == 27 && Title(RetentionAnalysis)[1] != Title(CapitalizeOnSpike)[1];
    assert |Title(ExecutiveReview)| == 29;
    assert |Title(EnhancedMonitoring)| == 26;
  }

  /** `d[key]` when it is a string. */
  function StrField(f: map<string, Json>, key: string): Option<string> {
    if key in f && f[key].Str? then Some(f[key].s) else None
  }

  /** Reads an action dictionary back from its identifier, title, owner and status. */
  function ActionFromJson(j: Json): Option<ActionItem> {
    if !j.Obj? || "owner" !in j.fields then None
    else ActionFrom(StrField(j.fields, "id"), StrField(j.fields, "title"), OwnerFromJson(j.fields["owner"]), StrField(j.fields, "status"))
  }

  function ActionFrom(id: Option<string>, title: Option<string>, owner: Option<Option<string>>, status: Option<string>): Option<ActionItem> {
    if id.None? || title.None? || owner.None? || status.None? then None
    else
      var number := ParseActionId(id.value);
      var rule := RuleOfTitle(title.value);
      if number.None? || rule.None? then None
      else Some(ActionItem(number.value, rule.value, owner.value, status.value))
  }

  /** The four entries the reader looks at. */
  lemma ActionEntries(base: map<string, Json>, title: string, owner: Json, status: string, id: string)
    ensures var f := WithEntries(base, title, owner, status, id);
            && StrField(f, "id") == Some(id)
            && StrField(f, "title") == Some(title)
            && StrField(f, "status") == Some(status)
            && "owner" in f && f["owner"] == owner
  {
  }

  /** What the reader makes of those entries is the item. */
  lemma ActionFromEntries(a: ActionItem)
    ensures ActionFrom(Some(ActionId(a.number)), Some(Title(a.rule)), OwnerFromJson(OwnerToJson(a.owner)), Some(a.status)) == Some(a)
  {
    ActionIdRoundTrip(a.number);
    RuleOfTitleInverts(a.rule);
    OwnerRoundTrip(a.owner);
    ActionFromParts(ActionId(a.number), Title(a.rule), a.owner, a.status, a.number, a.rule);
  }

  lemma OwnerRoundTrip(owner: Option<string>)
    ensures OwnerFromJson(OwnerToJson(owner)) == Some(owner)
  {
  }

  lemma ActionFromParts(id: string, title: string, owner: Option<string>, status: string, number: nat, rule: Rule)
    requires ParseActionId(id) == Some(number) && RuleOfTitle(title) == Some(rule)
    ensures ActionFrom(Some(id), Some(title), Some(owner), Some(status)) == Some(ActionItem(number, rule, owner, status))
  {
  }

  /** `_action_to_dict` loses nothing: reading the dictionary back gives the item. */
  lemma ActionRoundTrip(a: ActionItem)
    ensures ActionFromJson(ActionToJson(a)) == Some(a)
  {
    ActionEntries(TemplateFields(a.rule), Title(a.rule), OwnerToJson(a.owner), a.status, ActionId(a.number));
    ActionFromEntries(a);
  }

  /** `[self._action_to_dict(a) for a in items]`. */
  function ActionsToJson(items: seq<ActionItem>): (r: seq<Json>)
    ensures |r| == |items| && forall i :: 0 <= i < |items| ==> r[i] == ActionToJson(items[i])
  {
    seq(|items|, i requires 0 <= i < |items| => ActionToJson(items[i]))
  }

  /** Reads a list of action dictionaries back; `None` when any of them does not read. */
  function ActionsFromJson(js: seq<Json>): (r: Option<seq<ActionItem>>)
    ensures r.Some? <==> forall i :: 0 <= i < |js| ==> ActionFromJson(js[i]).Some?
    ensures r.Some? ==> |r.value| == |js| && forall i :: 0 <= i < |js| ==> ActionFromJson(js[i]) == Some(r.value[i])
  {
    if forall i :: 0 <= i < |js| ==> ActionFromJson(js[i]).Some?
    then Some(seq(|js|, i requires 0 <= i < |js| => ActionFromJson(js[i]).value))
    else None
  }

  lemma ActionsRoundTrip(items: seq<ActionItem>)
    ensures ActionsFromJson(ActionsToJson(items)) == Some(items)
  {
    var js := ActionsToJson(items);
    forall i | 0 <= i < |items| ensures ActionFromJson(js[i]) == Some(items[i]) {
      ActionRoundTrip(items[i]);
    }
    var r := ActionsFromJson(js);
    assert r.Some?;
    assert r.value == items;
  }

  function RiskToJson(r: RiskAssessment): Json {
    Obj(map["overall_risk_level" := Str(r.overallRiskLevel), "resource_constraints" := Bool(r.resourceConstraints),
            "timeline_pressure" := Bool(r.timelinePressure), "mitigation_strategies" := Arr(Strs(r.mitigationStrategies))])
  }

  function OutcomeToJson(o: Outcome): Json {
    Obj(map["outcome" := Str(o.outcome), "probability" := Str(o.probability), "timeframe" := Str(o.timeframe),
            "quantitative_impact" := Str(o.quantitativeImpact)])
  }

  function OutcomesToJson(os: seq<Outcome>): (r: seq<Json>)
    ensures |r| == |os| && forall i :: 0 <= i < |os| ==> r[i] == OutcomeToJson(os[i])
  {
    if os == [] then [] else [OutcomeToJson(os[0])] + OutcomesToJson(os[1..])
  }

  /** The dictionary stored under "recommendation_result". */
  function RecommendationToJson(r: RecommendationResult): (j: Json)
    ensures j.Obj? && "action_items" in j.fields && j.fields["action_items"] == Arr(ActionsToJson(r.actionItems))
    ensures ActionsFromJson(j.fields["action_items"].items) == Some(r.actionItems)
  {
    ActionsRoundTrip(r.actionItems);
    Obj(map["action_items" := Arr(ActionsToJson(r.actionItems)),
            "quick_wins" := Arr(ActionsToJson(r.quickWins)),
            "strategic_initiatives" := Arr(ActionsToJson(r.strategicInitiatives)),
            "risk_assessment" := RiskToJson(r.riskAssessment),
            "expected_outcomes" := Arr(OutcomesToJson(r.expectedOutcomes))])
  }

  /**
   * The recommendation `generate_recommendations` builds from an analysis: the
   * sorted items, and the categories, risks and outcomes derived from them.
   */
  function RecommendationFor(analysis: map<string, Json>): RecommendationResult
    requires WellFormedAnalysis(analysis)
  {
    var items := SortBy(Unsorted(analysis), PriorityKey);
    var categories := Categorize(items);
    RecommendationResult(items, categories.0, categories.1, AssessRisks(items), PredictOutcomes(items))
  }

  /**
   * `generate_recommendations(analysis)`: generates and sorts the items, derives
   * the categories, risks and outcomes from them, and stores the result under
   * "recommendation_result" (one `set`).
   */
  method GenerateRecommendations(ctx: SharedContext, analysis: map<string, Json>) returns (r: RecommendationResult)
    requires ctx.Valid() && WellFormedAnalysis(analysis)
    modifies ctx
    ensures ctx.Valid()
    ensures r.actionItems == SortBy(Unsorted(analysis), PriorityKey)
    ensures (r.quickWins, r.strategicInitiatives) == Categorize(r.actionItems)
    ensures r.riskAssessment == AssessRisks(r.actionItems)
    ensures r.expectedOutcomes == PredictOutcomes(r.actionItems)
    ensures r == RecommendationFor(analysis)
    ensures ctx.data == old(ctx.data)["recommendation_result" := RecommendationToJson(r)]
    ensures ctx.keys == KeysAfterSet(old(ctx.keys), "recommendation_result")
    ensures ctx.updatedAt == old(ctx.updatedAt) + 1
  {
    var items := GenerateBaseRecommendations(analysis);
    var categories := Categorize(items);
    r := RecommendationResult(items, categories.0, categories.1, AssessRisks(items), PredictOutcomes(items));
    ctx.Set("recommendation_result", RecommendationToJson(r));
  }
}
