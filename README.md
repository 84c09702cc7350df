# Multi-agent business analytics pipeline — a Dafny model

This project models the in-memory orchestration layer of a multi-agent
business-analytics pipeline and the fixed business rules its agents apply.
The coordinator loads revenue rows and asks an anomaly detector twice: once with
the IQR method and once with the z-score method. It merges the two answers as a
set. The analyst agent turns each anomalous value into a typed pattern: spike,
drop, trend or fluctuation, judged by its deviation from the mean revenue. The
analyst then ranks candidate root causes, asks the market-trends tool for
context, and rolls the patterns up into one severity and one confidence score.
The recommendation agent generates numbered action items from fixed rules, sorts
them by priority, and derives quick wins, strategic initiatives, a risk
assessment and expected outcomes. Finally the coordinator builds the report data
from what both agents stored in the shared context.

Around them sit four pieces of state:

- the tool registry;
- the shared context, a keyed store with dictionary merge and logical timestamps;
- the rate limiter, with two sliding 60-second windows;
- the observability plugin, with traces, call counters, errors and last-value metrics.

Modules, one per source file:

| module | file | models |
|---|---|---|
| `Registry` | registry.dfy | tools/__init__.py |
| `Context` | context.dfy | core/context.py |
| `RateLimit` | rate_limiter.dfy | core/rate_limiter.py |
| `Observability` | observability.dfy | core/observability.py |
| `MarketTrends` | market_trends.dfy | tools/market_trends.py |
| `Analyst` | analyst.dfy | agents/analyst.py |
| `Recommendation` | recommendation.dfy | agents/recommendation.py |
| `Coordinator` | coordinator.dfy | agents/coordinator.py |

These shared modules support them:

- `Wrappers`: `Option`, `Result` and the tool envelope `ToolResult`.
- `Json`: the JSON-like values held in the shared context.
- `Text`: ASCII case mapping, substring search and decimal formatting.
- `Seqs`: counting, filtering and a stable insertion sort by a real-valued key.

Classes model the objects whose fields the source updates in place: `ToolRegistry`,
`SharedContext`, `RateLimiter`, `ObservabilityPlugin`, `MarketTrendsTool` and
`CoordinatorAgent`. Their methods carry `modifies` clauses and state the whole new
state: the bindings, the key order and the logical clock of the shared context,
and the cache and request count of the market-trends tool. The agents' loops are
methods with loop invariants, each proved equal to a specification function, and
the rules' properties are lemmas about those functions.

## Model

| member | source | states |
|---|---|---|
| Registry.ToolRegistry.constructor | tools/__init__.py:4-5 | A new registry holds no tools and lists no names. |
| Registry.ToolRegistry.Register | tools/__init__.py:7-8 | The tool is bound to its name, replacing any earlier tool of that name. Every other binding is kept. The name list grows by the name exactly when the name was new, and the tool count grows by one exactly then. |
| Registry.ToolRegistry.GetTool | tools/__init__.py:10-11 | Returns the bound tool when the name is registered, and `None` (not a failure) otherwise. |
| Registry.ToolRegistry.ListToolNames | tools/__init__.py:13-14 | Returns every registered name exactly once, in order of first registration, with as many entries as there are tools. |
| Registry.NamesCountKeys | tools/__init__.py:13-14 | A duplicate-free listing of a dictionary's keys is as long as the dictionary. |
| Registry.RegisterThenGet | tools/__init__.py:7-11 | After registering a tool, looking up its name yields that tool, and a lookup of any other name answers as it did before. |
| Context.Merge | core/context.py:76 | `dict.update`: keys of the partial value override, and every other key of the base keeps its value. |
| Context.MergeIdempotent | core/context.py:76 | Merging the same partial value twice has the effect of merging it once. |
| Context.KeysAfterSet | core/context.py:37-47 | The key order after a `set`: a new key goes to the end and a bound key keeps its place. The result holds exactly the old keys and the new key, and starts with the old order. |
| Context.SharedContext.constructor | core/context.py:30-35 | The store starts empty, with `updated_at` equal to `created_at`. |
| Context.SharedContext.Set | core/context.py:37-47 | Binds the key to the value and keeps every other binding. A new key goes to the end of the key order. `updated_at` advances. |
| Context.SharedContext.Get | core/context.py:49-61 | Returns the bound value, or the default for a missing key. The store is not modified. |
| Context.SharedContext.Update | core/context.py:63-79 | An absent key is first bound to `{}` and appended to the key order. The merge succeeds exactly when both the stored value and the partial value are dictionaries. On success the stored dictionary is overridden key by key and `updated_at` advances. On failure a `NotADictionary` error is returned. The data is then unchanged, except that an absent key stays bound to `{}`, and `updated_at` is unchanged. |
| Context.SharedContext.Clear | core/context.py:81-85 | No keys remain, and `updated_at` advances. |
| Context.SharedContext.ListKeys | core/context.py:87-95 | Returns the current keys, each once, in insertion order. |
| Context.SharedContext.ToDict | core/context.py:97-109 | Returns a copy of the bindings and key order with both timestamps, and `created_at <= updated_at`. |
| Context.MergeThenReject | core/context.py:63-79 | Two merges into a fresh key accumulate both entries. A later merge of a list fails with `NotADictionary` and leaves the stored dictionary as it was. |
| Context.SnapshotIsCopy | core/context.py:97-109 | A snapshot taken before a `set` still shows the old bindings and timestamp. A snapshot taken after it shows the new binding. `created_at` is the same in both. |
| RateLimit.Evict | core/rate_limiter.py:19-23 | Front-first eviction: the result is a suffix of the window. Every dropped entry is older than `now - 60`, and the oldest kept entry is at least `now - 60`. |
| RateLimit.Decide | core/rate_limiter.py:26-37 | When the call is admitted, a token sleep is decided exactly when the token sum plus the estimate exceeds the ceiling, and a request sleep exactly when the window holds `max_requests` requests. |
| RateLimit.EvictSamples | core/rate_limiter.py:19-20 | The `popleft` loop on the token window computes `Evict`. |
| RateLimit.EvictRequests | core/rate_limiter.py:22-23 | The `popleft` loop on the request window computes `Evict`. |
| RateLimit.BoundedAppend | core/rate_limiter.py:11-41 | Appending to a deque with `maxlen=60` keeps at most 60 entries and ends with the new entry. A full window drops its oldest entry. |
| RateLimit.TokenWaitIff | core/rate_limiter.py:26-32 | A token sleep happens exactly when the window's token sum plus the estimate exceeds the ceiling. It lasts `60 - (now - oldest) + 1` seconds. |
| RateLimit.RequestWaitIff | core/rate_limiter.py:26-37 | A request sleep happens exactly when the window already holds `max_requests` requests, and it lasts `60 - (now - oldest) + 1` seconds. It is decided from the counts taken before any sleep. |
| RateLimit.FaultOnlyOnEmptyWindow | core/rate_limiter.py:29-37 | The only failure is indexing an empty window: an empty token window whose estimate alone exceeds the ceiling, or an empty request window with a ceiling of at most zero. Every other call is admitted. |
| RateLimit.WaitsAreBounded | core/rate_limiter.py:19-37 | Against evicted windows with no entries in the future, every sleep lasts between 1 and 61 seconds. |
| RateLimit.RequestCeilingAboveCapacityNeverWaits | core/rate_limiter.py:12-37 | The request window never holds more than 60 entries, so a ceiling above 60 never causes a request sleep. |
| RateLimit.RateLimiter.constructor | core/rate_limiter.py:8-13 | Both ceilings are stored and both windows start empty. The ceilings default to 900000 tokens and 15 requests per minute. |
| RateLimit.RateLimiter.WaitIfNeeded | core/rate_limiter.py:14-41 | The estimate defaults to 5000 tokens. Evicts both windows and decides the sleeps from the evicted windows. An admitted call then appends exactly one `(now, estimated)` sample and one `now`, both bounded to 60 entries. A faulting call leaves the windows evicted and records nothing. |
| Observability.Bump | core/observability.py:67-69 | `counts.get(k, 0) + 1`: key `k` gains one and every other counter is kept. |
| Observability.BumpAddsOne | core/observability.py:45-90 | Counting one call keeps the counter keys duplicate-free and in insertion order, and raises the counter total by exactly one. |
| Observability.SuccessRate | core/observability.py:94 | `1 - errors / max(1, calls)` is 1 with no errors, and lies in [0, 1] when there are no more errors than calls. |
| Observability.LastValue | core/observability.py:60-64 | A truthy data dictionary that carries the key supplies the new value. Otherwise the previous value is kept. |
| Observability.ObservabilityPlugin.constructor | core/observability.py:23-34 | There are no traces, counters, errors or latencies. The domain metrics start at 0, 0 and "LOW". |
| Observability.ObservabilityPlugin.BeforeAgent | core/observability.py:36-49 | An unseen trace id gets a trace with a start and an agent. An existing trace keeps both. Exactly one `"<agent>_start"` span is appended. The agent's counter gains one, so the agent-call total gains one. Nothing else changes. |
| Observability.ObservabilityPlugin.AfterAgent | core/observability.py:51-65 | Appends exactly one `"<agent>_end"` span, to a bare trace if the id is unknown. Each domain metric takes its value from truthy data when present, and is kept otherwise. Exactly one latency sample is appended. Counters and errors are unchanged. |
| Observability.ObservabilityPlugin.BeforeTool | core/observability.py:67-69 | The tool's counter gains one, so the tool-call total gains one. Nothing else changes. |
| Observability.ObservabilityPlugin.AfterTool | core/observability.py:71-73 | Nothing changes. |
| Observability.ObservabilityPlugin.OnError | core/observability.py:75-81 | Appends exactly one error entry. Nothing else changes. |
| Observability.ObservabilityPlugin.GetTrace | core/observability.py:83-85 | An unknown id yields nothing and is not created. A known id yields its trace. |
| Observability.ObservabilityPlugin.MetricsSummary | core/observability.py:87-104 | The totals are the sums of the per-name counters, and the error count is the number of errors recorded. The success rate is `1 - errors / max(1, agent calls)`. The domain metrics are passed through. |
| Observability.TraceOneRun | core/observability.py:36-104 | One agent run bracketed by both callbacks on a fresh trace id yields exactly the start span and then the end span. The agent-call total gains one, and a later error raises the summary's error count by one. |
| MarketTrends.MockTable | tools/market_trends.py:192-208 | The mock table has the keys "Revenue spike", "Sales decline" and "Customer churn", in that order, with three entries each. Every entry carries the requested region and the mock source. |
| MarketTrends.DefaultTrends | tools/market_trends.py:219-224 | The fallback is "Market volatility" and then "Industry changes", both carrying the region and the mock source. |
| MarketTrends.Matches | tools/market_trends.py:212 | A key matches when its lower-cased form contains, or is contained in, the lower-cased topic, so in particular when either is a prefix of the other. |
| MarketTrends.FirstMatch | tools/market_trends.py:210-227 | The scan returns either the fallback or the entries of one of the table's keys. |
| MarketTrends.FirstMatchAt | tools/market_trends.py:210-217 | The scan returns the entries of the first key that matches. |
| MarketTrends.NoMatchFallsBack | tools/market_trends.py:210-227 | When no key matches, the scan returns the fallback. |
| MarketTrends.FirstMatchShaped | tools/market_trends.py:192-227 | Whatever the scan returns has the shape shared by every candidate. |
| MarketTrends.MockTrends | tools/market_trends.py:181-227 | The mock answer has two or three trends, all carrying the requested region, with the mock source and the region set. |
| MarketTrends.MockTrendsLookup | tools/market_trends.py:210-227 | The mock answer holds the entries of the first table key whose lower-cased form contains, or is contained in, the lower-cased topic. With no such key it holds the two defaults. |
| MarketTrends.EmptyTopicMatchesRevenueSpike | tools/market_trends.py:211-212 | An empty topic is contained in every key, so it matches "Revenue spike". |
| Text.ContainsIffOccurs | tools/market_trends.py:212 | The substring test holds exactly when the needle occurs at some position. |
| MarketTrends.CacheKey | tools/market_trends.py:75 | The key is the topic, `_`, then the region. |
| MarketTrends.CacheKeysCollide | tools/market_trends.py:75 | Distinct (topic, region) pairs can share a cache key: "a_b"/"c" and "a"/"b_c". |
| MarketTrends.ApiErrorSource | tools/market_trends.py:101 | The API-error source starts with "Mock (API error: " and carries at most 50 characters of the message. |
| MarketTrends.Answer | tools/market_trends.py:73-117 | The answer and the next tool state for one call. The key is cached afterwards and no cached entry is replaced. The request count rises by at most one, and only for an API call with credentials and quota left. A cache hit gives the cached trends. Without credentials, a cache of mock-sized entries answers with two or three trends, stays mock-sized and spends no request. |
| MarketTrends.MarketTrendsTool.constructor | tools/market_trends.py:41-50 | The quota is 3, and the tool starts with no requests made and an empty cache. |
| MarketTrends.MarketTrendsTool.Execute | tools/market_trends.py:52-117 | The region defaults to "Global" and `use_api` to true. The answer and the new cache and request count are those of `Answer` for the old state. Every answer is a success. A cache hit returns the cached data marked as cached, and leaves the cache and the request count unchanged. Otherwise there are four cases. Without credentials or `use_api`, the answer is the mock data with source "Mock (no API credentials)". With the quota spent, it is the mock data with source "Mock (rate limit)". After a successful API call it is the API data, and the request count gains one. After an API error it is the mock data with the API-error source. After a non-cached call the cache holds exactly the returned data under the key, and the request count never exceeds 3. |
| MarketTrends.AskTwice | tools/market_trends.py:75-117 | Asking twice for the same topic and region answers the second time from the cache, with the same data marked as cached. At most one request is spent. |
| Analyst.Revenues | agents/analyst.py:145 | The revenue column, row by row. |
| Analyst.FirstIndexOf | agents/analyst.py:153 | `list.index`: returns the first position holding the value, or nothing when no position does. |
| Analyst.Mean | agents/analyst.py:148 | `sum(revenues) / len(revenues)`: positive revenues have a positive mean. |
| Analyst.MeanWithin | agents/analyst.py:148 | The mean lies between any lower and any upper bound of the values. |
| Analyst.TimestampOf | agents/analyst.py:152-156 | The date of the first row whose revenue is the value, or "unknown" when there is none. |
| Analyst.Classify | agents/analyst.py:158-171 | A spike exactly above +20%, a drop exactly below -20%, a fluctuation exactly within ±10%, and a trend otherwise. Spikes and drops are HIGH, trends MEDIUM and fluctuations LOW. |
| Analyst.PatternFor | agents/analyst.py:174-182 | One pattern for a value: metric "revenue", values `[v]`, its timestamp, confidence 0.85 and a non-negative magnitude. |
| Analyst.ClassificationThresholds | agents/analyst.py:158-180 | For a positive mean, each band holds exactly on its range. A spike means `v > 1.2·avg`, a drop `v < 0.8·avg`, a fluctuation `0.9·avg <= v <= 1.1·avg`, and a trend the rest. HIGH severity means a spike or a drop, and MEDIUM means a trend. The magnitude is `|v - avg|·100 / avg`. |
| Analyst.BandEdge | agents/analyst.py:159-171 | A band edge `c` on the relative deviation is the edge `(1 + c)·avg` on the value. |
| Analyst.PatternsFor | agents/analyst.py:139-185 | What pattern extraction returns when it does not raise: one pattern per anomaly, in order, each holding just that anomaly and confidence 0.85. |
| Analyst.ExtractPatterns | agents/analyst.py:133-185 | No anomalies gives an empty list. Otherwise the call raises exactly when there are no rows or the mean revenue is zero. The error is the integer "division by zero" without rows, and "float division by zero" for a zero mean. Otherwise it returns one pattern per anomaly, in input order, each equal to `PatternFor` of that anomaly, which is `PatternsFor`. |
| Analyst.CausesOf | agents/analyst.py:191-227 | Three candidate causes for a spike or a drop, and none for other types. |
| Analyst.AllCausesLength | agents/analyst.py:189-227 | The unranked causes number three per spike or drop pattern. |
| Analyst.RankedCauses | agents/analyst.py:229-231 | Ranking then truncating keeps `min(5, n)` causes, in non-increasing confidence, each one of the inputs. |
| Analyst.IdentifyCauses | agents/analyst.py:187-231 | The loop returns the stable sort of all causes by non-increasing confidence, cut to 5. The length is `min(5, 3·#spike-or-drop)`, the list is in non-increasing confidence, and every entry is a listed cause. |
| Analyst.Topic | agents/analyst.py:240 | The topic is the type name, " in ", then the metric. |
| Analyst.TopicsDistinguishPatterns | agents/analyst.py:240 | Two patterns share a topic exactly when they share type and metric. |
| Analyst.SearchFrom | agents/analyst.py:233-252 | What asking about patterns in order returns and leaves in the tool: the first three trends of each `Answer`, concatenated, and that answer's next state. At most three trends per pattern. |
| Analyst.SearchKeepsCache | agents/analyst.py:238-250 | The search replaces nothing that was cached, and spends at most one request per pattern. |
| Analyst.SearchPrefixKeeps | agents/analyst.py:238-250 | A key cached after asking about a prefix of the patterns is still cached after all of them. |
| Analyst.SearchCachesTopic | agents/analyst.py:238-250 | The topic of each pattern asked about, with region "Global", is in the cache afterwards. |
| Analyst.SearchCachesTopics | agents/analyst.py:238-250 | Every topic asked about is in the cache afterwards. |
| Analyst.SearchWithoutCredentials | agents/analyst.py:238-250 | Without credentials, and with every cached answer mock-sized, each pattern asked about contributes two or three trends, and no request is spent. |
| Analyst.SearchMarketContext | agents/analyst.py:233-252 | The loop asks about the first two patterns, and its trends and the tool's new cache and request count are exactly `SearchFrom` of the tool's old state on those patterns. |
| Analyst.AssessSeverity | agents/analyst.py:254-266 | HIGH exactly when at least two patterns are HIGH. MEDIUM exactly when one is. No patterns gives LOW. |
| Analyst.SeverityMonotone | agents/analyst.py:254-266 | One more pattern never lowers the overall severity. |
| Analyst.CalculateConfidence | agents/analyst.py:268-283 | No patterns score 0. Every score is at most 1. |
| Analyst.ConfidenceBounds | agents/analyst.py:268-283 | With every pattern confidence in [0, 1], the score is in [0, 1]. |
| Analyst.ConfidenceOfExtractedPatterns | agents/analyst.py:181-283 | Extracted patterns all carry 0.85, so the score is `0.85 + min(0.15, 0.05·#context)`. |
| Analyst.ConfidenceWithoutCredentials | agents/analyst.py:233-283 | A tool without credentials and with an empty cache gives extracted patterns a score of at least 0.95, and exactly 1.0 from two patterns on. |
| Analyst.SumConfidenceBounds | agents/analyst.py:278 | The sum of confidences in [0, 1] lies between 0 and the number of patterns. |
| Analyst.PatternToJson | agents/analyst.py:285-296 | The pattern dictionary carries the type name, the severity name and the values under their keys. |
| Analyst.PatternEntries | agents/analyst.py:285-296 | The pattern dictionary carries each of its fields under its own key. |
| Analyst.PatternRoundTrip | agents/analyst.py:285-296 | Reading a pattern dictionary back gives the pattern. |
| Analyst.TypeNameRoundTrip | agents/analyst.py:162-171 | The pattern-type names read back as their types. |
| Analyst.SeverityNameRoundTrip | agents/analyst.py:163-172 | The severity names read back as their severities. |
| Analyst.PatternsToJson | agents/analyst.py:113 | One dictionary per pattern, in order. |
| Analyst.PatternsRoundTrip | agents/analyst.py:113 | Reading the stored list of pattern dictionaries back gives the patterns. |
| Analyst.AnalysisToJson | agents/analyst.py:112-118 | The stored analysis holds the pattern dictionaries and the severity name. |
| Analyst.Analyze | agents/analyst.py:69-131 | Fails exactly when pattern extraction raises, and then neither the context nor the tool changes. On success the patterns are `PatternsFor` of the rows and anomalies. The causes are the ranked, truncated causes. The market context and the tool's new state are `SearchFrom` of the tool's old state on the first two patterns. The severity and the confidence are the roll-ups of the patterns and the market context. Together these make the result `AnalysisFor` of the rows, the anomalies and the tool's old state. Exactly one `set` stores the analysis under "analysis_result", with its key order and clock. |
| Recommendation.ActionIdRoundTrip | agents/recommendation.py:150 | "ACT-" followed by the zero-padded number reads back as the number. |
| Recommendation.ActionIdInjective | agents/recommendation.py:150 | Distinct numbers give distinct identifiers. |
| Text.ZeroPaddedValue | agents/recommendation.py:150 | `f"{n:03d}"` reads back as `n`, whatever the width. |
| Recommendation.PatternsOf | agents/recommendation.py:140 | `analysis.get("patterns", [])`, a list of dictionaries. |
| Recommendation.KindOf | agents/recommendation.py:146-173 | A pattern is a spike exactly when `pattern.get("pattern_type", "unknown")` is "spike", and a drop exactly when it is "drop". |
| Recommendation.SeverityIsHigh | agents/recommendation.py:141-199 | The review rule fires only when the analysis holds "severity" equal to "HIGH". |
| Recommendation.PatternActions | agents/recommendation.py:143-196 | The pattern items come only from the four pattern rules, with no owner and status "pending". |
| Recommendation.Unsorted | agents/recommendation.py:139-221 | The generated list is never empty and ends with the monitoring item, numbered last. With a HIGH severity the executive review comes just before it. |
| Recommendation.ActionsFor | agents/recommendation.py:148-196 | Two items for a spike or a drop, and none for any other type. |
| Recommendation.GeneratePatternItems | agents/recommendation.py:143-196 | The rule loop yields the pattern items numbered from 1, and leaves `action_id` one past the last number. |
| Recommendation.AddPatternItems | agents/recommendation.py:148-196 | One branch appends that pattern's items with consecutive numbers and advances `action_id` past them. |
| Recommendation.GenerateBaseRecommendations | agents/recommendation.py:134-226 | The result is the stable sort by priority of the pattern items, then the executive review (for a HIGH severity), then the monitoring item. |
| Recommendation.CountPatternActions | agents/recommendation.py:145-196 | Any rule property counts, over the pattern items, as the sum of its spike rules times the number of spikes and its drop rules times the number of drops. |
| Recommendation.CountGenerated | agents/recommendation.py:145-224 | Any rule property counts, over all generated items, as the pattern-item count plus the review and monitoring items it holds for. |
| Recommendation.GeneratedCount | agents/recommendation.py:145-221 | There are `2·(#spike + #drop) + [severity == HIGH] + 1` items, so always at least one. |
| Recommendation.NumbersAreSequential | agents/recommendation.py:143-221 | Before the sort, the items are numbered 1, 2, 3, … in generation order. |
| Recommendation.PatternActionsNumbers | agents/recommendation.py:143-196 | The pattern items are numbered 1, 2, 3, … in generation order. |
| Recommendation.IdsAreDistinct | agents/recommendation.py:150-224 | The identifiers are pairwise distinct, before and after the sort. |
| Recommendation.GeneratedOrder | agents/recommendation.py:224 | The sorted items are a permutation of the generated ones, in non-decreasing priority, and equal priorities keep generation order. |
| Seqs.SortByIsStable | agents/recommendation.py:224 | `list.sort(key=…)`: the result is sorted by the key and is a permutation of the input, and equal keys keep their input order. |
| Recommendation.ExactlyOneMonitoringItem | agents/recommendation.py:212-221 | Exactly one "Enhanced Monitoring System" item is generated. |
| Recommendation.MonitoringSortsLast | agents/recommendation.py:212-224 | The monitoring item is the only one with priority 3, so the sort puts it last. |
| Recommendation.MissingSeverityAddsNoReview | agents/recommendation.py:141-210 | Without a "severity" entry the severity defaults to MEDIUM, so no executive review is generated. |
| Recommendation.Categorize | agents/recommendation.py:228-243 | The quick wins are exactly the items with effort Low and priority <= 2. The strategic initiatives are exactly the items with a Long-term or Short-term timeline and High impact. Both are order-preserving subsequences of the input. |
| Recommendation.QuickWinsOfGenerated | agents/recommendation.py:199-243 | Among the generated items, the only quick win is the executive review. |
| Recommendation.StrategicOfGenerated | agents/recommendation.py:161-241 | Among the generated items, the strategic initiatives are one per spike. |
| Recommendation.AssessRisks | agents/recommendation.py:245-266 | Risk is HIGH exactly with at least 3 priority-1 items or at least 2 High-effort items. It is MEDIUM exactly when not HIGH and there are at least 2 priority-1 items or at least 1 High-effort item, and LOW otherwise. `resource_constraints` holds exactly with at least 2 High-effort items, and `timeline_pressure` exactly with at least 3 priority-1 items. The four mitigation strategies are fixed. |
| Recommendation.RisksOfGenerated | agents/recommendation.py:145-266 | For generated items, the risk flags and a HIGH level hold exactly as the numbers of spikes, drops and a HIGH severity dictate. |
| Recommendation.PredictOutcomes | agents/recommendation.py:268-296 | There are 3 outcomes with at least two High-impact items and 2 otherwise. The first is then the growth outcome, and the last two are always the same fixed pair. |
| Recommendation.OutcomesOfGenerated | agents/recommendation.py:145-296 | For generated items, the growth outcome appears exactly when `2·#spike + #drop + [HIGH] >= 2`. |
| Recommendation.RuleOfTitleInverts | agents/recommendation.py:151-214 | Each template is told apart by its title. |
| Recommendation.ActionEntries | agents/recommendation.py:298-311 | The item dictionary carries the identifier, title, owner and status under their keys. |
| Recommendation.ActionToJson | agents/recommendation.py:298-311 | The item dictionary carries the identifier "ACT-nnn", the template title, the status and the owner. |
| Recommendation.ActionFromEntries | agents/recommendation.py:298-311 | Reading those four entries back gives the item. |
| Recommendation.ActionRoundTrip | agents/recommendation.py:298-311 | Reading an item's dictionary back gives the item. |
| Recommendation.ActionsToJson | agents/recommendation.py:114-116 | One dictionary per item, in order. |
| Recommendation.ActionsFromJson | agents/recommendation.py:114 | A list of dictionaries reads back exactly when every element reads back, element by element. |
| Recommendation.ActionsRoundTrip | agents/recommendation.py:114 | Reading the stored item dictionaries back gives the items. |
| Recommendation.OutcomesToJson | agents/recommendation.py:118 | One dictionary per outcome, in order. |
| Recommendation.RecommendationToJson | agents/recommendation.py:113-119 | The stored result's "action_items" reads back as the action items. |
| Recommendation.GenerateRecommendations | agents/recommendation.py:71-132 | The items are the sorted generated items. The categories, risks and outcomes are derived from those items. Together these make the result `RecommendationFor` of the analysis. Exactly one `set` stores the result under "recommendation_result", with its key order and clock. |
| Coordinator.Found | agents/coordinator.py:105-108 | A successful detector call contributes its anomalies, and a failed one contributes nothing. |
| Coordinator.FoundBoth | agents/coordinator.py:103-108 | The union holds everything either successful call reports, and each member comes from one of the two successful calls. |
| Coordinator.ListOf | agents/coordinator.py:110 | `list(set)`: every member exactly once. |
| Coordinator.DetectAnomalies | agents/coordinator.py:86-110 | The anomalies are the set union of the IQR (threshold 1.5) and z-score (threshold 2.0) answers, each value once. |
| Coordinator.RowsToJson | agents/coordinator.py:83 | The rows are stored as one dictionary per row, in order, each with exactly two entries: the row's date and its revenue. |
| Coordinator.StoredAnomalyList | agents/coordinator.py:122 | The stored anomaly list reads back as numbers, exactly the found values, each once. |
| Coordinator.KindOfDecodedPattern | agents/coordinator.py:125-129 | A pattern dictionary stored by the analyst is classified by the recommendation agent as its decoded type. |
| Coordinator.KindsOfDecodedPatterns | agents/coordinator.py:125-129 | The same holds for every dictionary of a stored pattern list. |
| Coordinator.DecodedAnalysisKinds | agents/coordinator.py:126-129 | An analysis whose patterns decode is accepted by the recommendation agent, which sees the decoded types. |
| Coordinator.ActionCountOfAnalysis | agents/coordinator.py:125-130 | For a stored analysis there are two items per spike and per drop pattern, one review for a HIGH severity and one monitoring item, so never none. |
| Coordinator.ValueIssues | agents/coordinator.py:138-142 | One issue per value of a pattern, in order. |
| Coordinator.OneIssuePerPattern | agents/coordinator.py:137-142 | With one value per pattern there is one issue per pattern. |
| Coordinator.IssuesOf | agents/coordinator.py:137-142 | Every issue built from the patterns is a detected issue, never the placeholder. |
| Coordinator.ExtractedIssueCount | agents/coordinator.py:137-142 | Each anomaly extracted by the analyst yields exactly one issue. |
| Coordinator.IssueAt | agents/coordinator.py:137-142 | With one value per pattern, issue `i` is pattern `i`'s value. |
| Coordinator.IssuePerPattern | agents/coordinator.py:137-142 | With one value per pattern, the issues are the patterns' values in pattern order. |
| Coordinator.IssueTypeIsCapitalized | agents/coordinator.py:140 | The issue's type label is `pattern_type.capitalize()`. |
| Coordinator.IssueSeverityIsLowered | agents/coordinator.py:141-151 | The issue's severity is `severity.lower()`, and a LOW pattern is labelled like the placeholder issue. |
| Text.Capitalize | agents/coordinator.py:140 | `str.capitalize` on ASCII: the first character is upper-cased and the rest lower-cased. |
| Text.Lower | agents/coordinator.py:141 | `str.lower` on ASCII, character by character. |
| Coordinator.ActionTexts | agents/coordinator.py:145-147 | The lines of a list of action dictionaries exist exactly when every dictionary has one, element by element. |
| Coordinator.ActionText | agents/coordinator.py:146 | A line exists only for a dictionary with a priority, a title and a description, and it starts with "[Priority ". |
| Coordinator.ActionTextOfItem | agents/coordinator.py:146 | The line rendered from an item's dictionary is `[Priority p] title: description` of its template. |
| Coordinator.TopActionTexts | agents/coordinator.py:145-147 | The lines for the first five item dictionaries are those items' template lines, in stored order. |
| Coordinator.TemplateEntriesKept | agents/coordinator.py:146 | The priority and description written by the template survive the item's own entries. |
| Coordinator.TemplatePriorityAndDescription | agents/coordinator.py:146 | The template dictionary carries the priority and the description. |
| Coordinator.Assemble | agents/coordinator.py:149-153 | The report has its fixed title. Its issues and recommendations are never empty: the placeholder issue and "Continue monitoring business metrics" stand in for empty lists, and non-empty lists are kept. |
| Coordinator.CollectIssues | agents/coordinator.py:133-142 | The nested loop yields one issue per value of every pattern, in order. |
| Coordinator.CollectRecommendations | agents/coordinator.py:144-147 | The loop yields the lines of the first five action dictionaries, or fails where one has no line. |
| Coordinator.PrepareReport | agents/coordinator.py:133-153 | The report data is assembled from the patterns' issues and the first five lines. |
| Coordinator.ReportOf | agents/coordinator.py:133-153 | A report has its fixed title, at least one issue and between one and five lines. |
| Coordinator.ReportExists | agents/coordinator.py:144-153 | The dictionaries of a non-empty item list always yield a report. |
| Coordinator.ReportOfItems | agents/coordinator.py:133-153 | For any patterns and a non-empty item list, the report has one issue per pattern value (or the placeholder) and the lines of the first five items, never the default line. |
| Coordinator.EarlierEntriesKept | agents/coordinator.py:83-130 | The raw data and the anomalies stored before the agents run are still there afterwards. |
| Coordinator.AnalysisForDecodes | agents/coordinator.py:124-130 | The analysis dictionary the analyst builds, read back by the recommendation agent, decodes to one pattern per anomaly, in order, with their severity roll-up, is well formed, and yields at least one generated item. |
| Coordinator.AgentsOutcome | agents/coordinator.py:124-153 | When the two stored dictionaries are those the analyst and the recommendation agent build, they are what `AgentsStored` describes, both decode, and the report data built from the stored patterns and action items exists. |
| Coordinator.ReportedIssues | agents/coordinator.py:124-153 | For the two dictionaries the agents store and the report built from them, the report lists one issue per anomaly handed to the analyst, in that order, built from that anomaly's pattern; anomalies imply rows with a non-zero mean revenue. With no anomaly it lists the placeholder alone. |
| Coordinator.IssuesFromPatterns | agents/coordinator.py:133-142 | The issues of a report built from the patterns of the anomalies are one per anomaly, in order. |
| Coordinator.CoordinatorAgent.constructor | agents/coordinator.py:26-43 | The shared context starts empty, and the market-trends tool has no requests and an empty cache. |
| Coordinator.CoordinatorAgent.StoreAndDetect | agents/coordinator.py:82-122 | Stores "raw_data" before detection. Then stores the detector union under "detected_anomalies", even when it is empty. The key order and the clock are those after the two `set`s. |
| Coordinator.CoordinatorAgent.AnalyzeStep | agents/coordinator.py:124-126 | Fails exactly when the analyst raises, and then neither the context nor the tool changes. Otherwise the stored analysis is the dictionary of `AnalysisFor` the rows, the anomalies and the tool's old state: all five entries, the patterns, causes, severity, market context and confidence. The dictionary is well formed for the recommendation agent. The context gains only that entry, with its key order and clock. The tool's new state is that of `SearchFrom` on the first two patterns. |
| Coordinator.CoordinatorAgent.RecommendStep | agents/coordinator.py:128-130 | The stored recommendation is the dictionary of `RecommendationFor` the analysis: all five entries, the items, quick wins, strategic initiatives, risks and outcomes. Its items are the sorted generated items for that analysis. The context gains only that entry, with its key order and clock. |
| Coordinator.CoordinatorAgent.RunAgents | agents/coordinator.py:124-177 | Fails exactly when the analyst raises, and then nothing changes. On success, the two stored dictionaries are given in full by `AgentsStored`: the analysis is `AnalysisFor` the rows, the anomalies and the tool's old state, and the recommendation is `RecommendationFor` that analysis. The report is built from the two. The result is the generator's answer exactly when that answer is a success, and nothing otherwise. The context gains only the two entries, with their key order and clock, and the tool's new state is that of the search. |
| Coordinator.CoordinatorAgent.ExecuteAnalysis | agents/coordinator.py:45-177 | A failed load returns nothing and changes neither the context nor the tool. Otherwise the call stores the rows and the union of both detector answers. It fails exactly when there are anomalies and the mean revenue is zero or there are no rows; then only those two entries are written and the tool is unchanged. Otherwise it stores both agents' dictionaries in full (`AgentsStored`) for the stored anomaly list, builds the report from them, and returns the generator's answer exactly when it succeeded. The key order, the clock and the tool's new state are stated in every case. |

## Left out

- The LLM plumbing (the Gemini client, the LLM agent roles and prompts, the LLM coordinator) is not part of this model.
- tools/anomaly_detector.py, tools/data_loader.py, tools/report_generator.py and tools/action_logger.py are not part of this model. The loader's answer is a parameter of `ExecuteAnalysis`. The detector and the report generator are functions from their arguments to a `ToolResult`. Every `logger.execute` call is dropped.
- `_search_google_api` (network access) is not modelled: its outcome for a call is a parameter, data or an error message. In the analyst and the coordinator it is a function of the query topic.
- The coordinator's constructor registers tool classes that tools/__init__.py does not export. The registry is modelled on its own, and the coordinator holds the shared context and the market-trends tool directly.
- The coordinator does not call the observability plugin or the rate limiter, and the model follows the code in this. Both are modelled as stand-alone objects.
- RowsToJson: revenues are taken as already-parsed numbers, so the `float()` conversion at agents/coordinator.py:87 and agents/analyst.py:145 and its `ValueError` are not modelled. "raw_data" is stored with a numeric revenue and only the date and revenue columns, where the original stores the loader's rows, with all their columns as strings, unchanged.
- Coordinator.CoordinatorAgent.ExecuteAnalysis: the analyst's division by zero is a `Failure` result, where the original raises out of `execute_analysis`. A load result that reports success without data is excluded by a `requires`.
- Coordinator.Issue: the description string with `{magnitude:.1f}` float formatting is not rendered. An issue keeps its capitalised type, metric, value, magnitude and lower-cased severity as fields.
- Coordinator.ActionText: the priority is read from a JSON number and printed as a whole number. The original prints a Python `int` and raises `KeyError` for a missing key. The model reads only the entries the agent writes, and returns `None` for a missing or mistyped entry.
- Wall-clock time, ISO timestamps, `detected_at`, `analysis_timestamp`, `generated_at`, `execution_time_ms` and the `str(time.time())` default trace id are left out. Context timestamps are a logical clock, the other readings are a parameter `now`, and trace ids are passed in.
- Observability.ObservabilityPlugin.MetricsSummary: `avg_latency_ms` is not modelled, because it averages wall-clock readings. The JSON exports (file I/O) are left out.
- Observability.ObservabilityPlugin.OnError: the error is its message string.
- Context: each asynchronous method under the lock is one atomic step, and concurrency is not modelled. Stored values are JSON-like values, so the aliasing of a nested dictionary that `update` mutates in place is not modelled.
- RateLimit.RateLimiter.WaitIfNeeded: `asyncio.sleep` and the log line are not modelled. The call returns the sleeps it would take, and time is a whole number of seconds.
- Analyst: revenues, deviations and confidences are exact reals, not IEEE floats. Rows carry only the date and revenue columns the analyst reads.
- Recommendation: an item is its number, the template (rule) that produced it, its owner and its status. The template fixes the other fields, and `ActionToJson` writes all of them. The sort is modelled on values, not in place.
- Analyst.SearchMarketContext: a failed tool call is not possible, because the market-trends tool always reports success.
- Found: a detector answer that reports success without data contributes nothing, where the original raises `AttributeError` at agents/coordinator.py:106 and :108. The model treats such an answer as reporting no anomalies instead of stopping the analysis.
- Text: case mapping covers ASCII letters only.
