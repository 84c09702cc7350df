/**
 * The observability plugin: per-trace span lists, per-agent and per-tool call
 * counters, an error list, a latency sample list and three "last value wins"
 * domain metrics, with a summary derived from them.
 *
 * Wall-clock readings are a parameter `now`; the trace identifier is the one the
 * caller resolved from its context.
 */
module Observability {
  import opened Wrappers
  import opened Json
  import opened Seqs

  datatype Span = Span(name: string, timestamp: int)

  /**
   * One entry of `traces`. A trace opened by `before_agent_callback` has a start
   * time and an agent; one opened by `after_agent_callback` has only spans.
   */
  datatype Trace = Trace(start: Option<int>, agent: Option<string>, spans: seq<Span>)

  datatype ErrorEntry = ErrorEntry(error: string, context: Json, timestamp: int)

  /** What `get_metrics_summary` returns, without `avg_latency_ms`. */
  datatype Summary = Summary(
    totalAgentCalls: nat,
    totalToolCalls: nat,
    errorCount: nat,
    successRate: real,
    anomaliesFound: Json,
    recommendationsGenerated: Json,
    maxSeverity: Json)

  /** A counter dictionary together with its keys in first-insertion order. */
  ghost predicate CounterShape(names: seq<string>, counts: map<string, nat>) {
    && NoDuplicates(names)
    && (forall i :: 0 <= i < |names| ==> names[i] in counts)
    && (forall k :: k in counts ==> k in names)
  }

  /** `counts[k] = counts.get(k, 0) + 1`. */
  function Bump(counts: map<string, nat>, k: string): (r: map<string, nat>)
    ensures r.Keys == counts.Keys + {k}
    ensures r[k] == (if k in counts then counts[k] else 0) + 1
    ensures forall j :: j in counts && j != k ==> r[j] == counts[j]
  {
    counts[k := (if k in counts then counts[k] else 0) + 1]
  }

  /** The key order after `Bump`: a new key goes last. */
  function BumpNames(names: seq<string>, counts: map<string, nat>, k: string): seq<string> {
    if k in counts then names else names + [k]
  }

  /** `sum(counts.values())`, taken in key order. */
  function SumCounts(names: seq<string>, counts: map<string, nat>): nat
    requires forall i :: 0 <= i < |names| ==> names[i] in counts
  {
    if names == [] then 0 else counts[names[0]] + SumCounts(names[1..], counts)
  }

  lemma {:induction false} SumCountsFrame(names: seq<string>, counts: map<string, nat>, other: map<string, nat>)
    requires forall i :: 0 <= i < |names| ==> names[i] in counts && names[i] in other && counts[names[i]] == other[names[i]]
    ensures SumCounts(names, counts) == SumCounts(names, other)
  {
    if names != [] {
      SumCountsFrame(names[1..], counts, other);
    }
  }

  /** Counting one more call raises the total by exactly one, and the keys keep their shape. */
  lemma {:induction false} BumpAddsOne(names: seq<string>, counts: map<string, nat>, k: string)
    requires CounterShape(names, counts)
    ensures CounterShape(BumpNames(names, counts, k), Bump(counts, k))
    ensures SumCounts(BumpNames(names, counts, k), Bump(counts, k)) == SumCounts(names, counts) + 1
  {
    var r := Bump(counts, k);
    var ns := BumpNames(names, counts, k);
    if k in counts {
      BumpExisting(names, counts, k);
    } else {
      BumpNew(names, counts, k);
      forall i, j | 0 <= i < j < |ns| ensures ns[i] != ns[j] {
        if j == |names| {
          assert names[i] in counts;
        }
      }
    }
  }

  lemma {:induction false} BumpExisting(names: seq<string>, counts: map<string, nat>, k: string)
    requires NoDuplicates(names)
    requires forall i :: 0 <= i < |names| ==> names[i] in counts
    requires k in names
    ensures SumCounts(names, Bump(counts, k)) == SumCounts(names, counts) + 1
  {
    var r := Bump(counts, k);
    if names[0] == k {
      forall i | 0 <= i < |names[1..]| ensures names[1..][i] != k {
        assert names[1..][i] == names[i + 1];
      }
      SumCountsFrame(names[1..], r, counts);
    } else {
      assert k in names[1..];
      BumpExisting(names[1..], counts, k);
    }
  }

  lemma {:induction false} BumpNew(names: seq<string>, counts: map<string, nat>, k: string)
    requires forall i :: 0 <= i < |names| ==> names[i] in counts
    requires k !in counts
    ensures SumCounts(names + [k], Bump(counts, k)) == SumCounts(names, counts) + 1
  {
    var r := Bump(counts, k);
    if names == [] {
      assert names + [k] == [k];
    } else {
      BumpNew(names[1..], counts, k);
      assert (names + [k])[1..] == names[1..] + [k];
    }
  }

  /** `1.0 - error_count / max(1, total_agent_calls)`. */
  function SuccessRate(errorCount: nat, totalAgentCalls: nat): (r: real)
    ensures errorCount <= totalAgentCalls ==> 0.0 <= r <= 1.0
    ensures errorCount == 0 ==> r == 1.0
  {
    var denominator := if totalAgentCalls < 1 then 1 else totalAgentCalls;
    1.0 - (errorCount as real) / (denominator as real)
  }

  /** A truthy `result.data` dictionary: present and non-empty. */
  predicate HasData(data: Option<map<string, Json>>) {
    data.Some? && |data.value| > 0
  }

  /** `data.get(key, previous)`. */
  function LastValue(data: Option<map<string, Json>>, key: string, previous: Json): (r: Json)
    ensures HasData(data) && key in data.value ==> r == data.value[key]
    ensures !(HasData(data) && key in data.value) ==> r == previous
  {
    if HasData(data) && key in data.value then data.value[key] else previous
  }

  class ObservabilityPlugin {
    var traces: map<string, Trace>
    var agentCalls: map<string, nat>
    var agentNames: seq<string>
    var toolCalls: map<string, nat>
    var toolNames: seq<string>
    var errors: seq<ErrorEntry>
    var latencies: seq<int>
    var anomaliesFound: Json
    var recommendationsGenerated: Json
    var maxSeverity: Json

    ghost predicate Valid()
      reads this
    {
      CounterShape(agentNames, agentCalls) && CounterShape(toolNames, toolCalls)
    }

    constructor ()
      ensures Valid()
      ensures traces == map[] && agentCalls == map[] && agentNames == [] && toolCalls == map[] && toolNames == []
      ensures errors == [] && latencies == []
      ensures anomaliesFound == Num(0.0) && recommendationsGenerated == Num(0.0) && maxSeverity == Str("LOW")
    {
      traces := map[];
      agentCalls := map[];
      agentNames := [];
      toolCalls := map[];
      toolNames := [];
      errors := [];
      latencies := [];
      anomaliesFound := Num(0.0);
      recommendationsGenerated := Num(0.0);
      maxSeverity := Str("LOW");
    }

    function TotalAgentCalls(): nat
      reads this
      requires Valid()
    {
      SumCounts(agentNames, agentCalls)
    }

    function TotalToolCalls(): nat
      reads this
      requires Valid()
    {
      SumCounts(toolNames, toolCalls)
    }

    /**
     * `before_agent_callback`: opens the trace if it is new (an existing trace
     * keeps its start and agent), appends one `"<agent>_start"` span and counts
     * one call of the agent.
     */
    method BeforeAgent(agentName: string, traceId: string, now: int)
      requires Valid()
      modifies this
      ensures Valid()
      ensures var t := if traceId in old(traces) then old(traces)[traceId] else Trace(Some(now), Some(agentName), []);
              traces == old(traces)[traceId := t.(spans := t.spans + [Span(agentName + "_start", now)])]
      ensures agentCalls == Bump(old(agentCalls), agentName)
      ensures agentNames == BumpNames(old(agentNames), old(agentCalls), agentName)
      ensures TotalAgentCalls() == old(TotalAgentCalls()) + 1
      ensures toolCalls == old(toolCalls) && toolNames == old(toolNames)
      ensures errors == old(errors) && latencies == old(latencies)
      ensures anomaliesFound == old(anomaliesFound) && recommendationsGenerated == old(recommendationsGenerated)
      ensures maxSeverity == old(maxSeverity)
    {
      var t := if traceId in traces then traces[traceId] else Trace(Some(now), Some(agentName), []);
      traces := traces[traceId := t.(spans := t.spans + [Span(agentName + "_start", now)])];
      BumpAddsOne(agentNames, agentCalls, agentName);
      agentNames := BumpNames(agentNames, agentCalls, agentName);
      agentCalls := Bump(agentCalls, agentName);
    }

    /**
     * `after_agent_callback`: appends one `"<agent>_end"` span (to a bare trace
     * when the id is unknown), takes each domain metric from a truthy
     * `result.data` when it carries it, and records one latency sample.
     */
    method AfterAgent(agentName: string, traceId: string, data: Option<map<string, Json>>, now: int)
      requires Valid()
      modifies this
      ensures Valid()
      ensures var t := if traceId in old(traces) then old(traces)[traceId] else Trace(None, None, []);
              traces == old(traces)[traceId := t.(spans := t.spans + [Span(agentName + "_end", now)])]
      ensures anomaliesFound == LastValue(data, "anomalies_found", old(anomaliesFound))
      ensures recommendationsGenerated == LastValue(data, "recommendations_generated", old(recommendationsGenerated))
      ensures maxSeverity == LastValue(data, "max_severity", old(maxSeverity))
      ensures latencies == old(latencies) + [now]
      ensures agentCalls == old(agentCalls) && agentNames == old(agentNames)
      ensures toolCalls == old(toolCalls) && toolNames == old(toolNames)
      ensures errors == old(errors)
    {
      var t := if traceId in traces then traces[traceId] else Trace(None, None, []);
      traces := traces[traceId := t.(spans := t.spans + [Span(agentName + "_end", now)])];
      if HasData(data) {
        anomaliesFound := LastValue(data, "anomalies_found", anomaliesFound);
        recommendationsGenerated := LastValue(data, "recommendations_generated", recommendationsGenerated);
        maxSeverity := LastValue(data, "max_severity", maxSeverity);
      }
      latencies := latencies + [now];
    }

    /** `before_tool_callback`: counts one call of the tool and nothing else. */
    method BeforeTool(toolName: string)
      requires Valid()
      modifies this
      ensures Valid()
      ensures toolCalls == Bump(old(toolCalls), toolName)
      ensures toolNames == BumpNames(old(toolNames), old(toolCalls), toolName)
      ensures TotalToolCalls() == old(TotalToolCalls()) + 1
      ensures traces == old(traces) && agentCalls == old(agentCalls) && agentNames == old(agentNames)
      ensures errors == old(errors) && latencies == old(latencies)
      ensures anomaliesFound == old(anomaliesFound) && recommendationsGenerated == old(recommendationsGenerated)
      ensures maxSeverity == old(maxSeverity)
    {
      BumpAddsOne(toolNames, toolCalls, toolName);
      toolNames := BumpNames(toolNames, toolCalls, toolName);
      toolCalls := Bump(toolCalls, toolName);
    }

    /** `after_tool_callback`: records nothing. */
    method AfterTool(toolName: string)
      requires Valid()
      modifies this
      ensures Valid()
      ensures unchanged(this)
    {
    }

    /** `on_error_callback`: appends exactly one error entry. */
    method OnError(error: string, context: Json, now: int)
      requires Valid()
      modifies this
      ensures Valid()
      ensures errors == old(errors) + [ErrorEntry(error, context, now)]
      ensures traces == old(traces) && agentCalls == old(agentCalls) && agentNames == old(agentNames)
      ensures toolCalls == old(toolCalls) && toolNames == old(toolNames) && latencies == old(latencies)
      ensures anomaliesFound == old(anomaliesFound) && recommendationsGenerated == old(recommendationsGenerated)
      ensures maxSeverity == old(maxSeverity)
    {
      errors := errors + [ErrorEntry(error, context, now)];
    }

    /** `get_trace`: an unknown id yields nothing (the empty dictionary) and is not created. */
    function GetTrace(traceId: string): (r: Option<Trace>)
      reads this
      ensures r.Some? <==> traceId in traces
      ensures r.Some? ==> r.value == traces[traceId]
    {
      if traceId in traces then Some(traces[traceId]) else None
    }

    /** `get_metrics_summary` (without the latency average). */
    function MetricsSummary(): (s: Summary)
      reads this
      requires Valid()
      ensures s.totalAgentCalls == SumCounts(agentNames, agentCalls)
      ensures s.totalToolCalls == SumCounts(toolNames, toolCalls)
      ensures s.errorCount == |errors|
      ensures s.successRate == 1.0 - (|errors| as real) / (if s.totalAgentCalls == 0 then 1.0 else s.totalAgentCalls as real)
      ensures s.anomaliesFound == anomaliesFound && s.recommendationsGenerated == recommendationsGenerated
      ensures s.maxSeverity == maxSeverity
    {
      var agents := TotalAgentCalls();
      Summary(agents, TotalToolCalls(), |errors|, SuccessRate(|errors|, agents),
              anomaliesFound, recommendationsGenerated, maxSeverity)
    }
  }

  /**
   * One agent run bracketed by both callbacks on a fresh trace id yields a trace
   * with exactly the start and end spans, one more agent call and one more
   * latency sample; a later error is visible in the summary's error count.
   */
  method TraceOneRun(plugin: ObservabilityPlugin, agent: string, traceId: string, t0: int, t1: int, t2: int)
    returns (trace: Option<Trace>, summary: Summary)
    requires plugin.Valid() && traceId !in plugin.traces
    modifies plugin
    ensures trace == Some(Trace(Some(t0), Some(agent), [Span(agent + "_start", t0), Span(agent + "_end", t1)]))
    ensures summary.totalAgentCalls == old(plugin.TotalAgentCalls()) + 1
    ensures summary.errorCount == old(|plugin.errors|) + 1
  {
    plugin.BeforeAgent(agent, traceId, t0);
    assert plugin.traces[traceId] == Trace(Some(t0), Some(agent), [Span(agent + "_start", t0)]);
    plugin.AfterAgent(agent, traceId, None, t1);
    assert plugin.traces[traceId].spans == [Span(agent + "_start", t0)] + [Span(agent + "_end", t1)];
    plugin.OnError("failure", Null, t2);
    trace := plugin.GetTrace(traceId);
    assert trace == Some(plugin.traces[traceId]);
    assert plugin.traces[traceId].spans == [Span(agent + "_start", t0), Span(agent + "_end", t1)];
    assert plugin.traces[traceId].start == Some(t0);
    summary := plugin.MetricsSummary();
  }
}
