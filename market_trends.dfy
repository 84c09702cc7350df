/**
 * The market-trends tool: a keyword lookup in a fixed table of mock trends, and
 * the `execute` policy around it (a result cache keyed by `"<topic>_<region>"`,
 * a quota of three search-API calls per tool instance, and a mock fallback with
 * a source label saying why the API was not used).
 *
 * The search API itself is not modelled: its answer for the call at hand is a
 * parameter, either trends data or an error message.
 */
module MarketTrends {
  import opened Wrappers
  import opened Text
  import opened Seqs

  datatype Trend = Trend(trend: string, confidence: real, region: string, source: string)

  /** A result dictionary: `cached` is true only on the copy returned for a cache hit. */
  datatype TrendsData = TrendsData(trends: seq<Trend>, region: string, source: string, cached: bool)

  /** What `_search_google_api` does for one call: returns data or raises with a message. */
  datatype ApiOutcome = ApiData(data: TrendsData) | ApiError(message: string)

  datatype MockEntry = MockEntry(key: string, trends: seq<Trend>)

  const MockSource := "Mock DB"
  const MaxRequests: nat := 3

  function MockTrend(name: string, confidence: real, region: string): Trend {
    Trend(name, confidence, region, MockSource)
  }

  /** The mock table, keys in declaration order. */
  function MockTable(region: string): (table: seq<MockEntry>)
    ensures |table| == 3
    ensures table[0].key == "Revenue spike" && table[1].key == "Sales decline" && table[2].key == "Customer churn"
    ensures forall i :: 0 <= i < |table| ==> |table[i].trends| == 3 && MockShaped(table[i].trends, region)
  {
    [ MockEntry("Revenue spike", [MockTrend("Seasonal demand increase", 0.85, region),
                                  MockTrend("New product launch impact", 0.8, region),
                                  MockTrend("Market expansion effects", 0.75, region)]),
      MockEntry("Sales decline", [MockTrend("Economic downturn", 0.85, region),
                                  MockTrend("Increased competition", 0.7, region),
                                  MockTrend("Market saturation", 0.65, region)]),
      MockEntry("Customer churn", [MockTrend("Service quality issues", 0.8, region),
                                   MockTrend("Competitive alternatives", 0.75, region),
                                   MockTrend("Pricing concerns", 0.7, region)]) ]
  }

  function DefaultTrends(region: string): (r: seq<Trend>)
    ensures MockShaped(r, region)
  {
    [MockTrend("Market volatility", 0.75, region), MockTrend("Industry changes", 0.7, region)]
  }

  /** `key.lower() in topic.lower() or topic.lower() in key.lower()`. */
  predicate Matches(key: string, topic: string): (b: bool)
    ensures IsPrefix(Lower(key), Lower(topic)) || IsPrefix(Lower(topic), Lower(key)) ==> b
  {
    Contains(Lower(topic), Lower(key)) || Contains(Lower(key), Lower(topic))
  }

  /** The scan over the table: the trends of the first matching key, else `fallback`. */
  function FirstMatch(table: seq<MockEntry>, topic: string, fallback: seq<Trend>): (r: seq<Trend>)
    ensures r == fallback || exists i :: 0 <= i < |table| && r == table[i].trends
  {
    if table == [] then fallback
    else if Matches(table[0].key, topic) then table[0].trends
    else FirstMatch(table[1..], topic, fallback)
  }

  /** Two or three mock entries, each carrying `region` and the mock source. */
  ghost predicate MockShaped(trends: seq<Trend>, region: string) {
    && (|trends| == 2 || |trends| == 3)
    && forall j :: 0 <= j < |trends| ==> trends[j].region == region && trends[j].source == MockSource
  }

  /** Whatever the scan picks has the shape every candidate has. */
  lemma {:induction false} FirstMatchShaped(table: seq<MockEntry>, topic: string, fallback: seq<Trend>, region: string)
    requires MockShaped(fallback, region)
    requires forall i :: 0 <= i < |table| ==> MockShaped(table[i].trends, region)
    ensures MockShaped(FirstMatch(table, topic, fallback), region)
  {
    if table != [] && !Matches(table[0].key, topic) {
      forall i | 0 <= i < |table[1..]| ensures MockShaped(table[1..][i].trends, region) {
        assert table[1..][i] == table[i + 1];
      }
      FirstMatchShaped(table[1..], topic, fallback, region);
    }
  }

  /** The scan picks the first key that matches. */
  lemma {:induction false} FirstMatchAt(table: seq<MockEntry>, topic: string, fallback: seq<Trend>, i: nat)
    requires i < |table| && Matches(table[i].key, topic)
    requires forall j :: 0 <= j < i ==> !Matches(table[j].key, topic)
    ensures FirstMatch(table, topic, fallback) == table[i].trends
  {
    if i > 0 {
      assert !Matches(table[0].key, topic);
      forall j | 0 <= j < i - 1 ensures !Matches(table[1..][j].key, topic) {
        assert table[1..][j] == table[j + 1];
      }
      assert table[1..][i - 1] == table[i];
      FirstMatchAt(table[1..], topic, fallback, i - 1);
    }
  }

  /** The scan falls back when no key matches. */
  lemma {:induction false} NoMatchFallsBack(table: seq<MockEntry>, topic: string, fallback: seq<Trend>)
    requires forall i :: 0 <= i < |table| ==> !Matches(table[i].key, topic)
    ensures FirstMatch(table, topic, fallback) == fallback
  {
    if table != [] {
      assert !Matches(table[0].key, topic);
      forall i | 0 <= i < |table[1..]| ensures !Matches(table[1..][i].key, topic) {
        assert table[1..][i] == table[i + 1];
      }
      NoMatchFallsBack(table[1..], topic, fallback);
    }
  }

  /** `_get_mock_trends(topic, region)`. */
  function MockTrends(topic: string, region: string): (r: TrendsData)
    ensures r.region == region && r.source == MockSource && !r.cached
    ensures |r.trends| == 2 || |r.trends| == 3
    ensures forall j :: 0 <= j < |r.trends| ==> r.trends[j].region == region && r.trends[j].source == MockSource
  {
    FirstMatchShaped(MockTable(region), topic, DefaultTrends(region), region);
    TrendsData(FirstMatch(MockTable(region), topic, DefaultTrends(region)), region, MockSource, false)
  }

  /** The lookup returns the entries of the first table key that matches, else the two defaults. */
  lemma MockTrendsLookup(topic: string, region: string)
    ensures var table := MockTable(region);
            && (forall i :: 0 <= i < |table| && Matches(table[i].key, topic)
                            && (forall j :: 0 <= j < i ==> !Matches(table[j].key, topic))
                            ==> MockTrends(topic, region).trends == table[i].trends)
            && ((forall i :: 0 <= i < |table| ==> !Matches(table[i].key, topic))
                ==> MockTrends(topic, region).trends == DefaultTrends(region))
  {
    var table := MockTable(region);
    forall i | 0 <= i < |table| && Matches(table[i].key, topic)
               && (forall j :: 0 <= j < i ==> !Matches(table[j].key, topic))
      ensures MockTrends(topic, region).trends == table[i].trends
    {
      FirstMatchAt(table, topic, DefaultTrends(region), i);
    }
    if forall i :: 0 <= i < |table| ==> !Matches(table[i].key, topic) {
      NoMatchFallsBack(table, topic, DefaultTrends(region));
    }
  }

  /** Every string contains the empty string, so an empty topic matches the first key. */
  lemma EmptyTopicMatchesRevenueSpike(region: string)
    ensures MockTrends("", region).trends == MockTable(region)[0].trends
  {
    assert IsPrefix(Lower(""), Lower("Revenue spike"));
  }

  /** `f"{topic}_{region}"`. */
  function CacheKey(topic: string, region: string): (k: string)
    ensures |k| == |topic| + 1 + |region|
    ensures k[..|topic|] == topic && k[|topic|] == '_' && k[|topic| + 1..] == region
  {
    topic + "_" + region
  }

  /** The key leaves the boundary between topic and region implicit, so distinct pairs can share an entry. */
  lemma CacheKeysCollide()
    ensures CacheKey("a_b", "c") == CacheKey("a", "b_c")
  {
  }

  /** `f"Mock (API error: {str(api_error)[:50]})"`. */
  function ApiErrorSource(message: string): (s: string)
    ensures IsPrefix("Mock (API error: ", s)
    ensures |s| <= |"Mock (API error: "| + 50 + 1
  {
    "Mock (API error: " + Take(message, 50) + ")"
  }

  /** Every cached answer holds two or three trends, as every mock answer does. */
  ghost predicate MockSized(cache: map<string, TrendsData>) {
    forall k :: k in cache ==> 2 <= |cache[k].trends| <= 3
  }

  /** The part of the tool that `execute` changes: the result cache and the number of search-API calls made. */
  datatype ToolState = ToolState(cache: map<string, TrendsData>, requestCount: nat)

  /** The source label `execute` gives a mock answer, when the API is not used or fails. */
  function MockSourceFor(s: ToolState, hasCredentials: bool, useApi: bool, api: ApiOutcome): string {
    if !(useApi && hasCredentials) then "Mock (no API credentials)"
    else if s.requestCount >= MaxRequests then "Mock (rate limit)"
    else if api.ApiError? then ApiErrorSource(api.message)
    else MockSource
  }

  /**
   * One `execute(topic, region, use_api)` call on a tool in state `s`: its answer
   * and the state it leaves. An entry already in the cache is never replaced,
   * the key asked about is always cached afterwards, and only an API answer
   * uses the quota.
   */
  function Answer(s: ToolState, hasCredentials: bool, topic: string, region: string, useApi: bool, api: ApiOutcome)
    : (r: (TrendsData, ToolState))
    ensures CacheKey(topic, region) in r.1.cache
    ensures forall k :: k in s.cache ==> k in r.1.cache && r.1.cache[k] == s.cache[k]
    ensures s.requestCount <= r.1.requestCount <= s.requestCount + 1
    ensures r.1.requestCount == s.requestCount + 1 ==> useApi && hasCredentials && s.requestCount < MaxRequests
    ensures CacheKey(topic, region) in s.cache ==> r.0.trends == s.cache[CacheKey(topic, region)].trends
    ensures !hasCredentials && MockSized(s.cache) ==>
              && 2 <= |r.0.trends| <= 3 && MockSized(r.1.cache) && r.1.requestCount == s.requestCount
  {
    var key := CacheKey(topic, region);
    if key in s.cache then (s.cache[key].(cached := true), s)
    else
      var viaApi := useApi && hasCredentials && s.requestCount < MaxRequests && api.ApiData?;
      var data := if viaApi then api.data else MockTrends(topic, region).(source := MockSourceFor(s, hasCredentials, useApi, api));
      (data, ToolState(s.cache[key := data], if viaApi then s.requestCount + 1 else s.requestCount))
  }

  class MarketTrendsTool {
    /** Both `GOOGLE_API_KEY` and `GOOGLE_CSE_ID` were set when the tool was built. */
    const hasCredentials: bool
    const maxRequests: nat
    var requestCount: nat
    var cache: map<string, TrendsData>

    ghost predicate Valid()
      reads this
    {
      maxRequests == MaxRequests && requestCount <= maxRequests
    }

    function State(): ToolState
      reads this
    {
      ToolState(cache, requestCount)
    }

    constructor (hasCredentials: bool)
      ensures Valid()
      ensures this.hasCredentials == hasCredentials
      ensures requestCount == 0 && cache == map[]
    {
      this.hasCredentials := hasCredentials;
      maxRequests := MaxRequests;
      requestCount := 0;
      cache := map[];
    }

    /**
     * `execute(topic, region, use_api)`, where `api` is what the search API call
     * would produce. A cached key is answered from the cache; otherwise the API is
     * used while credentials are present, `use_api` holds and the quota is not
     * spent, and the mock table is used in every other case. Every answer is a
     * success.
     */
    method Execute(topic: string, region: string := "Global", useApi: bool := true, api: ApiOutcome) returns (r: ToolResult<TrendsData>)
      requires Valid()
      modifies this
      ensures Valid()
      ensures r.success && r.data.Some? && r.error.None?
      ensures (r.data.value, State()) == Answer(old(State()), hasCredentials, topic, region, useApi, api)
      ensures var key := CacheKey(topic, region);
              var mock := MockTrends(topic, region);
              && (key in old(cache) ==>
                    && r.data.value == old(cache)[key].(cached := true)
                    && cache == old(cache) && requestCount == old(requestCount))
              && (key !in old(cache) ==>
                    cache == old(cache)[key := r.data.value])
              && (key !in old(cache) && !(useApi && hasCredentials) ==>
                    r.data.value == mock.(source := "Mock (no API credentials)") && requestCount == old(requestCount))
              && (key !in old(cache) && useApi && hasCredentials && old(requestCount) >= maxRequests ==>
                    r.data.value == mock.(source := "Mock (rate limit)") && requestCount == old(requestCount))
              && (key !in old(cache) && useApi && hasCredentials && old(requestCount) < maxRequests && api.ApiData? ==>
                    r.data.value == api.data && requestCount == old(requestCount) + 1)
              && (key !in old(cache) && useApi && hasCredentials && old(requestCount) < maxRequests && api.ApiError? ==>
                    r.data.value == mock.(source := ApiErrorSource(api.message)) && requestCount == old(requestCount))
    {
      var key := CacheKey(topic, region);
      if key in cache {
        return ToolResult(true, Some(cache[key].(cached := true)), None);
      }
      var resultData: TrendsData;
      if useApi && hasCredentials {
        if requestCount >= maxRequests {
          resultData := MockTrends(topic, region).(source := "Mock (rate limit)");
        } else {
          match api
          case ApiData(data) =>
            resultData := data;
            requestCount := requestCount + 1;
          case ApiError(message) =>
            resultData := MockTrends(topic, region).(source := ApiErrorSource(message));
        }
      } else {
        resultData := MockTrends(topic, region).(source := "Mock (no API credentials)");
      }
      cache := cache[key := resultData];
      r := ToolResult(true, Some(resultData), None);
    }
  }

  /**
   * Asking twice for the same topic and region answers the second time from the
   * cache: the same data, marked cached, and no further use of the quota.
   */
  method AskTwice(tool: MarketTrendsTool, topic: string, region: string, useApi: bool, api: ApiOutcome, later: ApiOutcome)
    returns (first: ToolResult<TrendsData>, second: ToolResult<TrendsData>)
    requires tool.Valid() && CacheKey(topic, region) !in tool.cache
    modifies tool
    ensures first.data.Some? && second.data.Some?
    ensures second.data.value == first.data.value.(cached := true)
    ensures tool.requestCount <= old(tool.requestCount) + 1
  {
    first := tool.Execute(topic, region, useApi, api);
    second := tool.Execute(topic, region, useApi, later);
  }
}
