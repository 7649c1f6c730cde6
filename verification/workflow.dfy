/** The research workflow behind the "generate intelligence" action: plan
    queries for every selected category, cap them, search one query after
    another, scrape the first result links, and analyse the scraped content
    once per category, writing each step's output into the session's
    intelligence data as it goes. */
module Workflow {
  import opened Wrappers
  import opened Strings
  import opened Json
  import opened Calendar
  import opened QueryPlanner
  import opened SearchOptions
  import opened SearchGateway
  import opened Scraper
  import opened CategoryAnalysis

  /** The session's `intelligence_data` dict: the six keys it is created
      with, and the three the workflow adds later (absent until written). */
  datatype IntelligenceData = IntelligenceData(
    queries: seq<ResearchQuery>,
    searchResults: seq<SearchResult>,
    analysis: map<string, Json>,
    categories: seq<string>,
    market: string,
    userInput: string,
    scrapedContent: Option<seq<ScrapeRecord>>,
    config: Option<DepthConfig>,
    categoryAnalyses: Option<map<string, map<string, Json>>>)

  /** The dict the workflow creates when there is none yet. */
  function FreshData(categories: seq<string>, market: string, userInput: string): IntelligenceData
  {
    IntelligenceData([], [], map[], categories, market, userInput, None, None, None)
  }

  const UtilsMissing := "Market intelligence functionality requires additional utility modules. This demo shows the dashboard interface only."
  const WorkflowErrorPrefix := "Error generating intelligence: "

  /** The `for query in category_queries` loop: every record gets the
      category. */
  function Tagged(queries: seq<ResearchQuery>, category: string): (r: seq<ResearchQuery>)
    ensures |r| == |queries|
  {
    seq(|queries|, i requires 0 <= i < |queries| => queries[i].(category := category))
  }

  /** The planner already puts the category in every record, so tagging
      changes nothing. */
  lemma TaggingKeepsPlan(category: string, market: string, depth: string)
    ensures Tagged(PlannedQueries(category, market, depth), category) == PlannedQueries(category, market, depth)
  {
    var plan := PlannedQueries(category, market, depth);
    assert forall i :: 0 <= i < |plan| ==> plan[i].category == category;
  }

  /** `all_queries` before the cap: each category's tagged plan, in
      category order. */
  function AllQueries(categories: seq<string>, market: string, depth: string): seq<ResearchQuery>
    decreases |categories|
  {
    if categories == [] then []
    else
      var last := categories[|categories| - 1];
      AllQueries(categories[..|categories| - 1], market, depth) + Tagged(PlannedQueries(last, market, depth), last)
  }

  /** Category `j`'s plan occupies the `j`-th block of `QueryCountFor(depth)`
      queries. */
  lemma {:induction false} AllQueriesLayout(categories: seq<string>, market: string, depth: string)
    ensures |AllQueries(categories, market, depth)| == |categories| * QueryCountFor(depth)
    ensures forall j, i :: 0 <= j < |categories| && 0 <= i < QueryCountFor(depth) ==>
      j * QueryCountFor(depth) + i < |AllQueries(categories, market, depth)| &&
      AllQueries(categories, market, depth)[j * QueryCountFor(depth) + i] == QueryRecord(categories[j], market, i)
    decreases |categories|
  {
    if categories != [] {
      var n := QueryCountFor(depth);
      var init := categories[..|categories| - 1];
      var last := categories[|categories| - 1];
      AllQueriesLayout(init, market, depth);
      TaggingKeepsPlan(last, market, depth);
      var all := AllQueries(categories, market, depth);
      assert all == AllQueries(init, market, depth) + PlannedQueries(last, market, depth);
      assert |init| * n + n == |categories| * n;
      forall j, i | 0 <= j < |categories| && 0 <= i < n
        ensures j * n + i < |all| && all[j * n + i] == QueryRecord(categories[j], market, i)
      {
        if j < |init| {
          assert j * n + i < |init| * n by {
            assert j * n + i < j * n + n == (j + 1) * n <= |init| * n;
          }
          assert categories[j] == init[j];
        } else {
          assert j * n == |init| * n;
        }
      }
    }
  }

  /** The two loops that build `all_queries`: plan each category, tag its
      records, and append them. */
  method PlanAllQueries(categories: seq<string>, market: string, timescale: string, depth: string)
    returns (allQueries: seq<ResearchQuery>)
    ensures allQueries == AllQueries(categories, market, depth)
  {
    allQueries := [];
    for j := 0 to |categories|
      invariant allQueries == AllQueries(categories[..j], market, depth)
    {
      var category := categories[j];
      var categoryQueries := GenerateIntelligentQueries(category, market, timescale, depth);
      ghost var planned := categoryQueries;
      for k := 0 to |categoryQueries|
        invariant |categoryQueries| == |planned|
        invariant forall t :: 0 <= t < k ==> categoryQueries[t] == planned[t].(category := category)
        invariant forall t :: k <= t < |categoryQueries| ==> categoryQueries[t] == planned[t]
      {
        categoryQueries := categoryQueries[k := categoryQueries[k].(category := category)];
      }
      assert categoryQueries == Tagged(planned, category);
      assert categories[..j + 1][..j] == categories[..j];
      allQueries := allQueries + categoryQueries;
    }
    assert categories[..|categories|] == categories;
  }

  /** `all_queries[:config['num_queries']]`. */
  function CappedQueries(categories: seq<string>, market: string, depth: string): seq<ResearchQuery>
  {
    Take(AllQueries(categories, market, depth), ResearchDepthConfig(depth).numQueries)
  }

  /** The cap is global: the retained queries are the first
      `num_queries` of the concatenated plans, not a share per category. */
  lemma CapIsGlobal(categories: seq<string>, market: string, depth: string)
    ensures var n := QueryCountFor(depth);
      var cap := ResearchDepthConfig(depth).numQueries;
      var kept := CappedQueries(categories, market, depth);
      |kept| == (if |categories| * n <= cap then |categories| * n else cap) &&
      forall j, i :: 0 <= j < |categories| && 0 <= i < n && j * n + i < cap ==>
        j * n + i < |kept| && kept[j * n + i] == QueryRecord(categories[j], market, i)
  {
    AllQueriesLayout(categories, market, depth);
  }

  /** With the interface's depth labels, or the session's initial "Medium",
      ten queries are kept and each category plans at least five, so only
      the first two categories are ever searched. */
  lemma InterfaceDepthReachesTwoCategories(categories: seq<string>, market: string, depth: string, k: nat)
    requires depth in {QuickLabel, MediumLabel, DeepLabel, "Medium"}
    requires k < |CappedQueries(categories, market, depth)|
    ensures |CappedQueries(categories, market, depth)| <= 10
    ensures k < QueryCountFor(depth) ==> CappedQueries(categories, market, depth)[k] == QueryRecord(categories[0], market, k)
    ensures k >= QueryCountFor(depth) ==>
      k - QueryCountFor(depth) < QueryCountFor(depth) && 1 < |categories| &&
      CappedQueries(categories, market, depth)[k] == QueryRecord(categories[1], market, k - QueryCountFor(depth))
  {
    var n := QueryCountFor(depth);
    assert ResearchDepthConfig(depth) == MediumConfig;
    assert n >= 5;
    AllQueriesLayout(categories, market, depth);
    var all := AllQueries(categories, market, depth);
    assert k < |all| == |categories| * n;
    if k < n {
      assert 0 < |categories|;
      assert 0 * n + k == k;
    } else {
      assert k < 10 <= 2 * n;
      assert n < |categories| * n;
      assert 1 < |categories|;
      assert 1 * n + (k - n) == k;
    }
  }

  /** The search loop: one search per query, in order, each with the depth's
      result count, the time filter and enhanced filtering; the first search
      that raises ends the loop. */
  function SearchesFrom(queries: seq<ResearchQuery>, numResults: nat, timeFilter: string,
                        apiKey: Option<string>, searchEngineId: Option<string>, today: int,
                        provider: SearchParams -> Result<ProviderReply>): Result<seq<SearchResult>>
    decreases |queries|
  {
    if queries == [] then Success([])
    else
      match SearchesFrom(queries[..|queries| - 1], numResults, timeFilter, apiKey, searchEngineId, today, provider)
      case Failure(e) => Failure(e)
      case Success(prev) =>
        match SearchOutcome(queries[|queries| - 1].query, numResults, Some(timeFilter), true, apiKey, searchEngineId, today, provider)
        case Failure(e) => Failure(e)
        case Success(results) => Success(prev + results)
  }

  lemma {:induction false} SearchFailureStays(queries: seq<ResearchQuery>, n: nat, numResults: nat, timeFilter: string,
                                              apiKey: Option<string>, searchEngineId: Option<string>, today: int,
                                              provider: SearchParams -> Result<ProviderReply>)
    requires n <= |queries| && SearchesFrom(queries[..n], numResults, timeFilter, apiKey, searchEngineId, today, provider).Failure?
    ensures SearchesFrom(queries, numResults, timeFilter, apiKey, searchEngineId, today, provider) ==
            SearchesFrom(queries[..n], numResults, timeFilter, apiKey, searchEngineId, today, provider)
    decreases |queries| - n
  {
    if n < |queries| {
      assert queries[..n + 1][..n] == queries[..n];
      SearchFailureStays(queries, n + 1, numResults, timeFilter, apiKey, searchEngineId, today, provider);
    } else {
      assert queries[..n] == queries;
    }
  }

  /** The `for i, query in enumerate(all_queries)` loop. */
  method RunSearches(queries: seq<ResearchQuery>, numResults: nat, timeFilter: string,
                     apiKey: Option<string>, searchEngineId: Option<string>, today: int,
                     provider: SearchParams -> Result<ProviderReply>)
    returns (r: Result<seq<SearchResult>>)
    ensures r == SearchesFrom(queries, numResults, timeFilter, apiKey, searchEngineId, today, provider)
  {
    var searchResults: seq<SearchResult> := [];
    for i := 0 to |queries|
      invariant SearchesFrom(queries[..i], numResults, timeFilter, apiKey, searchEngineId, today, provider) == Success(searchResults)
    {
      assert queries[..i + 1][..i] == queries[..i] && queries[..i + 1][i] == queries[i];
      var results := SearchGoogle(queries[i].query, numResults, Some(timeFilter), true, apiKey, searchEngineId, today, provider);
      if results.Failure? {
        SearchFailureStays(queries, i + 1, numResults, timeFilter, apiKey, searchEngineId, today, provider);
        return Failure(results.error);
      }
      searchResults := searchResults + results.value;
    }
    assert queries[..|queries|] == queries;
    return Success(searchResults);
  }

  /** The searches raise exactly when there is a query to search and the
      credentials are missing, and then with the configuration error. */
  lemma {:induction false} SearchesFailOnlyWithoutCredentials(queries: seq<ResearchQuery>, numResults: nat, timeFilter: string,
                                                             apiKey: Option<string>, searchEngineId: Option<string>, today: int,
                                                             provider: SearchParams -> Result<ProviderReply>)
    ensures var r := SearchesFrom(queries, numResults, timeFilter, apiKey, searchEngineId, today, provider);
      (r.Failure? <==> queries != [] && (!IsSet(apiKey) || !IsSet(searchEngineId))) &&
      (r.Failure? ==> r.error == ConfigError)
    decreases |queries|
  {
    if queries != [] {
      SearchesFailOnlyWithoutCredentials(queries[..|queries| - 1], numResults, timeFilter, apiKey, searchEngineId, today, provider);
    }
  }

  /** All the results of the searches, one query's after another. */
  function Flatten(parts: seq<seq<SearchResult>>): seq<SearchResult>
    decreases |parts|
  {
    if parts == [] then [] else Flatten(parts[..|parts| - 1]) + parts[|parts| - 1]
  }

  /** With credentials set, `search_results` is the in-order concatenation
      of every query's own search. */
  lemma {:induction false} SearchResultsConcatenate(queries: seq<ResearchQuery>, numResults: nat, timeFilter: string,
                                                    apiKey: Option<string>, searchEngineId: Option<string>, today: int,
                                                    provider: SearchParams -> Result<ProviderReply>)
    requires IsSet(apiKey) && IsSet(searchEngineId)
    ensures SearchesFrom(queries, numResults, timeFilter, apiKey, searchEngineId, today, provider) ==
      Success(Flatten(seq(|queries|, i requires 0 <= i < |queries| =>
        SearchOutcome(queries[i].query, numResults, Some(timeFilter), true, apiKey, searchEngineId, today, provider).value)))
    decreases |queries|
  {
    if queries != [] {
      var init := queries[..|queries| - 1];
      SearchResultsConcatenate(init, numResults, timeFilter, apiKey, searchEngineId, today, provider);
      var parts := seq(|queries|, i requires 0 <= i < |queries| =>
        SearchOutcome(queries[i].query, numResults, Some(timeFilter), true, apiKey, searchEngineId, today, provider).value);
      var initParts := seq(|init|, i requires 0 <= i < |init| =>
        SearchOutcome(init[i].query, numResults, Some(timeFilter), true, apiKey, searchEngineId, today, provider).value);
      assert parts[..|parts| - 1] == initParts;
    }
  }

  /** `[result['link'] for result in search_results[:num_results * 2]]`. */
  function UrlsToScrape(results: seq<SearchResult>, numResults: nat): (r: seq<string>)
    ensures |r| <= 2 * numResults && |r| <= |results|
    ensures |results| >= 2 * numResults ==> |r| == 2 * numResults
    ensures forall i :: 0 <= i < |r| ==> r[i] == results[i].link
  {
    var head := Take(results, 2 * numResults);
    seq(|head|, i requires 0 <= i < |head| => head[i].link)
  }

  /** `category_analyses`: one analysis per selected category. */
  function CategoryAnalyses(categories: seq<string>, market: string, scraped: seq<ScrapeRecord>, clientError: Option<string>,
                            complete: (string, string, string) -> Result<map<string, Json>>): map<string, map<string, Json>>
  {
    map c | c in categories :: CategoryAnalysisResult(c, market, scraped, clientError, complete)
  }

  /** The `for category in categories` analysis loop. */
  method AnalyzeCategories(categories: seq<string>, market: string, scraped: seq<ScrapeRecord>, clientError: Option<string>,
                           complete: (string, string, string) -> Result<map<string, Json>>)
    returns (categoryAnalyses: map<string, map<string, Json>>)
    ensures categoryAnalyses == CategoryAnalyses(categories, market, scraped, clientError, complete)
  {
    categoryAnalyses := map[];
    for i := 0 to |categories|
      invariant categoryAnalyses == CategoryAnalyses(categories[..i], market, scraped, clientError, complete)
    {
      var categoryAnalysis := AnalyzeCategorySpecificData(categories[i], market, scraped, clientError, complete);
      assert categories[..i + 1] == categories[..i] + [categories[i]];
      categoryAnalyses := categoryAnalyses[categories[i] := categoryAnalysis];
    }
    assert categories[..|categories|] == categories;
  }

  /** The data after the analysis step: with content, one analysis per
      category and the first category's as the main analysis; without, both
      are emptied. */
  function AfterAnalysis(data: IntelligenceData, categories: seq<string>, market: string, scraped: seq<ScrapeRecord>,
                         clientError: Option<string>, complete: (string, string, string) -> Result<map<string, Json>>): IntelligenceData
  {
    if scraped != [] then
      var analyses := CategoryAnalyses(categories, market, scraped, clientError, complete);
      data.(categoryAnalyses := Some(analyses),
            analysis := if categories != [] then analyses[categories[0]] else data.analysis)
    else data.(categoryAnalyses := Some(map[]), analysis := map[])
  }

  /** With scraped content there is exactly one analysis per selected
      category and the main analysis is the first category's; without it
      both are empty and no analysis runs, so the completion is never
      consulted. Nothing else in the data changes. */
  lemma AnalysisStep(data: IntelligenceData, categories: seq<string>, market: string, scraped: seq<ScrapeRecord>,
                     clientError: Option<string>, complete: (string, string, string) -> Result<map<string, Json>>,
                     otherComplete: (string, string, string) -> Result<map<string, Json>>)
    ensures var d := AfterAnalysis(data, categories, market, scraped, clientError, complete);
      d.categoryAnalyses.Some? &&
      d.(categoryAnalyses := data.categoryAnalyses, analysis := data.analysis) == data
    ensures scraped != [] ==>
      var d := AfterAnalysis(data, categories, market, scraped, clientError, complete);
      d.categoryAnalyses.value.Keys == set c | c in categories &&
      (forall c :: c in categories ==> d.categoryAnalyses.value[c] == CategoryAnalysisResult(c, market, scraped, clientError, complete)) &&
      (categories != [] ==> d.analysis == CategoryAnalysisResult(categories[0], market, scraped, clientError, complete))
    ensures scraped == [] ==>
      AfterAnalysis(data, categories, market, scraped, clientError, complete) ==
        AfterAnalysis(data, categories, market, scraped, None, otherComplete) &&
      AfterAnalysis(data, categories, market, scraped, clientError, complete).categoryAnalyses == Some(map[]) &&
      AfterAnalysis(data, categories, market, scraped, clientError, complete).analysis == map[]
  {
  }

  /** The data the workflow starts from: the session's, or a fresh dict. */
  function StartingData(current: Option<IntelligenceData>, categories: seq<string>, market: string, userInput: string): IntelligenceData
  {
    if current.None? then FreshData(categories, market, userInput) else current.value
  }

  /** The streamlit session state the workflow reads and writes. */
  class Session {
    var intelligenceData: Option<IntelligenceData>
    var currentCategories: seq<string>
    var currentUserInput: string
    /** The messages shown with `st.error`. */
    var errors: seq<string>

    /** The session defaults set when the app starts. */
    constructor ()
      ensures intelligenceData == None && currentCategories == [] && currentUserInput == "" && errors == []
    {
      intelligenceData := None;
      currentCategories := [];
      currentUserInput := "";
      errors := [];
    }

    /** Steps 3 and 4 of the workflow: scrape the first result links, store
        the scraped content, the results and the config, then the analyses. */
    method StoreScrapedAndAnalyses(searchResults: seq<SearchResult>, config: DepthConfig,
                                   categories: seq<string>, market: string,
                                   fetch: string -> Outcome, extract: string -> Outcome,
                                   clientError: Option<string>, complete: (string, string, string) -> Result<map<string, Json>>)
      requires intelligenceData.Some?
      modifies this
      ensures currentCategories == old(currentCategories) && currentUserInput == old(currentUserInput) && errors == old(errors)
      ensures exists scraped ::
        multiset(scraped) == multiset(Kept(ScrapedAll(UrlsToScrape(searchResults, config.numResults), fetch, extract))) &&
        intelligenceData == Some(AfterAnalysis(
          old(intelligenceData).value.(scrapedContent := Some(scraped), searchResults := searchResults, config := Some(config)),
          categories, market, scraped, clientError, complete))
    {
      var urlsToScrape := UrlsToScrape(searchResults, config.numResults);
      var scrapedContent := ScrapeUrls(urlsToScrape, config.maxWorkers, fetch, extract);
      intelligenceData := Some(intelligenceData.value.(scrapedContent := Some(scrapedContent)));
      intelligenceData := Some(intelligenceData.value.(searchResults := searchResults));
      intelligenceData := Some(intelligenceData.value.(config := Some(config)));
      ghost var stored := intelligenceData.value;
      if scrapedContent != [] {
        var categoryAnalyses := AnalyzeCategories(categories, market, scrapedContent, clientError, complete);
        intelligenceData := Some(intelligenceData.value.(categoryAnalyses := Some(categoryAnalyses)));
        if categories != [] {
          intelligenceData := Some(intelligenceData.value.(analysis := categoryAnalyses[categories[0]]));
        }
      } else {
        intelligenceData := Some(intelligenceData.value.(categoryAnalyses := Some(map[])));
        intelligenceData := Some(intelligenceData.value.(analysis := map[]));
      }
      assert intelligenceData == Some(AfterAnalysis(stored, categories, market, scrapedContent, clientError, complete));
    }

    /** `execute_research_workflow`. The searches are the only step that
        can raise, and then the data keeps the queries written before them. */
    method ExecuteResearchWorkflow(categories: seq<string>, market: string, timescale: string, researchDepth: string,
                                   utilsAvailable: bool, today: int,
                                   apiKey: Option<string>, searchEngineId: Option<string>,
                                   provider: SearchParams -> Result<ProviderReply>,
                                   fetch: string -> Outcome, extract: string -> Outcome,
                                   clientError: Option<string>, complete: (string, string, string) -> Result<map<string, Json>>)
      requires EarliestToday <= today <= MaxOrdinal
      modifies this
      ensures currentCategories == categories && currentUserInput == old(currentUserInput)
      ensures !utilsAvailable ==>
        intelligenceData == Some(FreshData(categories, market, old(currentUserInput))) &&
        errors == old(errors) + [UtilsMissing]
      ensures utilsAvailable ==>
        var config := ResearchDepthConfig(researchDepth);
        var queries := CappedQueries(categories, market, researchDepth);
        var withQueries := StartingData(old(intelligenceData), categories, market, old(currentUserInput)).(queries := queries);
        var searched := SearchesFrom(queries, config.numResults, FormatTimeFilter(timescale, today), apiKey, searchEngineId, today, provider);
        (searched.Failure? ==>
          intelligenceData == Some(withQueries) && errors == old(errors) + [WorkflowErrorPrefix + searched.error]) &&
        (searched.Success? ==>
          errors == old(errors) &&
          exists scraped ::
            multiset(scraped) == multiset(Kept(ScrapedAll(UrlsToScrape(searched.value, config.numResults), fetch, extract))) &&
            intelligenceData == Some(AfterAnalysis(
              withQueries.(scrapedContent := Some(scraped), searchResults := searched.value, config := Some(config)),
              categories, market, scraped, clientError, complete)))
    {
      if !utilsAvailable {
        errors := errors + [UtilsMissing];
        intelligenceData := Some(FreshData(categories, market, currentUserInput));
        currentCategories := categories;
        return;
      }
      if intelligenceData.None? {
        intelligenceData := Some(FreshData(categories, market, currentUserInput));
      }
      currentCategories := categories;
      var config := ResearchDepthConfig(researchDepth);
      var timeFilter := FormatTimeFilter(timescale, today);
      var allQueries := PlanAllQueries(categories, market, timescale, researchDepth);
      allQueries := Take(allQueries, config.numQueries);
      intelligenceData := Some(intelligenceData.value.(queries := allQueries));
      var searchResults := RunSearches(allQueries, config.numResults, timeFilter, apiKey, searchEngineId, today, provider);
      if searchResults.Failure? {
        errors := errors + [WorkflowErrorPrefix + searchResults.error];
        return;
      }
      StoreScrapedAndAnalyses(searchResults.value, config, categories, market, fetch, extract, clientError, complete);
    }
  }
}
