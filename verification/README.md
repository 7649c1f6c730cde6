# Market intelligence pipeline — a verified model

The application is a Streamlit dashboard for public-sector procurement
research. Given the selected procurement categories, a market, a timescale
and a research depth, it does five things in order:

1. It plans search queries for each category from fixed templates.
2. It runs them against a Google custom search.
3. It scrapes the first result pages.
4. It asks an LLM for a structured analysis of the scraped text.
5. It stores everything in the session and renders it.

This project models the deterministic core of that pipeline in Dafny and
proves what it promises. The network, the LLM, the page fetcher and
extractor, the prompt files and the clock are parameters.

Modules, one or more per source file, plus shared helpers:

- `QueryPlanner` (utils/intelligent_query.py): the template plan.
  - The number of queries depends on the depth label.
  - Research dimensions are assigned round-robin.
  - The fixed fields of each record are set here.
  - `optimize_search_query` is a chain of keyword-conditioned rewrites.
    The model proves it keeps the original, establishes every keyword and is
    idempotent.
- `SearchOptions` (utils/search_options.py): three pieces.
  - The depth-to-(queries, results, workers) table.
  - The `after:YYYY-MM-DD` time filter, with today as an ordinal day number.
  - The search-option suggestion with its literal fallback.
- `SearchGateway` (utils/search_google.py), which covers:
  - query composition and `dateRestrict`;
  - item-to-record normalisation;
  - the raise-or-`[]` error policy.
  The Google client is an oracle.
- `Scraper` (utils/scrape_url.py): the per-URL record and the filtered
  collection. The collection is specified up to order: a permutation of the
  kept records.
- `Sources`: the source preprocessing and prompt rendering, shared by
  utils/category_specific_analysis.py and utils/gpt_analysis_enhanced.py.
  It covers the content filter, the 3000-character cap and the domain
  extraction, including its index error on URLs with a single '/'.
- `HtmlTags`, `SourceBackfill` and `CategoryAnalysis`
  (utils/category_specific_analysis.py): recursive tag stripping, the
  `source_urls` backfill and the analyser's short-circuit and error shell.
- `EnhancedAnalysis` (utils/gpt_analysis_enhanced.py): three passes whose
  results are merged right-biased; the first failing pass fails the whole
  analysis.
- `StructuredAnalysis` (utils/gpt_analysis.py), which covers:
  - prompt loading;
  - the joined content with the 8000-character cap;
  - five passes, each defaulting its own key on failure.
- `Display` and `Workflow` (app.py).
  - `Display` covers the source links, the metric collection and the tab
    names.
  - `Workflow` covers `execute_research_workflow`: a `Session` class whose
    state is the Streamlit session.
- Shared helpers:
  - `Wrappers` (Option and Result);
  - `Strings` (lower-casing, substring, split and join);
  - `Json` (the parsed-JSON tree and Python's `in`, `[]`, `.get` and truthiness);
  - `Calendar` (proleptic Gregorian day numbers, `%Y-%m-%d` formatting and parsing).

## Model

| member | source | states |
|---|---|---|
| QueryPlanner.GenerateIntelligentQueries | utils/intelligent_query.py:5-10 | returns exactly the fallback plan for the same arguments, whatever the time focus |
| QueryPlanner.GenerateFallbackQueries | utils/intelligent_query.py:12-66 | the append loop yields the planned list of records for the category, market and depth |
| QueryPlanner.QueryCountFor | utils/intelligent_query.py:36-43 | 5 queries exactly for "Quick (5 queries)", 15 exactly for "Deep (20 queries)", 8 for every other label (bare "Quick"/"Deep" included), never more than the 15 dimensions |
| QueryPlanner.TemplatesMention | utils/intelligent_query.py:17-33 | every one of the fifteen templates starts with the category and contains the market |
| QueryPlanner.DimensionsDistinct | utils/intelligent_query.py:46-51 | the fifteen research dimensions are pairwise different |
| QueryPlanner.PlannedQueryAt | utils/intelligent_query.py:54-64 | record i carries template i, dimension i, the input category, optimized set, the three fixed target sources, and a rationale and intelligence value built from its dimension |
| QueryPlanner.PlannedQueriesShape | utils/intelligent_query.py:43-58 | the plan is the in-order prefix of the templates, of the depth's length, with dimensions in order |
| QueryPlanner.PlannedDimensionsDistinct | utils/intelligent_query.py:46-58 | no two records of one plan share a research dimension |
| QueryPlanner.OptimizeSearchQuery | utils/intelligent_query.py:93-101 | the record keeps category, sets optimized, and defaults each missing field to "Market Intelligence", "Contextual market research", ["Industry sources"], "Market insights" |
| QueryPlanner.RecencyEstablished | utils/intelligent_query.py:75-77 | after the temporal step a temporal keyword occurs case-insensitively |
| QueryPlanner.MarketEstablished | utils/intelligent_query.py:80-82 | after the market step the market, "uk" or "british" occurs case-insensitively |
| QueryPlanner.ProcurementEstablished | utils/intelligent_query.py:85-87 | after the procurement step a procurement keyword occurs case-insensitively |
| QueryPlanner.CategoryEstablished | utils/intelligent_query.py:90-91 | after the category step the category is a case-insensitive substring |
| QueryPlanner.RecencyWidened | utils/intelligent_query.py:75-91 | a temporal keyword present in a text is still present after anything is prepended or appended |
| QueryPlanner.MarketWidened | utils/intelligent_query.py:80-91 | a market keyword present stays present under prepending and appending |
| QueryPlanner.ProcurementWidened | utils/intelligent_query.py:85-91 | a procurement keyword present stays present under prepending and appending |
| QueryPlanner.AfterMarket | utils/intelligent_query.py:80-82 | the market step keeps the temporal keyword and establishes a market keyword |
| QueryPlanner.AfterProcurement | utils/intelligent_query.py:85-87 | the procurement step keeps the earlier keywords and establishes its own |
| QueryPlanner.AfterCategory | utils/intelligent_query.py:90-91 | the category step keeps the three keyword kinds and establishes the category |
| QueryPlanner.OptimizedIsFull | utils/intelligent_query.py:75-91 | the optimised text has a temporal, a market and a procurement keyword and the category |
| QueryPlanner.OptimizeKeepsOriginal | utils/intelligent_query.py:72-91 | the original query is a substring of the optimised one |
| QueryPlanner.OptimizeMentionsCategory | utils/intelligent_query.py:90-91 | the optimised query always contains the category case-insensitively |
| QueryPlanner.OptimizeIdempotent | utils/intelligent_query.py:75-91 | optimising an optimised text changes nothing |
| QueryPlanner.OptimizeSearchQueryIdempotent | utils/intelligent_query.py:74-101 | re-optimising the returned record, with all its fields present, returns the same record |
| SearchOptions.ResearchDepthConfig | utils/search_options.py:80-89 | Quick gives (5,5,3) exactly for "Quick", Deep gives (20,10,8) exactly for "Deep", and every other key gives Medium (10,8,5) |
| SearchOptions.DepthConfigsOrdered | utils/search_options.py:84-88 | Quick ≤ Medium ≤ Deep componentwise, every config lies between Quick and Deep, and every worker count is at least 1 |
| SearchOptions.InterfaceLabelsGetMedium | utils/search_options.py:89 | the interface's depth labels "Quick (5 queries)", "Medium (10 queries)", "Deep (20 queries)" all get the Medium config |
| SearchOptions.DaysBack | utils/search_options.py:69-78 | 180 days exactly when "6 months" occurs, 365 exactly when only "12 months" occurs, 730 exactly when neither does |
| SearchOptions.OlderThanTwelveMonthsLooksBackOneYear | utils/search_options.py:72-74 | "Older than 12 months" looks back 365 days, not further |
| SearchOptions.FormatTimeFilter | utils/search_options.py:61-78 | "after:" then a ten-character date that parses back to the day `today` minus the look-back |
| SearchOptions.FallbackOptions | utils/search_options.py:53-59 | exactly three options, each the user input followed by " - " and an aspect |
| SearchOptions.GenerateSearchOptions | utils/search_options.py:9-59 | a failing or non-dict reply gives the three fallback options; a dict reply gives its "options" value, or [] when absent |
| SearchGateway.EffectiveQuery | utils/search_google.py:19-21 | query + " " + filter when the filter is truthy and enhanced filtering is on, the bare query otherwise |
| SearchGateway.DateRestrict | utils/search_google.py:31-41 | set only for a truthy filter containing "after:" whose date parses, to "d" + days since that date; an unparsable date leaves it unset |
| SearchGateway.SearchGoogle | utils/search_google.py:5-63 | the request-and-normalise steps produce the specified outcome |
| SearchGateway.OnlyConfigErrorEscapes | utils/search_google.py:9-13 | the search raises exactly when the API key or engine id is missing, with the configuration error, independently of the provider |
| SearchGateway.OutcomeMirrorsReply | utils/search_google.py:24-63 | num is num_results, cx the engine id, q the effective query; a failed reply or one without items gives []; otherwise one record per item in order, missing fields '' |
| SearchGateway.TimeFilterRoundTrip | utils/search_google.py:31-41 | the dateRestrict derived from a time filter made the same day is "d" followed by the filter's look-back |
| Calendar.FromOrdinal | utils/search_options.py:69-78 | the date of a day number is valid and maps back to that day number |
| Calendar.FormatIsoDate | utils/search_options.py:71 | `%Y-%m-%d` of a four-digit year is ten characters, digits with '-' at 4 and 7 |
| Calendar.ParseFormatIsoDate | utils/search_google.py:36 | parsing the formatted date gives back the date |
| Scraper.ScrapeSingleUrl | utils/scrape_url.py:6-39 | url is the input; success exactly when fetch and extract both give truthy values, then content is the text's first 5000 characters; otherwise content '' and the raised or fixed error message |
| Scraper.SuccessHasBoundedContent | utils/scrape_url.py:15-24 | a successful record has 1 to 5000 characters, a prefix of the extracted text |
| Scraper.ScrapeUrls | utils/scrape_url.py:41-57 | the results are a permutation of the successful non-empty per-URL records |
| Scraper.ScrapeUrlsResults | utils/scrape_url.py:49-56 | no more results than URLs, each successful with 1 to 5000 characters and an input URL |
| Sources.DomainFailsOnOneSlash | utils/category_specific_analysis.py:20 | domain extraction fails exactly on URLs with exactly one '/' |
| Sources.DomainOfUrl | utils/category_specific_analysis.py:20 | the domain of scheme//host[/path] is the host |
| Sources.WithContent | utils/category_specific_analysis.py:14-21 | the kept documents are input documents with content, no more of them than the input |
| Sources.PrepareSources | utils/category_specific_analysis.py:14-21 | the appending loop produces the specified prepared sources or the first domain error |
| Sources.PreparedSourcesShape | utils/category_specific_analysis.py:14-21 | on success, one source per document with content, in order, with its URL, content capped at 3000 characters and its domain |
| Sources.PreparedSourcesFails | utils/category_specific_analysis.py:14-21 | preprocessing fails exactly when a document with content has a one-'/' URL, and then with the index error |
| Sources.NothingToPrepare | utils/category_specific_analysis.py:14-21 | with no document with content the preprocessing succeeds with no sources |
| Sources.Urls | utils/category_specific_analysis.py:178 | one URL per retained source, in order |
| Sources.CombinedPlacesSources | utils/category_specific_analysis.py:26-29 | each source's block sits in the prompt text at its place in order, blocks separated by blank lines |
| HtmlTags.StripLeavesNoTags | utils/category_specific_analysis.py:194-197 | after removing the left-to-right matches of `<[^>]+>` no match remains |
| HtmlTags.StripWithoutTags | utils/category_specific_analysis.py:194-197 | a text with no match is left unchanged |
| HtmlTags.StripNoClose | utils/category_specific_analysis.py:194-197 | a text without '>' is left unchanged |
| HtmlTags.StripIdempotent | utils/category_specific_analysis.py:194-197 | stripping twice equals stripping once |
| HtmlTags.CleanHtmlTags | utils/category_specific_analysis.py:186-199 | strings are stripped, lists keep their length, dicts their keys, other scalars are returned unchanged |
| HtmlTags.CleanMembers | utils/category_specific_analysis.py:190-193 | each list element and dict value is cleaned on its own |
| HtmlTags.CleanedIsClean | utils/category_specific_analysis.py:186-199 | no string anywhere in a cleaned tree has a tag |
| HtmlTags.CleanFixesClean | utils/category_specific_analysis.py:186-199 | a tree without tags is returned unchanged |
| HtmlTags.CleanIdempotent | utils/category_specific_analysis.py:186-199 | cleaning twice equals cleaning once |
| HtmlTags.CleanObject | utils/category_specific_analysis.py:175 | the reply keeps its keys and each value is cleaned |
| SourceBackfill.Fill | utils/category_specific_analysis.py:209 | the value written is the first two source URLs, in order, not deduplicated |
| SourceBackfill.BackfillItem | utils/category_specific_analysis.py:207-209 | an item must be a dict; one missing or with falsy source_urls gets the fill, any other is unchanged |
| SourceBackfill.BackfillSection | utils/category_specific_analysis.py:212-215 | the item loop produces the specified section or its error |
| SourceBackfill.SectionItemsBackfilled | utils/category_specific_analysis.py:212-215 | a backfilled section keeps its length; items lacking URLs get exactly the fill, others are untouched |
| SourceBackfill.SectionSettles | utils/category_specific_analysis.py:212-215 | a backfilled section is left as it is by another backfill |
| SourceBackfill.AddSourceUrls | utils/category_specific_analysis.py:201-229 | the four section loops produce the specified result or the first error |
| SourceBackfill.StepsOfSuccess | utils/category_specific_analysis.py:205-227 | a successful backfill runs the dynamics, opportunities, risks and recommendations steps in that order |
| SourceBackfill.BackfillFrame | utils/category_specific_analysis.py:201-229 | keys are unchanged; only key_trends and the three list sections are rewritten; everything else, e.g. insights, is untouched |
| SourceBackfill.BackfillIdempotent | utils/category_specific_analysis.py:201-229 | backfilling a backfilled result with the same URLs changes nothing |
| CategoryAnalysis.AnalyzeCategorySpecificData | utils/category_specific_analysis.py:6-184 | the analyser produces the specified record |
| CategoryAnalysis.NoContentShortCircuits | utils/category_specific_analysis.py:23-24 | no document with content gives {"error": "No content available for analysis"} whatever the completion does |
| CategoryAnalysis.OneSlashUrlFails | utils/category_specific_analysis.py:183-184 | a document with content and a one-'/' URL gives {"error": "Category analysis failed: list index out of range"} |
| CategoryAnalysis.SuccessfulAnalysis | utils/category_specific_analysis.py:172-179 | the result has the reply's keys; every key outside the four sections is tag-cleaned; each of the four sections is the cleaned section backfilled with the first two URLs of the retained documents, which are the documents with content in order |
| CategoryAnalysis.SuccessfulAnalysisBackfillsItems | utils/category_specific_analysis.py:175-179 | in a successful analysis each list-section item lacking source_urls holds the first two retained URLs; every other item is the cleaned reply item |
| EnhancedAnalysis.PassContentHoldsSources | utils/gpt_analysis_enhanced.py:50-53 | every source's block occurs in the pass content: with the Domain line for cross-validation, without it for synthesis and actionable |
| EnhancedAnalysis.AnalyzeMarketData | utils/gpt_analysis_enhanced.py:5-44 | the analyser produces the specified result |
| EnhancedAnalysis.MergeIsRightBiased | utils/gpt_analysis_enhanced.py:35-39 | the merge has all keys, and each key takes its value from the last pass that has it |
| EnhancedAnalysis.NoContentShortCircuits | utils/gpt_analysis_enhanced.py:22-23 | no document with content gives the no-content error record before any pass |
| EnhancedAnalysis.FirstFailingPassDecides | utils/gpt_analysis_enhanced.py:26-44 | the first pass in cross, synthesis, actionable order that fails turns the whole result into "Analysis failed: " + its error |
| EnhancedAnalysis.SuccessfulPassesMerge | utils/gpt_analysis_enhanced.py:26-39 | when all passes succeed the result is their right-biased merge |
| StructuredAnalysis.ContentsOf | utils/gpt_analysis.py:14 | the non-empty contents of the documents, in order |
| StructuredAnalysis.CombinedContentHolds | utils/gpt_analysis.py:14 | each non-empty content sits at its place in the blank-line-joined text |
| StructuredAnalysis.UserMessageCapsData | utils/gpt_analysis.py:40 | the message is the category/market header followed by the first at most 8000 characters of the combined content |
| StructuredAnalysis.PromptFilesNamed | utils/gpt_analysis.py:25 | each prompt file's key is its name with ".txt" removed |
| StructuredAnalysis.FileKey | utils/gpt_analysis.py:25 | the key computed for file i is prompt name i |
| StructuredAnalysis.LoadedPrompts | utils/gpt_analysis.py:17-25 | a successful load has exactly the five prompt names as keys |
| StructuredAnalysis.LoadPrompts | utils/gpt_analysis.py:17-25 | the file loop produces the specified prompts or the first read error |
| StructuredAnalysis.LoadFailsIff | utils/gpt_analysis.py:23-25 | loading fails exactly when some prompt file cannot be read |
| StructuredAnalysis.LoadFailsFirst | utils/gpt_analysis.py:23-25 | a failed load carries the error of the first unreadable file |
| StructuredAnalysis.LoadedValues | utils/gpt_analysis.py:23-25 | each prompt name holds its own file's text |
| StructuredAnalysis.SectionValueCases | utils/gpt_analysis.py:46-55 | a pass stores the reply's value under its key when the reply is a dict with that key, else its default |
| StructuredAnalysis.RunPasses | utils/gpt_analysis.py:27-167 | the five sequential passes produce the specified results |
| StructuredAnalysis.AnalyzeMarketData | utils/gpt_analysis.py:5-169 | the analyser produces the specified result or the escaping error |
| StructuredAnalysis.SectionKeysDistinct | utils/gpt_analysis.py:49-161 | the five passes write five different keys |
| StructuredAnalysis.ResultKeys | utils/gpt_analysis.py:27-169 | once the prompts load, the result has exactly insights, themes, risk_flags, timeline and strategic_outlook |
| StructuredAnalysis.SectionFiles | utils/gpt_analysis.py:18-21 | each pass's prompt is one of the loaded files and every loaded file serves a pass |
| StructuredAnalysis.ReadablePromptsLoad | utils/gpt_analysis.py:17-25 | when every pass's file reads, loading succeeds and each pass gets its file's text |
| StructuredAnalysis.EachKeyFromItsPass | utils/gpt_analysis.py:29-167 | each key holds what its own pass made of its own reply to its own prompt and the shared message |
| StructuredAnalysis.PassesAreIndependent | utils/gpt_analysis.py:29-167 | a key depends only on its own pass's reply, whatever the other passes answer |
| StructuredAnalysis.FailedPassDefaults | utils/gpt_analysis.py:50-55 | a pass that raises or answers empty, non-dict or without its key leaves its key at the default ([] or {}) |
| StructuredAnalysis.RiskFlagsFromRisks | utils/gpt_analysis.py:105 | risk_flags is taken from the reply's "risks" key |
| StructuredAnalysis.PromptReadFailurePropagates | utils/gpt_analysis.py:23-25 | an unreadable prompt file ends the analysis with its error before any pass runs |
| Json.PyIn | utils/category_specific_analysis.py:206 | `key in x` is membership for dicts and fails on values that are not containers |
| Json.PyGet | utils/gpt_analysis.py:49 | `.get` works exactly on dicts, giving the value or the default |
| Display.FormatClickableSources | app.py:385-395 | no list or an empty one gives "No sources available"; otherwise the result is the " \| " join of one to three links, one per leading URL |
| Display.NoSourcesExactlyWhenEmpty | app.py:387-388 | "No sources available" is shown exactly for a missing or empty list |
| Display.FormatFailsOnOneSlash | app.py:390-395 | formatting fails exactly when one of the first three URLs has one '/' |
| Display.SourceLinksFacts | app.py:390-394 | the links fail exactly on a one-'/' URL; otherwise link i is URL i's anchor labelled with its domain |
| Display.FormatLinksInOrder | app.py:390-395 | each of the first three URLs appears as its own anchor, in order, followed by " \| " when another follows |
| Display.InsightMetrics | app.py:588-595 | at most two metrics per insight |
| Display.CollectKeyMetrics | app.py:590-595 | the metric loop collects the specified entries |
| Display.CollectListMetrics | app.py:587-595 | the insight loop collects the specified entries |
| Display.CollectMetrics | app.py:563-595 | the collection step produces the specified metric list |
| Display.CollectedMetricsFacts | app.py:563-595 | every collected metric has a truthy value; at most two plus two per insight |
| Display.KeyMetricsKeepTruthy | app.py:590-595 | over dict metrics the loop never raises and keeps exactly the truthy values, one entry each, in order |
| Display.InsightKeepsTruthyMetrics | app.py:588-595 | an insight whose key_metrics is a list of dicts contributes exactly the truthy values among its first two metrics, in order |
| Display.ListMetricsInOrder | app.py:586-595 | each insight's entries follow those of the insights before it |
| Display.GrowthRateCollected | app.py:576-583 | a truthy growth rate is collected right after the market-size entry, if any, with its timeframe as context |
| Display.MarketSizeShownFirst | app.py:566-600 | a truthy market size is the first metric and always shown |
| Display.ShortName | app.py:1090-1106 | every tab name fits in 15 characters; an unmapped category keeps its first 15 characters, and one that fits is unchanged |
| Display.TabNames | app.py:1106-1107 | one tab per category, each title within 17 characters, then exactly the four fixed tabs |
| Display.TabNamesLayout | app.py:1106-1107 | tab i is labelled with category i's short name, in order |
| Workflow.TaggingKeepsPlan | app.py:958-971 | tagging a category's plan with its category leaves the plan unchanged |
| Workflow.AllQueriesLayout | app.py:958-971 | the queries are the categories' plans concatenated in category order: record j·n+i is query i of category j |
| Workflow.PlanAllQueries | app.py:958-971 | the planning loop produces the concatenated tagged plans |
| Workflow.CapIsGlobal | app.py:974 | the cap keeps the first num_queries of the concatenation, not a share per category |
| Workflow.InterfaceDepthReachesTwoCategories | app.py:955-974 | with the interface labels or "Medium" at most ten queries are kept, all from the first two categories |
| Workflow.RunSearches | app.py:980-1001 | the search loop produces the specified results or the escaping error |
| Workflow.SearchesFailOnlyWithoutCredentials | app.py:980-1001 | the searches raise exactly when there is a query and a credential is missing |
| Workflow.SearchResultsConcatenate | app.py:980-1001 | with credentials the results are the per-query results concatenated in query order |
| Workflow.UrlsToScrape | app.py:1019 | the links of the first 2·num_results results, in order |
| Workflow.AnalyzeCategories | app.py:1031-1041 | one category analysis per selected category |
| Workflow.AnalysisStep | app.py:1031-1048 | with content, one analysis per category and the main one is the first category's; without, both empty and no analysis runs; nothing else changes |
| Workflow.Session.constructor | app.py:47-66 | the session starts with no intelligence data, no categories and an empty user input |
| Workflow.Session.StoreScrapedAndAnalyses | app.py:1019-1048 | stores the scraped permutation, the results and the config, then the analyses; the other session fields are unchanged |
| Workflow.Session.ExecuteResearchWorkflow | app.py:912-1061 | without the utilities, a fresh record and the notice; otherwise the capped queries are stored, then either the search error is reported and no further write happens, or the scraped content and analyses are stored |

## Left out

- Streamlit rendering: widgets, tabs, CSS and HTML output, progress messages, the printed tracebacks, and the second `st.error` with the traceback in the workflow.
- The personalised-scanning flow, the PDF and export reports, the Flask and Node proxies and the supply-chain dashboard are outside this model.
- The Google client, trafilatura's fetch and extract, OpenAI client construction, completions and prompt texts are oracles.
  - Client construction is a `clientError` parameter.
  - Completions are `complete` functions returning a parsed reply or an error.
  - The prompt file reads are a `readPrompt` function.
- `json.loads` is part of the completion oracle. JSON objects are maps, so key order is not modelled. The generate_search_options reply is typed as any JSON value.
- CategoryAnalysis.CategoryAnalysisResult and EnhancedAnalysis.MarketAnalysis: the completion replies are typed as JSON objects, because every call requests `response_format={"type": "json_object"}`. What a reply of another JSON kind would do is not captured:
  - in the multi-pass analyser, a TypeError at the `**` merge after all three passes have run;
  - in the category analyser, a list reply passing through cleaning and `in` tests and being returned.
- Python's messages for ill-shaped replies (TypeError, AttributeError) are one constant.
- A KeyError in the category analyser is not modelled, because every key it reads is checked first.
- `datetime.now()` is the `today` parameter, a day number; the time of day drops out of `(now - date).days`.
- SearchOptions.FormatTimeFilter: requires `today` to be late enough for the look-back date to have a four-digit year, because `%Y` is modelled for years 1000 to 9999 only.
- Strings.Lower: lower-cases ASCII letters only, because Python's Unicode case mapping is not modelled.
- The ThreadPoolExecutor in scrape_urls is modelled as a sequential loop whose output is specified up to permutation. The per-URL `time.sleep(0.5)` and the worker count do not affect the result and are not modelled.
- The `time_focus` and `time_period` arguments are accepted and never read, as in the source.
- Display.CollectMetrics: the market-size context, an f-string of currency and timeframe, is recorded as the pair of values it is rendered from. Python's `str()` of JSON values is not modelled.
- Display: format_clickable_sources is given a list of strings; other element types are not modelled.
- Display: the `if categories:` guard around the tabs is a rendering decision and not modelled.
- The float success-rate display is presentation and not modelled.
