/** The query planner: deterministic expansion of fifteen query templates for
    one category and market, and the keyword-driven rewriting of a single
    query for recency, market, procurement context and category. */
module QueryPlanner {
  import opened Wrappers
  import opened Strings

  /** One planned search, as the planner's dictionaries carry it. */
  datatype ResearchQuery = ResearchQuery(
    query: string,
    dimension: string,
    rationale: string,
    targetSources: seq<string>,
    intelligenceValue: string,
    category: string,
    optimized: bool)

  /** The words that sit between the category and the market in each template. */
  const TemplateInfixes: seq<string> := [
    " suppliers ", " market ", " tender opportunities ", " innovation ",
    " supply chain ", " pricing trends ", " technology ", " regulations ",
    " mergers acquisitions ", " ESG sustainability ", " skills shortage ",
    " investment funding ", " quality standards ", " trade disputes ", " export import "]

  /** The words that follow the market in each template. */
  const TemplateSuffixes: seq<string> := [
    " 2024 procurement framework", " latest news contracts", " 2024",
    " 2024 sustainability", " challenges disruption", " cost analysis",
    " construction digital", " compliance 2024", " consolidation", " green",
    " workforce", " venture", " certification", " tariffs", " global"]

  /** The fifteen research dimensions, assigned to queries round-robin. */
  const Dimensions: seq<string> := [
    "Market Dynamics", "Supplier Intelligence", "Innovation Trends", "Supply Chain Risk",
    "Regulatory Compliance", "Pricing Intelligence", "Technology Adoption", "ESG Sustainability",
    "Market Consolidation", "Skills & Workforce", "Investment Flows", "Quality Standards",
    "Trade Policy", "Global Supply", "Competitive Intelligence"]

  const TargetSources: seq<string> := ["Industry publications", "Government sources", "Company announcements"]

  const QuickLabel := "Quick (5 queries)"
  const MediumLabel := "Medium (10 queries)"
  const DeepLabel := "Deep (20 queries)"

  /** The fifteen templates with category and market filled in. */
  function Templates(category: string, market: string): (ts: seq<string>)
    ensures |ts| == 15
  {
    seq(15, i requires 0 <= i < 15 => category + TemplateInfixes[i] + market + TemplateSuffixes[i])
  }

  lemma Framed(category: string, infix: string, market: string, suffix: string)
    ensures StartsWith(category + infix + market + suffix, category)
    ensures Contains(category + infix + market + suffix, market)
  {
    var t := category + infix + market + suffix;
    assert t[..|category|] == category;
    ContainsPrefix(market, suffix);
    ContainsPrepend(category + infix, market + suffix, market);
    assert category + infix + (market + suffix) == t;
  }

  /** Every template starts with the category and names the market. */
  lemma TemplatesMention(category: string, market: string, i: nat)
    requires i < 15
    ensures StartsWith(Templates(category, market)[i], category)
    ensures Contains(Templates(category, market)[i], market)
  {
    Framed(category, TemplateInfixes[i], market, TemplateSuffixes[i]);
  }

  /** No two research dimensions are the same. */
  lemma DimensionsDistinct()
    ensures forall i, j :: 0 <= i < j < |Dimensions| ==> Dimensions[i] != Dimensions[j]
  {
  }

  /** How many templates a depth label selects: the three labels of the
      interface and 8 for every other label. */
  function QueryCountFor(depth: string): (n: nat)
    ensures n <= |Dimensions|
    ensures n == 5 <==> depth == QuickLabel
    ensures n == 15 <==> depth == DeepLabel
    ensures depth != QuickLabel && depth != DeepLabel ==> n == 8
  {
    if depth == QuickLabel then 5
    else if depth == MediumLabel then 8
    else if depth == DeepLabel then 15
    else 8
  }

  /** The record built for the `i`-th selected template. */
  function QueryRecord(category: string, market: string, i: nat): ResearchQuery
    requires i < 15
  {
    var dimension := Dimensions[i % |Dimensions|];
    ResearchQuery(
      Templates(category, market)[i],
      dimension,
      "Research " + category + " " + Lower(dimension) + " for strategic intelligence",
      TargetSources,
      dimension + " insights for " + category,
      category,
      true)
  }

  /** What the planner returns for a category, market and depth label. */
  function PlannedQueries(category: string, market: string, depth: string): seq<ResearchQuery>
  {
    seq(QueryCountFor(depth), i requires 0 <= i < QueryCountFor(depth) => QueryRecord(category, market, i))
  }

  /** The deterministic planner: the first templates for the depth, each
      wrapped in a record whose dimension is assigned round-robin. The time
      focus is accepted and not used. */
  method GenerateFallbackQueries(category: string, market: string, timeFocus: string, depth: string)
    returns (queries: seq<ResearchQuery>)
    ensures queries == PlannedQueries(category, market, depth)
  {
    var baseQueries := Templates(category, market);
    var numQueries := QueryCountFor(depth);
    var selected := Take(baseQueries, numQueries);
    queries := [];
    for i := 0 to |selected|
      invariant |queries| == i
      invariant forall j :: 0 <= j < i ==> queries[j] == QueryRecord(category, market, j)
    {
      var dimension := Dimensions[i % |Dimensions|];
      queries := queries + [ResearchQuery(
        selected[i],
        dimension,
        "Research " + category + " " + Lower(dimension) + " for strategic intelligence",
        TargetSources,
        dimension + " insights for " + category,
        category,
        true)];
    }
  }

  /** The planner entry point: it always delegates to the deterministic planner. */
  method GenerateIntelligentQueries(category: string, market: string, timeFocus: string, depth: string)
    returns (queries: seq<ResearchQuery>)
    ensures queries == PlannedQueries(category, market, depth)
  {
    queries := GenerateFallbackQueries(category, market, timeFocus, depth);
  }

  /** The `i`-th record of a plan: the `i`-th template, naming the category
      first and the market after it, with dimension `i`; it names the
      category, is marked optimized, cites the same three source kinds and
      derives its rationale and value from its dimension. */
  lemma PlannedQueryAt(category: string, market: string, depth: string, i: nat)
    requires i < QueryCountFor(depth)
    ensures var q := PlannedQueries(category, market, depth)[i];
      q.query == Templates(category, market)[i] &&
      StartsWith(q.query, category) && Contains(q.query, market) &&
      q.dimension == Dimensions[i] &&
      q.category == category && q.optimized &&
      q.targetSources == TargetSources &&
      q.rationale == "Research " + category + " " + Lower(q.dimension) + " for strategic intelligence" &&
      q.intelligenceValue == q.dimension + " insights for " + category
  {
    TemplatesMention(category, market, i);
    assert i % |Dimensions| == i;
  }

  /** The plan is an in-order prefix of the templates: as many as the depth
      selects, each shaped as `PlannedQueryAt` says. */
  lemma PlannedQueriesShape(category: string, market: string, depth: string)
    ensures var qs := PlannedQueries(category, market, depth);
      |qs| == QueryCountFor(depth) &&
      forall i :: 0 <= i < |qs| ==> qs[i].query == Templates(category, market)[i] && qs[i].dimension == Dimensions[i]
  {
    var qs := PlannedQueries(category, market, depth);
    forall i | 0 <= i < |qs|
      ensures qs[i].query == Templates(category, market)[i] && qs[i].dimension == Dimensions[i]
    {
      PlannedQueryAt(category, market, depth, i);
    }
  }

  /** No research dimension is used twice in one plan. */
  lemma PlannedDimensionsDistinct(category: string, market: string, depth: string)
    ensures var qs := PlannedQueries(category, market, depth);
      forall i, j :: 0 <= i < j < |qs| ==> qs[i].dimension != qs[j].dimension
  {
    var qs := PlannedQueries(category, market, depth);
    DimensionsDistinct();
    forall i, j | 0 <= i < j < |qs|
      ensures qs[i].dimension != qs[j].dimension
    {
      assert i % |Dimensions| == i && j % |Dimensions| == j;
    }
  }

  // ---------------------------------------------------------------------
  // Rewriting one query

  /** The fields a query dictionary may carry; `None` is a missing key. */
  datatype QueryInput = QueryInput(
    query: Option<string>,
    dimension: Option<string>,
    rationale: Option<string>,
    targetSources: Option<seq<string>>,
    intelligenceValue: Option<string>)

  function GetOr<T>(o: Option<T>, default: T): T
  {
    if o.Some? then o.value else default
  }

  const TemporalKeywords: seq<string> := ["2024", "2025", "current", "latest", "recent"]
  const ProcurementKeywords: seq<string> := ["procurement", "supply", "tender", "framework", "sourcing"]

  function MarketKeywords(market: string): seq<string>
  {
    [Lower(market), "uk", "british"]
  }

  predicate HasRecency(s: string) { AnyIn(TemporalKeywords, Lower(s)) }
  predicate HasMarket(s: string, market: string) { AnyIn(MarketKeywords(market), Lower(s)) }
  predicate HasProcurement(s: string) { AnyIn(ProcurementKeywords, Lower(s)) }
  predicate HasCategory(s: string, category: string) { Contains(Lower(s), Lower(category)) }

  function AddRecency(q: string): string
  {
    if HasRecency(q) then q else q + " 2024 latest"
  }

  function AddMarket(q: string, market: string): string
  {
    if HasMarket(q, market) then q else q + " " + market
  }

  function AddProcurement(q: string): string
  {
    if HasProcurement(q) then q else q + " procurement supply chain"
  }

  function AddCategory(q: string, category: string): string
  {
    if HasCategory(q, category) then q else category + " " + q
  }

  /** The four rewrites, in the order the program applies them. */
  function OptimizeText(q: string, category: string, market: string): string
  {
    AddCategory(AddProcurement(AddMarket(AddRecency(q), market)), category)
  }

  /** `optimize_search_query`: the rewritten query and the other fields
      passed through, with their defaults where a key is missing. */
  function OptimizeSearchQuery(data: QueryInput, category: string, market: string, timePeriod: string): (r: ResearchQuery)
    ensures r.category == category && r.optimized
    ensures r.dimension == GetOr(data.dimension, "Market Intelligence")
    ensures r.rationale == GetOr(data.rationale, "Contextual market research")
    ensures r.targetSources == GetOr(data.targetSources, ["Industry sources"])
    ensures r.intelligenceValue == GetOr(data.intelligenceValue, "Market insights")
  {
    ResearchQuery(
      OptimizeText(GetOr(data.query, ""), category, market),
      GetOr(data.dimension, "Market Intelligence"),
      GetOr(data.rationale, "Contextual market research"),
      GetOr(data.targetSources, ["Industry sources"]),
      GetOr(data.intelligenceValue, "Market insights"),
      category,
      true)
  }

  lemma LowerWidened(a: string, s: string, b: string)
    ensures Lower(a + s + b) == Lower(a) + Lower(s) + Lower(b)
  {
    LowerConcat(a + s, b);
    LowerConcat(a, s);
  }

  /** Text added around a query never removes a keyword the query has:
      one lemma per kind of keyword. */
  lemma RecencyWidened(a: string, s: string, b: string)
    requires HasRecency(s)
    ensures HasRecency(a + s + b)
  {
    LowerWidened(a, s, b);
    AnyInWidened(TemporalKeywords, Lower(a), Lower(s), Lower(b));
  }

  lemma MarketWidened(a: string, s: string, b: string, market: string)
    requires HasMarket(s, market)
    ensures HasMarket(a + s + b, market)
  {
    LowerWidened(a, s, b);
    AnyInWidened(MarketKeywords(market), Lower(a), Lower(s), Lower(b));
  }

  lemma ProcurementWidened(a: string, s: string, b: string)
    requires HasProcurement(s)
    ensures HasProcurement(a + s + b)
  {
    LowerWidened(a, s, b);
    AnyInWidened(ProcurementKeywords, Lower(a), Lower(s), Lower(b));
  }

  /** A keyword appended after a space, already in lower case, is found by a
      case-insensitive search of the result. */
  lemma KeywordAfter(q: string, key: string, rest: string)
    requires Lower(" " + key) == " " + key
    ensures Contains(Lower(q + (" " + key) + rest), key)
  {
    LowerWidened(q, " " + key, rest);
    ContainsPrefix(key, Lower(rest));
    ContainsPrepend(Lower(q) + " ", key + Lower(rest), key);
    assert Lower(q) + " " + (key + Lower(rest)) == Lower(q) + Lower(" " + key) + Lower(rest);
  }

  lemma RecencyEstablished(q: string)
    ensures HasRecency(AddRecency(q))
  {
    if !HasRecency(q) {
      assert Lower(" 2024") == " 2024";
      KeywordAfter(q, "2024", " latest");
      assert q + " 2024 latest" == q + (" " + "2024") + " latest";
      assert Contains(Lower(AddRecency(q)), TemporalKeywords[0]);
    }
  }

  lemma MarketEstablished(q: string, market: string)
    ensures HasMarket(AddMarket(q, market), market)
  {
    if !HasMarket(q, market) {
      var lm := Lower(market);
      LowerWidened(q, " ", market);
      ContainsPrefix(lm, "");
      assert lm + "" == lm;
      ContainsPrepend(Lower(q) + Lower(" "), lm, lm);
      assert Lower(q + " " + market) == Lower(q) + Lower(" ") + lm;
      assert Contains(Lower(q + " " + market), MarketKeywords(market)[0]);
    }
  }

  lemma ProcurementEstablished(q: string)
    ensures HasProcurement(AddProcurement(q))
  {
    if !HasProcurement(q) {
      assert Lower(" procurement") == " procurement";
      KeywordAfter(q, "procurement", " supply chain");
      assert q + " procurement supply chain" == q + (" " + "procurement") + " supply chain";
      assert Contains(Lower(AddProcurement(q)), ProcurementKeywords[0]);
    }
  }

  lemma CategoryEstablished(q: string, category: string)
    ensures HasCategory(AddCategory(q, category), category)
  {
    if !HasCategory(q, category) {
      LowerWidened(category, " ", q);
      ContainsPrefix(Lower(category), Lower(" ") + Lower(q));
      assert Lower(category) + (Lower(" ") + Lower(q)) == Lower(category) + Lower(" ") + Lower(q);
    }
  }

  /** A query that already has all four kinds of keyword is left alone. */
  predicate FullyOptimized(s: string, category: string, market: string)
  {
    HasRecency(s) && HasMarket(s, market) && HasProcurement(s) && HasCategory(s, category)
  }

  lemma AfterMarket(s1: string, category: string, market: string)
    requires HasRecency(s1)
    ensures HasRecency(AddMarket(s1, market)) && HasMarket(AddMarket(s1, market), market)
  {
    MarketEstablished(s1, market);
    if !HasMarket(s1, market) {
      assert AddMarket(s1, market) == "" + s1 + (" " + market);
      RecencyWidened("", s1, " " + market);
    }
  }

  lemma AfterProcurement(s2: string, category: string, market: string)
    requires HasRecency(s2) && HasMarket(s2, market)
    ensures var s3 := AddProcurement(s2);
      HasRecency(s3) && HasMarket(s3, market) && HasProcurement(s3)
  {
    ProcurementEstablished(s2);
    if !HasProcurement(s2) {
      assert AddProcurement(s2) == "" + s2 + " procurement supply chain";
      RecencyWidened("", s2, " procurement supply chain");
      MarketWidened("", s2, " procurement supply chain", market);
    }
  }

  lemma AfterCategory(s3: string, category: string, market: string)
    requires HasRecency(s3) && HasMarket(s3, market) && HasProcurement(s3)
    ensures FullyOptimized(AddCategory(s3, category), category, market)
  {
    CategoryEstablished(s3, category);
    if !HasCategory(s3, category) {
      assert AddCategory(s3, category) == category + " " + s3 + "";
      RecencyWidened(category + " ", s3, "");
      MarketWidened(category + " ", s3, "", market);
      ProcurementWidened(category + " ", s3, "");
    }
  }

  /** After the rewrite the query has every kind of keyword the rewrite looks for. */
  lemma OptimizedIsFull(q: string, category: string, market: string)
    ensures FullyOptimized(OptimizeText(q, category, market), category, market)
  {
    var s1 := AddRecency(q);
    RecencyEstablished(q);
    AfterMarket(s1, category, market);
    AfterProcurement(AddMarket(s1, market), category, market);
    AfterCategory(AddProcurement(AddMarket(s1, market)), category, market);
  }

  /** The optimised query contains the query it started from. */
  lemma {:induction false} OptimizeKeepsOriginal(q: string, category: string, market: string)
    ensures Contains(OptimizeText(q, category, market), q)
  {
    var t1 := if HasRecency(q) then "" else " 2024 latest";
    var s1 := AddRecency(q);
    assert s1 == q + t1;
    var t2 := if HasMarket(s1, market) then "" else " " + market;
    var s2 := AddMarket(s1, market);
    assert s2 == q + (t1 + t2);
    var t3 := if HasProcurement(s2) then "" else " procurement supply chain";
    var s3 := AddProcurement(s2);
    assert s3 == q + (t1 + t2 + t3);
    ContainsPrefix(q, t1 + t2 + t3);
    if !HasCategory(s3, category) {
      ContainsPrepend(category + " ", s3, q);
    }
  }

  /** The optimised query always names the category, ignoring case. */
  lemma OptimizeMentionsCategory(q: string, category: string, market: string)
    ensures HasCategory(OptimizeText(q, category, market), category)
  {
    OptimizedIsFull(q, category, market);
  }

  /** Optimising an optimised query changes nothing. */
  lemma OptimizeIdempotent(q: string, category: string, market: string)
    ensures OptimizeText(OptimizeText(q, category, market), category, market) == OptimizeText(q, category, market)
  {
    OptimizedIsFull(q, category, market);
  }

  /** Feeding a rewritten record back through the rewrite gives it back. */
  lemma OptimizeSearchQueryIdempotent(data: QueryInput, category: string, market: string, timePeriod: string)
    ensures var r := OptimizeSearchQuery(data, category, market, timePeriod);
      var again := QueryInput(Some(r.query), Some(r.dimension), Some(r.rationale), Some(r.targetSources), Some(r.intelligenceValue));
      OptimizeSearchQuery(again, category, market, timePeriod) == r
  {
    OptimizeIdempotent(GetOr(data.query, ""), category, market);
  }
}
