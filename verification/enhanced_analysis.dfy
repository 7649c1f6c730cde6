/** The multi-pass analyser: the shared source preprocessing, then three
    completions in a fixed order, merged into one dict with later passes
    overriding earlier ones; anything that raises turns the whole result
    into one error record. */
module EnhancedAnalysis {
  import opened Wrappers
  import opened Strings
  import opened Json
  import opened Scraper
  import opened Sources

  /** The three passes, in the order they run. */
  datatype Pass = CrossValidation | Synthesis | Actionable

  const FailurePrefix := "Analysis failed: "

  /** The sources text a pass sends: every source rendered and joined by
      blank lines; only cross-validation includes the Domain line. */
  function PassContent(p: Pass, srcs: seq<Source>): string
  {
    Combined(srcs, p == CrossValidation)
  }

  /** Each pass's text holds every source's block, in order. */
  lemma PassContentHoldsSources(p: Pass, srcs: seq<Source>, i: nat)
    requires i < |srcs|
    ensures Contains(PassContent(p, srcs), Render(srcs[i], p == CrossValidation))
    ensures p == CrossValidation ==>
      Contains(PassContent(p, srcs), "Source: " + srcs[i].url + "\nDomain: " + srcs[i].domain + "\nContent: " + srcs[i].content)
    ensures p != CrossValidation ==>
      Contains(PassContent(p, srcs), "Source: " + srcs[i].url + "\nContent: " + srcs[i].content)
  {
    CombinedPlacesSources(srcs, p == CrossValidation, i);
  }

  /** What `analyze_market_data` returns. `complete` stands for one pass's
      completion call and `json.loads`, given the pass, the category, the
      market and the pass's sources text. */
  function MarketAnalysis(category: string, market: string, docs: seq<ScrapeRecord>, clientError: Option<string>,
                          complete: (Pass, string, string, string) -> Result<map<string, Json>>): map<string, Json>
  {
    if clientError.Some? then ErrorRecord(FailurePrefix + clientError.value)
    else
      match PreparedSources(docs)
      case Failure(e) => ErrorRecord(FailurePrefix + e)
      case Success(srcs) =>
        if srcs == [] then ErrorRecord(NoContentError)
        else
          match complete(CrossValidation, category, market, PassContent(CrossValidation, srcs))
          case Failure(e) => ErrorRecord(FailurePrefix + e)
          case Success(cross) =>
            match complete(Synthesis, category, market, PassContent(Synthesis, srcs))
            case Failure(e) => ErrorRecord(FailurePrefix + e)
            case Success(synthesis) =>
              match complete(Actionable, category, market, PassContent(Actionable, srcs))
              case Failure(e) => ErrorRecord(FailurePrefix + e)
              case Success(actionable) => cross + synthesis + actionable
  }

  /** `analyze_market_data` of the multi-pass analyser. */
  method AnalyzeMarketData(category: string, market: string, docs: seq<ScrapeRecord>, clientError: Option<string>,
                           complete: (Pass, string, string, string) -> Result<map<string, Json>>)
    returns (r: map<string, Json>)
    ensures r == MarketAnalysis(category, market, docs, clientError, complete)
  {
    if clientError.Some? {
      return ErrorRecord(FailurePrefix + clientError.value);
    }
    var sourceContent := PrepareSources(docs);
    if sourceContent.Failure? {
      return ErrorRecord(FailurePrefix + sourceContent.error);
    }
    var srcs := sourceContent.value;
    if srcs == [] {
      return ErrorRecord(NoContentError);
    }
    var crossValidationResult := complete(CrossValidation, category, market, PassContent(CrossValidation, srcs));
    if crossValidationResult.Failure? {
      return ErrorRecord(FailurePrefix + crossValidationResult.error);
    }
    var synthesisResult := complete(Synthesis, category, market, PassContent(Synthesis, srcs));
    if synthesisResult.Failure? {
      return ErrorRecord(FailurePrefix + synthesisResult.error);
    }
    var actionableResult := complete(Actionable, category, market, PassContent(Actionable, srcs));
    if actionableResult.Failure? {
      return ErrorRecord(FailurePrefix + actionableResult.error);
    }
    r := crossValidationResult.value + synthesisResult.value + actionableResult.value;
  }

  /** `{**a, **b, **c}`: every key of the three, each taken from the last
      dict that has it. */
  lemma MergeIsRightBiased(a: map<string, Json>, b: map<string, Json>, c: map<string, Json>)
    ensures (a + b + c).Keys == a.Keys + b.Keys + c.Keys
    ensures forall k :: k in c ==> (a + b + c)[k] == c[k]
    ensures forall k :: k in b && k !in c ==> (a + b + c)[k] == b[k]
    ensures forall k :: k in a && k !in b && k !in c ==> (a + b + c)[k] == a[k]
  {
  }

  /** With no document with content the result is the no-content record
      and no pass runs. */
  lemma NoContentShortCircuits(category: string, market: string, docs: seq<ScrapeRecord>,
                               complete: (Pass, string, string, string) -> Result<map<string, Json>>)
    requires WithContent(docs) == []
    ensures MarketAnalysis(category, market, docs, None, complete) == ErrorRecord(NoContentError)
  {
    NothingToPrepare(docs);
  }

  /** The passes are not isolated: the first pass that fails decides the
      result, whatever the later passes would have returned. */
  lemma FirstFailingPassDecides(category: string, market: string, docs: seq<ScrapeRecord>,
                                complete: (Pass, string, string, string) -> Result<map<string, Json>>, p: Pass)
    requires PreparedSources(docs).Success? && PreparedSources(docs).value != []
    requires var srcs := PreparedSources(docs).value;
      complete(p, category, market, PassContent(p, srcs)).Failure? &&
      (p != CrossValidation ==> complete(CrossValidation, category, market, PassContent(CrossValidation, srcs)).Success?) &&
      (p == Actionable ==> complete(Synthesis, category, market, PassContent(Synthesis, srcs)).Success?)
    ensures MarketAnalysis(category, market, docs, None, complete) ==
      ErrorRecord(FailurePrefix + complete(p, category, market, PassContent(p, PreparedSources(docs).value)).error)
  {
  }

  /** When all three passes succeed the result is their right-biased merge. */
  lemma SuccessfulPassesMerge(category: string, market: string, docs: seq<ScrapeRecord>,
                              complete: (Pass, string, string, string) -> Result<map<string, Json>>)
    requires PreparedSources(docs).Success? && PreparedSources(docs).value != []
    requires var srcs := PreparedSources(docs).value;
      forall p :: complete(p, category, market, PassContent(p, srcs)).Success?
    ensures var srcs := PreparedSources(docs).value;
      var cross := complete(CrossValidation, category, market, PassContent(CrossValidation, srcs)).value;
      var synthesis := complete(Synthesis, category, market, PassContent(Synthesis, srcs)).value;
      var actionable := complete(Actionable, category, market, PassContent(Actionable, srcs)).value;
      var r := MarketAnalysis(category, market, docs, None, complete);
      r.Keys == cross.Keys + synthesis.Keys + actionable.Keys &&
      (forall k :: k in actionable ==> r[k] == actionable[k]) &&
      (forall k :: k in synthesis && k !in actionable ==> r[k] == synthesis[k]) &&
      (forall k :: k in cross && k !in synthesis && k !in actionable ==> r[k] == cross[k])
  {
    var srcs := PreparedSources(docs).value;
    MergeIsRightBiased(complete(CrossValidation, category, market, PassContent(CrossValidation, srcs)).value,
      complete(Synthesis, category, market, PassContent(Synthesis, srcs)).value,
      complete(Actionable, category, market, PassContent(Actionable, srcs)).value);
  }
}
