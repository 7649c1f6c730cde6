/** The per-category analyser: source preprocessing, a short-circuit when
    no document has content, one completion over the rendered sources, tag
    cleaning, URL backfill, and one error record for anything that raises. */
module CategoryAnalysis {
  import opened Wrappers
  import opened Strings
  import opened Json
  import opened Scraper
  import opened Sources
  import opened HtmlTags
  import opened SourceBackfill

  const FailurePrefix := "Category analysis failed: "

  /** What the analyser returns. `clientError` is the message of a failed
      client construction; `complete` stands for the completion call and
      `json.loads` on its reply, given the category, the market and the
      rendered sources, and fails with the message of whatever raised. */
  function CategoryAnalysisResult(category: string, market: string, docs: seq<ScrapeRecord>,
                                  clientError: Option<string>,
                                  complete: (string, string, string) -> Result<map<string, Json>>): map<string, Json>
  {
    if clientError.Some? then ErrorRecord(FailurePrefix + clientError.value)
    else
      match PreparedSources(docs)
      case Failure(e) => ErrorRecord(FailurePrefix + e)
      case Success(srcs) =>
        if srcs == [] then ErrorRecord(NoContentError)
        else
          match complete(category, market, Combined(srcs, true))
          case Failure(e) => ErrorRecord(FailurePrefix + e)
          case Success(reply) =>
            match SourceUrlsAdded(CleanObject(reply), Urls(srcs))
            case Failure(e) => ErrorRecord(FailurePrefix + e)
            case Success(r) => r
  }

  /** `analyze_category_specific_data`. */
  method AnalyzeCategorySpecificData(category: string, market: string, docs: seq<ScrapeRecord>,
                                     clientError: Option<string>,
                                     complete: (string, string, string) -> Result<map<string, Json>>)
    returns (r: map<string, Json>)
    ensures r == CategoryAnalysisResult(category, market, docs, clientError, complete)
  {
    if clientError.Some? {
      return ErrorRecord(FailurePrefix + clientError.value);
    }
    var sourceContent := PrepareSources(docs);
    if sourceContent.Failure? {
      return ErrorRecord(FailurePrefix + sourceContent.error);
    }
    var srcs := sourceContent.value;
    if srcs == [] {
      return ErrorRecord(NoContentError);
    }
    var combinedContent := Combined(srcs, true);
    var reply := complete(category, market, combinedContent);
    if reply.Failure? {
      return ErrorRecord(FailurePrefix + reply.error);
    }
    var result := CleanObject(reply.value);
    var sourceUrls := Urls(srcs);
    var added := AddSourceUrls(result, sourceUrls);
    if added.Failure? {
      return ErrorRecord(FailurePrefix + added.error);
    }
    r := added.value;
  }

  /** With a working client and no document with content, the result is the
      no-content record, whatever the completion would have said. */
  lemma NoContentShortCircuits(category: string, market: string, docs: seq<ScrapeRecord>,
                               complete: (string, string, string) -> Result<map<string, Json>>)
    requires WithContent(docs) == []
    ensures CategoryAnalysisResult(category, market, docs, None, complete) == ErrorRecord(NoContentError)
  {
    NothingToPrepare(docs);
  }

  /** A document with content whose URL has exactly one '/' turns the whole
      analysis into the failure record of the index error. */
  lemma OneSlashUrlFails(category: string, market: string, docs: seq<ScrapeRecord>, i: nat,
                         complete: (string, string, string) -> Result<map<string, Json>>)
    requires i < |docs| && HasContent(docs[i]) && Count(docs[i].url, '/') == 1
    ensures CategoryAnalysisResult(category, market, docs, None, complete) == ErrorRecord(FailurePrefix + IndexError)
  {
    PreparedSourcesFails(docs);
    assert PreparedSources(docs) == Failure(IndexError);
  }

  /** When every step succeeds, the result has exactly the reply's keys;
      outside the four backfilled sections each value is the reply's value
      with its tags stripped, so it holds no tag; each backfilled section is
      the cleaned section backfilled with the first two URLs of the
      retained documents, which are the documents with content, in order. */
  lemma SuccessfulAnalysis(category: string, market: string, docs: seq<ScrapeRecord>,
                           complete: (string, string, string) -> Result<map<string, Json>>)
    requires PreparedSources(docs).Success? && PreparedSources(docs).value != []
    requires complete(category, market, Combined(PreparedSources(docs).value, true)).Success?
    requires SourceUrlsAdded(CleanObject(complete(category, market, Combined(PreparedSources(docs).value, true)).value),
                             Urls(PreparedSources(docs).value)).Success?
    ensures var srcs := PreparedSources(docs).value;
      var reply := complete(category, market, Combined(srcs, true)).value;
      var r := CategoryAnalysisResult(category, market, docs, None, complete);
      r.Keys == reply.Keys &&
      (forall k :: k in reply && k !in {DynamicsKey, OpportunitiesKey, RisksKey, RecommendationsKey} ==>
        r[k] == CleanHtmlTags(reply[k]) && Clean(r[k])) &&
      (forall k :: k in ListSections && k in reply ==>
        BackfilledSection(CleanHtmlTags(reply[k]), StrArray(Take(Urls(srcs), 2))) == Success(r[k])) &&
      (DynamicsKey in reply && PyIn(TrendsKey, CleanHtmlTags(reply[DynamicsKey])) == Success(true) ==>
        var dynamics := CleanHtmlTags(reply[DynamicsKey]);
        dynamics.JObj? && TrendsKey in dynamics.fields &&
        BackfilledSection(dynamics.fields[TrendsKey], StrArray(Take(Urls(srcs), 2))).Success? &&
        r[DynamicsKey] == JObj(dynamics.fields[TrendsKey :=
          BackfilledSection(dynamics.fields[TrendsKey], StrArray(Take(Urls(srcs), 2))).value])) &&
      |Urls(srcs)| == |WithContent(docs)| &&
      forall i :: 0 <= i < |Urls(srcs)| && i < |WithContent(docs)| ==> Urls(srcs)[i] == WithContent(docs)[i].url
  {
    var srcs := PreparedSources(docs).value;
    var reply := complete(category, market, Combined(srcs, true)).value;
    BackfillFrame(CleanObject(reply), Urls(srcs));
    forall k | k in reply
      ensures Clean(CleanHtmlTags(reply[k]))
    {
      CleanedIsClean(reply[k]);
    }
    PreparedSourcesShape(docs);
  }

  /** In a successful analysis, every item of a backfilled list section
      that came back without `source_urls`, or with an empty one, holds the
      first two URLs of the retained documents; every other item is the
      reply's item with its tags stripped. */
  lemma SuccessfulAnalysisBackfillsItems(category: string, market: string, docs: seq<ScrapeRecord>,
                                         complete: (string, string, string) -> Result<map<string, Json>>, k: string)
    requires PreparedSources(docs).Success? && PreparedSources(docs).value != []
    requires complete(category, market, Combined(PreparedSources(docs).value, true)).Success?
    requires SourceUrlsAdded(CleanObject(complete(category, market, Combined(PreparedSources(docs).value, true)).value),
                             Urls(PreparedSources(docs).value)).Success?
    requires k in ListSections && k in complete(category, market, Combined(PreparedSources(docs).value, true)).value
    requires CleanHtmlTags(complete(category, market, Combined(PreparedSources(docs).value, true)).value[k]).JArr?
    ensures var srcs := PreparedSources(docs).value;
      var section := CleanHtmlTags(complete(category, market, Combined(srcs, true)).value[k]);
      var r := CategoryAnalysisResult(category, market, docs, None, complete);
      k in r && r[k].JArr? && |r[k].items| == |section.items| &&
      forall i :: 0 <= i < |section.items| ==>
        section.items[i].JObj? && r[k].items[i].JObj? &&
        (NeedsUrls(section.items[i].fields) ==>
          r[k].items[i].fields == section.items[i].fields[SourceUrlsKey := StrArray(Take(Urls(srcs), 2))]) &&
        (!NeedsUrls(section.items[i].fields) ==> r[k].items[i] == section.items[i])
  {
    var srcs := PreparedSources(docs).value;
    var section := CleanHtmlTags(complete(category, market, Combined(srcs, true)).value[k]);
    SuccessfulAnalysis(category, market, docs, complete);
    SectionItemsBackfilled(section, StrArray(Take(Urls(srcs), 2)));
  }
}
