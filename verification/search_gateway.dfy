/** The web-search gateway: it composes the request from the query and the
    time filter, sends it to the search provider, and turns the provider's
    items into four-field result records. The provider (client construction
    and the request together) is a function from request to reply that may
    fail. */
module SearchGateway {
  import opened Wrappers
  import opened Strings
  import opened Calendar
  import opened SearchOptions

  /** One normalised search hit. */
  datatype SearchResult = SearchResult(title: string, link: string, snippet: string, displayLink: string)

  /** The request parameters; `dateRestrict` is added only when the time
      filter yields a date. */
  datatype SearchParams = SearchParams(q: string, cx: string, num: int, dateRestrict: Option<string>)

  /** A provider item: the string fields it carries. */
  type Item = map<string, string>

  /** A provider reply, with or without an `items` entry. */
  datatype ProviderReply = ProviderReply(items: Option<seq<Item>>)

  const ConfigError := "Google API key or Search Engine ID not configured"

  /** Python truthiness of an optional string: present and non-empty. */
  predicate IsSet(s: Option<string>)
  {
    s.Some? && s.value != ""
  }

  /** The query sent: the time filter is appended after a space only when it
      is set and enhanced filtering is on. */
  function EffectiveQuery(query: string, timeFilter: Option<string>, enhancedFiltering: bool): (q: string)
    ensures IsSet(timeFilter) && enhancedFiltering ==> q == query + " " + timeFilter.value
    ensures !(IsSet(timeFilter) && enhancedFiltering) ==> q == query
  {
    if IsSet(timeFilter) && enhancedFiltering then query + " " + timeFilter.value else query
  }

  /** The `dateRestrict` value: when the filter contains "after:", every
      "after:" is removed and the rest is parsed as an ISO date; a date that
      parses gives "d" and the number of days from it to today. A filter
      without "after:", or a rest that does not parse, gives nothing. */
  function DateRestrict(timeFilter: Option<string>, today: int): (r: Option<string>)
    ensures r.Some? ==> IsSet(timeFilter) && Contains(timeFilter.value, "after:")
    ensures r.Some? ==> exists d :: (ParseIsoDate(RemoveAll(timeFilter.value, "after:")) == Some(d) &&
      r.value == "d" + IntToString(today - ToOrdinal(d)))
    ensures r.None? && IsSet(timeFilter) && Contains(timeFilter.value, "after:") ==>
      ParseIsoDate(RemoveAll(timeFilter.value, "after:")).None?
  {
    if IsSet(timeFilter) && Contains(timeFilter.value, "after:") then
      match ParseIsoDate(RemoveAll(timeFilter.value, "after:"))
      case Some(d) => Some("d" + IntToString(today - ToOrdinal(d)))
      case None => None
    else None
  }

  /** The request for one search. */
  function RequestParams(query: string, numResults: int, timeFilter: Option<string>, enhancedFiltering: bool,
                         searchEngineId: string, today: int): SearchParams
  {
    SearchParams(EffectiveQuery(query, timeFilter, enhancedFiltering), searchEngineId, numResults,
      DateRestrict(timeFilter, today))
  }

  /** `item.get(key, '')`. */
  function Field(item: Item, key: string): string
  {
    if key in item then item[key] else ""
  }

  function Normalize(item: Item): SearchResult
  {
    SearchResult(Field(item, "title"), Field(item, "link"), Field(item, "snippet"), Field(item, "displayLink"))
  }

  function NormalizeAll(items: seq<Item>): seq<SearchResult>
  {
    seq(|items|, i requires 0 <= i < |items| => Normalize(items[i]))
  }

  /** What `search_google` returns: the configuration error, or the
      normalised items of the reply, or nothing when the reply has no items
      or the provider fails. */
  function SearchOutcome(query: string, numResults: int, timeFilter: Option<string>, enhancedFiltering: bool,
                         apiKey: Option<string>, searchEngineId: Option<string>, today: int,
                         provider: SearchParams -> Result<ProviderReply>): Result<seq<SearchResult>>
  {
    if !IsSet(apiKey) || !IsSet(searchEngineId) then Failure(ConfigError)
    else
      var reply := provider(RequestParams(query, numResults, timeFilter, enhancedFiltering, searchEngineId.value, today));
      if reply.Failure? || reply.value.items.None? then Success([])
      else Success(NormalizeAll(reply.value.items.value))
  }

  /** `search_google`: the request is built field by field, the provider is
      called once, and the records are appended one item at a time. */
  method SearchGoogle(query: string, numResults: int, timeFilter: Option<string>, enhancedFiltering: bool,
                      apiKey: Option<string>, searchEngineId: Option<string>, today: int,
                      provider: SearchParams -> Result<ProviderReply>)
    returns (r: Result<seq<SearchResult>>)
    ensures r == SearchOutcome(query, numResults, timeFilter, enhancedFiltering, apiKey, searchEngineId, today, provider)
  {
    if !IsSet(apiKey) || !IsSet(searchEngineId) {
      return Failure(ConfigError);
    }
    var enhancedQuery := query;
    if IsSet(timeFilter) && enhancedFiltering {
      enhancedQuery := query + " " + timeFilter.value;
    }
    var params := SearchParams(enhancedQuery, searchEngineId.value, numResults, None);
    assert enhancedQuery == EffectiveQuery(query, timeFilter, enhancedFiltering);
    if IsSet(timeFilter) && Contains(timeFilter.value, "after:") {
      var datePart := RemoveAll(timeFilter.value, "after:");
      var parsed := ParseIsoDate(datePart);
      if parsed.Some? {
        var daysDiff := today - ToOrdinal(parsed.value);
        params := params.(dateRestrict := Some("d" + IntToString(daysDiff)));
      }
    }
    assert params == RequestParams(query, numResults, timeFilter, enhancedFiltering, searchEngineId.value, today);
    var reply := provider(params);
    if reply.Failure? {
      return Success([]);
    }
    var searchResults: seq<SearchResult> := [];
    if reply.value.items.Some? {
      var items := reply.value.items.value;
      for i := 0 to |items|
        invariant |searchResults| == i
        invariant forall j :: 0 <= j < i ==> searchResults[j] == Normalize(items[j])
      {
        searchResults := searchResults + [SearchResult(
          Field(items[i], "title"), Field(items[i], "link"), Field(items[i], "snippet"), Field(items[i], "displayLink"))];
      }
    }
    if reply.value.items.Some? {
      var items := reply.value.items.value;
      assert searchResults == NormalizeAll(items);
    }
    r := Success(searchResults);
  }

  /** The configuration error is the only failure, and it is decided before
      the provider is asked anything. */
  lemma OnlyConfigErrorEscapes(query: string, numResults: int, timeFilter: Option<string>, enhancedFiltering: bool,
                               apiKey: Option<string>, searchEngineId: Option<string>, today: int,
                               provider: SearchParams -> Result<ProviderReply>, other: SearchParams -> Result<ProviderReply>)
    ensures var r := SearchOutcome(query, numResults, timeFilter, enhancedFiltering, apiKey, searchEngineId, today, provider);
      (r.Failure? <==> !IsSet(apiKey) || !IsSet(searchEngineId)) &&
      (r.Failure? ==> (r.error == ConfigError &&
        r == SearchOutcome(query, numResults, timeFilter, enhancedFiltering, apiKey, searchEngineId, today, other)))
  {
  }

  /** The provider is asked for `numResults` hits with the effective query,
      and its items come back one record each, in order and untruncated:
      each record holds the item's four fields, '' where a field is
      missing. A failing provider or a reply without items gives no records. */
  lemma OutcomeMirrorsReply(query: string, numResults: int, timeFilter: Option<string>, enhancedFiltering: bool,
                            apiKey: Option<string>, searchEngineId: Option<string>, today: int,
                            provider: SearchParams -> Result<ProviderReply>)
    requires IsSet(apiKey) && IsSet(searchEngineId)
    ensures var params := RequestParams(query, numResults, timeFilter, enhancedFiltering, searchEngineId.value, today);
      var reply := provider(params);
      var r := SearchOutcome(query, numResults, timeFilter, enhancedFiltering, apiKey, searchEngineId, today, provider);
      params.num == numResults && params.cx == searchEngineId.value &&
      params.q == EffectiveQuery(query, timeFilter, enhancedFiltering) &&
      r.Success? &&
      (reply.Failure? || reply.value.items.None? ==> r.value == []) &&
      (reply.Success? && reply.value.items.Some? ==>
        var items := reply.value.items.value;
        |r.value| == |items| &&
        forall i :: 0 <= i < |items| ==>
          ("link" in items[i] ==> r.value[i].link == items[i]["link"]) &&
          ("link" !in items[i] ==> r.value[i].link == "") &&
          r.value[i] == SearchResult(Field(items[i], "title"), Field(items[i], "link"),
                                     Field(items[i], "snippet"), Field(items[i], "displayLink")))
  {
  }

  /** A filter written by `FormatTimeFilter` always yields a `dateRestrict`,
      and it covers exactly the days the timescale looks back. */
  lemma TimeFilterRoundTrip(timescale: string, today: int)
    requires EarliestToday <= today <= MaxOrdinal
    ensures DateRestrict(Some(FormatTimeFilter(timescale, today)), today) == Some("d" + IntToString(DaysBack(timescale)))
  {
    var f := FormatTimeFilter(timescale, today);
    var date := f[6..];
    assert f == "after:" + date;
    ContainsPrefix("after:", date);
    assert StartsWith(f, "after:");
    assert RemoveAll(f, "after:") == RemoveAll(date, "after:");
    RemoveAllAbsent(date, "after:");
  }
}
