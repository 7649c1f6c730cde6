/** The page fetcher: one record per URL from a fetch-then-extract outcome,
    and a batch run that keeps only the successful records, in whatever
    order the workers finish. */
module Scraper {
  import opened Wrappers
  import opened Strings

  /** What one library call did: raised with a message, or returned a value
      (`None` for Python's `None`). */
  datatype Outcome = Raised(message: string) | Returned(value: Option<string>)

  /** The dictionary built for one URL; `error` is absent on success. */
  datatype ScrapeRecord = ScrapeRecord(url: string, content: string, success: bool, error: Option<string>)

  const MaxContent: nat := 5000
  const ExtractError := "Failed to extract content"

  /** A call that returned a non-empty string. */
  predicate Gave(o: Outcome)
  {
    o.Returned? && o.value.Some? && o.value.value != ""
  }

  function Failed(url: string, message: string): ScrapeRecord
  {
    ScrapeRecord(url, "", false, Some(message))
  }

  /** `scrape_single_url`: `fetch` and `extract` stand for the download and
      the text extraction. It never raises: a raised call becomes a failure
      record carrying the message, a falsy value the fixed message. */
  function ScrapeSingleUrl(url: string, fetch: string -> Outcome, extract: string -> Outcome): (r: ScrapeRecord)
    ensures r.url == url
    ensures r.success <==> Gave(fetch(url)) && Gave(extract(fetch(url).value.value))
    ensures r.success ==> r.error.None? && r.content == Take(extract(fetch(url).value.value).value.value, MaxContent)
    ensures !r.success ==> r.content == "" && r.error.Some?
    ensures fetch(url).Raised? ==> r.error == Some(fetch(url).message)
    ensures Gave(fetch(url)) && extract(fetch(url).value.value).Raised? ==>
      r.error == Some(extract(fetch(url).value.value).message)
    ensures !r.success && !fetch(url).Raised? && !(Gave(fetch(url)) && extract(fetch(url).value.value).Raised?) ==>
      r.error == Some(ExtractError)
  {
    match fetch(url)
    case Raised(e) => Failed(url, e)
    case Returned(downloaded) =>
      if downloaded.Some? && downloaded.value != "" then
        match extract(downloaded.value)
        case Raised(e) => Failed(url, e)
        case Returned(text) =>
          if text.Some? && text.value != "" then ScrapeRecord(url, Take(text.value, MaxContent), true, None)
          else Failed(url, ExtractError)
      else Failed(url, ExtractError)
  }

  /** A successful record always has content, at most `MaxContent` long,
      and it is the start of the extracted text. */
  lemma SuccessHasBoundedContent(url: string, fetch: string -> Outcome, extract: string -> Outcome)
    ensures var r := ScrapeSingleUrl(url, fetch, extract);
      r.success ==> (0 < |r.content| <= MaxContent &&
        StartsWith(extract(fetch(url).value.value).value.value, r.content))
  {
  }

  /** The record for each URL, in input order. */
  function ScrapedAll(urls: seq<string>, fetch: string -> Outcome, extract: string -> Outcome): (rs: seq<ScrapeRecord>)
    ensures |rs| == |urls|
  {
    seq(|urls|, i requires 0 <= i < |urls| => ScrapeSingleUrl(urls[i], fetch, extract))
  }

  /** The test the batch run applies to each record. */
  predicate Keep(r: ScrapeRecord)
  {
    r.success && r.content != ""
  }

  /** The records that pass `Keep`, in order. */
  function Kept(rs: seq<ScrapeRecord>): (ks: seq<ScrapeRecord>)
    ensures |ks| <= |rs|
    ensures forall r :: r in ks ==> r in rs && Keep(r)
  {
    if rs == [] then [] else (if Keep(rs[0]) then [rs[0]] else []) + Kept(rs[1..])
  }

  lemma {:induction false} KeptConcat(a: seq<ScrapeRecord>, b: seq<ScrapeRecord>)
    ensures Kept(a + b) == Kept(a) + Kept(b)
  {
    if a == [] {
      assert a + b == b;
    } else {
      assert (a + b)[1..] == a[1..] + b;
      KeptConcat(a[1..], b);
    }
  }

  lemma ScrapedAllConcat(x: seq<string>, y: seq<string>, fetch: string -> Outcome, extract: string -> Outcome)
    ensures ScrapedAll(x + y, fetch, extract) == ScrapedAll(x, fetch, extract) + ScrapedAll(y, fetch, extract)
  {
  }

  /** Taking the `k`-th URL out of the batch takes exactly its record out of
      the kept records. */
  lemma KeptRemove(urls: seq<string>, k: nat, fetch: string -> Outcome, extract: string -> Outcome)
    requires k < |urls|
    ensures multiset(Kept(ScrapedAll(urls, fetch, extract))) ==
      multiset(Kept(ScrapedAll(urls[..k] + urls[k + 1..], fetch, extract))) +
      multiset(Kept([ScrapeSingleUrl(urls[k], fetch, extract)]))
  {
    var x, y := urls[..k], urls[k + 1..];
    var a, b := ScrapedAll(x, fetch, extract), ScrapedAll(y, fetch, extract);
    var mid := ScrapedAll([urls[k]], fetch, extract);
    assert urls == x + [urls[k]] + y;
    ScrapedAllConcat(x + [urls[k]], y, fetch, extract);
    ScrapedAllConcat(x, [urls[k]], fetch, extract);
    ScrapedAllConcat(x, y, fetch, extract);
    KeptConcat(a + mid, b);
    KeptConcat(a, mid);
    KeptConcat(a, b);
    assert mid == [ScrapeSingleUrl(urls[k], fetch, extract)];
  }

  /** `scrape_urls`. The pool runs every URL once; `as_completed` hands the
      records back in an order the model leaves open, so each step takes
      any URL still pending. A record is kept when it succeeded with
      content. The result is a rearrangement of the kept records of the
      batch; `maxWorkers` only sizes the pool. */
  method ScrapeUrls(urls: seq<string>, maxWorkers: int, fetch: string -> Outcome, extract: string -> Outcome)
    returns (results: seq<ScrapeRecord>)
    ensures multiset(results) == multiset(Kept(ScrapedAll(urls, fetch, extract)))
  {
    var pending := urls;
    results := [];
    while |pending| > 0
      invariant multiset(results) + multiset(Kept(ScrapedAll(pending, fetch, extract))) ==
        multiset(Kept(ScrapedAll(urls, fetch, extract)))
      decreases |pending|
    {
      var k :| 0 <= k < |pending|;
      var result := ScrapeSingleUrl(pending[k], fetch, extract);
      KeptRemove(pending, k, fetch, extract);
      if result.success && result.content != "" {
        results := results + [result];
      }
      pending := pending[..k] + pending[k + 1..];
    }
  }

  /** Whatever order the workers finish in, every returned record succeeded
      with non-empty content of at most `MaxContent` characters, belongs to
      a URL of the batch, and there are no more records than URLs. */
  lemma ScrapeUrlsResults(urls: seq<string>, results: seq<ScrapeRecord>, fetch: string -> Outcome, extract: string -> Outcome)
    requires multiset(results) == multiset(Kept(ScrapedAll(urls, fetch, extract)))
    ensures |results| <= |urls|
    ensures forall r :: r in results ==> r.success && 0 < |r.content| <= MaxContent && r.url in urls
  {
    var ks := Kept(ScrapedAll(urls, fetch, extract));
    assert |results| == |multiset(results)| == |multiset(ks)| == |ks|;
    forall r | r in results
      ensures r.success && 0 < |r.content| <= MaxContent && r.url in urls
    {
      assert r in multiset(results);
      assert r in ks;
      var all := ScrapedAll(urls, fetch, extract);
      var i :| 0 <= i < |all| && all[i] == r;
      SuccessHasBoundedContent(urls[i], fetch, extract);
    }
  }
}
