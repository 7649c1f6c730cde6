/** Source preprocessing shared by the category analyser and the
    multi-pass analyser: documents without content are dropped, the rest
    are capped and tagged with their domain, and then rendered into one
    prompt text. */
module Sources {
  import opened Wrappers
  import opened Strings
  import opened Json
  import opened Scraper

  /** One retained document. */
  datatype Source = Source(url: string, content: string, domain: string)

  const MaxSourceContent: nat := 3000
  const IndexError := "list index out of range"
  const NoContentError := "No content available for analysis"

  /** `{"error": message}`, the record both analysers return when they fail. */
  function ErrorRecord(message: string): (r: map<string, Json>)
    ensures r.Keys == {"error"} && r["error"] == JStr(message)
  {
    map["error" := JStr(message)]
  }

  /** `url.split('/')[2] if '/' in url else url`: the host part of a URL
      with a scheme; indexing fails when there is exactly one '/'. */
  function DomainOf(url: string): (r: Result<string>)
    ensures '/' !in url ==> r == Success(url)
  {
    if '/' in url then
      var parts := Split(url, '/');
      if |parts| > 2 then Success(parts[2]) else Failure(IndexError)
    else Success(url)
  }

  /** Domain extraction fails exactly on URLs with one '/'. */
  lemma DomainFailsOnOneSlash(url: string)
    ensures DomainOf(url).Failure? <==> Count(url, '/') == 1
  {
    SplitCount(url, '/');
    if '/' !in url {
      CountAbsent(url, '/');
    } else {
      CountPresent(url, '/');
    }
  }

  /** For `scheme//host` followed by nothing or by a path, the domain is the host. */
  lemma DomainOfUrl(scheme: string, host: string, path: string)
    requires '/' !in scheme && '/' !in host
    requires path == [] || path[0] == '/'
    ensures DomainOf(scheme + "//" + host + path) == Success(host)
  {
    var url := scheme + "//" + host + path;
    var rest := host + path;
    assert url == scheme + "/" + ("" + "/" + rest);
    SplitAfter(scheme, "" + "/" + rest);
    SplitAfter("", rest);
    HostFirst(host, path);
    DomainIsThirdPiece(url, scheme, rest, host);
  }

  lemma DomainIsThirdPiece(url: string, scheme: string, rest: string, host: string)
    requires Split(url, '/') == [scheme] + Split("" + "/" + rest, '/')
    requires Split("" + "/" + rest, '/') == [""] + Split(rest, '/')
    requires Split(rest, '/')[0] == host
    ensures DomainOf(url) == Success(host)
  {
  }

  /** A separator-free piece, then a separator: the piece comes first. */
  lemma SplitAfter(head: string, rest: string)
    requires '/' !in head
    ensures Split(head + "/" + rest, '/') == [head] + Split(rest, '/')
  {
    var s := head + "/" + rest;
    assert s[..|head|] == head && s[|head| + 1..] == rest;
    SplitAt(s, '/', |head|);
  }

  /** The host is the first piece of `host` followed by nothing or a path. */
  lemma HostFirst(host: string, path: string)
    requires '/' !in host
    requires path == [] || path[0] == '/'
    ensures Split(host + path, '/')[0] == host
  {
    if path == [] {
      assert host + path == host;
    } else {
      assert host + path == host + "/" + path[1..];
      SplitAfter(host, path[1..]);
    }
  }

  /** A document is kept when its content is non-empty. */
  predicate HasContent(d: ScrapeRecord)
  {
    d.content != ""
  }

  /** The documents with content, in order. */
  function WithContent(docs: seq<ScrapeRecord>): (r: seq<ScrapeRecord>)
    ensures |r| <= |docs|
    ensures forall d :: d in r ==> d in docs && HasContent(d)
  {
    if docs == [] then []
    else WithContent(docs[..|docs| - 1]) + (if HasContent(docs[|docs| - 1]) then [docs[|docs| - 1]] else [])
  }

  /** The preprocessing loop read as a function, one document at a time
      from the front: the first document with content whose domain cannot
      be extracted makes it fail. */
  function PreparedSources(docs: seq<ScrapeRecord>): Result<seq<Source>>
  {
    if docs == [] then Success([])
    else
      match PreparedSources(docs[..|docs| - 1])
      case Failure(e) => Failure(e)
      case Success(prev) =>
        var d := docs[|docs| - 1];
        if !HasContent(d) then Success(prev)
        else
          match DomainOf(d.url)
          case Failure(e) => Failure(e)
          case Success(domain) => Success(prev + [Source(d.url, Take(d.content, MaxSourceContent), domain)])
  }

  /** The `source_content` loop. */
  method PrepareSources(docs: seq<ScrapeRecord>) returns (r: Result<seq<Source>>)
    ensures r == PreparedSources(docs)
  {
    var sourceContent: seq<Source> := [];
    for i := 0 to |docs|
      invariant PreparedSources(docs[..i]) == Success(sourceContent)
    {
      assert docs[..i + 1][..i] == docs[..i];
      if docs[i].content != "" {
        var domain := DomainOf(docs[i].url);
        if domain.Failure? {
          FailureStays(docs, i + 1);
          return Failure(domain.error);
        }
        sourceContent := sourceContent + [Source(docs[i].url, Take(docs[i].content, MaxSourceContent), domain.value)];
      }
    }
    assert docs[..|docs|] == docs;
    r := Success(sourceContent);
  }

  /** Once a prefix fails, so does every longer prefix, with the same error. */
  lemma {:induction false} FailureStays(docs: seq<ScrapeRecord>, n: nat)
    requires n <= |docs| && PreparedSources(docs[..n]).Failure?
    ensures PreparedSources(docs) == PreparedSources(docs[..n])
    decreases |docs| - n
  {
    if n < |docs| {
      assert docs[..n + 1][..n] == docs[..n];
      FailureStays(docs, n + 1);
    } else {
      assert docs[..n] == docs;
    }
  }

  /** On success the sources are the documents with content, in order, each
      with its URL, its content capped at `MaxSourceContent` characters and
      its domain. */
  lemma {:induction false} PreparedSourcesShape(docs: seq<ScrapeRecord>)
    requires PreparedSources(docs).Success?
    ensures var srcs := PreparedSources(docs).value;
      var kept := WithContent(docs);
      |srcs| == |kept| &&
      forall i :: 0 <= i < |srcs| ==>
        srcs[i].url == kept[i].url && srcs[i].content == Take(kept[i].content, MaxSourceContent) &&
        DomainOf(kept[i].url) == Success(srcs[i].domain)
  {
    if docs != [] {
      PreparedSourcesShape(docs[..|docs| - 1]);
    }
  }

  /** Preprocessing fails exactly when a document with content has a URL
      with one '/', and then the error is the index error. */
  lemma {:induction false} PreparedSourcesFails(docs: seq<ScrapeRecord>)
    ensures PreparedSources(docs).Failure? <==>
      exists i :: 0 <= i < |docs| && HasContent(docs[i]) && Count(docs[i].url, '/') == 1
    ensures PreparedSources(docs).Failure? ==> PreparedSources(docs).error == IndexError
  {
    if docs != [] {
      var init := docs[..|docs| - 1];
      var d := docs[|docs| - 1];
      PreparedSourcesFails(init);
      DomainFailsOnOneSlash(d.url);
      if PreparedSources(docs).Failure? && PreparedSources(init).Success? {
        assert HasContent(docs[|docs| - 1]) && Count(docs[|docs| - 1].url, '/') == 1;
      }
      if exists i :: 0 <= i < |docs| && HasContent(docs[i]) && Count(docs[i].url, '/') == 1 {
        var i :| 0 <= i < |docs| && HasContent(docs[i]) && Count(docs[i].url, '/') == 1;
        if i < |docs| - 1 {
          assert init[i] == docs[i];
        }
      }
    }
  }

  /** With no document with content there is nothing to prepare, and the
      preprocessing succeeds with no sources. */
  lemma {:induction false} NothingToPrepare(docs: seq<ScrapeRecord>)
    requires WithContent(docs) == []
    ensures PreparedSources(docs) == Success([])
  {
    PreparedSourcesFails(docs);
    if exists i :: 0 <= i < |docs| && HasContent(docs[i]) && Count(docs[i].url, '/') == 1 {
      var i :| 0 <= i < |docs| && HasContent(docs[i]) && Count(docs[i].url, '/') == 1;
      WithContentKeeps(docs, i);
    }
    PreparedSourcesShape(docs);
  }

  lemma {:induction false} WithContentKeeps(docs: seq<ScrapeRecord>, i: nat)
    requires i < |docs| && HasContent(docs[i])
    ensures docs[i] in WithContent(docs)
    decreases |docs|
  {
    if i < |docs| - 1 {
      WithContentKeeps(docs[..|docs| - 1], i);
    }
  }

  /** The URLs of the retained sources, in order. */
  function Urls(srcs: seq<Source>): (r: seq<string>)
    ensures |r| == |srcs| && forall i :: 0 <= i < |srcs| ==> r[i] == srcs[i].url
  {
    seq(|srcs|, i requires 0 <= i < |srcs| => srcs[i].url)
  }

  /** "Source: url\nDomain: d\nContent: c", or without the Domain line. */
  function Render(s: Source, withDomain: bool): string
  {
    if withDomain then "Source: " + s.url + "\nDomain: " + s.domain + "\nContent: " + s.content
    else "Source: " + s.url + "\nContent: " + s.content
  }

  function Rendered(srcs: seq<Source>, withDomain: bool): (r: seq<string>)
    ensures |r| == |srcs|
  {
    seq(|srcs|, i requires 0 <= i < |srcs| => Render(srcs[i], withDomain))
  }

  /** The prompt text: the rendered sources joined by blank lines. */
  function Combined(srcs: seq<Source>, withDomain: bool): string
  {
    Join(Rendered(srcs, withDomain), "\n\n")
  }

  /** Each source's block appears in the prompt text in order, one blank
      line after the previous one. */
  lemma CombinedPlacesSources(srcs: seq<Source>, withDomain: bool, i: nat)
    requires i < |srcs|
    ensures var c := Combined(srcs, withDomain);
      var o := Offset(Rendered(srcs, withDomain), "\n\n", i);
      o + |Render(srcs[i], withDomain)| <= |c| &&
      c[o..o + |Render(srcs[i], withDomain)|] == Render(srcs[i], withDomain)
    ensures Contains(Combined(srcs, withDomain), Render(srcs[i], withDomain))
  {
    var parts := Rendered(srcs, withDomain);
    JoinPlacesParts(parts, "\n\n", i);
    var c := Combined(srcs, withDomain);
    var o := Offset(parts, "\n\n", i);
    assert parts[i] == Render(srcs[i], withDomain);
    ContainsSlice(c, o, parts[i]);
  }
}
