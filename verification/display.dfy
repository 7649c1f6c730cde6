/** The small computations behind the report screen: the clickable source
    links, the metrics collected for the metrics strip, and the short
    category names used as tab titles. */
module Display {
  import opened Wrappers
  import opened Strings
  import opened Json
  import opened Sources

  const NoSources := "No sources available"

  /** At most this many sources are linked. */
  const MaxLinkedSources: nat := 3

  /** One link: the URL as its target, the domain as its text. */
  function Anchor(url: string, domain: string): string
  {
    "<a href=\"" + url + "\" target=\"_blank\" style=\"color: #4A90E2; text-decoration: underline;\">" + domain + "</a>"
  }

  /** The loop over the linked URLs: one anchor each, in order; a URL with
      exactly one '/' makes the domain lookup raise. */
  function SourceLinks(urls: seq<string>): (r: Result<seq<string>>)
    ensures r.Success? ==> |r.value| == |urls|
    decreases |urls|
  {
    if urls == [] then Success([])
    else
      match DomainOf(urls[0])
      case Failure(e) => Failure(e)
      case Success(domain) =>
        match SourceLinks(urls[1..])
        case Failure(e) => Failure(e)
        case Success(rest) => Success([Anchor(urls[0], domain)] + rest)
  }

  /** The links fail exactly when some URL has one '/'; otherwise link `i`
      is the anchor of URL `i` labelled with its domain. */
  lemma {:induction false} SourceLinksFacts(urls: seq<string>)
    ensures SourceLinks(urls).Failure? <==> exists i :: 0 <= i < |urls| && Count(urls[i], '/') == 1
    ensures SourceLinks(urls).Success? ==>
      forall i :: 0 <= i < |urls| ==>
        DomainOf(urls[i]).Success? && SourceLinks(urls).value[i] == Anchor(urls[i], DomainOf(urls[i]).value)
    decreases |urls|
  {
    if urls != [] {
      DomainFailsOnOneSlash(urls[0]);
      SourceLinksFacts(urls[1..]);
      if SourceLinks(urls).Failure? && DomainOf(urls[0]).Success? {
        var i :| 0 <= i < |urls[1..]| && Count(urls[1..][i], '/') == 1;
        assert urls[i + 1] == urls[1..][i];
      }
      if exists i :: 0 <= i < |urls| && Count(urls[i], '/') == 1 {
        var i :| 0 <= i < |urls| && Count(urls[i], '/') == 1;
        if i > 0 {
          assert urls[1..][i - 1] == urls[i];
        }
      }
      if SourceLinks(urls).Success? {
        forall i | 1 <= i < |urls|
          ensures DomainOf(urls[i]).Success? && SourceLinks(urls).value[i] == Anchor(urls[i], DomainOf(urls[i]).value)
        {
          assert urls[1..][i - 1] == urls[i];
        }
      }
    }
  }

  /** `format_clickable_sources`: "No sources available" when there is no
      list or it is empty, otherwise the links of the first three URLs
      joined by " | ". */
  function FormatClickableSources(sourceUrls: Option<seq<string>>): (r: Result<string>)
    ensures sourceUrls.None? || sourceUrls.value == [] ==> r == Success(NoSources)
    ensures sourceUrls.Some? && sourceUrls.value != [] && r.Success? ==>
      var links := SourceLinks(Take(sourceUrls.value, MaxLinkedSources));
      links.Success? && 1 <= |links.value| <= MaxLinkedSources && |links.value| <= |sourceUrls.value| &&
      r.value == Join(links.value, " | ")
  {
    if sourceUrls.None? || sourceUrls.value == [] then Success(NoSources)
    else
      match SourceLinks(Take(sourceUrls.value, MaxLinkedSources))
      case Failure(e) => Failure(e)
      case Success(links) => Success(Join(links, " | "))
  }

  /** The placeholder is shown exactly when there are no sources: with at
      least one URL the text starts with a link. */
  lemma NoSourcesExactlyWhenEmpty(sourceUrls: Option<seq<string>>)
    requires FormatClickableSources(sourceUrls).Success?
    ensures FormatClickableSources(sourceUrls).value == NoSources <==> sourceUrls.None? || sourceUrls.value == []
  {
    if sourceUrls.Some? && sourceUrls.value != [] {
      var urls := Take(sourceUrls.value, MaxLinkedSources);
      var links := SourceLinks(urls).value;
      SourceLinksFacts(urls);
      JoinPlacesParts(links, " | ", 0);
      assert Join(links, " | ")[0] == links[0][0] == '<';
    }
  }

  /** Formatting fails exactly when one of the first three URLs has one '/'. */
  lemma FormatFailsOnOneSlash(urls: seq<string>)
    ensures FormatClickableSources(Some(urls)).Failure? <==>
      exists i :: 0 <= i < |urls| && i < MaxLinkedSources && Count(urls[i], '/') == 1
  {
    var shown := Take(urls, MaxLinkedSources);
    SourceLinksFacts(shown);
    if exists i :: 0 <= i < |urls| && i < MaxLinkedSources && Count(urls[i], '/') == 1 {
      var i :| 0 <= i < |urls| && i < MaxLinkedSources && Count(urls[i], '/') == 1;
      assert shown[i] == urls[i];
    }
  }

  /** Each of the first three URLs appears as its own link, in order, each
      followed by " | " when another link comes after it. */
  lemma FormatLinksInOrder(urls: seq<string>, i: nat)
    requires FormatClickableSources(Some(urls)).Success? && urls != []
    requires i < |urls| && i < MaxLinkedSources
    ensures DomainOf(urls[i]).Success?
    ensures var text := FormatClickableSources(Some(urls)).value;
      var links := SourceLinks(Take(urls, MaxLinkedSources)).value;
      var o := Offset(links, " | ", i);
      i < |links| && links[i] == Anchor(urls[i], DomainOf(urls[i]).value) &&
      o + |links[i]| <= |text| && text[o..o + |links[i]|] == links[i] &&
      (i + 1 < |links| ==> o + |links[i]| + 3 <= |text| && text[o + |links[i]|..o + |links[i]| + 3] == " | ")
  {
    ShownLinkIsAnchor(urls, i);
    FormattedIsJoin(urls);
    JoinPlacesParts(SourceLinks(Take(urls, MaxLinkedSources)).value, " | ", i);
  }

  lemma FormattedIsJoin(urls: seq<string>)
    requires FormatClickableSources(Some(urls)).Success? && urls != []
    ensures SourceLinks(Take(urls, MaxLinkedSources)).Success?
    ensures FormatClickableSources(Some(urls)).value == Join(SourceLinks(Take(urls, MaxLinkedSources)).value, " | ")
  {
  }

  lemma ShownLinkIsAnchor(urls: seq<string>, i: nat)
    requires FormatClickableSources(Some(urls)).Success? && urls != []
    requires i < |urls| && i < MaxLinkedSources
    ensures DomainOf(urls[i]).Success?
    ensures var links := SourceLinks(Take(urls, MaxLinkedSources)).value;
      i < |links| && links[i] == Anchor(urls[i], DomainOf(urls[i]).value)
  {
    var shown := Take(urls, MaxLinkedSources);
    SourceLinksFacts(shown);
    assert shown[i] == urls[i];
  }

  /** Where a collected metric's context came from: one value, or the
      f-string `"{currency} {timeframe}"` of two values. */
  datatype Context = Plain(value: Json) | Spaced(first: Json, second: Json)

  /** One entry of `metrics_data`. */
  datatype Metric = Metric(metric: Json, value: Json, context: Context)

  /** At most this many key metrics are read from one insight. */
  const MetricsPerInsight: nat := 2

  /** At most this many collected metrics are shown. */
  const ShownMetricCount: nat := 4

  /** The market-size entry: present when `market_size_data` is there and
      its `value` is truthy. */
  function SizeMetric(comp: Json): Result<seq<Metric>>
  {
    match PyIn("market_size_data", comp)
    case Failure(e) => Failure(e)
    case Success(present) =>
      if !present then Success([])
      else
        match PyGetItem(comp, "market_size_data")
        case Failure(e) => Failure(e)
        case Success(size) =>
          match PyGet(size, "value", JNull)
          case Failure(e) => Failure(e)
          case Success(value) =>
            if !Truthy(value) then Success([])
            else Success([Metric(JStr("Market Size"), value,
                                 Spaced(PyGet(size, "currency", JStr("")).value, PyGet(size, "timeframe", JStr("")).value))])
  }

  /** The growth-rate entry: present when `growth_metrics` is there and its
      `rate` is truthy. */
  function GrowthMetric(comp: Json): Result<seq<Metric>>
  {
    match PyIn("growth_metrics", comp)
    case Failure(e) => Failure(e)
    case Success(present) =>
      if !present then Success([])
      else
        match PyGetItem(comp, "growth_metrics")
        case Failure(e) => Failure(e)
        case Success(growth) =>
          match PyGet(growth, "rate", JNull)
          case Failure(e) => Failure(e)
          case Success(rate) =>
            if !Truthy(rate) then Success([])
            else Success([Metric(JStr("Growth Rate"), rate, Plain(PyGet(growth, "timeframe", JStr("")).value))])
  }

  /** `x[:2]` on a JSON value: a list gives its first two items, a string
      its first two characters; other values cannot be sliced. */
  function FirstTwo(x: Json): (r: Result<seq<Json>>)
    ensures r.Success? ==> |r.value| <= MetricsPerInsight
  {
    match x
    case JArr(items) => Success(Take(items, MetricsPerInsight))
    case JStr(s) =>
      var cs := Take(s, MetricsPerInsight);
      Success(seq(|cs|, i requires 0 <= i < |cs| => JStr([cs[i]])))
    case _ => Failure(ShapeError)
  }

  /** The entry for one key metric: kept when its `value` is truthy; only a
      dict has `.get`. */
  function KeyMetric(m: Json): Result<seq<Metric>>
  {
    match PyGet(m, "value", JNull)
    case Failure(e) => Failure(e)
    case Success(value) =>
      if !Truthy(value) then Success([])
      else Success([Metric(PyGet(m, "metric", JStr("Metric")).value, value, Plain(PyGet(m, "context", JStr("")).value))])
  }

  /** The inner loop over some key metrics: their entries, in order. */
  function KeyMetrics(ms: seq<Json>): (r: Result<seq<Metric>>)
    ensures r.Success? ==> |r.value| <= |ms|
  {
    if ms == [] then Success([])
    else
      match KeyMetrics(ms[..|ms| - 1])
      case Failure(e) => Failure(e)
      case Success(prev) =>
        match KeyMetric(ms[|ms| - 1])
        case Failure(e) => Failure(e)
        case Success(last) => Success(prev + last)
  }

  /** The entries one insight contributes: its first two key metrics with
      a truthy value. */
  function InsightMetrics(insight: Json): (r: Result<seq<Metric>>)
    ensures r.Success? ==> |r.value| <= MetricsPerInsight
  {
    match PyIn("key_metrics", insight)
    case Failure(e) => Failure(e)
    case Success(present) =>
      if !present then Success([])
      else
        match PyGetItem(insight, "key_metrics")
        case Failure(e) => Failure(e)
        case Success(keyMetrics) =>
          match FirstTwo(keyMetrics)
          case Failure(e) => Failure(e)
          case Success(ms) => KeyMetrics(ms)
  }

  /** The outer loop over a list of insights. */
  function ListMetrics(insights: seq<Json>): (r: Result<seq<Metric>>)
    ensures r.Success? ==> |r.value| <= MetricsPerInsight * |insights|
  {
    if insights == [] then Success([])
    else
      match ListMetrics(insights[..|insights| - 1])
      case Failure(e) => Failure(e)
      case Success(prev) =>
        match InsightMetrics(insights[|insights| - 1])
        case Failure(e) => Failure(e)
        case Success(last) => Success(prev + last)
  }

  /** The outer loop over `insights` whatever it holds: a list is walked
      item by item; a string yields one-character strings, none of which
      holds "key_metrics"; a dict yields its keys, and a key holding
      "key_metrics" raises when a string is indexed by a string; other
      values cannot be iterated. */
  function InsightsMetrics(insights: Json): (r: Result<seq<Metric>>)
    ensures r.Success? && insights.JArr? ==> |r.value| <= MetricsPerInsight * |insights.items|
    ensures r.Success? && !insights.JArr? ==> r.value == []
  {
    match insights
    case JArr(items) => ListMetrics(items)
    case JStr(_) => Success([])
    case JObj(fields) => if exists k :: k in fields && Contains(k, "key_metrics") then Failure(ShapeError) else Success([])
    case _ => Failure(ShapeError)
  }

  /** `metrics_data` for an analysis: the market-size entry, the
      growth-rate entry, then the insights' key metrics, in that order; the
      first step that raises ends the collection. */
  function CollectedMetrics(analysis: map<string, Json>): Result<seq<Metric>>
  {
    var comp := if "competitive_intelligence" in analysis then analysis["competitive_intelligence"] else JObj(map[]);
    var insights := if "insights" in analysis then analysis["insights"] else JArr([]);
    match SizeMetric(comp)
    case Failure(e) => Failure(e)
    case Success(size) =>
      match GrowthMetric(comp)
      case Failure(e) => Failure(e)
      case Success(growth) =>
        match InsightsMetrics(insights)
        case Failure(e) => Failure(e)
        case Success(fromInsights) => Success(size + growth + fromInsights)
  }

  /** The loop over one insight's first two key metrics. */
  method CollectKeyMetrics(ms: seq<Json>) returns (r: Result<seq<Metric>>)
    ensures r == KeyMetrics(ms)
  {
    var collected: seq<Metric> := [];
    for j := 0 to |ms|
      invariant KeyMetrics(ms[..j]) == Success(collected)
    {
      assert ms[..j + 1][..j] == ms[..j] && ms[..j + 1][j] == ms[j];
      var m := ms[j];
      if !m.JObj? {
        KeyFailureStays(ms, j + 1);
        return Failure(ShapeError);
      }
      var value := if "value" in m.fields then m.fields["value"] else JNull;
      if Truthy(value) {
        var name := if "metric" in m.fields then m.fields["metric"] else JStr("Metric");
        var context := if "context" in m.fields then m.fields["context"] else JStr("");
        assert KeyMetric(m) == Success([Metric(name, value, Plain(context))]);
        collected := collected + [Metric(name, value, Plain(context))];
      } else {
        assert KeyMetric(m) == Success([]);
        assert collected + [] == collected;
      }
    }
    assert ms[..|ms|] == ms;
    return Success(collected);
  }

  lemma {:induction false} KeyFailureStays(ms: seq<Json>, n: nat)
    requires n <= |ms| && KeyMetrics(ms[..n]).Failure?
    ensures KeyMetrics(ms) == KeyMetrics(ms[..n])
    decreases |ms| - n
  {
    if n < |ms| {
      assert ms[..n + 1][..n] == ms[..n];
      KeyFailureStays(ms, n + 1);
    } else {
      assert ms[..n] == ms;
    }
  }

  /** The loop over a list of insights, with the key-metric loop inside. */
  method CollectListMetrics(items: seq<Json>) returns (r: Result<seq<Metric>>)
    ensures r == ListMetrics(items)
  {
    var collected: seq<Metric> := [];
    for i := 0 to |items|
      invariant ListMetrics(items[..i]) == Success(collected)
    {
      assert items[..i + 1][..i] == items[..i] && items[..i + 1][i] == items[i];
      var insight := items[i];
      var present := PyIn("key_metrics", insight);
      if present.Failure? {
        ListFailureStays(items, i + 1);
        return Failure(present.error);
      }
      if present.value {
        var keyMetrics := PyGetItem(insight, "key_metrics");
        if keyMetrics.Failure? {
          ListFailureStays(items, i + 1);
          return Failure(keyMetrics.error);
        }
        var firstTwo := FirstTwo(keyMetrics.value);
        if firstTwo.Failure? {
          ListFailureStays(items, i + 1);
          return Failure(firstTwo.error);
        }
        var fromInsight := CollectKeyMetrics(firstTwo.value);
        if fromInsight.Failure? {
          ListFailureStays(items, i + 1);
          return Failure(fromInsight.error);
        }
        collected := collected + fromInsight.value;
      } else {
        assert InsightMetrics(insight) == Success([]);
        assert collected + [] == collected;
      }
    }
    assert items[..|items|] == items;
    return Success(collected);
  }

  /** The collection step of `display_quantitative_metrics`. */
  method CollectMetrics(analysis: map<string, Json>) returns (r: Result<seq<Metric>>)
    ensures r == CollectedMetrics(analysis)
  {
    var comp := if "competitive_intelligence" in analysis then analysis["competitive_intelligence"] else JObj(map[]);
    var size := SizeMetric(comp);
    if size.Failure? {
      return Failure(size.error);
    }
    var growth := GrowthMetric(comp);
    if growth.Failure? {
      return Failure(growth.error);
    }
    var insights := if "insights" in analysis then analysis["insights"] else JArr([]);
    var fromInsights: Result<seq<Metric>>;
    if insights.JArr? {
      fromInsights := CollectListMetrics(insights.items);
    } else {
      fromInsights := InsightsMetrics(insights);
    }
    if fromInsights.Failure? {
      return Failure(fromInsights.error);
    }
    return Success(size.value + growth.value + fromInsights.value);
  }

  lemma {:induction false} ListFailureStays(items: seq<Json>, n: nat)
    requires n <= |items| && ListMetrics(items[..n]).Failure?
    ensures ListMetrics(items) == ListMetrics(items[..n])
    decreases |items| - n
  {
    if n < |items| {
      assert items[..n + 1][..n] == items[..n];
      ListFailureStays(items, n + 1);
    } else {
      assert items[..n] == items;
    }
  }

  /** `metrics_data[:4]`. */
  function ShownMetrics(metrics: seq<Metric>): seq<Metric>
  {
    Take(metrics, ShownMetricCount)
  }

  /** Every entry a key-metric loop keeps has a truthy value, taken from
      one of the metrics it read. */
  lemma {:induction false} KeyMetricsTruthy(ms: seq<Json>)
    requires KeyMetrics(ms).Success?
    ensures forall m :: m in KeyMetrics(ms).value ==>
      Truthy(m.value) && exists j :: 0 <= j < |ms| && ms[j].JObj? && "value" in ms[j].fields && ms[j].fields["value"] == m.value
  {
    if ms != [] {
      var init := ms[..|ms| - 1];
      KeyMetricsTruthy(init);
      forall m | m in KeyMetrics(ms).value
        ensures Truthy(m.value) && exists j :: 0 <= j < |ms| && ms[j].JObj? && "value" in ms[j].fields && ms[j].fields["value"] == m.value
      {
        if m in KeyMetrics(init).value {
          var j :| 0 <= j < |init| && init[j].JObj? && "value" in init[j].fields && init[j].fields["value"] == m.value;
          assert ms[j] == init[j];
        } else {
          assert ms[|ms| - 1].JObj? && "value" in ms[|ms| - 1].fields;
        }
      }
    }
  }

  /** Every entry from the insights has a truthy value, and comes from one
      of the first two key metrics of some insight. */
  lemma {:induction false} ListMetricsTruthy(insights: seq<Json>)
    requires ListMetrics(insights).Success?
    ensures forall m :: m in ListMetrics(insights).value ==> Truthy(m.value)
  {
    if insights != [] {
      var init := insights[..|insights| - 1];
      ListMetricsTruthy(init);
      var last := insights[|insights| - 1];
      var km := InsightMetrics(last);
      if PyIn("key_metrics", last) == Success(true) {
        var ms := FirstTwo(PyGetItem(last, "key_metrics").value).value;
        KeyMetricsTruthy(ms);
      }
    }
  }

  /** Every collected metric has a truthy value, and there are at most two
      per insight besides the market-size and growth-rate entries. */
  lemma CollectedMetricsFacts(analysis: map<string, Json>)
    requires CollectedMetrics(analysis).Success?
    ensures forall m :: m in CollectedMetrics(analysis).value ==> Truthy(m.value)
    ensures var insights := if "insights" in analysis then analysis["insights"] else JArr([]);
      |CollectedMetrics(analysis).value| <= 2 + (if insights.JArr? then MetricsPerInsight * |insights.items| else 0)
  {
    var insights := if "insights" in analysis then analysis["insights"] else JArr([]);
    if insights.JArr? {
      ListMetricsTruthy(insights.items);
    }
  }

  /** `metric.get('value')` of a dict metric. */
  function ValueOf(m: Json): Json
    requires m.JObj?
  {
    if "value" in m.fields then m.fields["value"] else JNull
  }

  /** The truthy values among some dict metrics, in order: the values the
      key-metric loop should keep. */
  function TruthyValues(ms: seq<Json>): seq<Json>
    requires forall j :: 0 <= j < |ms| ==> ms[j].JObj?
  {
    if ms == [] then []
    else
      (if Truthy(ValueOf(ms[0])) then [ValueOf(ms[0])] else []) + TruthyValues(ms[1..])
  }

  /** The values of some collected entries, in order. */
  function Values(entries: seq<Metric>): (r: seq<Json>)
    ensures |r| == |entries| && forall i :: 0 <= i < |entries| ==> r[i] == entries[i].value
  {
    seq(|entries|, i requires 0 <= i < |entries| => entries[i].value)
  }

  lemma {:induction false} TruthyValuesAppend(ms: seq<Json>, m: Json)
    requires forall j :: 0 <= j < |ms| ==> ms[j].JObj?
    requires m.JObj?
    ensures TruthyValues(ms + [m]) == TruthyValues(ms) + (if Truthy(ValueOf(m)) then [ValueOf(m)] else [])
    decreases |ms|
  {
    var tail := if Truthy(ValueOf(m)) then [ValueOf(m)] else [];
    if ms == [] {
      assert [] + [m] == [m];
      assert [m][1..] == [];
    } else {
      var head := if Truthy(ValueOf(ms[0])) then [ValueOf(ms[0])] else [];
      var xs := ms + [m];
      assert xs[0] == ms[0];
      assert xs[1..] == ms[1..] + [m];
      TruthyValuesAppend(ms[1..], m);
      assert TruthyValues(xs) == head + TruthyValues(ms[1..] + [m]);
      assert TruthyValues(ms) == head + TruthyValues(ms[1..]);
      assert head + (TruthyValues(ms[1..]) + tail) == (head + TruthyValues(ms[1..])) + tail;
    }
  }

  /** Over dict metrics the loop never raises, and it keeps exactly the
      truthy values, one entry each, in order. */
  lemma {:induction false} KeyMetricsKeepTruthy(ms: seq<Json>)
    requires forall j :: 0 <= j < |ms| ==> ms[j].JObj?
    ensures KeyMetrics(ms).Success?
    ensures Values(KeyMetrics(ms).value) == TruthyValues(ms)
    decreases |ms|
  {
    if ms != [] {
      var init := ms[..|ms| - 1];
      var last := ms[|ms| - 1];
      KeyMetricsKeepTruthy(init);
      assert init + [last] == ms;
      TruthyValuesAppend(init, last);
      var prev := KeyMetrics(init).value;
      var entry := KeyMetric(last).value;
      assert Values(prev + entry) == Values(prev) + Values(entry);
    }
  }

  /** An insight whose `key_metrics` is a list of dicts contributes one
      entry for each of its first two metrics with a truthy value, in order,
      and no other entry. */
  lemma InsightKeepsTruthyMetrics(insight: Json, items: seq<Json>)
    requires insight.JObj? && "key_metrics" in insight.fields && insight.fields["key_metrics"] == JArr(items)
    requires forall j :: 0 <= j < |items| && j < MetricsPerInsight ==> items[j].JObj?
    ensures InsightMetrics(insight).Success?
    ensures Values(InsightMetrics(insight).value) == TruthyValues(Take(items, MetricsPerInsight))
  {
    KeyMetricsKeepTruthy(Take(items, MetricsPerInsight));
  }

  /** Each insight's entries follow those of the insights before it. */
  lemma {:induction false} ListMetricsInOrder(insights: seq<Json>, i: nat)
    requires i < |insights| && ListMetrics(insights).Success?
    ensures ListMetrics(insights[..i]).Success? && InsightMetrics(insights[i]).Success?
    ensures var before := |ListMetrics(insights[..i]).value|;
      var own := InsightMetrics(insights[i]).value;
      before + |own| <= |ListMetrics(insights).value| &&
      ListMetrics(insights).value[before..before + |own|] == own
    decreases |insights|
  {
    var init := insights[..|insights| - 1];
    if i < |insights| - 1 {
      ListMetricsInOrder(init, i);
      assert init[..i] == insights[..i] && init[i] == insights[i];
    } else {
      assert insights[..i] == init;
    }
  }

  /** When the analysis reports a truthy growth rate, it is collected right
      after the market-size entry, if any, with its timeframe as context. */
  lemma GrowthRateCollected(analysis: map<string, Json>, growth: map<string, Json>)
    requires "competitive_intelligence" in analysis && analysis["competitive_intelligence"].JObj?
    requires "growth_metrics" in analysis["competitive_intelligence"].fields
    requires analysis["competitive_intelligence"].fields["growth_metrics"] == JObj(growth)
    requires "rate" in growth && Truthy(growth["rate"])
    requires CollectedMetrics(analysis).Success?
    ensures var comp := analysis["competitive_intelligence"];
      var collected := CollectedMetrics(analysis).value;
      var k := |SizeMetric(comp).value|;
      SizeMetric(comp).Success? && k <= 1 && k < |collected| &&
      collected[k] == Metric(JStr("Growth Rate"), growth["rate"],
                             Plain(if "timeframe" in growth then growth["timeframe"] else JStr("")))
  {
  }

  /** When the analysis reports a truthy market size, it is the first entry
      collected, and so always among the metrics shown. */
  lemma MarketSizeShownFirst(analysis: map<string, Json>, size: map<string, Json>)
    requires "competitive_intelligence" in analysis && analysis["competitive_intelligence"].JObj?
    requires "market_size_data" in analysis["competitive_intelligence"].fields
    requires analysis["competitive_intelligence"].fields["market_size_data"] == JObj(size)
    requires "value" in size && Truthy(size["value"])
    requires CollectedMetrics(analysis).Success?
    ensures var shown := ShownMetrics(CollectedMetrics(analysis).value);
      |shown| >= 1 && shown[0].metric == JStr("Market Size") && shown[0].value == size["value"]
  {
  }

  /** The tab names for the categories with a mapped short name. */
  const ShortNames: map<string, string> := map[
    "Steel, Iron & Non-Ferrous Metal Construction" := "Steel & Metals",
    "Electrical Installation & Maintenance" := "Electrical",
    "Mechanical Installation & Maintenance" := "Mechanical",
    "Built-Asset Infrastructure & Civil Engineering" := "Infrastructure",
    "Facilities Management & Maintenance" := "Facilities",
    "Construction & Building Materials" := "Construction",
    "Energy & Power Generation" := "Energy",
    "Transportation & Logistics" := "Transport",
    "Water & Wastewater Management" := "Water",
    "Telecommunications & IT Infrastructure" := "IT & Telecom",
    "Security & Safety Systems" := "Security",
    "Environmental & Waste Management" := "Environment"
  ]

  /** An unmapped category's tab name is cut to this many characters. */
  const MaxShortName: nat := 15

  /** `short_names.get(cat, cat[:15])`: every tab name fits in 15
      characters; an unmapped category keeps its first 15 characters, and
      one that already fits is unchanged. */
  function ShortName(category: string): (r: string)
    ensures |r| <= MaxShortName
    ensures category !in ShortNames ==> |r| <= |category| && r == category[..|r|]
    ensures category !in ShortNames && |category| <= MaxShortName ==> r == category
  {
    if category in ShortNames then
      assert forall k :: k in ShortNames ==> |ShortNames[k]| <= MaxShortName;
      ShortNames[category]
    else Take(category, MaxShortName)
  }

  /** The four tabs after the category tabs. */
  const FixedTabs: seq<string> := ["\U{1F50E} Queries", "\U{1F4F0} News", "\U{1F4CB} Sources", "\U{1F4E5} Export"]

  /** The tab titles: one short title per category, then exactly the four
      fixed tabs. */
  function TabNames(categories: seq<string>): (r: seq<string>)
    ensures |r| == |categories| + 4
    ensures forall i :: 0 <= i < |categories| ==> |r[i]| <= 2 + MaxShortName
    ensures r[|categories|..] == FixedTabs
  {
    seq(|categories|, i requires 0 <= i < |categories| => "\U{1F4CA} " + ShortName(categories[i])) + FixedTabs
  }

  /** Tab `i` is labelled with category `i`'s short name, in order. */
  lemma TabNamesLayout(categories: seq<string>)
    ensures forall i :: 0 <= i < |categories| ==> TabNames(categories)[i] == "\U{1F4CA} " + ShortName(categories[i])
  {
  }
}
