/** Research configuration: the depth table, the time filter written as a
    search-engine `after:` operator, and the topic suggestions with their
    fixed fallback. */
module SearchOptions {
  import opened Wrappers
  import opened Strings
  import opened Json
  import opened Calendar

  /** `(num_queries, num_results, max_workers)` of one depth setting. */
  datatype DepthConfig = DepthConfig(numQueries: nat, numResults: nat, maxWorkers: nat)

  const QuickConfig := DepthConfig(5, 5, 3)
  const MediumConfig := DepthConfig(10, 8, 5)
  const DeepConfig := DepthConfig(20, 10, 8)

  /** `get_research_depth_config`: a table keyed by the bare words "Quick",
      "Medium" and "Deep"; any other key, the interface's labels included,
      gets the Medium row. */
  function ResearchDepthConfig(depth: string): (c: DepthConfig)
    ensures c == QuickConfig <==> depth == "Quick"
    ensures c == DeepConfig <==> depth == "Deep"
    ensures c == MediumConfig <==> depth != "Quick" && depth != "Deep"
  {
    if depth == "Quick" then QuickConfig
    else if depth == "Medium" then MediumConfig
    else if depth == "Deep" then DeepConfig
    else MediumConfig
  }

  predicate NoLarger(a: DepthConfig, b: DepthConfig)
  {
    a.numQueries <= b.numQueries && a.numResults <= b.numResults && a.maxWorkers <= b.maxWorkers
  }

  /** The three settings grow componentwise, and every setting asks for at
      least one worker. */
  lemma DepthConfigsOrdered(depth: string)
    ensures NoLarger(ResearchDepthConfig("Quick"), ResearchDepthConfig("Medium"))
    ensures NoLarger(ResearchDepthConfig("Medium"), ResearchDepthConfig("Deep"))
    ensures NoLarger(ResearchDepthConfig("Quick"), ResearchDepthConfig(depth))
    ensures NoLarger(ResearchDepthConfig(depth), ResearchDepthConfig("Deep"))
    ensures ResearchDepthConfig(depth).maxWorkers >= 1
  {
  }

  /** The labels the interface offers are not keys of the table, so each of
      them gets the Medium setting. */
  lemma InterfaceLabelsGetMedium(depthLabel: string)
    requires depthLabel in ["Quick (5 queries)", "Medium (10 queries)", "Deep (20 queries)"]
    ensures ResearchDepthConfig(depthLabel) == MediumConfig
  {
  }

  /** How far back a timescale label looks: "6 months" is tested first, then
      "12 months", and everything else gets two years. */
  function DaysBack(timescale: string): (days: nat)
    ensures days == 180 <==> Contains(timescale, "6 months")
    ensures days == 365 <==> !Contains(timescale, "6 months") && Contains(timescale, "12 months")
    ensures days == 730 <==> !Contains(timescale, "6 months") && !Contains(timescale, "12 months")
  {
    if Contains(timescale, "6 months") then 180
    else if Contains(timescale, "12 months") then 365
    else 730
  }

  /** "Older than 12 months" contains "12 months", so it looks back one
      year, not further. */
  lemma OlderThanTwelveMonthsLooksBackOneYear()
    ensures DaysBack("Older than 12 months") == 365
  {
    var t := "Older than 12 months";
    assert t == "Older than " + "12 months";
    ContainsPrefix("12 months", "");
    assert "12 months" + "" == "12 months";
    ContainsPrepend("Older than ", "12 months", "12 months");
    assert !Contains(t, "6 months") by {
      NoSix(t);
    }
  }

  lemma {:induction false} NoSix(s: string)
    requires '6' !in s
    ensures !Contains(s, "6 months")
    decreases |s|
  {
    if |s| > 0 {
      assert s[0] != '6';
      NoSix(s[1..]);
    }
  }

  /** The earliest "today" whose look-back still lands on a date with a
      four-digit year. */
  const EarliestToday: int := FirstFourDigitOrdinal + 730

  /** `format_time_filter`, with today's date as a day ordinal: "after:"
      and the ISO date `DaysBack` days before today. The result reads back
      through `strptime` as exactly that day. */
  function FormatTimeFilter(timescale: string, today: int): (r: string)
    requires EarliestToday <= today <= MaxOrdinal
    ensures |r| == 16 && r[..6] == "after:"
    ensures 'a' !in r[6..]
    ensures var back := ParseIsoDate(r[6..]);
      back.Some? && ToOrdinal(back.value) == today - DaysBack(timescale)
  {
    var n := today - DaysBack(timescale);
    var d := FromOrdinal(n);
    FromOrdinalFourDigitYear(n);
    ParseFormatIsoDate(d);
    var text := FormatIsoDate(d);
    assert ("after:" + text)[6..] == text;
    "after:" + text
  }

  /** The three suggestions offered when the suggestion call fails. */
  function FallbackOptions(userInput: string): (r: seq<string>)
    ensures |r| == 3
    ensures forall i :: 0 <= i < 3 ==> StartsWith(r[i], userInput + " - ")
  {
    var lead := userInput + " - ";
    var r := [lead + "market capacity analysis", lead + "supplier landscape assessment", lead + "pricing and risk evaluation"];
    PrefixStartsWith(lead, "market capacity analysis");
    PrefixStartsWith(lead, "supplier landscape assessment");
    PrefixStartsWith(lead, "pricing and risk evaluation");
    r
  }

  /** `generate_search_options`. `suggest` stands for the client, the
      completion call and `json.loads` together: it fails where any of them
      raises. A parsed reply that is an object gives its "options" entry, or
      an empty list; anything else raises inside the `try` and gives the
      fallback. */
  function GenerateSearchOptions(userInput: string, market: string, suggest: (string, string) -> Result<Json>): (r: Json)
    ensures suggest(userInput, market).Failure? ==> r == StrArray(FallbackOptions(userInput))
    ensures suggest(userInput, market).Success? && !suggest(userInput, market).value.JObj? ==>
      r == StrArray(FallbackOptions(userInput))
    ensures suggest(userInput, market).Success? && suggest(userInput, market).value.JObj? ==>
      var fields := suggest(userInput, market).value.fields;
      r == if "options" in fields then fields["options"] else JArr([])
  {
    match suggest(userInput, market)
    case Failure(_) => StrArray(FallbackOptions(userInput))
    case Success(reply) =>
      match PyGet(reply, "options", JArr([]))
      case Failure(_) => StrArray(FallbackOptions(userInput))
      case Success(options) => options
  }
}
