/** The single-pass structured analyser: the non-empty scraped contents
    joined into one text, five prompt files loaded by name, and five
    completions run one after another, each filling its own key of the
    result and falling back to that key's default when its call fails or
    comes back empty. */
module StructuredAnalysis {
  import opened Wrappers
  import opened Strings
  import opened Json
  import opened Scraper
  import opened Sources

  /** At most this many characters of the combined content go to a pass. */
  const MaxMarketData := 8000

  /** The contents of the documents with content, in order. */
  function ContentsOf(docs: seq<ScrapeRecord>): (r: seq<string>)
    ensures |r| == |WithContent(docs)|
    ensures forall i :: 0 <= i < |r| ==> r[i] == WithContent(docs)[i].content && r[i] != ""
  {
    var kept := WithContent(docs);
    assert forall i :: 0 <= i < |kept| ==> kept[i] in kept;
    seq(|kept|, i requires 0 <= i < |kept| => kept[i].content)
  }

  /** `combined_content`: the non-empty contents joined by blank lines. */
  function CombinedContent(docs: seq<ScrapeRecord>): string
  {
    Join(ContentsOf(docs), "\n\n")
  }

  /** Every non-empty content appears in the combined content, at its place
      in document order. */
  lemma CombinedContentHolds(docs: seq<ScrapeRecord>, i: nat)
    requires i < |WithContent(docs)|
    ensures var parts := ContentsOf(docs);
      var o := Offset(parts, "\n\n", i);
      o + |parts[i]| <= |CombinedContent(docs)| &&
      CombinedContent(docs)[o..o + |parts[i]|] == WithContent(docs)[i].content
  {
    JoinPlacesParts(ContentsOf(docs), "\n\n", i);
  }

  /** What precedes the market data in every pass's user message. */
  function MessageHead(category: string, market: string): string
  {
    "Category: " + category + "\nMarket: " + market + "\n\nMarket Data:\n"
  }

  /** The user message every pass sends. */
  function UserMessage(category: string, market: string, combined: string): string
  {
    MessageHead(category, market) + Take(combined, MaxMarketData)
  }

  /** The message carries at most the first 8000 characters of the combined
      content, and all of it when it is no longer than that. */
  lemma UserMessageCapsData(category: string, market: string, combined: string)
    ensures var m := UserMessage(category, market, combined);
      var h := |MessageHead(category, market)|;
      StartsWith(m, MessageHead(category, market)) && h <= |m| <= h + MaxMarketData &&
      m[h..] == combined[..|m| - h] &&
      (|combined| <= MaxMarketData ==> m[h..] == combined)
  {
    PrefixStartsWith(MessageHead(category, market), Take(combined, MaxMarketData));
  }

  /** The prompt names, in the order their files are read. */
  const PromptNames: seq<string> := ["report_insights", "thematic_analysis", "timeline_events", "strategic_outlook", "risk_flags"]

  /** The prompt files, in the order they are read. */
  const PromptFiles: seq<string> := ["report_insights.txt", "thematic_analysis.txt", "timeline_events.txt", "strategic_outlook.txt", "risk_flags.txt"]

  /** The path a prompt file is opened at. */
  function PromptPath(file: string): string
  {
    "prompts/" + file
  }

  /** `file.replace('.txt', '')` gives back the name of a file named
      `name + ".txt"` when the name has no dot. */
  lemma {:induction false} PromptKeyOfFile(name: string)
    requires '.' !in name
    ensures RemoveAll(name + ".txt", ".txt") == name
    decreases |name|
  {
    var s := name + ".txt";
    if name == [] {
      assert s == ".txt";
      assert StartsWith(s, ".txt");
      assert s[4..] == [];
    } else {
      assert s[0] == name[0] && s[0] != '.';
      assert !StartsWith(s, ".txt");
      assert s[1..] == name[1..] + ".txt";
      PromptKeyOfFile(name[1..]);
    }
  }

  /** `prompt_file.replace('.txt', '')`. */
  function PromptKey(file: string): string
  {
    RemoveAll(file, ".txt")
  }

  /** Each file's key is its prompt name. */
  lemma PromptFilesNamed(i: nat)
    requires i < |PromptFiles|
    ensures PromptKey(PromptFiles[i]) == PromptNames[i]
  {
    assert PromptFiles[i] == PromptNames[i] + ".txt";
    assert '.' !in PromptNames[i];
    PromptKeyOfFile(PromptNames[i]);
  }

  /** The prompt-loading loop after its first `n` files: the first read
      that fails propagates; otherwise each file's text is stored under its
      name, which `PromptFilesNamed` shows is what `replace` leaves of the
      file name. `readPrompt` stands for opening and reading a file. */
  function LoadedPrompts(readPrompt: string -> Result<string>, n: nat): (r: Result<map<string, string>>)
    requires n <= |PromptFiles|
    ensures r.Success? ==> r.value.Keys == set i | 0 <= i < n :: PromptNames[i]
  {
    if n == 0 then Success(map[])
    else
      match LoadedPrompts(readPrompt, n - 1)
      case Failure(e) => Failure(e)
      case Success(prompts) =>
        match readPrompt(PromptPath(PromptFiles[n - 1]))
        case Failure(e) => Failure(e)
        case Success(text) =>
          assert (set i | 0 <= i < n :: PromptNames[i]) == (set i | 0 <= i < n - 1 :: PromptNames[i]) + {PromptNames[n - 1]};
          Success(prompts[PromptNames[n - 1] := text])
  }

  /** The loop stops at the first read that fails, and the files after it
      are never read. */
  lemma {:induction false} LoadFailureStays(readPrompt: string -> Result<string>, n: nat)
    requires n <= |PromptFiles| && LoadedPrompts(readPrompt, n).Failure?
    ensures LoadedPrompts(readPrompt, |PromptFiles|) == LoadedPrompts(readPrompt, n)
    decreases |PromptFiles| - n
  {
    if n < |PromptFiles| {
      LoadFailureStays(readPrompt, n + 1);
    }
  }

  /** Loading fails exactly when some file cannot be read. */
  lemma {:induction false} LoadFailsIff(readPrompt: string -> Result<string>, n: nat)
    requires n <= |PromptFiles|
    ensures LoadedPrompts(readPrompt, n).Failure? <==>
      exists j :: 0 <= j < n && readPrompt(PromptPath(PromptFiles[j])).Failure?
  {
    if n > 0 {
      LoadFailsIff(readPrompt, n - 1);
    }
  }

  /** A failed load carries the error of the first file that cannot be read. */
  lemma {:induction false} LoadFailsFirst(readPrompt: string -> Result<string>, n: nat, j: nat)
    requires j < n <= |PromptFiles| && readPrompt(PromptPath(PromptFiles[j])).Failure?
    requires forall k :: 0 <= k < j ==> readPrompt(PromptPath(PromptFiles[k])).Success?
    ensures LoadedPrompts(readPrompt, n) == Failure(readPrompt(PromptPath(PromptFiles[j])).error)
  {
    if j < n - 1 {
      LoadFailsFirst(readPrompt, n - 1, j);
    } else {
      LoadFailsIff(readPrompt, n - 1);
    }
  }

  /** On success each name holds its own file's text. */
  lemma {:induction false} LoadedValues(readPrompt: string -> Result<string>, n: nat)
    requires n <= |PromptFiles| && LoadedPrompts(readPrompt, n).Success?
    ensures forall j :: 0 <= j < n ==>
      readPrompt(PromptPath(PromptFiles[j])).Success? &&
      LoadedPrompts(readPrompt, n).value[PromptNames[j]] == readPrompt(PromptPath(PromptFiles[j])).value
  {
    forall j | 0 <= j < n
      ensures readPrompt(PromptPath(PromptFiles[j])).Success? &&
        LoadedPrompts(readPrompt, n).value[PromptNames[j]] == readPrompt(PromptPath(PromptFiles[j])).value
    {
      LoadedValue(readPrompt, n, j);
    }
  }

  lemma {:induction false} LoadedValue(readPrompt: string -> Result<string>, n: nat, j: nat)
    requires j < n <= |PromptFiles| && LoadedPrompts(readPrompt, n).Success?
    ensures readPrompt(PromptPath(PromptFiles[j])).Success?
    ensures LoadedPrompts(readPrompt, n).value[PromptNames[j]] == readPrompt(PromptPath(PromptFiles[j])).value
  {
    var prev := LoadedPrompts(readPrompt, n - 1);
    assert prev.Success?;
    if j < n - 1 {
      LoadedValue(readPrompt, n - 1, j);
      PromptNamesDistinct();
      assert PromptNames[j] != PromptNames[n - 1];
    }
  }

  lemma PromptNamesDistinct()
    ensures forall i, j :: 0 <= i < j < |PromptNames| ==> PromptNames[i] != PromptNames[j]
  {
  }

  /** One pass: the key it fills, the prompt it uses as the system message,
      the key it reads from the reply and the value it falls back to. */
  datatype Section = Section(key: string, prompt: string, replyKey: string, default: Json)

  /** The five passes in the order they run. */
  const Sections: seq<Section> := [
    Section("insights", "report_insights", "insights", JArr([])),
    Section("themes", "thematic_analysis", "themes", JObj(map[])),
    Section("risk_flags", "risk_flags", "risks", JArr([])),
    Section("timeline", "timeline_events", "timeline", JArr([])),
    Section("strategic_outlook", "strategic_outlook", "strategic_outlook", JObj(map[]))
  ]

  /** The value one pass stores. The reply is a failure when the completion
      or `json.loads` raises, `None` when the message content is empty, and
      the parsed value otherwise; only a dict can answer `.get`. */
  function SectionValue(s: Section, reply: Result<Option<Json>>): Json
  {
    match reply
    case Failure(_) => s.default
    case Success(None) => s.default
    case Success(Some(parsed)) =>
      match PyGet(parsed, s.replyKey, s.default)
      case Failure(_) => s.default
      case Success(v) => v
  }

  /** A pass stores the reply's value under its reply key when there is
      one, and its default in every other case. */
  lemma SectionValueCases(s: Section, reply: Result<Option<Json>>)
    ensures (reply.Success? && reply.value.Some? && reply.value.value.JObj? && s.replyKey in reply.value.value.fields) ==>
      SectionValue(s, reply) == reply.value.value.fields[s.replyKey]
    ensures !(reply.Success? && reply.value.Some? && reply.value.value.JObj? && s.replyKey in reply.value.value.fields) ==>
      SectionValue(s, reply) == s.default
  {
  }

  /** The result after the first `n` passes: each pass sets its own key. */
  function PassResults(prompts: map<string, string>, message: string,
                       complete: (string, string) -> Result<Option<Json>>, n: nat): map<string, Json>
    requires n <= |Sections|
    requires forall i :: 0 <= i < |Sections| ==> Sections[i].prompt in prompts
  {
    if n == 0 then map[]
    else
      var s := Sections[n - 1];
      PassResults(prompts, message, complete, n - 1)[s.key := SectionValue(s, complete(prompts[s.prompt], message))]
  }

  lemma PromptsCoverSections(readPrompt: string -> Result<string>)
    requires LoadedPrompts(readPrompt, |PromptFiles|).Success?
    ensures forall i :: 0 <= i < |Sections| ==> Sections[i].prompt in LoadedPrompts(readPrompt, |PromptFiles|).value
  {
    var keys := LoadedPrompts(readPrompt, |PromptFiles|).value.Keys;
    assert PromptNames[0] in keys && PromptNames[1] in keys && PromptNames[2] in keys;
    assert PromptNames[3] in keys && PromptNames[4] in keys;
  }

  /** What `analyze_market_data` returns. A failure is an exception that
      escapes: the client cannot be built (`clientError`) or a prompt file
      cannot be read. `complete` stands for one completion and its parse,
      given the system prompt and the user message. */
  function StructuredAnalysis(category: string, market: string, docs: seq<ScrapeRecord>, clientError: Option<string>,
                              readPrompt: string -> Result<string>,
                              complete: (string, string) -> Result<Option<Json>>): Result<map<string, Json>>
  {
    if clientError.Some? then Failure(clientError.value)
    else
      match LoadedPrompts(readPrompt, |PromptFiles|)
      case Failure(e) => Failure(e)
      case Success(prompts) =>
        PromptsCoverSections(readPrompt);
        Success(PassResults(prompts, UserMessage(category, market, CombinedContent(docs)), complete, |Sections|))
  }

  /** The key the `i`-th file's text is stored under: its name with
      ".txt" removed, which is its prompt name. */
  method FileKey(i: nat) returns (key: string)
    requires i < |PromptFiles|
    ensures key == PromptNames[i]
  {
    key := PromptKey(PromptFiles[i]);
    PromptFilesNamed(i);
  }

  /** The prompt-loading loop: an unreadable file ends it with its error. */
  method LoadPrompts(readPrompt: string -> Result<string>) returns (r: Result<map<string, string>>)
    ensures r == LoadedPrompts(readPrompt, |PromptFiles|)
  {
    var prompts: map<string, string> := map[];
    for i := 0 to |PromptFiles|
      invariant LoadedPrompts(readPrompt, i) == Success(prompts)
    {
      var text := readPrompt(PromptPath(PromptFiles[i]));
      if text.Failure? {
        LoadFailureStays(readPrompt, i + 1);
        return Failure(text.error);
      }
      var key := FileKey(i);
      prompts := prompts[key := text.value];
    }
    return Success(prompts);
  }

  /** The five passes in order, each in its own `try`: a pass that raises
      or answers empty stores its default and the next pass still runs. */
  method RunPasses(prompts: map<string, string>, message: string,
                   complete: (string, string) -> Result<Option<Json>>)
    returns (analysisResults: map<string, Json>)
    requires forall i :: 0 <= i < |Sections| ==> Sections[i].prompt in prompts
    ensures analysisResults == PassResults(prompts, message, complete, |Sections|)
  {
    assert Sections[0].prompt == "report_insights" && Sections[1].prompt == "thematic_analysis";
    assert Sections[2].prompt == "risk_flags" && Sections[3].prompt == "timeline_events";
    assert Sections[4].prompt == "strategic_outlook";
    analysisResults := map[];
    var insights := complete(prompts["report_insights"], message);
    analysisResults := analysisResults["insights" := SectionValue(Sections[0], insights)];
    assert analysisResults == PassResults(prompts, message, complete, 1);
    var thematic := complete(prompts["thematic_analysis"], message);
    analysisResults := analysisResults["themes" := SectionValue(Sections[1], thematic)];
    assert analysisResults == PassResults(prompts, message, complete, 2);
    var risk := complete(prompts["risk_flags"], message);
    analysisResults := analysisResults["risk_flags" := SectionValue(Sections[2], risk)];
    assert analysisResults == PassResults(prompts, message, complete, 3);
    var timeline := complete(prompts["timeline_events"], message);
    analysisResults := analysisResults["timeline" := SectionValue(Sections[3], timeline)];
    assert analysisResults == PassResults(prompts, message, complete, 4);
    var strategic := complete(prompts["strategic_outlook"], message);
    analysisResults := analysisResults["strategic_outlook" := SectionValue(Sections[4], strategic)];
    assert analysisResults == PassResults(prompts, message, complete, 5);
  }

  /** `analyze_market_data` of the structured analyser. */
  method AnalyzeMarketData(category: string, market: string, docs: seq<ScrapeRecord>, clientError: Option<string>,
                           readPrompt: string -> Result<string>,
                           complete: (string, string) -> Result<Option<Json>>)
    returns (r: Result<map<string, Json>>)
    ensures r == StructuredAnalysis(category, market, docs, clientError, readPrompt, complete)
  {
    if clientError.Some? {
      return Failure(clientError.value);
    }
    var combinedContent := Join(ContentsOf(docs), "\n\n");
    var loaded := LoadPrompts(readPrompt);
    if loaded.Failure? {
      return Failure(loaded.error);
    }
    var prompts := loaded.value;
    PromptsCoverSections(readPrompt);
    var message := UserMessage(category, market, combinedContent);
    var analysisResults := RunPasses(prompts, message, complete);
    return Success(analysisResults);
  }

  /** The keys of the first `n` sections. */
  function KeysUpTo(n: nat): set<string>
    requires n <= |Sections|
  {
    if n == 0 then {} else KeysUpTo(n - 1) + {Sections[n - 1].key}
  }

  /** No two passes fill the same key. */
  lemma SectionKeysDistinct()
    ensures forall i, j :: 0 <= i < j < |Sections| ==> Sections[i].key != Sections[j].key
  {
  }

  /** After `n` passes the keys are exactly those of the first `n` sections. */
  lemma {:induction false} PassResultsKeys(prompts: map<string, string>, message: string,
                                           complete: (string, string) -> Result<Option<Json>>, n: nat)
    requires n <= |Sections|
    requires forall i :: 0 <= i < |Sections| ==> Sections[i].prompt in prompts
    ensures PassResults(prompts, message, complete, n).Keys == KeysUpTo(n)
  {
    if n > 0 {
      PassResultsKeys(prompts, message, complete, n - 1);
    }
  }

  /** After `n` passes each of their keys holds its own pass's value. */
  lemma {:induction false} PassResultsValues(prompts: map<string, string>, message: string,
                                             complete: (string, string) -> Result<Option<Json>>, n: nat)
    requires n <= |Sections|
    requires forall i :: 0 <= i < |Sections| ==> Sections[i].prompt in prompts
    ensures forall i :: 0 <= i < n ==>
      Sections[i].key in PassResults(prompts, message, complete, n) &&
      PassResults(prompts, message, complete, n)[Sections[i].key] ==
        SectionValue(Sections[i], complete(prompts[Sections[i].prompt], message))
  {
    if n > 0 {
      PassResultsValues(prompts, message, complete, n - 1);
      SectionKeysDistinct();
    }
  }

  /** Once the prompts load, the result has exactly the five keys. */
  lemma ResultKeys(category: string, market: string, docs: seq<ScrapeRecord>,
                   readPrompt: string -> Result<string>, complete: (string, string) -> Result<Option<Json>>)
    requires LoadedPrompts(readPrompt, |PromptFiles|).Success?
    ensures var r := StructuredAnalysis(category, market, docs, None, readPrompt, complete);
      r.Success? && r.value.Keys == {"insights", "themes", "risk_flags", "timeline", "strategic_outlook"}
  {
    var prompts := LoadedPrompts(readPrompt, |PromptFiles|).value;
    PromptsCoverSections(readPrompt);
    PassResultsKeys(prompts, UserMessage(category, market, CombinedContent(docs)), complete, |Sections|);
    AllSectionKeys();
  }

  lemma AllSectionKeys()
    ensures KeysUpTo(|Sections|) == {"insights", "themes", "risk_flags", "timeline", "strategic_outlook"}
  {
    assert KeysUpTo(1) == {"insights"};
    assert KeysUpTo(2) == {"insights", "themes"};
    assert KeysUpTo(3) == {"insights", "themes", "risk_flags"};
    assert KeysUpTo(4) == {"insights", "themes", "risk_flags", "timeline"};
  }

  /** The prompt file a pass uses. */
  function SectionFile(s: Section): string
  {
    s.prompt + ".txt"
  }

  /** Every pass's prompt file can be read. */
  predicate PromptsReadable(readPrompt: string -> Result<string>)
  {
    forall i :: 0 <= i < |Sections| ==> readPrompt(PromptPath(SectionFile(Sections[i]))).Success?
  }

  /** The passes use each prompt file once: the files they name are the
      files the loading loop reads. */
  lemma SectionFiles(i: nat)
    requires i < |Sections|
    ensures exists j :: 0 <= j < |PromptFiles| && SectionFile(Sections[i]) == PromptFiles[j] && Sections[i].prompt == PromptNames[j]
    ensures forall j :: 0 <= j < |PromptFiles| ==> exists k :: 0 <= k < |Sections| && PromptFiles[j] == SectionFile(Sections[k])
  {
    var j := if i == 0 then 0 else if i == 1 then 1 else if i == 2 then 4 else if i == 3 then 2 else 3;
    assert SectionFile(Sections[i]) == PromptFiles[j];
    assert PromptFiles[0] == SectionFile(Sections[0]) && PromptFiles[1] == SectionFile(Sections[1]);
    assert PromptFiles[2] == SectionFile(Sections[3]) && PromptFiles[3] == SectionFile(Sections[4]);
    assert PromptFiles[4] == SectionFile(Sections[2]);
  }

  /** When every pass's file reads, loading succeeds and each pass's prompt
      is its file's text. */
  lemma ReadablePromptsLoad(readPrompt: string -> Result<string>)
    requires PromptsReadable(readPrompt)
    ensures LoadedPrompts(readPrompt, |PromptFiles|).Success?
    ensures forall i :: 0 <= i < |Sections| ==>
      Sections[i].prompt in LoadedPrompts(readPrompt, |PromptFiles|).value &&
      LoadedPrompts(readPrompt, |PromptFiles|).value[Sections[i].prompt] == readPrompt(PromptPath(SectionFile(Sections[i]))).value
  {
    LoadFailsIff(readPrompt, |PromptFiles|);
    forall j | 0 <= j < |PromptFiles|
      ensures readPrompt(PromptPath(PromptFiles[j])).Success?
    {
      SectionFiles(0);
    }
    PromptsCoverSections(readPrompt);
    LoadedValues(readPrompt, |PromptFiles|);
    forall i | 0 <= i < |Sections|
      ensures LoadedPrompts(readPrompt, |PromptFiles|).value[Sections[i].prompt] == readPrompt(PromptPath(SectionFile(Sections[i]))).value
    {
      SectionFiles(i);
    }
  }

  /** Each key holds what its own pass made of its own reply: the pass is
      sent its prompt file's text and the shared user message. */
  lemma EachKeyFromItsPass(category: string, market: string, docs: seq<ScrapeRecord>,
                           readPrompt: string -> Result<string>, complete: (string, string) -> Result<Option<Json>>, i: nat)
    requires i < |Sections| && PromptsReadable(readPrompt)
    ensures var r := StructuredAnalysis(category, market, docs, None, readPrompt, complete);
      var systemPrompt := readPrompt(PromptPath(SectionFile(Sections[i]))).value;
      r.Success? && Sections[i].key in r.value &&
      r.value[Sections[i].key] == SectionValue(Sections[i], complete(systemPrompt, UserMessage(category, market, CombinedContent(docs))))
  {
    ReadablePromptsLoad(readPrompt);
    var prompts := LoadedPrompts(readPrompt, |PromptFiles|).value;
    PassResultsValues(prompts, UserMessage(category, market, CombinedContent(docs)), complete, |Sections|);
  }

  /** A pass's key depends on its own reply only: two completions that give
      the same reply to that pass give the same value for its key, whatever
      they answer the other passes. */
  lemma PassesAreIndependent(category: string, market: string, docs: seq<ScrapeRecord>,
                             readPrompt: string -> Result<string>,
                             complete1: (string, string) -> Result<Option<Json>>,
                             complete2: (string, string) -> Result<Option<Json>>, i: nat)
    requires i < |Sections| && PromptsReadable(readPrompt)
    requires var systemPrompt := readPrompt(PromptPath(SectionFile(Sections[i]))).value;
      var message := UserMessage(category, market, CombinedContent(docs));
      complete1(systemPrompt, message) == complete2(systemPrompt, message)
    ensures var r1 := StructuredAnalysis(category, market, docs, None, readPrompt, complete1);
      var r2 := StructuredAnalysis(category, market, docs, None, readPrompt, complete2);
      r1.Success? && r2.Success? && Sections[i].key in r1.value && Sections[i].key in r2.value &&
      r1.value[Sections[i].key] == r2.value[Sections[i].key]
  {
    EachKeyFromItsPass(category, market, docs, readPrompt, complete1, i);
    EachKeyFromItsPass(category, market, docs, readPrompt, complete2, i);
  }

  /** A pass that raises, or whose reply is empty, not a dict, or without
      its key, leaves its key at the default. */
  lemma FailedPassDefaults(category: string, market: string, docs: seq<ScrapeRecord>,
                           readPrompt: string -> Result<string>, complete: (string, string) -> Result<Option<Json>>, i: nat)
    requires i < |Sections| && PromptsReadable(readPrompt)
    requires var reply := complete(readPrompt(PromptPath(SectionFile(Sections[i]))).value,
                                   UserMessage(category, market, CombinedContent(docs)));
      !(reply.Success? && reply.value.Some? && reply.value.value.JObj? && Sections[i].replyKey in reply.value.value.fields)
    ensures var r := StructuredAnalysis(category, market, docs, None, readPrompt, complete);
      r.Success? && Sections[i].key in r.value && r.value[Sections[i].key] == Sections[i].default
  {
    EachKeyFromItsPass(category, market, docs, readPrompt, complete, i);
    SectionValueCases(Sections[i], complete(readPrompt(PromptPath(SectionFile(Sections[i]))).value,
                                            UserMessage(category, market, CombinedContent(docs))));
  }

  /** `risk_flags` is read from the reply's "risks" key. */
  lemma RiskFlagsFromRisks(category: string, market: string, docs: seq<ScrapeRecord>,
                           readPrompt: string -> Result<string>, complete: (string, string) -> Result<Option<Json>>,
                           fields: map<string, Json>)
    requires PromptsReadable(readPrompt)
    requires complete(readPrompt(PromptPath(SectionFile(Sections[2]))).value, UserMessage(category, market, CombinedContent(docs)))
      == Success(Some(JObj(fields)))
    requires "risks" in fields
    ensures var r := StructuredAnalysis(category, market, docs, None, readPrompt, complete);
      r.Success? && "risk_flags" in r.value && r.value["risk_flags"] == fields["risks"]
  {
    EachKeyFromItsPass(category, market, docs, readPrompt, complete, 2);
  }

  /** A prompt file that cannot be read ends the analysis with its error,
      before any pass runs. */
  lemma PromptReadFailurePropagates(category: string, market: string, docs: seq<ScrapeRecord>,
                                    readPrompt: string -> Result<string>,
                                    complete: (string, string) -> Result<Option<Json>>, j: nat)
    requires j < |PromptFiles| && readPrompt(PromptPath(PromptFiles[j])).Failure?
    requires forall k :: 0 <= k < j ==> readPrompt(PromptPath(PromptFiles[k])).Success?
    ensures StructuredAnalysis(category, market, docs, None, readPrompt, complete) ==
      Failure(readPrompt(PromptPath(PromptFiles[j])).error)
  {
    LoadFailsFirst(readPrompt, |PromptFiles|, j);
  }
}
