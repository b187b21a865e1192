/** `analyzeReport` of src/lib/llm.ts: with an API key configured, try each
    model of `MODELS` in order through `generateWithRetry`, return the first
    text obtained, and fall back to the local report when every model throws.
    The requests made and the waits asked for are returned as logs. */
module Analysis {
  import opened Wrappers
  import opened Scanner
  import opened Summary
  import opened Groq
  import opened Retry
  import opened Text
  import opened Fallback

  /** The models tried, in order of preference. */
  const MODELS: seq<string> := ["llama-3.3-70b-versatile", "llama-3.1-8b-instant", "gemma2-9b-it"]

  /** Returned when no API key is configured. */
  const NO_KEY_MESSAGE: string :=
    "Error: GROQ_API_KEY is not configured. Please set it in your environment variables to use the AI analysis."

  /** The environment variable is set to a non-empty value (`!process.env.GROQ_API_KEY` is false). */
  predicate HasKey(apiKey: Option<string>) {
    apiKey.Some? && apiKey.value != ""
  }

  /** The prompt's ingredients: the URL, the total alert count and the summary. */
  function BuildPrompt(scan: ScanResult): Prompt {
    Prompt(scan.url, |scan.alerts|, SummarizeAlerts(scan))
  }

  /** The requests of one `generateWithRetry` call that made `n` of them. */
  function Attempts(model: string, n: nat): (calls: seq<Call>)
    ensures |calls| == n
    ensures forall k :: 0 <= k < n ==> calls[k] == Call(model, k)
  {
    seq(n, k requires 0 <= k < n => Call(model, k))
  }

  /** The model loop's outcome: the first text obtained (None when every model
      threw), with the requests made and the waits asked for. */
  datatype ChainRun = ChainRun(text: Option<string>, calls: seq<Call>, waits: seq<int>)

  /** The logs gathered so far, followed by the rest of the run. */
  function After(calls: seq<Call>, waits: seq<int>, rest: ChainRun): ChainRun {
    ChainRun(rest.text, calls + rest.calls, waits + rest.waits)
  }

  /** The `for…of` over the models, each run with the default retry settings. */
  function TryModels(oracle: Oracle, prompt: Prompt, models: seq<string>): ChainRun
    decreases |models|
  {
    if models == [] then ChainRun(None, [], [])
    else
      var run := WithRetry(oracle, models[0], prompt, MAX_RETRIES, BASE_DELAY);
      var calls := Attempts(models[0], run.attempts);
      match run.result
      case Ok(text) => ChainRun(Some(text), calls, run.waits)
      case Err(_) => After(calls, run.waits, TryModels(oracle, prompt, models[1..]))
  }

  /** What one call of `analyzeReport` amounts to. */
  datatype AnalysisRun = AnalysisRun(report: string, calls: seq<Call>, waits: seq<int>)

  function AnalyzeReportSpec(apiKey: Option<string>, scan: ScanResult, oracle: Oracle): AnalysisRun {
    if !HasKey(apiKey) then AnalysisRun(NO_KEY_MESSAGE, [], [])
    else
      var chain := TryModels(oracle, BuildPrompt(scan), MODELS);
      match chain.text
      case Some(text) => AnalysisRun(text, chain.calls, chain.waits)
      case None => AnalysisRun(FallbackReport(scan), chain.calls, chain.waits)
  }

  /** `analyzeReport(scanResult)`, with the key's presence and the service's
      answers as parameters. It always returns a report; nothing is thrown. */
  method AnalyzeReport(apiKey: Option<string>, scan: ScanResult, oracle: Oracle)
    returns (report: string, calls: seq<Call>, waits: seq<int>)
    ensures AnalysisRun(report, calls, waits) == AnalyzeReportSpec(apiKey, scan, oracle)
  {
    if !HasKey(apiKey) {
      report, calls, waits := NO_KEY_MESSAGE, [], [];
      return;
    }
    var prompt := BuildPrompt(scan);
    var text;
    text, calls, waits := TryEachModel(oracle, prompt);
    if text.Some? {
      report := text.value;
    } else {
      report := GenerateFallbackAnalysis(scan);
    }
  }

  /** One model of the loop: its requests and waits join the logs, and either
      its text ends the run or the run goes on with the next model. */
  lemma ChainStep(oracle: Oracle, prompt: Prompt, models: seq<string>, i: nat, calls: seq<Call>, waits: seq<int>)
    requires i < |models|
    ensures var run := WithRetry(oracle, models[i], prompt, MAX_RETRIES, BASE_DELAY);
            var calls' := calls + Attempts(models[i], run.attempts);
            var waits' := waits + run.waits;
            After(calls, waits, TryModels(oracle, prompt, models[i..]))
            == if run.result.Ok? then ChainRun(Some(run.result.value), calls', waits')
               else After(calls', waits', TryModels(oracle, prompt, models[i + 1..]))
  {
    assert models[i..][0] == models[i] && models[i..][1..] == models[i + 1..];
    var run := WithRetry(oracle, models[i], prompt, MAX_RETRIES, BASE_DELAY);
    var first := Attempts(models[i], run.attempts);
    var rest := TryModels(oracle, prompt, models[i + 1..]);
    assert calls + (first + rest.calls) == (calls + first) + rest.calls;
    assert waits + (run.waits + rest.waits) == (waits + run.waits) + rest.waits;
  }

  /** The `for…of` loop of `analyzeReport`: each model in turn, returning on
      the first text, going on to the next model whenever one throws. */
  method TryEachModel(oracle: Oracle, prompt: Prompt) returns (text: Option<string>, calls: seq<Call>, waits: seq<int>)
    ensures ChainRun(text, calls, waits) == TryModels(oracle, prompt, MODELS)
  {
    calls, waits := [], [];
    for i := 0 to |MODELS|
      invariant TryModels(oracle, prompt, MODELS) == After(calls, waits, TryModels(oracle, prompt, MODELS[i..]))
    {
      var model := MODELS[i];
      ChainStep(oracle, prompt, MODELS, i, calls, waits);
      var result, attempts, w := GenerateWithRetry(oracle, model, prompt, MAX_RETRIES, BASE_DELAY);
      calls := calls + Attempts(model, attempts);
      waits := waits + w;
      if result.Ok? {
        text := Some(result.value);
        return;
      }
    }
    text := None;
  }

  /** A request of the loop names a listed model and an attempt within the
      retry bound; each model costs at most three requests and two waits. */
  lemma {:induction false} ChainBounds(oracle: Oracle, prompt: Prompt, models: seq<string>)
    ensures var chain := TryModels(oracle, prompt, models);
            && |chain.calls| <= |models| * (MAX_RETRIES + 1)
            && |chain.waits| <= |models| * MAX_RETRIES
            && forall c :: c in chain.calls ==> c.model in models && c.attempt <= MAX_RETRIES
    decreases |models|
  {
    if models != [] {
      var run := WithRetry(oracle, models[0], prompt, MAX_RETRIES, BASE_DELAY);
      RetryBounds(oracle, models[0], prompt, MAX_RETRIES, BASE_DELAY);
      ChainBounds(oracle, prompt, models[1..]);
      var chain := TryModels(oracle, prompt, models);
      var first := Attempts(models[0], run.attempts);
      forall c | c in first
        ensures c.model in models && c.attempt <= MAX_RETRIES
      {
        var k :| 0 <= k < |first| && first[k] == c;
      }
      forall c | c in TryModels(oracle, prompt, models[1..]).calls
        ensures c.model in models
      {
        assert c.model in models[1..];
      }
    }
  }

  /** The models are tried in list order and the first one that yields a text
      decides the result: no model after it is asked. */
  lemma {:induction false} FirstSuccessWins(oracle: Oracle, prompt: Prompt, models: seq<string>, i: nat)
    requires i < |models|
    requires forall j :: 0 <= j < i ==> WithRetry(oracle, models[j], prompt, MAX_RETRIES, BASE_DELAY).result.Err?
    requires WithRetry(oracle, models[i], prompt, MAX_RETRIES, BASE_DELAY).result.Ok?
    ensures var chain := TryModels(oracle, prompt, models);
            && chain.text == Some(WithRetry(oracle, models[i], prompt, MAX_RETRIES, BASE_DELAY).result.value)
            && forall c :: c in chain.calls ==> c.model in models[..i + 1]
    decreases i
  {
    var run := WithRetry(oracle, models[0], prompt, MAX_RETRIES, BASE_DELAY);
    var first := Attempts(models[0], run.attempts);
    forall c | c in first
      ensures c.model == models[0]
    {
      var k :| 0 <= k < |first| && first[k] == c;
    }
    if i > 0 {
      var rest := models[1..];
      forall j | 0 <= j < i - 1
        ensures WithRetry(oracle, rest[j], prompt, MAX_RETRIES, BASE_DELAY).result.Err?
      {
        assert rest[j] == models[j + 1];
      }
      assert rest[i - 1] == models[i];
      FirstSuccessWins(oracle, prompt, rest, i - 1);
      forall c | c in TryModels(oracle, prompt, rest).calls
        ensures c.model in models[..i + 1]
      {
        assert c.model in rest[..i];
        var k :| 0 <= k < i && rest[k] == c.model;
        assert models[k + 1] == c.model;
      }
    }
  }

  /** The loop yields no text exactly when every model threw. */
  lemma {:induction false} ChainFailsIffAllFail(oracle: Oracle, prompt: Prompt, models: seq<string>)
    ensures TryModels(oracle, prompt, models).text.None? <==>
              forall j :: 0 <= j < |models| ==> WithRetry(oracle, models[j], prompt, MAX_RETRIES, BASE_DELAY).result.Err?
    decreases |models|
  {
    if models != [] {
      ChainFailsIffAllFail(oracle, prompt, models[1..]);
      if forall j :: 0 <= j < |models| - 1 ==> WithRetry(oracle, models[1..][j], prompt, MAX_RETRIES, BASE_DELAY).result.Err? {
        forall j | 0 <= j < |models|
          ensures WithRetry(oracle, models[j], prompt, MAX_RETRIES, BASE_DELAY).result.Err? ||
                  WithRetry(oracle, models[0], prompt, MAX_RETRIES, BASE_DELAY).result.Ok?
        {
          if j > 0 {
            assert models[1..][j - 1] == models[j];
          }
        }
      } else {
        var j :| 0 <= j < |models| - 1 && WithRetry(oracle, models[1..][j], prompt, MAX_RETRIES, BASE_DELAY).result.Ok?;
        assert models[1..][j] == models[j + 1];
      }
    }
  }

  /** Every text the loop returns is non-empty: an empty answer became the placeholder. */
  lemma {:induction false} ChainTextNonEmpty(oracle: Oracle, prompt: Prompt, models: seq<string>)
    ensures var chain := TryModels(oracle, prompt, models);
            chain.text.Some? ==> |chain.text.value| > 0
    decreases |models|
  {
    if models != [] {
      RetryOutcome(oracle, models[0], prompt, MAX_RETRIES, BASE_DELAY);
      ChainTextNonEmpty(oracle, prompt, models[1..]);
    }
  }

  /** Without a key, the fixed message is returned and no request is made. */
  lemma NoKeyNoCalls(apiKey: Option<string>, scan: ScanResult, oracle: Oracle)
    requires !HasKey(apiKey)
    ensures AnalyzeReportSpec(apiKey, scan, oracle) == AnalysisRun(NO_KEY_MESSAGE, [], [])
  {
  }

  /** With a key, when every model throws, the result is exactly the local report. */
  lemma AllModelsFailGivesLocalReport(apiKey: Option<string>, scan: ScanResult, oracle: Oracle)
    requires HasKey(apiKey)
    requires forall j :: 0 <= j < |MODELS| ==>
               WithRetry(oracle, MODELS[j], BuildPrompt(scan), MAX_RETRIES, BASE_DELAY).result.Err?
    ensures AnalyzeReportSpec(apiKey, scan, oracle).report == FallbackReport(scan)
  {
    ChainFailsIffAllFail(oracle, BuildPrompt(scan), MODELS);
  }

  /** With a key, the first model that yields a text gives the report, and
      no later model is asked. */
  lemma FirstModelTextIsReport(apiKey: Option<string>, scan: ScanResult, oracle: Oracle, i: nat)
    requires HasKey(apiKey) && i < |MODELS|
    requires forall j :: 0 <= j < i ==>
               WithRetry(oracle, MODELS[j], BuildPrompt(scan), MAX_RETRIES, BASE_DELAY).result.Err?
    requires WithRetry(oracle, MODELS[i], BuildPrompt(scan), MAX_RETRIES, BASE_DELAY).result.Ok?
    ensures var run := AnalyzeReportSpec(apiKey, scan, oracle);
            && run.report == WithRetry(oracle, MODELS[i], BuildPrompt(scan), MAX_RETRIES, BASE_DELAY).result.value
            && forall c :: c in run.calls ==> c.model in MODELS[..i + 1]
  {
    FirstSuccessWins(oracle, BuildPrompt(scan), MODELS, i);
  }

  /** When the first request to the first model answers, that answer is the
      report, after exactly one request and no wait. */
  lemma ShortCircuit(apiKey: Option<string>, scan: ScanResult, oracle: Oracle)
    requires HasKey(apiKey)
    requires oracle(MODELS[0], BuildPrompt(scan), 0).Completed?
    ensures AnalyzeReportSpec(apiKey, scan, oracle)
            == AnalysisRun(ContentOrDefault(oracle(MODELS[0], BuildPrompt(scan), 0).content), [Call(MODELS[0], 0)], [])
  {
  }

  /** Whatever the key and the service do, the returned report is non-empty
      and at most nine requests and six waits are made, each request naming
      one of the three models. */
  lemma AnalysisAlwaysReports(apiKey: Option<string>, scan: ScanResult, oracle: Oracle)
    ensures var run := AnalyzeReportSpec(apiKey, scan, oracle);
            && |run.report| > 0
            && |run.calls| <= 9 && |run.waits| <= 6
            && forall c :: c in run.calls ==> c.model in MODELS && c.attempt <= MAX_RETRIES
  {
    if HasKey(apiKey) {
      ChainBounds(oracle, BuildPrompt(scan), MODELS);
      ChainTextNonEmpty(oracle, BuildPrompt(scan), MODELS);
      ReportStartsWithUrl(scan);
    }
  }

  /** A scan of https://example.com with one High and one Low alert, while
      every request is rate-limited: three models with three requests each,
      waits of 2 s then 4 s per model, and the local report listing both
      alerts under the count line "Found 2 potential security issue(s):". */
  lemma AllRateLimitedScenario(apiKey: Option<string>, a: ScanAlert, b: ScanAlert, oracle: Oracle)
    requires HasKey(apiKey)
    requires a.risk == "High" && b.risk == "Low"
    requires forall m, k :: m in MODELS && 0 <= k <= MAX_RETRIES ==>
               var outcome := oracle(m, BuildPrompt(ScanResult("https://example.com", [a, b])), k);
               outcome.Failed? && IsRateLimit(outcome.error)
    ensures var scan := ScanResult("https://example.com", [a, b]);
            var run := AnalyzeReportSpec(apiKey, scan, oracle);
            && run.report == Header("https://example.com") + "Found 2 potential security issue(s):\n\n"
                             + Block(1, a) + Block(2, b)
            && |run.calls| == 9
            && run.waits == [2000, 4000, 2000, 4000, 2000, 4000]
  {
    var scan := ScanResult("https://example.com", [a, b]);
    AllModelsRateLimited(oracle, BuildPrompt(scan));
    LocalReportOfTwo(scan.url, a, b);
  }

  /** Every model rate-limited on every attempt: no text, nine requests and
      the waits 2 s, 4 s for each model in turn. */
  lemma AllModelsRateLimited(oracle: Oracle, prompt: Prompt)
    requires forall m, k :: m in MODELS && 0 <= k <= MAX_RETRIES ==>
               oracle(m, prompt, k).Failed? && IsRateLimit(oracle(m, prompt, k).error)
    ensures var chain := TryModels(oracle, prompt, MODELS);
            && chain.text.None? && |chain.calls| == 9
            && chain.waits == [2000, 4000, 2000, 4000, 2000, 4000]
  {
    var failed := [2000, 4000];
    forall m | m in MODELS
      ensures WithRetry(oracle, m, prompt, MAX_RETRIES, BASE_DELAY).attempts == 3
      ensures WithRetry(oracle, m, prompt, MAX_RETRIES, BASE_DELAY).waits == failed
      ensures WithRetry(oracle, m, prompt, MAX_RETRIES, BASE_DELAY).result.Err?
    {
      SustainedRateLimit(oracle, m, prompt);
    }
    assert MODELS[0] in MODELS && MODELS[1] in MODELS && MODELS[2] in MODELS;
    var last := TryModels(oracle, prompt, MODELS[2..]);
    assert MODELS[2..][0] == MODELS[2] && MODELS[2..][1..] == [];
    var r2 := WithRetry(oracle, MODELS[2], prompt, MAX_RETRIES, BASE_DELAY);
    assert last == After(Attempts(MODELS[2], r2.attempts), r2.waits, TryModels(oracle, prompt, []));
    assert last.text.None? && |last.calls| == 3 && last.waits == failed;
    var middle := TryModels(oracle, prompt, MODELS[1..]);
    assert MODELS[1..][0] == MODELS[1] && MODELS[1..][1..] == MODELS[2..];
    assert middle.text.None? && |middle.calls| == 6 && middle.waits == failed + failed;
    var chain := TryModels(oracle, prompt, MODELS);
    assert chain.text.None? && |chain.calls| == 9 && chain.waits == failed + (failed + failed);
  }

  /** The local report for two alerts, written out. */
  lemma LocalReportOfTwo(url: string, a: ScanAlert, b: ScanAlert)
    ensures FallbackReport(ScanResult(url, [a, b]))
            == Header(url) + "Found 2 potential security issue(s):\n\n" + Block(1, a) + Block(2, b)
  {
    var count, one, two := CountLine(2), Block(1, a), Block(2, b);
    CountLineOfTwo();
    BlocksOfTwo(a, b);
    assert Body([a, b]) == count + (one + two);
    AppendAssoc(count, one, two);
    AppendAssoc(Header(url), count + one, two);
    AppendAssoc(Header(url), count, one);
  }

  lemma CountLineOfTwo()
    ensures CountLine(2) == "Found 2 potential security issue(s):\n\n"
  {
    assert Digit(2) == '2';
    assert DecimalString(2) == "2";
    assert "Found " + "2" == "Found 2";
  }

  lemma BlocksOfTwo(a: ScanAlert, b: ScanAlert)
    ensures Blocks([a, b], 1) == Block(1, a) + Block(2, b)
  {
    assert [a, b] == [a] + [b];
    assert [a] == [] + [a];
    BlocksSnoc([], a, 1);
    BlocksSnoc([a], b, 1);
    assert "" + Block(1, a) == Block(1, a);
  }
}
