# AI analysis of a ZAP scan report, in Dafny

This project models the analysis layer of a web vulnerability scanner front
end, found in `src/lib/llm.ts`. The layer takes the result of an OWASP ZAP
scan, which is a URL and a list of alerts. Each alert has a name, a risk
string, a description and a solution. The layer returns a plain-text
security analysis:

- **Summary.** `summarizeAlerts` keeps the first 10 High/Medium alerts and
  the first 5 Low/Informational ones, in input order. It copies each alert's
  name and risk and cuts its description and solution to 200 characters.
- **Retry.** `generateWithRetry` sends one prompt to one hosted model. It
  makes up to `maxRetries + 1` requests (default 2 + 1). It waits
  `baseDelay * 2^attempt` ms (default base 2000) after a rate-limited failure
  that is not the last attempt. The error is a rate limit when its status is
  429, or when its message contains "rate", "quota" or "429". Any other
  error is rethrown at once. An answer with no content becomes
  "No analysis generated.".
- **Model chain.** `analyzeReport` returns a fixed message when no API key is
  configured. Otherwise it tries the three models of `MODELS` in order and
  returns the first text obtained. When every model throws, it builds the
  local report instead. It never throws.
- **Local report.** `generateFallbackAnalysis` writes a title with the URL
  and a three-line notice. Then comes either a "no vulnerabilities" line, or
  a count line and one numbered block per alert. Each block ends with a rule
  of fifty hyphens.

Modules:

- `Scanner`: the `ScanAlert`/`ScanResult` shapes.
- `Summary`: the summariser.
- `Groq`: the boundary to the completion service.
- `Retry`: `generateWithRetry`.
- `Fallback`: `generateFallbackAnalysis`.
- `Analysis`: `analyzeReport` and `MODELS`.
- `Text`: JavaScript's `includes` and the decimal rendering of a number.
- `Wrappers`: `Option`/`Result`.

Each stateful routine has two parts. One is a specification function:
`WithRetry`, `TryModels`, `AnalyzeReportSpec` or `FallbackReport`. The other
is a method with the source's loop, whose `ensures` ties its outputs to that
function. The properties are proved as lemmas about the functions.

The service is a parameter, an `Oracle` mapping (model, prompt, attempt
number) to an answer or a thrown error. Sleeping becomes a returned log of
requested waits. The requests made are returned as a log of
(model, attempt) pairs.

## Model

| member | source | states |
|---|---|---|
| Summary.Filter | src/lib/llm.ts:23-28 | the filtered alerts are no more than the input and every one has a risk string of the group |
| Summary.Truncate | src/lib/llm.ts:34-35 | an absent text becomes ""; a present one becomes a prefix of at most 200 characters, kept whole when it fits and cut to exactly 200 otherwise |
| Summary.SummarizeAlerts | src/lib/llm.ts:21-36 | at most 15 entries, every one of risk High/Medium/Low/Informational, with description and solution of at most 200 characters |
| Summary.FilterKeepsOrder | src/lib/llm.ts:23-29 | each filtered list is the subsequence of the input at strictly increasing positions, and those positions are exactly the ones whose risk is in the group |
| Summary.FilterMembership | src/lib/llm.ts:23-29 | an alert survives the filter if and only if it is in the input and its risk is in the group |
| Summary.SummaryLayout | src/lib/llm.ts:23-36 | the summary is the first min(10, #High/Medium) of that class in input order, then the first min(5, #Low/Informational) of theirs, each entry being the alert's projection |
| Summary.SummaryFromSources | src/lib/llm.ts:23-36 | every entry is the projection of the input alert at its source position |
| Summary.SourcesInOrder | src/lib/llm.ts:23-31 | source positions increase within each group and each one holds an alert of the entry's group |
| Summary.JoinedPrefixes | src/lib/llm.ts:31 | joining prefixes of two increasing position lists keeps each part increasing and drawn from its own list |
| Summary.EntryFields | src/lib/llm.ts:31-36 | an entry copies the name and risk and holds the first min(len, 200) characters of each text, or "" when absent |
| Text.IncludesIffOccurs | src/lib/llm.ts:67-69 | `includes` is true exactly when the substring occurs at some index |
| Text.DecimalString | src/lib/llm.ts:140 | the rendering of a count is a non-empty run of digits without a leading zero |
| Text.DecimalRoundTrip | src/lib/llm.ts:140 | reading the rendered digits back gives the number |
| Text.DecimalInjective | src/lib/llm.ts:143 | distinct numbers render differently, so block numbers are distinct |
| Retry.ContentOrDefault | src/lib/llm.ts:61-63 | the returned text is never empty: the content when it is non-empty, "No analysis generated." otherwise |
| Retry.GenerateWithRetry | src/lib/llm.ts:42-81 | the result, the number of requests and the waits of the loop equal those of the retry specification `WithRetry` |
| Retry.RetryStep | src/lib/llm.ts:71-75 | a rate-limited attempt that is not the last adds its backoff to the waits and continues with the next attempt |
| Retry.RetryFromSchedule | src/lib/llm.ts:48-76 | from any attempt on: at most `maxRetries + 1` requests, one wait fewer than requests, the k-th wait `baseDelay * 2^(attempt+k)`, every request but the last a rate-limited failure |
| Retry.RetryFromLast | src/lib/llm.ts:61-77 | the result is the last request's text (or the placeholder) or its error, and that error is not a rate limit unless the retries were used up |
| Retry.RetryBounds | src/lib/llm.ts:48-76 | at most `maxRetries + 1` requests; waits only between requests, the k-th being `baseDelay * 2^k`, so none after the final attempt; all earlier requests were rate limited |
| Retry.RetryOutcome | src/lib/llm.ts:48-80 | the result is decided by the last request; with a negative retry count no request is made and "Max retries exceeded" is thrown |
| Retry.NonRateLimitStops | src/lib/llm.ts:71-77 | a non-rate-limit error at attempt k is thrown at once after k + 1 requests and k waits |
| Retry.SustainedRateLimit | src/lib/llm.ts:45-46 | with the defaults and a permanent rate limit: three requests, waits 2000 and 4000 ms, the third error thrown |
| Retry.RateLimitClassification | src/lib/llm.ts:65-69 | the classifier holds if and only if the status is 429 or the message contains "rate", "quota" or "429" |
| Fallback.Hyphens | src/lib/llm.ts:146 | the rule is exactly n hyphens |
| Fallback.GenerateFallbackAnalysis | src/lib/llm.ts:129-150 | the text built by appending equals the report specification `FallbackReport` |
| Fallback.AppendBlocks | src/lib/llm.ts:142-147 | the `forEach` appends the blocks of all alerts, numbered from 1, in input order |
| Fallback.BlockAppended | src/lib/llm.ts:143-146 | the four appends of one iteration add exactly that alert's block |
| Fallback.BlocksAppend | src/lib/llm.ts:142-147 | the blocks of two runs of alerts are those of the first, then those of the second numbered on from it |
| Fallback.BlocksSnoc | src/lib/llm.ts:142-147 | one more alert adds one block, numbered after the ones before it |
| Fallback.BlocksSplit | src/lib/llm.ts:142-147 | alert i's block, numbered first + i, stands between the blocks of the alerts before and after it |
| Fallback.ReportStartsWithUrl | src/lib/llm.ts:130 | the report always opens with "Security Analysis for " and the URL |
| Fallback.ReportWithoutAlerts | src/lib/llm.ts:135-138 | with no alerts the report is exactly the header followed by the "no vulnerabilities" line |
| Fallback.ReportBlockAt | src/lib/llm.ts:140-147 | with alerts, the report is header, count line, then the blocks, with alert i's block numbered i + 1 at its place in input order |
| Analysis.Attempts | src/lib/llm.ts:111 | one request per attempt, named with the model and numbered 0, 1, … |
| Analysis.AnalyzeReport | src/lib/llm.ts:83-127 | the report, requests and waits of the routine equal those of the specification `AnalyzeReportSpec` |
| Analysis.TryEachModel | src/lib/llm.ts:108-120 | the model loop's text, requests and waits equal those of `TryModels` over `MODELS` |
| Analysis.ChainStep | src/lib/llm.ts:108-119 | one model's requests and waits join the logs; its text ends the loop, and its error moves on to the next model |
| Analysis.ChainBounds | src/lib/llm.ts:108-120 | at most three requests and two waits per model, each request naming a listed model and an attempt ≤ 2 |
| Analysis.FirstSuccessWins | src/lib/llm.ts:108-113 | when models before i throw and model i yields a text, that text is returned and no later model is asked |
| Analysis.ChainFailsIffAllFail | src/lib/llm.ts:108-126 | the loop yields no text if and only if every model threw |
| Analysis.ChainTextNonEmpty | src/lib/llm.ts:61-63 | a text returned by the loop is never empty |
| Analysis.NoKeyNoCalls | src/lib/llm.ts:84-86 | without a key the fixed configuration message is returned, with no request and no wait |
| Analysis.AllModelsFailGivesLocalReport | src/lib/llm.ts:122-126 | with a key and every model throwing, the report is exactly the local report |
| Analysis.FirstModelTextIsReport | src/lib/llm.ts:108-113 | with a key, the first model that yields a text gives the report, and only models up to it are asked |
| Analysis.ShortCircuit | src/lib/llm.ts:108-113 | when the first request to the first model answers, its content (or the placeholder) is the report after one request and no wait |
| Analysis.AnalysisAlwaysReports | src/lib/llm.ts:83-127 | whatever the key and the service do, a non-empty report is returned after at most 9 requests and 6 waits |
| Analysis.AllModelsRateLimited | src/lib/llm.ts:108-120 | a permanent rate limit on all models gives no text, 9 requests and the waits 2000, 4000 for each model |
| Analysis.AllRateLimitedScenario | src/lib/llm.ts:83-147 | for example.com with a High and a Low alert under a permanent rate limit, the report is the local one listing both under "Found 2 potential security issue(s):" |
| Analysis.LocalReportOfTwo | src/lib/llm.ts:129-147 | the local report for two alerts, written out |
| Analysis.CountLineOfTwo | src/lib/llm.ts:140 | the count line for two alerts reads "Found 2 potential security issue(s):" |
| Analysis.BlocksOfTwo | src/lib/llm.ts:142-147 | two alerts give block 1 then block 2 |

## Design versus code

The design description of this system differs from `src/lib/llm.ts` in
several places. The model follows the code:

- The summary limits are 10 High/Medium alerts, 5 Low/Informational alerts
  and 200 characters per text (llm.ts:25, 29, 34-35). The design names
  other numbers.
- Only rate-limit errors are retried. Every other error is rethrown on its
  first occurrence (llm.ts:71-77).
- A completion with empty or absent content counts as a success and yields
  "No analysis generated." (llm.ts:61-63). It does not move on to the next
  model.
- Without an API key the fixed configuration message is returned and the
  local report is not built (llm.ts:84-86).
- There is one provider with three models, and no flag saying where the
  text came from.

## Left out

- The completion call (`groq.chat.completions.create`, llm.ts:50-60) is
  foreign code. Its answers are an oracle parameter. Temperature, token
  limit and message role are not modelled.
- `delay`/`setTimeout` (llm.ts:16-18) is not executed. The waits are
  returned as a log instead.
- `console.log`/`console.error` output is not modelled.
- The prompt template (llm.ts:93-105) and the `JSON.stringify` text of the
  summary (llm.ts:38) are not modelled. The prompt is modelled by what it
  is built from: the URL, the alert count and the summary entries.
- Errors are reduced to an optional `status` and an optional `message`.
  Thrown non-objects and the `String(error)` message of a failed model
  (llm.ts:115-117) are only logged by the source, so they are not modelled.
- A malformed completion that makes the content expression itself throw is
  up to the oracle. It can report it as a failed call.
- The API key is a parameter, not an environment lookup.
- Strings are sequences of Dafny characters. JavaScript counts UTF-16 code
  units in `substring(0, 200)` and `includes`, so the two agree only on
  text without characters outside the Basic Multilingual Plane.
- A `null` description or solution would render as "null" in the local
  report. The model has only present texts and absent ones, which render as
  "undefined".
- The rate-limit substring tests are case-sensitive, as in the
  source. "rate" also matches messages such as "generate"; the model keeps
  that behaviour unchanged.
- `scanUrl` in src/lib/scanner.ts (its HTTP traffic with ZAP) is not part
  of this model. Only its `ScanAlert`/`ScanResult` shapes are. The API
  route, the UI, authentication and scripts are not part of this model
  either.
