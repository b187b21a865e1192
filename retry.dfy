/** `generateWithRetry` of src/lib/llm.ts: up to `maxRetries + 1` requests to
    one model, retrying with exponential backoff only when the thrown error is
    classified as a rate limit. The sleeps are recorded in a returned log of
    requested wait times. */
module Retry {
  import opened Wrappers
  import opened Text
  import opened Groq

  /** The default number of retries after the first attempt. */
  const MAX_RETRIES: int := 2
  /** The default base of the backoff, in milliseconds. */
  const BASE_DELAY: int := 2000
  /** Returned for a completion whose content is absent or empty. */
  const NO_CONTENT: string := "No analysis generated."
  /** Thrown when the loop ends without having returned or thrown. */
  const MAX_RETRIES_EXCEEDED: ApiError := ApiError(None, Some("Max retries exceeded"))

  /** `completion.choices[0]?.message?.content || "No analysis generated."` */
  function ContentOrDefault(content: Option<string>): (text: string)
    ensures |text| > 0
    ensures content.Some? && content.value != "" ==> text == content.value
    ensures content.None? || content.value == "" ==> text == NO_CONTENT
  {
    match content
    case Some(s) => if s != "" then s else NO_CONTENT
    case None => NO_CONTENT
  }

  /** The rate-limit classifier: status 429, or a message containing "rate",
      "quota" or "429" (case-sensitive substring tests). */
  predicate IsRateLimit(e: ApiError) {
    || e.status == Some(429)
    || (e.message.Some? && (Includes(e.message.value, "rate")
                            || Includes(e.message.value, "quota")
                            || Includes(e.message.value, "429")))
  }

  function Pow2(k: nat): (p: nat)
    ensures p >= 1
  {
    if k == 0 then 1 else 2 * Pow2(k - 1)
  }

  /** `baseDelay * Math.pow(2, attempt)`. */
  function Backoff(baseDelay: int, attempt: nat): int {
    baseDelay * Pow2(attempt)
  }

  /** What one call of `generateWithRetry` amounts to: its result (a text or
      the error it throws), how many requests it made and the waits it asked for. */
  datatype RetryRun = RetryRun(result: Result<string, ApiError>, attempts: nat, waits: seq<int>)

  /** The run from attempt `attempt` on. */
  function RetryFrom(oracle: Oracle, model: string, prompt: Prompt, maxRetries: int, baseDelay: int,
                     attempt: nat): RetryRun
    requires attempt <= maxRetries
    decreases maxRetries - attempt
  {
    match oracle(model, prompt, attempt)
    case Completed(content) => RetryRun(Ok(ContentOrDefault(content)), attempt + 1, [])
    case Failed(e) =>
      if IsRateLimit(e) && attempt < maxRetries then
        var rest := RetryFrom(oracle, model, prompt, maxRetries, baseDelay, attempt + 1);
        RetryRun(rest.result, rest.attempts, [Backoff(baseDelay, attempt)] + rest.waits)
      else
        RetryRun(Err(e), attempt + 1, [])
  }

  /** The whole run; with a negative retry count no request is made. */
  function WithRetry(oracle: Oracle, model: string, prompt: Prompt, maxRetries: int, baseDelay: int): RetryRun {
    if maxRetries < 0 then RetryRun(Err(MAX_RETRIES_EXCEEDED), 0, [])
    else RetryFrom(oracle, model, prompt, maxRetries, baseDelay, 0)
  }

  /** `run` preceded by the waits already taken. */
  function Prefixed(waits: seq<int>, run: RetryRun): RetryRun {
    RetryRun(run.result, run.attempts, waits + run.waits)
  }

  /** A rate-limited attempt that is not the last one moves its wait into the prefix. */
  lemma RetryStep(oracle: Oracle, model: string, prompt: Prompt, maxRetries: int, baseDelay: int,
                  attempt: nat, waits: seq<int>)
    requires attempt < maxRetries
    requires oracle(model, prompt, attempt).Failed? && IsRateLimit(oracle(model, prompt, attempt).error)
    ensures Prefixed(waits, RetryFrom(oracle, model, prompt, maxRetries, baseDelay, attempt))
         == Prefixed(waits + [Backoff(baseDelay, attempt)], RetryFrom(oracle, model, prompt, maxRetries, baseDelay, attempt + 1))
  {
    var rest := RetryFrom(oracle, model, prompt, maxRetries, baseDelay, attempt + 1);
    assert waits + ([Backoff(baseDelay, attempt)] + rest.waits) == (waits + [Backoff(baseDelay, attempt)]) + rest.waits;
  }

  /** `generateWithRetry(modelName, prompt, maxRetries, baseDelay)`. `result` is
      `Ok(text)` when it returns and `Err(e)` when it throws `e`; `attempts` is
      the number of requests made and `waits` the sleeps, in order. */
  method GenerateWithRetry(oracle: Oracle, model: string, prompt: Prompt, maxRetries: int, baseDelay: int)
    returns (result: Result<string, ApiError>, attempts: nat, waits: seq<int>)
    ensures RetryRun(result, attempts, waits) == WithRetry(oracle, model, prompt, maxRetries, baseDelay)
  {
    attempts := 0;
    waits := [];
    var attempt: nat := 0;
    while attempt <= maxRetries
      invariant attempt == 0 || attempt <= maxRetries
      invariant attempts == attempt && |waits| == attempt
      invariant attempt <= maxRetries ==>
                  WithRetry(oracle, model, prompt, maxRetries, baseDelay)
                  == Prefixed(waits, RetryFrom(oracle, model, prompt, maxRetries, baseDelay, attempt))
      decreases maxRetries - attempt
    {
      var outcome := oracle(model, prompt, attempt);
      attempts := attempts + 1;
      if outcome.Completed? {
        result := Ok(ContentOrDefault(outcome.content));
        return;
      } else if IsRateLimit(outcome.error) && attempt < maxRetries {
        RetryStep(oracle, model, prompt, maxRetries, baseDelay, attempt, waits);
        waits := waits + [Backoff(baseDelay, attempt)];
        attempt := attempt + 1;
      } else {
        result := Err(outcome.error);
        return;
      }
    }
    result := Err(MAX_RETRIES_EXCEEDED);
  }

  /** Bounds and backoff schedule from attempt `attempt` on. */
  lemma {:induction false} RetryFromSchedule(oracle: Oracle, model: string, prompt: Prompt, maxRetries: int,
                                             baseDelay: int, attempt: nat)
    requires attempt <= maxRetries
    ensures var run := RetryFrom(oracle, model, prompt, maxRetries, baseDelay, attempt);
            && attempt < run.attempts <= maxRetries + 1
            && |run.waits| == run.attempts - 1 - attempt
            && (forall k :: 0 <= k < |run.waits| ==> run.waits[k] == Backoff(baseDelay, attempt + k))
            && (forall k :: attempt <= k < run.attempts - 1 ==>
                  oracle(model, prompt, k).Failed? && IsRateLimit(oracle(model, prompt, k).error))
    decreases maxRetries - attempt
  {
    var run := RetryFrom(oracle, model, prompt, maxRetries, baseDelay, attempt);
    match oracle(model, prompt, attempt)
    case Completed(_) =>
    case Failed(e) =>
      if IsRateLimit(e) && attempt < maxRetries {
        RetryFromSchedule(oracle, model, prompt, maxRetries, baseDelay, attempt + 1);
        var rest := RetryFrom(oracle, model, prompt, maxRetries, baseDelay, attempt + 1);
        assert run.waits == [Backoff(baseDelay, attempt)] + rest.waits;
        forall k | 0 <= k < |run.waits|
          ensures run.waits[k] == Backoff(baseDelay, attempt + k)
        {
          if k > 0 {
            assert run.waits[k] == rest.waits[k - 1];
          }
        }
      }
  }

  /** How the run ends, from attempt `attempt` on. */
  lemma {:induction false} RetryFromLast(oracle: Oracle, model: string, prompt: Prompt, maxRetries: int,
                                         baseDelay: int, attempt: nat)
    requires attempt <= maxRetries
    ensures var run := RetryFrom(oracle, model, prompt, maxRetries, baseDelay, attempt);
            run.attempts >= 1 &&
            match oracle(model, prompt, run.attempts - 1)
            case Completed(content) => run.result == Ok(ContentOrDefault(content))
            case Failed(e) => run.result == Err(e) && (!IsRateLimit(e) || run.attempts == maxRetries + 1)
    decreases maxRetries - attempt
  {
    match oracle(model, prompt, attempt)
    case Completed(_) =>
    case Failed(e) =>
      if IsRateLimit(e) && attempt < maxRetries {
        RetryFromLast(oracle, model, prompt, maxRetries, baseDelay, attempt + 1);
      }
  }

  /** At most `maxRetries + 1` requests; waits only between requests, the k-th
      (0-based) being `baseDelay * 2^k`; every request but the last failed with
      a rate limit. */
  lemma RetryBounds(oracle: Oracle, model: string, prompt: Prompt, maxRetries: int, baseDelay: int)
    ensures var run := WithRetry(oracle, model, prompt, maxRetries, baseDelay);
            && run.attempts <= (if maxRetries < 0 then 0 else maxRetries + 1)
            && |run.waits| == (if run.attempts == 0 then 0 else run.attempts - 1)
            && (forall k :: 0 <= k < |run.waits| ==> run.waits[k] == baseDelay * Pow2(k))
            && (forall k :: 0 <= k < run.attempts - 1 ==>
                  oracle(model, prompt, k).Failed? && IsRateLimit(oracle(model, prompt, k).error))
  {
    if maxRetries >= 0 {
      RetryFromSchedule(oracle, model, prompt, maxRetries, baseDelay, 0);
    }
  }

  /** The result is decided by the last request: its text (or the placeholder)
      when it answered, and otherwise the error it threw, which is not a rate
      limit unless the retries were used up. With a negative retry count the
      loop never runs and "Max retries exceeded" is thrown. */
  lemma RetryOutcome(oracle: Oracle, model: string, prompt: Prompt, maxRetries: int, baseDelay: int)
    ensures var run := WithRetry(oracle, model, prompt, maxRetries, baseDelay);
            if maxRetries < 0 then run.result == Err(MAX_RETRIES_EXCEEDED) && run.attempts == 0
            else
              run.attempts >= 1 &&
              match oracle(model, prompt, run.attempts - 1)
              case Completed(content) => run.result == Ok(ContentOrDefault(content))
              case Failed(e) => run.result == Err(e) && (!IsRateLimit(e) || run.attempts == maxRetries + 1)
  {
    if maxRetries >= 0 {
      RetryFromLast(oracle, model, prompt, maxRetries, baseDelay, 0);
    }
  }

  /** An error that is not a rate limit ends the run on the attempt where it
      occurs: it is thrown, with no further request and no wait after it. */
  lemma NonRateLimitStops(oracle: Oracle, model: string, prompt: Prompt, maxRetries: int, baseDelay: int, k: nat)
    requires k <= maxRetries
    requires forall j :: 0 <= j < k ==> oracle(model, prompt, j).Failed? && IsRateLimit(oracle(model, prompt, j).error)
    requires oracle(model, prompt, k).Failed? && !IsRateLimit(oracle(model, prompt, k).error)
    ensures var run := WithRetry(oracle, model, prompt, maxRetries, baseDelay);
            run == RetryRun(Err(oracle(model, prompt, k).error), k + 1, run.waits) && |run.waits| == k
  {
    RetryBounds(oracle, model, prompt, maxRetries, baseDelay);
    RetryOutcome(oracle, model, prompt, maxRetries, baseDelay);
  }

  /** Under a sustained rate limit the defaults make three requests, wait
      2000 ms and then 4000 ms, and throw the third error. */
  lemma SustainedRateLimit(oracle: Oracle, model: string, prompt: Prompt)
    requires forall k :: 0 <= k <= MAX_RETRIES ==>
               oracle(model, prompt, k).Failed? && IsRateLimit(oracle(model, prompt, k).error)
    ensures var run := WithRetry(oracle, model, prompt, MAX_RETRIES, BASE_DELAY);
            run == RetryRun(Err(oracle(model, prompt, 2).error), 3, [2000, 4000])
  {
    assert oracle(model, prompt, 0).Failed? && oracle(model, prompt, 1).Failed? && oracle(model, prompt, 2).Failed?;
    assert Pow2(1) == 2;
  }

  /** The classifier is the disjunction of the status test and three
      substring occurrences in the message. */
  lemma RateLimitClassification(e: ApiError)
    ensures IsRateLimit(e) <==>
              || e.status == Some(429)
              || (e.message.Some? && ((exists i :: OccursAt(e.message.value, "rate", i))
                                      || (exists i :: OccursAt(e.message.value, "quota", i))
                                      || (exists i :: OccursAt(e.message.value, "429", i))))
  {
    if e.message.Some? {
      IncludesIffOccurs(e.message.value, "rate");
      IncludesIffOccurs(e.message.value, "quota");
      IncludesIffOccurs(e.message.value, "429");
    }
  }
}
