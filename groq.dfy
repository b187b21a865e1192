/** The boundary to the hosted completion service. The SDK call itself is not
    modelled: what one call returns is supplied by an oracle, a function of the
    model name, the prompt and the attempt number. */
module Groq {
  import opened Wrappers
  import opened Summary

  /** What the prompt is built from: the URL, the total number of alerts and
      the summary. The fixed instruction text around them is not modelled. */
  datatype Prompt = Prompt(url: string, totalAlerts: nat, summary: seq<SummaryEntry>)

  /** A thrown value as the classifier sees it: an optional numeric `status`
      and an optional string `message` (either may be absent). */
  datatype ApiError = ApiError(status: Option<int>, message: Option<string>)

  /** One completion request either answers, with the first choice's message
      content (possibly absent), or throws. */
  datatype CallOutcome = Completed(content: Option<string>) | Failed(error: ApiError)

  /** The service's answer to the request for (model, prompt, attempt). */
  type Oracle = (string, Prompt, nat) -> CallOutcome

  /** One request made to the service. */
  datatype Call = Call(model: string, attempt: nat)
}
