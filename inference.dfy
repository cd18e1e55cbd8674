/**
 * `generate_response`: the request the bot sends to the inference endpoint
 * and what it makes of the endpoint's answer. The HTTP call itself is an
 * input: the answer the call produced.
 */
module Inference {
  import opened Wrappers

  /** The text used when the request fails. */
  const Fallback := "Sorry, I encountered an error trying to process your request."

  /** The JSON body's `question` and `overrideConfig.sessionId`. */
  datatype Request = Request(question: string, sessionId: string)

  /**
   * What the HTTP call produced: a JSON body with a `text` field, a
   * `requests.RequestException` (network error, non-2xx status, and, from
   * `requests` 2.27 on, a body that is not JSON), or a JSON body without
   * `text`, whose `KeyError` the function does not catch.
   */
  datatype Answer = Text(text: string) | RequestFailed | NoTextField

  /** What `generate_response` does: return a string, or raise. */
  datatype Generated = Returned(text: string) | Raised

  /** How an f-string renders an optional display name: absent is "None". */
  function RenderName(name: Option<string>): (r: string)
    ensures name.Some? ==> r == name.value
    ensures r == "None" <==> name.None? || name.value == "None"
  {
    if name.Some? then name.value else "None"
  }

  /** The body of the POST for a thread, a message and a name. */
  function RequestFor(threadId: string, userMessage: string, userName: Option<string>): (req: Request)
    ensures req.sessionId == threadId
    ensures RenderName(userName) + ": " <= req.question
    ensures |req.question| == |RenderName(userName)| + 2 + |userMessage|
  {
    Request(RenderName(userName) + ": " + userMessage, threadId)
  }

  /** The text returned is the endpoint's own `text`, or the apology. */
  function GenerateResponse(answer: Answer): (g: Generated)
    ensures g.Returned? ==> g.text == Fallback || (answer.Text? && g.text == answer.text)
  {
    match answer
    case Text(t) => Returned(t)
    case RequestFailed => Returned(Fallback)
    case NoTextField => Raised
  }

  /**
   * A request failure never escapes: the caller gets the fixed apology, and
   * only a body without `text` makes the function raise.
   */
  lemma GenerateOutcomes(answer: Answer)
    ensures answer.RequestFailed? ==> GenerateResponse(answer) == Returned(Fallback)
    ensures answer.Text? ==> GenerateResponse(answer) == Returned(answer.text)
    ensures GenerateResponse(answer).Raised? <==> answer.NoTextField?
  {
  }
}
