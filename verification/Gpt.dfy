/**
 * `yandex_gpt` (main.py:56-83) and the indexing `['result']['alternatives'][0]['message']['text']`
 * that `handle_request` applies to each of its replies.
 */
module Gpt {
  import opened Wrappers
  import opened Errors

  /**
   * The prompts `handle_request` sends, reduced to what they carry: the relevance check of
   * one excerpt (main.py:136-139), the choice of an option (176-180) and the explanation
   * of the choice (183-188). Their wording is not modelled.
   */
  datatype Prompt =
    | RelevancePrompt(question: string, excerpt: string)
    | SelectionPrompt(question: string, answers: string, mainTexts: seq<string>)
    | JustificationPrompt(question: string, answers: string, mainTexts: seq<string>)

  /** What a 200 reply's JSON holds on the path `result.alternatives[0].message.text`. */
  datatype GptBody =
    | Completed(text: string)   // the path is there
    | MissingKey                // a key on the path is absent
    | NoAlternatives            // `alternatives` is an empty list

  /** The completion request: a status and its JSON, or an exception from the request. */
  datatype GptReply =
    | GptReply(status: nat, body: GptBody)
    | GptRaised(reason: string)

  /**
   * The completion text, or how the request fails. A non-200 reply becomes
   * `{"error": ...}`, which has no `result` key.
   */
  function CompletionText(reply: GptReply): (r: Result<string, Failure>)
    ensures r.Success? <==> reply.GptReply? && reply.status == 200 && reply.body.Completed?
    ensures r.Success? ==> r.value == reply.body.text
    ensures r == Failure(ParseFailure) <==>
      reply.GptReply? && (reply.status != 200 || reply.body.MissingKey?)
    ensures reply.GptRaised? ==> r == Failure(InternalError(reply.reason))
    ensures reply.GptReply? && reply.status == 200 && reply.body.NoAlternatives? ==>
      r == Failure(InternalError(IndexOutOfRange))
  {
    match reply
    case GptRaised(reason) => Failure(InternalError(reason))
    case GptReply(status, body) =>
      if status != 200 then Failure(ParseFailure)
      else match body
        case Completed(text) => Success(text)
        case MissingKey => Failure(ParseFailure)
        case NoAlternatives => Failure(InternalError(IndexOutOfRange))
  }
}
