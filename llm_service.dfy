/**
 * The text-completion provider as the engine sees it: one request per
 * prompt, answered with the model's text or a classified failure. The chat
 * SDK behind it is a parameter: `chat(k, prompt)` is its answer to the k-th
 * request, so successive calls may answer differently.
 */
module Llm {
  import opened Wrappers
  import opened OracleErrors

  const LlmFailureMessage: string := "LLM request failed"

  /** What `sendPrompt` makes of the SDK's answer: its text, or its error wrapped with the SDK error as cause. */
  function WrapChatReply(reply: Result<string, Failure>): (r: Result<string, Failure>)
    ensures r.Success? <==> reply.Success?
    ensures r.Success? ==> r.value == reply.value
    ensures r.Failure? ==> r.error.OracleExecutionError? && r.error.message == LlmFailureMessage
    ensures r.Failure? ==> r.error.cause == Some(reply.error)
  {
    match reply
    case Success(text) => Success(text)
    case Failure(e) => Failure(NewOracleExecutionError(LlmFailureMessage, Some(e)))
  }

  class LlmService {
    /** Every prompt sent so far, in order. */
    var prompts: seq<string>
    /** The SDK's answer to the k-th request carrying a given prompt. */
    const chat: (nat, string) -> Result<string, Failure>

    constructor(chat: (nat, string) -> Result<string, Failure>)
      ensures prompts == [] && this.chat == chat
    {
      prompts := [];
      this.chat := chat;
    }

    /** `sendPrompt`: exactly one request to the SDK. */
    method SendPrompt(prompt: string) returns (r: Result<string, Failure>)
      modifies this
      ensures prompts == old(prompts) + [prompt]
      ensures r == WrapChatReply(chat(|old(prompts)|, prompt))
    {
      var reply := chat(|prompts|, prompt);
      prompts := prompts + [prompt];
      match reply {
        case Success(text) =>
          r := Success(text);
        case Failure(e) =>
          r := Failure(NewOracleExecutionError(LlmFailureMessage, Some(e)));
      }
    }
  }
}
