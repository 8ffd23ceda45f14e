/**
 * The decision engine: builds the prompt once, sends it in exactly one
 * request, validates the reply with the strategy and maps it to an action,
 * passing classified failures through and wrapping every other one.
 */
module OracleEngine {
  import opened Wrappers
  import opened OracleErrors
  import opened OracleStrategy
  import opened Llm

  /** What `execute` returns: the action and the model's text it came from. */
  datatype OracleResult = OracleResult(action: Action, rawResponse: string)

  /** The engine's calls into the strategy and the provider, in the order made. */
  datatype Step = PromptBuilt | LlmCalled | ResponseParsed | ActionMapped

  const UnexpectedParseMessage: string := "Unexpected error during response parsing"

  /**
   * The catch around `parseResponse`: a classified error is rethrown as it
   * is; any other error becomes a classified one with the original as cause.
   */
  function ClassifyParseFailure(e: Failure): (r: Failure)
    ensures r.OracleExecutionError?
    ensures e.OracleExecutionError? ==> r == e
    ensures !e.OracleExecutionError? ==> r.message == UnexpectedParseMessage && r.cause == Some(e)
  {
    if e.OracleExecutionError? then e
    else NewOracleExecutionError(UnexpectedParseMessage, Some(e))
  }

  /** Classifying twice is classifying once. */
  lemma ClassifyParseFailureIdempotent(e: Failure)
    ensures ClassifyParseFailure(ClassifyParseFailure(e)) == ClassifyParseFailure(e)
  {
  }

  /**
   * The rest of `execute` once the provider has answered: a provider failure
   * propagates unchanged; otherwise the answer is parsed and, only if that
   * succeeds, mapped.
   */
  function Complete<TInput>(strategy: Strategy<TInput>, reply: Result<string, Failure>)
    : (r: Result<OracleResult, Failure>)
    ensures reply.Failure? ==> r == Failure(reply.error)
    ensures r.Success? ==>
      && reply.Success?
      && r.value.rawResponse == reply.value
      && strategy.parseResponse(reply.value).Success?
      && r.value.action == strategy.mapToTransaction(strategy.parseResponse(reply.value).value)
    ensures reply.Success? && strategy.parseResponse(reply.value).Failure? ==>
      r == Failure(ClassifyParseFailure(strategy.parseResponse(reply.value).error))
    ensures reply.Success? && strategy.parseResponse(reply.value).Success? ==>
      r == Success(OracleResult(strategy.mapToTransaction(strategy.parseResponse(reply.value).value), reply.value))
  {
    match reply
    case Failure(e) => Failure(e)
    case Success(raw) =>
      match strategy.parseResponse(raw)
      case Failure(e) => Failure(ClassifyParseFailure(e))
      case Success(decision) => Success(OracleResult(strategy.mapToTransaction(decision), raw))
  }

  /**
   * Behind the provider every failure of the engine is classified, whatever
   * the strategy throws and whatever the SDK answers.
   */
  lemma EngineFailuresClassified<TInput>(strategy: Strategy<TInput>, chatReply: Result<string, Failure>)
    ensures Complete(strategy, WrapChatReply(chatReply)).Failure? ==>
      Complete(strategy, WrapChatReply(chatReply)).error.OracleExecutionError?
  {
  }

  class AIOracleEngine {
    const llm: LlmService
    /** The calls made so far into the strategy and the provider. */
    ghost var trace: seq<Step>

    constructor(llm: LlmService)
      ensures this.llm == llm && trace == []
    {
      this.llm := llm;
      trace := [];
    }

    /**
     * `execute`: one prompt, built once and sent in exactly one request; the
     * reply is parsed only if the request succeeded, and mapped only if the
     * parse succeeded.
     */
    method Execute<TInput>(strategy: Strategy<TInput>, input: TInput)
      returns (r: Result<OracleResult, Failure>)
      modifies this, llm
      ensures llm.prompts == old(llm.prompts) + [strategy.buildPrompt(input)]
      ensures r == Complete(strategy, WrapChatReply(llm.chat(|old(llm.prompts)|, strategy.buildPrompt(input))))
      ensures WrapChatReply(llm.chat(|old(llm.prompts)|, strategy.buildPrompt(input))).Failure? ==>
        trace == old(trace) + [PromptBuilt, LlmCalled]
      ensures WrapChatReply(llm.chat(|old(llm.prompts)|, strategy.buildPrompt(input))).Success? && r.Failure? ==>
        trace == old(trace) + [PromptBuilt, LlmCalled, ResponseParsed]
      ensures r.Success? ==> trace == old(trace) + [PromptBuilt, LlmCalled, ResponseParsed, ActionMapped]
    {
      var prompt := strategy.buildPrompt(input);
      trace := trace + [PromptBuilt];
      var reply := llm.SendPrompt(prompt);
      trace := trace + [LlmCalled];
      match reply {
        case Failure(e) =>
          r := Failure(e);
        case Success(rawResponse) =>
          var parsed := strategy.parseResponse(rawResponse);
          trace := trace + [ResponseParsed];
          match parsed {
            case Failure(e) =>
              r := Failure(ClassifyParseFailure(e));
            case Success(decision) =>
              var action := strategy.mapToTransaction(decision);
              trace := trace + [ActionMapped];
              r := Success(OracleResult(action, rawResponse));
          }
      }
    }
  }
}
