/**
 * The engine driving the news-sentiment strategy: what the general engine
 * rules give for this strategy.
 */
module NewsSentimentEngine {
  import opened Wrappers
  import opened OracleErrors
  import opened OracleStrategy
  import opened JsonValues
  import opened NewsService
  import opened NewsSentiment
  import opened Llm
  import opened OracleEngine

  /**
   * With the real `JSON.parse`, a parse failure reaches the caller exactly as
   * the strategy raised it: the engine's wrapping never applies.
   */
  lemma ParseFailurePassesThrough(rt: JsonRuntime, raw: string)
    requires ParsesBracesToObjects(rt)
    requires ParseResponse(rt, raw).Failure?
    ensures Complete(NewsSentimentStrategy(rt), Success(raw)) == Failure(ParseResponse(rt, raw).error)
  {
    ParseFailureIsClassified(rt, raw);
  }

  /**
   * The one unclassified error the strategy can raise, reading `sentiment`
   * of a `null` parse, is what the engine wraps.
   */
  lemma NullParseIsWrapped(rt: JsonRuntime, raw: string)
    requires ParseCandidate(rt, raw) == Success(Null)
    ensures Complete(NewsSentimentStrategy(rt), Success(raw)) ==
      Failure(OracleExecutionError(UnexpectedParseMessage, Some(NullPropertyError)))
  {
  }

  /**
   * A successful run returns the model's text and the action the table
   * assigns to the sentiment found in it: NO_ACTION exactly when that
   * sentiment is NEUTRAL.
   */
  lemma NewsRunAction(rt: JsonRuntime, raw: string)
    requires Complete(NewsSentimentStrategy(rt), Success(raw)).Success?
    ensures Complete(NewsSentimentStrategy(rt), Success(raw)).value.rawResponse == raw
    ensures ParseCandidate(rt, raw).Success? && ParseCandidate(rt, raw).value.Obj?
    ensures var fields := ParseCandidate(rt, raw).value.fields;
      && "sentiment" in fields && fields["sentiment"].Str?
      && (Complete(NewsSentimentStrategy(rt), Success(raw)).value.action == NoAction
          <==> fields["sentiment"].s == "NEUTRAL")
  {
    SuccessComesFromValidObject(rt, raw);
  }
}
