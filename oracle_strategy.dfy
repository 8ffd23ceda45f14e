/**
 * The strategy contract: the closed decision and action vocabularies and the
 * three operations every strategy provides, generic over its domain input.
 */
module OracleStrategy {
  import opened Wrappers
  import opened OracleErrors

  /** The closed set of sentiments a decision may carry. */
  datatype Sentiment = Positive | Negative | Neutral

  /** The string tag the sentiment is written as in the model's JSON. */
  function SentimentTag(s: Sentiment): string {
    match s
    case Positive => "POSITIVE"
    case Negative => "NEGATIVE"
    case Neutral => "NEUTRAL"
  }

  /** The accepted sentiment tags, in the order the schema check lists them. */
  const SentimentTags: seq<string> := ["POSITIVE", "NEGATIVE", "NEUTRAL"]

  /**
   * Reads a tag back as a sentiment: exactly the three listed tags are
   * accepted, and each is read back as the sentiment it is the tag of.
   */
  function SentimentFromTag(tag: string): (r: Option<Sentiment>)
    ensures r.Some? <==> tag in SentimentTags
    ensures r.Some? ==> SentimentTag(r.value) == tag
  {
    if tag == "POSITIVE" then Some(Positive)
    else if tag == "NEGATIVE" then Some(Negative)
    else if tag == "NEUTRAL" then Some(Neutral)
    else None
  }

  /** Tagging and reading back are inverse: no sentiment is lost or confused. */
  lemma SentimentTagRoundTrip(s: Sentiment)
    ensures SentimentTag(s) in SentimentTags
    ensures SentimentFromTag(SentimentTag(s)) == Some(s)
  {
  }

  /**
   * A validated decision. `confidence` is documented as lying in [0, 1], but
   * the contract leaves enforcement to implementations and none is made here.
   */
  datatype Decision = Decision(sentiment: Sentiment, confidence: real)

  /** The closed set of payload-free actions. */
  datatype Action = Buy | Sell | NoAction

  /** The action's `type` tag. */
  function ActionTag(a: Action): (t: string)
    ensures t == "NO_ACTION" <==> a == NoAction
  {
    match a
    case Buy => "BUY"
    case Sell => "SELL"
    case NoAction => "NO_ACTION"
  }

  /** Distinct actions carry distinct tags. */
  lemma ActionTagInjective(a: Action, b: Action)
    ensures ActionTag(a) == ActionTag(b) <==> a == b
  {
  }

  /**
   * A strategy over domain input `TInput`: prompt construction (total),
   * response validation (succeeds with a decision or throws) and the
   * decision-to-action mapping (total over the closed decision space).
   */
  datatype Strategy<!TInput> = Strategy(
    buildPrompt: TInput -> string,
    parseResponse: string -> Result<Decision, Failure>,
    mapToTransaction: Decision -> Action)
}
