/**
 * The normalisation step of the news feed: the SDK's `data` field checked to
 * be an array, an empty feed replaced by one placeholder item, and missing
 * titles and descriptions defaulted to the empty string.
 */
module NewsService {
  import opened Wrappers
  import opened OracleErrors

  /** A news item as the strategy consumes it. */
  datatype NewsItem = NewsItem(title: string, description: string)

  /** A row of the SDK's reply; either field may be missing or null (None). */
  datatype AiNewsRow = AiNewsRow(title: Option<string>, description: Option<string>)

  /**
   * The `data` field of the SDK's reply, as the normalisation sees it: missing
   * (or any falsy value), present but not an array, or an array of rows.
   */
  datatype NewsData = Missing | NotAnArray | Rows(rows: seq<AiNewsRow>)

  const PlaceholderTitle: string := "No recent ETH news available"
  const PlaceholderDescription: string := "The AI News SDK returned no results for ETH."
  const UnexpectedStructureMessage: string := "AI News SDK returned unexpected response structure"

  /** The single item that stands in for an empty feed. */
  const Placeholder: NewsItem := NewsItem(PlaceholderTitle, PlaceholderDescription)

  /** One row with `?? ''` applied to each field. */
  function NormaliseRow(row: AiNewsRow): (item: NewsItem)
    ensures row.title.Some? ==> item.title == row.title.value
    ensures row.title.None? ==> item.title == ""
    ensures row.description.Some? ==> item.description == row.description.value
    ensures row.description.None? ==> item.description == ""
  {
    NewsItem(row.title.GetOr(""), row.description.GetOr(""))
  }

  /**
   * The items `getEthNews` returns for the SDK's `data`, or the plain error it
   * throws when `data` is missing or not an array. A success is never empty:
   * an empty array yields exactly the placeholder, and a non-empty one yields
   * one normalised item per row, in row order.
   */
  function NormaliseNews(data: NewsData): (r: Result<seq<NewsItem>, Failure>)
    ensures r.Failure? <==> !data.Rows?
    ensures r.Failure? ==> r.error == PlainError(UnexpectedStructureMessage)
    ensures r.Success? ==> |r.value| > 0
    ensures data == Rows([]) ==> r == Success([Placeholder])
    ensures data.Rows? && data.rows != [] ==>
      r.Success? && |r.value| == |data.rows| &&
      forall k :: 0 <= k < |data.rows| ==> r.value[k] == NormaliseRow(data.rows[k])
  {
    match data
    case Missing => Failure(PlainError(UnexpectedStructureMessage))
    case NotAnArray => Failure(PlainError(UnexpectedStructureMessage))
    case Rows(rows) =>
      if |rows| == 0 then Success([Placeholder])
      else Success(seq(|rows|, k requires 0 <= k < |rows| => NormaliseRow(rows[k])))
  }

  /** The feed's failure is a plain error: never the pipeline's classified kind. */
  lemma NewsFailureIsNotClassified(data: NewsData)
    ensures NormaliseNews(data).Failure? ==> !NormaliseNews(data).error.OracleExecutionError?
    ensures NormaliseNews(data).Failure? ==> NormaliseNews(data).error.Name() == "Error"
  {
  }
}
