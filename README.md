# AI oracle decision pipeline — a Dafny model

This project models the decision pipeline of the ChainGPT AI oracle: a
pluggable *strategy* turns news items into a prompt and the language
model's untrusted text into a validated decision and a trading action; the
*decision engine* drives a strategy against the text-completion provider
with one request and a fixed error-classification rule; the *execution
gateway* turns an action into at most one call to the trade contract and
waits for its confirmation. The only strategy, news sentiment, extracts the
greedy `{…}` span of the reply, checks it against a closed schema and maps
POSITIVE/NEGATIVE/NEUTRAL to BUY/SELL/NO_ACTION. The normalisation of the
news feed and the classified error type `OracleExecutionError` complete the
core.

Layout, one module per source file:

| file | module | source |
|---|---|---|
| wrappers.dfy | Wrappers | Option / Result / Outcome for `undefined`, return-or-throw |
| oracle_execution_error.dfy | OracleErrors | src/core/oracle-execution.error.ts |
| oracle_strategy.dfy | OracleStrategy | src/strategies/oracle-strategy.interface.ts |
| json_values.dfy | JsonValues | the JSON values and property reads the strategy relies on |
| news_service.dfy | NewsService | src/news/news.service.ts (normalisation) |
| news_sentiment_strategy.dfy | NewsSentiment, NewsSentimentExamples | src/strategies/news-sentiment.strategy.ts and its unit tests |
| llm_service.dfy | Llm | src/core/llm.service.ts, as the provider the engine calls |
| ai_oracle_engine.dfy | OracleEngine | src/core/ai-oracle.engine.ts |
| news_sentiment_engine.dfy | NewsSentimentEngine | the engine applied to the news-sentiment strategy |
| blockchain_service.dfy | Blockchain | src/blockchain/blockchain.service.ts |

Modelling choices:

- The strategy interface is a datatype of three function values
  (`buildPrompt`, `parseResponse`, `mapToTransaction`), generic over the
  domain input; `parseResponse` returns `Result<Decision, Failure>`, the
  `Failure` standing for the error it throws.
- Errors are one datatype: `OracleExecutionError(message, cause)`, with an
  optional cause kept exactly as given, and `OtherError(name, message)` for
  every other JavaScript error (`Error`, `SyntaxError`, `TypeError`, SDK
  errors). The engine's `instanceof` test is the constructor test.
- `JSON.parse` and `JSON.stringify` are parameters (`JsonRuntime`). The
  general fact some lemmas assume of `JSON.parse`, each stating it as a
  hypothesis, is `ParsesBracesToObjects`: a text that opens with `{` parses,
  if at all, to an object. The example lemmas of `NewsSentimentExamples`
  take, as hypotheses, the value `JSON.parse` gives for their literal texts. Without it the model keeps the code's `TypeError` path
  (reading `sentiment` of `null`), which the engine then wraps.
- The regular expression `/\{[\s\S]*\}/` is specified directly:
  `MatchSpan` finds the first `{` and the last `}` and is proved to be the
  leftmost span that encloses every other `{…}` span, which is what the
  greedy match returns.
- The language model, the trade contract and their networks are objects
  whose answers are parameters indexed by call number (`chat(k, prompt)`,
  `submit(k, method)`, `confirm(k, tx)`), so repeated calls may answer
  differently. `LlmService.prompts` records the prompts sent,
  `TradeContract.calls` the contract methods invoked and
  `TradeContract.awaited` the transactions waited on. The engine keeps a
  ghost `trace` of its calls into the strategy and the provider.
- `async`/`await` becomes sequential calls; logging is dropped.

Notes on what the code does:

- The engine does not wrap failures of `sendPrompt`; it is
  `LlmService.sendPrompt` (src/core/llm.service.ts:32-33) that wraps the
  SDK's error as `OracleExecutionError("LLM request failed", cause)`, and the
  engine passes it on unchanged.
- A failure while waiting for confirmation (`tx.wait()`) propagates as it
  is, unwrapped, because it lies outside the `try`
  (src/blockchain/blockchain.service.ts:59).
- The news feed's declared type has `data.rows`, but the code reads `data`
  itself as the array of rows (src/news/news.service.ts:45-65); so does
  `NormaliseNews`.
- Extraction is the greedy first-`{`-to-last-`}` span, not a balanced
  object: two objects side by side form one candidate (`WholeTextCandidate`).

## Model

| member | source | states |
|---|---|---|
| OracleErrors.NewOracleExecutionError | src/core/oracle-execution.error.ts:1-9 | the error is of the classified kind, its message and optional cause are exactly the arguments, and its name is "OracleExecutionError" |
| OracleErrors.PlainError | src/strategies/news-sentiment.strategy.ts:35 | `new Error(message)` is not the classified kind, keeps its message and is named "Error" |
| OracleErrors.Failure.Name | src/core/oracle-execution.error.ts:7 | a classified error always reports the name "OracleExecutionError"; other errors report their own name |
| OracleStrategy.SentimentFromTag | src/strategies/news-sentiment.strategy.ts:47-49 | a tag is read as a sentiment exactly when it is one of POSITIVE, NEGATIVE, NEUTRAL, and then as the sentiment whose tag it is |
| OracleStrategy.SentimentTagRoundTrip | src/strategies/oracle-strategy.interface.ts:2 | every sentiment's tag is in the closed list and reads back as that sentiment |
| OracleStrategy.ActionTag | src/strategies/oracle-strategy.interface.ts:6-9 | the tag is "NO_ACTION" exactly for the NO_ACTION variant |
| OracleStrategy.ActionTagInjective | src/strategies/oracle-strategy.interface.ts:6-9 | the three payload-free actions have pairwise distinct tags |
| JsonValues.Property | src/strategies/news-sentiment.strategy.ts:45-50 | reading a property yields a value exactly when the value is an object holding that key, and then the stored value; otherwise undefined |
| JsonValues.StringProperty | src/strategies/news-sentiment.strategy.ts:48 | `typeof v.key === 'string'` holds exactly when the object holds a string under the key, and yields that string |
| JsonValues.NumberProperty | src/strategies/news-sentiment.strategy.ts:50 | `typeof v.key === 'number'` holds exactly when the object holds a number under the key, and yields that number |
| NewsService.NormaliseRow | src/news/news.service.ts:63-64 | a missing or null title or description becomes the empty string; a present one is copied unchanged |
| NewsService.NormaliseNews | src/news/news.service.ts:45-68 | fails with the plain "unexpected response structure" error exactly when data is missing or not an array; a success is never empty; an empty array gives exactly the placeholder item; a non-empty one gives one normalised item per row in row order |
| NewsService.NewsFailureIsNotClassified | src/news/news.service.ts:45-50 | the feed's failure is a plain Error, not an OracleExecutionError |
| NewsSentiment.DecimalString | src/strategies/news-sentiment.strategy.ts:14 | an item number renders as a non-empty run of decimal digits with no leading zero |
| NewsSentiment.DecimalRoundTrip | src/strategies/news-sentiment.strategy.ts:14 | reading the rendered item number back gives the number |
| NewsSentiment.JoinAppend | src/strategies/news-sentiment.strategy.ts:16 | joining one more line adds exactly the separator and that line at the end |
| NewsSentiment.Join | src/strategies/news-sentiment.strategy.ts:16 | joining no parts gives the empty string; otherwise the result opens with the first part |
| NewsSentiment.RenderItem | src/strategies/news-sentiment.strategy.ts:14 | item i's rendering opens with the decimal number i+1 |
| NewsSentiment.NewsLines | src/strategies/news-sentiment.strategy.ts:11-16 | no items give an empty block; otherwise the block opens with item number 1 |
| NewsSentiment.NewsLinesAppend | src/strategies/news-sentiment.strategy.ts:11-16 | one more item extends the block by a newline and that item, numbered one past the previous last |
| NewsSentiment.BuildPrompt | src/strategies/news-sentiment.strategy.ts:10-28 | the prompt opens with the fixed instructions, and the news block placed after them opens with item number 1 |
| NewsSentiment.PromptOfNoNews | src/strategies/news-sentiment.strategy.ts:18-27 | with no items the prompt is the fixed instructions, which end in "News:\n" |
| NewsSentiment.PromptOfOneItem | src/strategies/news-sentiment.strategy.ts:11-27 | a single item follows "News:\n" as "1. Title: {title}\n   Summary: {description}" |
| NewsSentiment.PromptAppend | src/strategies/news-sentiment.strategy.ts:11-16 | appending an item appends a newline and that item numbered one past the previous last: input order is kept and item i carries number i+1 |
| NewsSentiment.RenderItemNewlines | src/strategies/news-sentiment.strategy.ts:14 | an item whose fields are single lines renders as exactly two lines |
| NewsSentiment.NewsLinesNewlines | src/strategies/news-sentiment.strategy.ts:11-16 | with single-line fields the news block of n items contains exactly 2n-1 newlines |
| NewsSentiment.FirstIndex | src/strategies/news-sentiment.strategy.ts:33 | the index found is an occurrence with none before it, and none is found exactly when the character is absent |
| NewsSentiment.LastIndex | src/strategies/news-sentiment.strategy.ts:33 | the index found is an occurrence with none after it, and none is found exactly when the character is absent |
| NewsSentiment.MatchSpan | src/strategies/news-sentiment.strategy.ts:33-36 | a match exists exactly when some `{` precedes some `}`; the match is such a span and encloses every other one (leftmost, greedy) |
| NewsSentiment.Candidate | src/strategies/news-sentiment.strategy.ts:33-36 | the candidate is absent exactly when no `{` precedes a `}`, and otherwise opens with `{` and closes with `}` |
| NewsSentiment.NoOpeningBraceNoCandidate | src/strategies/news-sentiment.strategy.ts:33-36 | a text without `{` has no candidate |
| NewsSentiment.WholeTextCandidate | src/strategies/news-sentiment.strategy.ts:33 | a text that opens with `{` and closes with `}` is its own candidate, even when it holds several objects |
| NewsSentiment.SurroundedCandidate | src/strategies/news-sentiment.strategy.ts:33 | prose without `{` before and without `}` after an object text is cut away: the candidate is the object text |
| NewsSentiment.ParseCandidate | src/strategies/news-sentiment.strategy.ts:31-43 | with no candidate the try block raises the plain "No JSON object found in response" error; otherwise it is JSON.parse of the candidate, which (with JSON.parse's object guarantee) yields an object |
| NewsSentiment.ValidateDecision | src/strategies/news-sentiment.strategy.ts:45-60 | every failure of the schema check is classified unless the parsed value is null |
| NewsSentiment.ParseResponse | src/strategies/news-sentiment.strategy.ts:30-61 | an unclassified failure happens only when the candidate parsed to null |
| NewsSentiment.ParseFailureIsClassified | src/strategies/news-sentiment.strategy.ts:38-55 | with JSON.parse's object guarantee, every failure of parseResponse is an OracleExecutionError |
| NewsSentiment.NoCandidateRejected | src/strategies/news-sentiment.strategy.ts:33-42 | with no candidate the call fails with "Failed to parse LLM response as JSON. Raw: " followed by the raw text, caused by the plain "No JSON object found in response" error |
| NewsSentiment.UnparsableCandidateRejected | src/strategies/news-sentiment.strategy.ts:37-42 | a candidate that does not parse fails with the same message, the raw text included, caused by the parser's error |
| NewsSentiment.ParsedObjectChecked | src/strategies/news-sentiment.strategy.ts:45-60 | on a parsed object the call succeeds exactly when sentiment is one of the three tags and confidence is a number; it then returns those two fields, ignoring others and checking no range; otherwise it fails with "Invalid decision schema. Parsed: " and the stringified object, with no cause |
| NewsSentiment.SuccessComesFromValidObject | src/strategies/news-sentiment.strategy.ts:57-60 | a returned decision always comes from a candidate that parsed to an object meeting the schema, and carries that object's sentiment and confidence |
| NewsSentiment.SurroundingProseIgnored | src/strategies/news-sentiment.strategy.ts:33-37 | surrounding prose changes nothing: the surrounded text succeeds exactly when the bare object does, with the same decision |
| NewsSentiment.SurroundedObjectAccepted | src/strategies/news-sentiment.strategy.ts:33-60 | an object meeting the schema, with prose before its `{` and after its `}`, yields the decision carrying its sentiment and confidence |
| NewsSentiment.MapToTransaction | src/strategies/news-sentiment.strategy.ts:63-72 | POSITIVE maps to BUY, NEGATIVE to SELL, NEUTRAL to NO_ACTION, each in both directions |
| NewsSentiment.NewsSentimentStrategy | src/strategies/news-sentiment.strategy.ts:9 | the news-sentiment class provides the strategy contract with buildPrompt, parseResponse and mapToTransaction above |
| NewsSentiment.MappingIsBijective | src/strategies/news-sentiment.strategy.ts:63-72 | two decisions map to the same action exactly when their sentiments agree; confidence plays no part |
| NewsSentimentExamples.BareObjectAccepted | src/strategies/news-sentiment.strategy.spec.ts:12-17 | the bare POSITIVE/0.82 object yields exactly that decision |
| NewsSentimentExamples.ProseAroundObjectAccepted | src/strategies/news-sentiment.strategy.spec.ts:31-36 | the object inside "Here is the result: … done." yields the POSITIVE decision |
| NewsSentimentExamples.NotJsonRejected | src/strategies/news-sentiment.strategy.spec.ts:38-42 | "not json at all" fails with the classified error carrying the raw text |
| NewsSentimentExamples.UnknownSentimentRejected | src/strategies/news-sentiment.strategy.spec.ts:44-47 | sentiment "UNKNOWN" fails with the classified error |
| NewsSentimentExamples.MissingConfidenceRejected | src/strategies/news-sentiment.strategy.spec.ts:49-52 | a missing confidence fails with the classified error |
| Llm.WrapChatReply | src/core/llm.service.ts:27-38 | the provider returns the SDK's text unchanged, or fails with OracleExecutionError("LLM request failed") whose cause is the SDK's error |
| Llm.LlmService.SendPrompt | src/core/llm.service.ts:23-39 | one request per call: the prompt is appended to the log and the answer is the SDK's answer to that request, wrapped |
| OracleEngine.ClassifyParseFailure | src/core/ai-oracle.engine.ts:33-44 | the result is always classified; a classified error passes through unchanged; any other is wrapped as "Unexpected error during response parsing" with the original as cause |
| OracleEngine.ClassifyParseFailureIdempotent | src/core/ai-oracle.engine.ts:37-39 | classifying an already classified failure changes nothing |
| OracleEngine.Complete | src/core/ai-oracle.engine.ts:28-49 | a provider failure propagates unchanged; a successful parse of the provider's text always yields success with the mapped action and exactly that text, and every success is of that form; a parse failure is classified |
| OracleEngine.EngineFailuresClassified | src/core/ai-oracle.engine.ts:28-44 | behind the provider, every failure of the engine is an OracleExecutionError, whatever the strategy throws |
| OracleEngine.AIOracleEngine.Execute | src/core/ai-oracle.engine.ts:21-50 | the prompt is built once and sent in exactly one request; the result is the pipeline on that request's answer; a provider failure invokes neither parse nor map, and map is invoked only after a successful parse |
| NewsSentimentEngine.ParseFailurePassesThrough | src/core/ai-oracle.engine.ts:37-39 | with JSON.parse's object guarantee, the news strategy's parse failures reach the caller unchanged |
| NewsSentimentEngine.NullParseIsWrapped | src/core/ai-oracle.engine.ts:40-43 | a candidate parsed to null gives the TypeError, which the engine wraps as "Unexpected error during response parsing" |
| NewsSentimentEngine.NewsRunAction | src/core/ai-oracle.engine.ts:46-49 | a successful run returns the model's text, and its action is NO_ACTION exactly when the parsed sentiment is NEUTRAL |
| Blockchain.ContractMethod | src/blockchain/blockchain.service.ts:41 | BUY invokes "buy" and SELL invokes "sell"; no other method is ever named |
| Blockchain.Settle | src/blockchain/blockchain.service.ts:44-62 | the result is non-null exactly when submission and confirmation both succeed, then pairing the transaction's hash with the action's tag; a submission failure becomes "Transaction failed for action " and the tag, with the cause; a confirmation failure propagates unchanged |
| Blockchain.SettledActionIsActionable | src/blockchain/blockchain.service.ts:62 | an executed result's action is BUY or SELL, never NO_ACTION |
| Blockchain.TradeContract.Invoke | src/blockchain/blockchain.service.ts:46-50 | invoking a contract method records it once and answers with the network's answer to that submission |
| Blockchain.TradeContract.Wait | src/blockchain/blockchain.service.ts:59 | waiting records the transaction's hash once and answers with the network's confirmation |
| Blockchain.BlockchainService.ExecuteAction | src/blockchain/blockchain.service.ts:35-63 | NO_ACTION returns null and makes no contract call and no wait; BUY/SELL invoke their method exactly once, wait only for an accepted transaction, and return the settled outcome |

## Left out

- The chat SDK call and its reply shape (src/core/llm.service.ts:28-36) are a parameter: a reply without `data.bot` is not modelled.
- The news SDK request (src/news/news.service.ts:35-39) is left out; the normalisation takes the reply's `data` as input, already classified as missing, not an array, or an array of rows. Rows that are themselves null, and fields holding non-string values, are not modelled.
- The ethers provider, wallet and contract construction, the ABI constant and the configuration lookups are left out; the contract is an abstract object with `buy` and `sell`.
- The grammar of `JSON.parse` and the formatting of `JSON.stringify` are parameters, not definitions; inherited object properties (the prototype chain) are not modelled.
- Strings are sequences of Unicode scalar values, while JavaScript strings are UTF-16 code units: a reply holding a lone surrogate cannot be represented. For every other reply the extracted span is the same.
- Numbers are reals: double-precision rounding, overflow to Infinity and number formatting are not modelled.
- `confidence` is documented as lying in [0, 1], but no strategy enforces it; the model neither checks nor proves the range.
- A strategy whose `buildPrompt` or `mapToTransaction` throws is not modelled: both are total functions here, as the strategy contract describes them.
- Logging, `async`/`await` scheduling, the HTTP controller and its error translation, and module/startup wiring are left out.
