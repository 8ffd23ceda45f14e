/**
 * The news-sentiment strategy: renders a numbered news list into the prompt,
 * extracts and validates the model's JSON decision, and maps the sentiment
 * to a trading action.
 */
module NewsSentiment {
  import opened Wrappers
  import opened OracleErrors
  import opened OracleStrategy
  import opened JsonValues
  import opened NewsService

  // ---------------------------------------------------------------------
  // Prompt construction
  // ---------------------------------------------------------------------

  /** The fixed instructions that precede the news block. */
  const PromptHeader: string :=
    "You are a crypto sentiment classifier.\n\n" +
    "Evaluate the overall sentiment for ETH based on the following news.\n\n" +
    "Return ONLY valid JSON with no extra text, no markdown, no code blocks:\n\n" +
    "{\"sentiment\":\"POSITIVE\"|\"NEGATIVE\"|\"NEUTRAL\",\"confidence\":number}\n\n" +
    "News:\n"

  ghost predicate IsDigits(s: string) {
    forall k :: 0 <= k < |s| ==> '0' <= s[k] <= '9'
  }

  function Digit(d: nat): (c: char)
    requires d < 10
    ensures '0' <= c <= '9' && (c as int) - ('0' as int) == d
  {
    "0123456789"[d]
  }

  /** The decimal text of a natural number, as a template literal renders it. */
  function DecimalString(n: nat): (s: string)
    ensures |s| > 0 && IsDigits(s)
    ensures n > 0 ==> s[0] != '0'
    decreases n
  {
    if n < 10 then [Digit(n)] else DecimalString(n / 10) + [Digit(n % 10)]
  }

  /** Reads decimal digits back as the number they denote. */
  function DecimalValue(s: string): nat
    requires IsDigits(s)
  {
    if s == [] then 0
    else DecimalValue(s[..|s| - 1]) * 10 + ((s[|s| - 1] as int) - ('0' as int))
  }

  /** Rendering a number and reading it back gives the number: item numbers are never confused. */
  lemma {:induction false} DecimalRoundTrip(n: nat)
    ensures DecimalValue(DecimalString(n)) == n
    decreases n
  {
    var s := DecimalString(n);
    if n >= 10 {
      assert s[..|s| - 1] == DecimalString(n / 10);
      DecimalRoundTrip(n / 10);
    }
  }

  /** `Array.prototype.join`: the parts with `sep` between neighbours; empty for no parts. */
  function Join(parts: seq<string>, sep: string): (r: string)
    ensures |parts| == 0 ==> r == ""
    ensures |parts| > 0 ==> |r| >= |parts[0]| && r[..|parts[0]|] == parts[0]
  {
    if |parts| == 0 then ""
    else if |parts| == 1 then parts[0]
    else parts[0] + sep + Join(parts[1..], sep)
  }

  /** Joining one more part adds exactly a separator and that part at the end. */
  lemma {:induction false} JoinAppend(parts: seq<string>, x: string, sep: string)
    requires |parts| > 0
    ensures Join(parts + [x], sep) == Join(parts, sep) + sep + x
    decreases |parts|
  {
    if |parts| == 1 {
      assert (parts + [x])[1..] == [x];
    } else {
      assert (parts + [x])[1..] == parts[1..] + [x];
      JoinAppend(parts[1..], x, sep);
    }
  }

  /** Item `i` (0-based) of the news block. */
  function RenderItem(i: nat, item: NewsItem): (line: string)
    ensures var n := DecimalString(i + 1);
      |line| > |n| && line[..|n|] == n && DecimalValue(n) == i + 1
  {
    DecimalRoundTrip(i + 1);
    DecimalString(i + 1) + ". Title: " + item.title + "\n   Summary: " + item.description
  }

  function RenderedItems(items: seq<NewsItem>): (lines: seq<string>)
    ensures |lines| == |items|
  {
    seq(|items|, i requires 0 <= i < |items| => RenderItem(i, items[i]))
  }

  /** The news block: the rendered items, in input order, joined by newlines. */
  function NewsLines(items: seq<NewsItem>): (block: string)
    ensures |items| == 0 ==> block == ""
    ensures |items| > 0 ==>
      |block| >= |RenderItem(0, items[0])| && block[..|RenderItem(0, items[0])|] == RenderItem(0, items[0])
  {
    Join(RenderedItems(items), "\n")
  }

  /**
   * `buildPrompt`: the fixed instructions, ending in "News:\n", followed by
   * the news block, which opens with item number 1 when there is one.
   */
  function BuildPrompt(input: seq<NewsItem>): (p: string)
    ensures |p| >= |PromptHeader| && p[..|PromptHeader|] == PromptHeader
    ensures |input| > 0 ==>
      var first := RenderItem(0, input[0]);
      |p| >= |PromptHeader| + |first| && p[|PromptHeader|..|PromptHeader| + |first|] == first
  {
    PromptHeader + NewsLines(input)
  }

  /** An empty list leaves the prompt ending at "News:\n". */
  lemma PromptOfNoNews()
    ensures BuildPrompt([]) == PromptHeader
    ensures PromptHeader[|PromptHeader| - 6..] == "News:\n"
  {
  }

  /** A single item is rendered with the number 1 right after the header. */
  lemma PromptOfOneItem(item: NewsItem)
    ensures BuildPrompt([item]) ==
      PromptHeader + "1. Title: " + item.title + "\n   Summary: " + item.description
  {
    assert RenderedItems([item]) == [RenderItem(0, item)];
  }

  /**
   * Appending an item to a non-empty list appends a newline and that item,
   * numbered one past the previous last: items keep their input order and
   * item `i` carries the number `i + 1`.
   */
  lemma {:induction false} PromptAppend(items: seq<NewsItem>, x: NewsItem)
    requires |items| > 0
    ensures BuildPrompt(items + [x]) == BuildPrompt(items) + "\n" + RenderItem(|items|, x)
  {
    var last := RenderItem(|items|, x);
    NewsLinesAppend(items, x);
    assert PromptHeader + (NewsLines(items) + "\n" + last) == PromptHeader + NewsLines(items) + "\n" + last;
  }

  /** The news block grows by a newline and the next numbered item. */
  lemma NewsLinesAppend(items: seq<NewsItem>, x: NewsItem)
    requires |items| > 0
    ensures NewsLines(items + [x]) == NewsLines(items) + "\n" + RenderItem(|items|, x)
  {
    var lines, last := RenderedItems(items), RenderItem(|items|, x);
    assert RenderedItems(items + [x]) == lines + [last];
    JoinAppend(lines, last, "\n");
  }

  /** The number of occurrences of `c` in `s`. */
  function Count(s: string, c: char): nat {
    if s == [] then 0 else (if s[0] == c then 1 else 0) + Count(s[1..], c)
  }

  lemma {:induction false} CountConcat(s: string, t: string, c: char)
    ensures Count(s + t, c) == Count(s, c) + Count(t, c)
    decreases |s|
  {
    if s != [] {
      assert (s + t)[0] == s[0];
      assert (s + t)[1..] == s[1..] + t;
      CountConcat(s[1..], t, c);
    } else {
      assert s + t == t;
    }
  }

  lemma {:induction false} CountAbsent(s: string, c: char)
    requires c !in s
    ensures Count(s, c) == 0
    decreases |s|
  {
    if s != [] {
      CountAbsent(s[1..], c);
    }
  }

  /** No title or description spans several lines. */
  ghost predicate SingleLineFields(items: seq<NewsItem>) {
    forall k :: 0 <= k < |items| ==>
      '\n' !in items[k].title && '\n' !in items[k].description
  }

  lemma TitleLabelNewlines()
    ensures Count(". Title: ", '\n') == 0
  {
    CountAbsent(". Title: ", '\n');
  }

  lemma SummaryLabelNewlines()
    ensures Count("\n   Summary: ", '\n') == 1
  {
    CountAbsent("   Summary: ", '\n');
    assert "\n   Summary: "[1..] == "   Summary: ";
  }

  lemma CountConcat5(a: string, b: string, c: string, d: string, e: string, ch: char)
    ensures Count(a + b + c + d + e, ch) == Count(a, ch) + Count(b, ch) + Count(c, ch) + Count(d, ch) + Count(e, ch)
  {
    CountConcat(a, b, ch);
    CountConcat(a + b, c, ch);
    CountConcat(a + b + c, d, ch);
    CountConcat(a + b + c + d, e, ch);
  }

  /** A rendered item with single-line fields spans exactly two lines. */
  lemma RenderItemNewlines(i: nat, item: NewsItem)
    requires '\n' !in item.title && '\n' !in item.description
    ensures Count(RenderItem(i, item), '\n') == 1
  {
    var d := DecimalString(i + 1);
    assert '\n' !in d;
    CountAbsent(d, '\n');
    CountAbsent(item.title, '\n');
    CountAbsent(item.description, '\n');
    TitleLabelNewlines();
    SummaryLabelNewlines();
    CountConcat5(d, ". Title: ", item.title, "\n   Summary: ", item.description, '\n');
  }

  /**
   * With single-line fields, a non-empty news block spans exactly two lines
   * per item: each item contributes one inner newline and the join one
   * between neighbours.
   */
  lemma {:induction false} NewsLinesNewlines(items: seq<NewsItem>)
    requires |items| > 0 && SingleLineFields(items)
    ensures Count(NewsLines(items), '\n') == 2 * |items| - 1
    decreases |items|
  {
    var n := |items|;
    if n == 1 {
      assert RenderedItems(items) == [RenderItem(0, items[0])];
      RenderItemNewlines(0, items[0]);
    } else {
      var init := items[..n - 1];
      assert items == init + [items[n - 1]];
      assert RenderedItems(items) == RenderedItems(init) + [RenderItem(n - 1, items[n - 1])];
      JoinAppend(RenderedItems(init), RenderItem(n - 1, items[n - 1]), "\n");
      NewsLinesNewlines(init);
      RenderItemNewlines(n - 1, items[n - 1]);
      CountConcat(NewsLines(init), "\n", '\n');
      CountConcat(NewsLines(init) + "\n", RenderItem(n - 1, items[n - 1]), '\n');
    }
  }

  // ---------------------------------------------------------------------
  // Extraction of the JSON candidate: the greedy match of /\{[\s\S]*\}/
  // ---------------------------------------------------------------------

  /** A `{` at `i` and a later `}` at `j`: a span the pattern can match. */
  ghost predicate BraceSpan(raw: string, i: int, j: int) {
    0 <= i < j < |raw| && raw[i] == '{' && raw[j] == '}'
  }

  /** The first index of `c` in `s`, if any. */
  function FirstIndex(s: string, c: char): (r: Option<nat>)
    ensures r.None? <==> forall k :: 0 <= k < |s| ==> s[k] != c
    ensures r.Some? ==> r.value < |s| && s[r.value] == c
    ensures r.Some? ==> forall k :: 0 <= k < r.value ==> s[k] != c
    decreases |s|
  {
    if |s| == 0 then None
    else if s[0] == c then Some(0)
    else match FirstIndex(s[1..], c)
      case None => None
      case Some(k) => Some(k + 1)
  }

  /** The last index of `c` in `s`, if any. */
  function LastIndex(s: string, c: char): (r: Option<nat>)
    ensures r.None? <==> forall k :: 0 <= k < |s| ==> s[k] != c
    ensures r.Some? ==> r.value < |s| && s[r.value] == c
    ensures r.Some? ==> forall k :: r.value < k < |s| ==> s[k] != c
    decreases |s|
  {
    if |s| == 0 then None
    else if s[|s| - 1] == c then Some(|s| - 1)
    else LastIndex(s[..|s| - 1], c)
  }

  /**
   * The span the pattern matches: from the first `{` to the last `}`, when
   * that `}` comes after that `{`. It exists exactly when some span does,
   * and then it is the leftmost and the longest, enclosing every other span.
   */
  function MatchSpan(raw: string): (r: Option<(nat, nat)>)
    ensures r.None? <==> forall i, j :: !BraceSpan(raw, i, j)
    ensures r.Some? ==> BraceSpan(raw, r.value.0, r.value.1)
    ensures r.Some? ==> forall i, j :: BraceSpan(raw, i, j) ==> r.value.0 <= i && j <= r.value.1
  {
    match (FirstIndex(raw, '{'), LastIndex(raw, '}'))
    case (Some(i), Some(j)) =>
      if i < j then
        assert BraceSpan(raw, i, j);
        Some((i, j))
      else None
    case (None, _) => None
    case (_, None) => None
  }

  /** The matched text, `jsonMatch[0]`, if the pattern matches. */
  function Candidate(raw: string): (r: Option<string>)
    ensures r.None? <==> forall i, j :: !BraceSpan(raw, i, j)
    ensures r.Some? ==> |r.value| >= 2 && r.value[0] == '{' && r.value[|r.value| - 1] == '}'
  {
    match MatchSpan(raw)
    case None => None
    case Some((i, j)) => Some(raw[i..j + 1])
  }

  /** Without any `{` there is nothing to match. */
  lemma NoOpeningBraceNoCandidate(raw: string)
    requires '{' !in raw
    ensures Candidate(raw) == None
  {
    forall i, j ensures !BraceSpan(raw, i, j) {
      if 0 <= i < |raw| {
        assert raw[i] in raw;
      }
    }
  }

  /**
   * A text that itself opens with `{` and closes with `}` is its own
   * candidate, whatever lies between: two objects side by side are taken
   * together as one candidate.
   */
  lemma WholeTextCandidate(raw: string)
    requires |raw| >= 2 && raw[0] == '{' && raw[|raw| - 1] == '}'
    ensures Candidate(raw) == Some(raw)
  {
    assert BraceSpan(raw, 0, |raw| - 1);
    assert raw[0..|raw|] == raw;
  }

  /**
   * Prose before the first `{` and after the last `}` is cut away: the
   * candidate of the surrounded text is the object text itself.
   */
  lemma SurroundedCandidate(prefix: string, body: string, suffix: string)
    requires '{' !in prefix && '}' !in suffix
    requires |body| >= 2 && body[0] == '{' && body[|body| - 1] == '}'
    ensures Candidate(prefix + body + suffix) == Some(body)
  {
    var raw := prefix + body + suffix;
    var i, j := |prefix|, |prefix| + |body| - 1;
    assert BraceSpan(raw, i, j);
    var span := MatchSpan(raw).value;
    assert span.0 <= i && j <= span.1;
    assert raw[i..j + 1] == body;
  }

  // ---------------------------------------------------------------------
  // Validation of the decision
  // ---------------------------------------------------------------------

  const NoJsonMessage: string := "No JSON object found in response"
  const ParseFailurePrefix: string := "Failed to parse LLM response as JSON. Raw: "
  const SchemaFailurePrefix: string := "Invalid decision schema. Parsed: "
  /** What reading a property of `null` throws. */
  const NullPropertyError: Failure := OtherError("TypeError", "Cannot read properties of null (reading 'sentiment')")

  /** The try block: the candidate parsed, or the error raised while finding or parsing it. */
  function ParseCandidate(rt: JsonRuntime, raw: string): (r: Result<Json, Failure>)
    ensures Candidate(raw).None? ==> r == Failure(PlainError(NoJsonMessage))
    ensures Candidate(raw).Some? ==> r == rt.parse(Candidate(raw).value)
    ensures ParsesBracesToObjects(rt) && r.Success? ==> r.value.Obj?
  {
    match Candidate(raw)
    case None => Failure(PlainError(NoJsonMessage))
    case Some(text) => rt.parse(text)
  }

  /**
   * The decision schema, stated on the object's own fields: `sentiment` is a
   * string among the three tags and `confidence` is a number.
   */
  ghost predicate ValidSchema(fields: map<string, Json>) {
    && "sentiment" in fields && fields["sentiment"].Str?
    && fields["sentiment"].s in SentimentTags
    && "confidence" in fields && fields["confidence"].Num?
  }

  /** The schema check on the parsed value. */
  function ValidateDecision(rt: JsonRuntime, parsed: Json): (r: Result<Decision, Failure>)
    ensures r.Failure? && !r.error.OracleExecutionError? ==> parsed.Null?
  {
    if parsed.Null? then Failure(NullPropertyError)
    else
      var schemaError := Failure(NewOracleExecutionError(SchemaFailurePrefix + rt.stringify(parsed), None));
      match (StringProperty(parsed, "sentiment"), NumberProperty(parsed, "confidence"))
      case (Some(tag), Some(confidence)) =>
        (match SentimentFromTag(tag)
         case Some(sentiment) => Success(Decision(sentiment, confidence))
         case None => schemaError)
      case _ => schemaError
  }

  /** `parseResponse`: extract, parse and check the model's decision. */
  function ParseResponse(rt: JsonRuntime, raw: string): (r: Result<Decision, Failure>)
    ensures r.Failure? && !r.error.OracleExecutionError? ==> ParseCandidate(rt, raw) == Success(Null)
  {
    match ParseCandidate(rt, raw)
    case Failure(e) => Failure(NewOracleExecutionError(ParseFailurePrefix + raw, Some(e)))
    case Success(parsed) => ValidateDecision(rt, parsed)
  }

  /**
   * With the real `JSON.parse`, every failure of `parseResponse` is of the
   * classified kind.
   */
  lemma ParseFailureIsClassified(rt: JsonRuntime, raw: string)
    requires ParsesBracesToObjects(rt)
    ensures ParseResponse(rt, raw).Failure? ==> ParseResponse(rt, raw).error.OracleExecutionError?
  {
    if Candidate(raw).Some? {
      var text := Candidate(raw).value;
      assert rt.parse(text).Success? ==> rt.parse(text).value.Obj?;
    }
  }

  /** No candidate: the classified error carries the raw text and the plain "no JSON" error. */
  lemma NoCandidateRejected(rt: JsonRuntime, raw: string)
    requires forall i, j :: !BraceSpan(raw, i, j)
    ensures ParseResponse(rt, raw) ==
      Failure(OracleExecutionError(ParseFailurePrefix + raw, Some(PlainError(NoJsonMessage))))
  {
  }

  /** A candidate that does not parse: the classified error carries the raw text and the parser's error. */
  lemma UnparsableCandidateRejected(rt: JsonRuntime, raw: string, text: string)
    requires Candidate(raw) == Some(text) && rt.parse(text).Failure?
    ensures ParseResponse(rt, raw) ==
      Failure(OracleExecutionError(ParseFailurePrefix + raw, Some(rt.parse(text).error)))
  {
  }

  /**
   * On a parsed object the call succeeds exactly when the schema holds; it
   * then copies the two fields and ignores every other one, and otherwise
   * throws the classified schema error with no cause. No range is checked
   * on `confidence`.
   */
  lemma ParsedObjectChecked(rt: JsonRuntime, raw: string, fields: map<string, Json>)
    requires ParseCandidate(rt, raw) == Success(Obj(fields))
    ensures ParseResponse(rt, raw).Success? <==> ValidSchema(fields)
    ensures ValidSchema(fields) ==>
      ParseResponse(rt, raw) == Success(Decision(
        SentimentFromTag(fields["sentiment"].s).value, fields["confidence"].n))
    ensures !ValidSchema(fields) ==>
      ParseResponse(rt, raw) ==
        Failure(OracleExecutionError(SchemaFailurePrefix + rt.stringify(Obj(fields)), None))
  {
    var parsed := Obj(fields);
    if ValidSchema(fields) {
      assert StringProperty(parsed, "sentiment") == Some(fields["sentiment"].s);
      assert NumberProperty(parsed, "confidence") == Some(fields["confidence"].n);
    }
  }

  /**
   * A decision returned always comes from a candidate that parsed to an
   * object satisfying the schema, and carries that object's two fields.
   */
  lemma SuccessComesFromValidObject(rt: JsonRuntime, raw: string)
    requires ParseResponse(rt, raw).Success?
    ensures ParseCandidate(rt, raw).Success? && ParseCandidate(rt, raw).value.Obj?
    ensures ValidSchema(ParseCandidate(rt, raw).value.fields)
    ensures SentimentTag(ParseResponse(rt, raw).value.sentiment) ==
      ParseCandidate(rt, raw).value.fields["sentiment"].s
    ensures ParseResponse(rt, raw).value.confidence ==
      ParseCandidate(rt, raw).value.fields["confidence"].n
  {
    var parsed := ParseCandidate(rt, raw).value;
    var d := ParseResponse(rt, raw).value;
    assert StringProperty(parsed, "sentiment").Some?;
    assert SentimentFromTag(StringProperty(parsed, "sentiment").value) == Some(d.sentiment);
  }

  /**
   * Prose around a single object changes nothing: the surrounded text
   * succeeds exactly when the bare object does, with the same decision.
   */
  lemma SurroundingProseIgnored(rt: JsonRuntime, prefix: string, body: string, suffix: string)
    requires '{' !in prefix && '}' !in suffix
    requires |body| >= 2 && body[0] == '{' && body[|body| - 1] == '}'
    ensures ParseResponse(rt, prefix + body + suffix).Success? <==> ParseResponse(rt, body).Success?
    ensures ParseResponse(rt, body).Success? ==>
      ParseResponse(rt, prefix + body + suffix) == ParseResponse(rt, body)
  {
    SurroundedCandidate(prefix, body, suffix);
    WholeTextCandidate(body);
  }

  /** A valid object amid prose yields the decision carried by its two fields. */
  lemma SurroundedObjectAccepted(rt: JsonRuntime, prefix: string, body: string, suffix: string,
                                 fields: map<string, Json>)
    requires '{' !in prefix && '}' !in suffix
    requires |body| >= 2 && body[0] == '{' && body[|body| - 1] == '}'
    requires rt.parse(body) == Success(Obj(fields)) && ValidSchema(fields)
    ensures ParseResponse(rt, prefix + body + suffix) ==
      Success(Decision(SentimentFromTag(fields["sentiment"].s).value, fields["confidence"].n))
  {
    WholeTextCandidate(body);
    ParsedObjectChecked(rt, body, fields);
    SurroundingProseIgnored(rt, prefix, body, suffix);
  }

  // ---------------------------------------------------------------------
  // Mapping
  // ---------------------------------------------------------------------

  /** `mapToTransaction`: POSITIVE buys, NEGATIVE sells, NEUTRAL does nothing. */
  function MapToTransaction(decision: Decision): (a: Action)
    ensures a == Buy <==> decision.sentiment == Positive
    ensures a == Sell <==> decision.sentiment == Negative
    ensures a == NoAction <==> decision.sentiment == Neutral
  {
    match decision.sentiment
    case Positive => Buy
    case Negative => Sell
    case Neutral => NoAction
  }

  /** The action depends on the sentiment alone, and distinct sentiments give distinct actions. */
  lemma MappingIsBijective(d1: Decision, d2: Decision)
    ensures MapToTransaction(d1) == MapToTransaction(d2) <==> d1.sentiment == d2.sentiment
  {
  }

  /** The strategy value the engine drives, over a JSON runtime. */
  function NewsSentimentStrategy(rt: JsonRuntime): (s: Strategy<seq<NewsItem>>)
    ensures forall input :: s.buildPrompt(input) == BuildPrompt(input)
    ensures forall raw :: s.parseResponse(raw) == ParseResponse(rt, raw)
    ensures forall d :: s.mapToTransaction(d) == MapToTransaction(d)
  {
    Strategy(BuildPrompt, raw => ParseResponse(rt, raw), MapToTransaction)
  }
}

/**
 * The unit-test cases of the news-sentiment strategy, stated for any JSON
 * runtime that parses the object texts involved as `JSON.parse` does.
 */
module NewsSentimentExamples {
  import opened Wrappers
  import opened OracleErrors
  import opened OracleStrategy
  import opened JsonValues
  import opened NewsSentiment

  const PositiveText: string := "{\"sentiment\":\"POSITIVE\",\"confidence\":0.82}"
  const UnknownText: string := "{\"sentiment\":\"UNKNOWN\",\"confidence\":0.5}"
  const NoConfidenceText: string := "{\"sentiment\":\"POSITIVE\"}"
  const ProseBody: string := "{\"sentiment\":\"POSITIVE\",\"confidence\":0.9}"
  const ProsePrefix: string := "Here is the result: "
  const ProseSuffix: string := " done."

  /** A bare object with a valid sentiment and confidence is returned field for field. */
  lemma BareObjectAccepted(rt: JsonRuntime)
    requires rt.parse(PositiveText) == Success(Obj(map["sentiment" := Str("POSITIVE"), "confidence" := Num(0.82)]))
    ensures ParseResponse(rt, PositiveText) == Success(Decision(Positive, 0.82))
  {
    WholeTextCandidate(PositiveText);
    ParsedObjectChecked(rt, PositiveText, map["sentiment" := Str("POSITIVE"), "confidence" := Num(0.82)]);
  }

  /** Prose around the object does not prevent extraction. */
  lemma ProseAroundObjectAccepted(rt: JsonRuntime)
    requires rt.parse(ProseBody) == Success(Obj(map["sentiment" := Str("POSITIVE"), "confidence" := Num(0.9)]))
    ensures ParseResponse(rt, ProsePrefix + ProseBody + ProseSuffix) == Success(Decision(Positive, 0.9))
  {
    SurroundedObjectAccepted(rt, ProsePrefix, ProseBody, ProseSuffix,
      map["sentiment" := Str("POSITIVE"), "confidence" := Num(0.9)]);
  }

  /** Text with no braces at all is rejected with the classified error. */
  lemma NotJsonRejected(rt: JsonRuntime)
    ensures ParseResponse(rt, "not json at all") ==
      Failure(OracleExecutionError(ParseFailurePrefix + "not json at all", Some(PlainError(NoJsonMessage))))
  {
    assert '{' !in "not json at all";
    NoOpeningBraceNoCandidate("not json at all");
    NoCandidateRejected(rt, "not json at all");
  }

  /** A sentiment outside the closed set is rejected with the classified error. */
  lemma UnknownSentimentRejected(rt: JsonRuntime)
    requires rt.parse(UnknownText) == Success(Obj(map["sentiment" := Str("UNKNOWN"), "confidence" := Num(0.5)]))
    ensures ParseResponse(rt, UnknownText).Failure?
    ensures ParseResponse(rt, UnknownText).error.OracleExecutionError?
  {
    WholeTextCandidate(UnknownText);
    ParsedObjectChecked(rt, UnknownText, map["sentiment" := Str("UNKNOWN"), "confidence" := Num(0.5)]);
  }

  /** A missing confidence is rejected with the classified error. */
  lemma MissingConfidenceRejected(rt: JsonRuntime)
    requires rt.parse(NoConfidenceText) == Success(Obj(map["sentiment" := Str("POSITIVE")]))
    ensures ParseResponse(rt, NoConfidenceText).Failure?
    ensures ParseResponse(rt, NoConfidenceText).error.OracleExecutionError?
  {
    WholeTextCandidate(NoConfidenceText);
    ParsedObjectChecked(rt, NoConfidenceText, map["sentiment" := Str("POSITIVE")]);
  }
}
