/** `LLMService` (app/services/llm/ai_service.py): the three enrichment stages
    around an opaque language-model call.

    The chat-completion client is a parameter `ask`: it maps the request a
    stage sends to an `Outcome`, which is `Failed` for every path the source
    routes to its `except` handlers (an OpenAI error, a reply that is not
    JSON, a message without content, fields of the wrong type) and
    `Reply(fields)` otherwise. Each stage returns the request it sent, if any,
    beside its result, so that "the capability is not called" is visible. */
module LlmService {
  import opened Wrappers
  import opened PyText
  import Config

  /** `MAX_CONTENT_LENGTH`: the longest article body a stage sends unchanged. */
  const MaxContentLength: nat := 2000
  /** The default `max_length` of `summarize_article`. */
  const DefaultMaxLength: int := 200
  /** The marker appended when text is cut. */
  const Ellipsis: string := "..."

  /** The configured service: fields set once by the constructor and never changed. */
  datatype LLMService = LLMService(apiKey: string, model: string, timeout: nat)

  datatype InitError = MissingApiKey | LibraryMissing

  function InitMessage(e: InitError): (m: string)
    ensures e.MissingApiKey? ==> "OpenAI API key is required" <= m
    ensures e.LibraryMissing? ==> "OpenAI library not installed" <= m
  {
    match e
    case MissingApiKey => "OpenAI API key is required. Set OPENAI_API_KEY in .env"
    case LibraryMissing => "OpenAI library not installed. Install with: pip install openai"
  }

  /** `LLMService.__init__`: a truthy `api_key` argument is used verbatim,
      otherwise `OPENAI_API_KEY` from the settings; an empty resolved key is
      refused first, then a missing client library. */
  function NewLLMService(settings: Config.Settings, apiKey: Option<string>, libraryAvailable: bool)
    : (r: Result<LLMService, InitError>)
    ensures var key := if Truthy(apiKey) then apiKey.value else settings.openAiApiKey;
      && (key == "" ==> r == Failure(MissingApiKey))
      && (key != "" && !libraryAvailable ==> r == Failure(LibraryMissing))
      && (r.Success? <==> key != "" && libraryAvailable)
      && (r.Success? ==> r.value == LLMService(key, "gpt-4o-mini", 30))
  {
    var key := if Truthy(apiKey) then apiKey.value else settings.openAiApiKey;
    if key == "" then Failure(MissingApiKey)
    else if !libraryAvailable then Failure(LibraryMissing)
    else Success(LLMService(key, "gpt-4o-mini", 30))
  }

  /** What a stage sends to the capability; the prompt wording around these
      values is not modelled. */
  datatype Request =
    | RelevanceRequest(title: string, content: string, tickers: seq<string>)
    | SummaryRequest(title: string, content: string, maxLength: int)
    | SentimentRequest(title: string, content: string)

  datatype Outcome<T> = Failed | Reply(fields: T)

  /** A stage's result and the request it sent, `None` when it sent none. */
  datatype Call<T> = Call(result: T, asked: Option<Request>)

  /** The parsed relevance reply; a field the JSON object lacks is `None`. */
  datatype RelevanceReply = RelevanceReply(relevant: Option<bool>, companies: Option<seq<string>>, confidence: Option<real>)
  /** The parsed sentiment reply; a field the JSON object lacks is `None`. */
  datatype SentimentReply = SentimentReply(sentimentScore: Option<real>, sentimentLabel: Option<string>, confidence: Option<real>)

  /** `RelevanceResult` of app/schemas/schemas_v1.py. */
  datatype RelevanceResult = RelevanceResult(relevant: bool, companies: seq<string>, confidence: real)
  /** `SentimentResult` of app/schemas/schemas_v1.py. */
  datatype SentimentResult = SentimentResult(sentimentScore: real, sentimentLabel: string, confidence: real)

  /** Caps an article body at `MaxContentLength` characters, marking the cut. */
  function TruncateContent(content: string): (r: string)
    ensures |content| <= MaxContentLength ==> r == content
    ensures MaxContentLength < |content| ==> |r| == MaxContentLength + |Ellipsis|
    ensures MaxContentLength < |content| ==> content[..MaxContentLength] <= r && r[MaxContentLength..] == Ellipsis
  {
    if |content| > MaxContentLength then content[..MaxContentLength] + Ellipsis else content
  }

  /** Truncation never yields more than the cap plus the marker. */
  lemma TruncateBound(content: string)
    ensures |TruncateContent(content)| <= MaxContentLength + |Ellipsis|
    ensures TruncateContent(content) != [] <==> content != []
  {
  }

  /** Truncating already-truncated content changes nothing. */
  lemma TruncateIdempotent(content: string)
    ensures TruncateContent(TruncateContent(content)) == TruncateContent(content)
  {
  }

  const NoTickers: RelevanceResult := RelevanceResult(false, [], 0.0)
  const FailOpen: RelevanceResult := RelevanceResult(true, [], 0.5)

  /** `check_relevance`: the relevance gate. */
  function CheckRelevance(title: string, content: string, tickers: seq<string>,
                          ask: Request -> Outcome<RelevanceReply>): (c: Call<RelevanceResult>)
    ensures tickers == [] ==> c == Call(NoTickers, None)
    ensures tickers != [] ==> c.asked == Some(RelevanceRequest(title, TruncateContent(content), tickers))
    ensures tickers != [] ==>
      match ask(c.asked.value)
      case Failed => c.result == FailOpen
      case Reply(x) => c.result == RelevanceResult(x.relevant.GetOr(false), x.companies.GetOr([]),
                                                  x.confidence.GetOr(0.0))
  {
    if tickers == [] then Call(NoTickers, None)
    else
      var request := RelevanceRequest(title, TruncateContent(content), tickers);
      var result := match ask(request)
        case Failed => FailOpen
        case Reply(x) => RelevanceResult(x.relevant.GetOr(false), x.companies.GetOr([]), x.confidence.GetOr(0.0));
      Call(result, Some(request))
  }

  /** The gate fails open: a tracked-ticker list and a failed call let the article through. */
  lemma RelevanceFailsOpen(title: string, content: string, tickers: seq<string>,
                           ask: Request -> Outcome<RelevanceReply>)
    requires tickers != [] && ask(RelevanceRequest(title, TruncateContent(content), tickers)).Failed?
    ensures CheckRelevance(title, content, tickers, ask).result.relevant
    ensures CheckRelevance(title, content, tickers, ask).result.confidence == 0.5
  {
  }

  /** A reply longer than `maxLength`, cut to `maxLength` characters, then back
      to before its last space, with the marker appended. */
  function CutSummary(summary: string, maxLength: int): (r: string)
    ensures |Ellipsis| <= |r| && r[|r| - |Ellipsis|..] == Ellipsis
    ensures r[..|r| - |Ellipsis|] <= SlicePrefix(summary, maxLength)
    ensures 0 <= maxLength ==> |r| <= maxLength + |Ellipsis|
  {
    BeforeLastSpace(SlicePrefix(summary, maxLength)) + Ellipsis
  }

  /** The fallback summary: the (already truncated) body, cut to `maxLength` with the marker when longer. */
  function FallbackSummary(content: string, maxLength: int): (r: string)
    ensures |content| <= maxLength ==> r == content
    ensures maxLength < |content| ==> r == SlicePrefix(content, maxLength) + Ellipsis
    ensures content != [] ==> r != []
  {
    if |content| > maxLength then SlicePrefix(content, maxLength) + Ellipsis else content
  }

  /** `summarize_article`. */
  function Summarize(title: string, content: string, maxLength: int,
                     ask: Request -> Outcome<string>): (c: Call<string>)
    ensures c.asked == Some(SummaryRequest(title, TruncateContent(content), maxLength))
    ensures
      match ask(c.asked.value)
      case Failed => c.result == FallbackSummary(TruncateContent(content), maxLength)
      case Reply(text) =>
        && (|Strip(text)| <= maxLength ==> c.result == Strip(text))
        && (maxLength < |Strip(text)| ==> c.result == CutSummary(Strip(text), maxLength))
  {
    var truncated := TruncateContent(content);
    var request := SummaryRequest(title, truncated, maxLength);
    var result := match ask(request)
      case Failed => FallbackSummary(truncated, maxLength)
      case Reply(text) =>
        var summary := Strip(text);
        if |summary| > maxLength then CutSummary(summary, maxLength) else summary;
    Call(result, Some(request))
  }

  /** Whatever the capability does, a summary is at most `maxLength` plus the marker long. */
  lemma SummaryBound(title: string, content: string, maxLength: int, ask: Request -> Outcome<string>)
    requires 0 <= maxLength
    ensures |Summarize(title, content, maxLength, ask).result| <= maxLength + |Ellipsis|
  {
  }

  /** With the default `max_length`, no summary exceeds 203 characters. */
  lemma DefaultSummaryBound(title: string, content: string, ask: Request -> Outcome<string>)
    ensures |Summarize(title, content, DefaultMaxLength, ask).result| <= 203
  {
    SummaryBound(title, content, DefaultMaxLength, ask);
  }

  /** An over-long reply is cut at a whole word: what precedes the marker is a
      prefix of the stripped reply that either is the whole first `maxLength`
      characters (they hold no space) or ends just before the last space among them. */
  lemma SummaryCutsAtWord(title: string, content: string, maxLength: int, ask: Request -> Outcome<string>)
    requires 0 <= maxLength
    requires ask(SummaryRequest(title, TruncateContent(content), maxLength)).Reply?
    requires maxLength < |Strip(ask(SummaryRequest(title, TruncateContent(content), maxLength)).fields)|
    ensures var s := Strip(ask(SummaryRequest(title, TruncateContent(content), maxLength)).fields);
      var r := Summarize(title, content, maxLength, ask).result;
      var w := r[..|r| - |Ellipsis|];
      && r == w + Ellipsis
      && w <= s && |w| <= maxLength
      && (|w| == maxLength <==> ' ' !in s[..maxLength])
      && (|w| < maxLength ==> s[|w|] == ' ' && ' ' !in s[|w| + 1..maxLength])
  {
  }

  /** On failure the fallback is never empty for a non-empty article body. */
  lemma SummaryFallbackNonEmpty(title: string, content: string, maxLength: int, ask: Request -> Outcome<string>)
    requires content != []
    requires ask(SummaryRequest(title, TruncateContent(content), maxLength)).Failed?
    ensures Summarize(title, content, maxLength, ask).result != []
  {
  }

  const NeutralOnFailure: SentimentResult := SentimentResult(0.0, "neutral", 0.0)

  /** `classify_sentiment`: fields pass through unclamped, with defaults for missing ones. */
  function ClassifySentiment(title: string, content: string,
                             ask: Request -> Outcome<SentimentReply>): (c: Call<SentimentResult>)
    ensures c.asked == Some(SentimentRequest(title, TruncateContent(content)))
    ensures
      match ask(c.asked.value)
      case Failed => c.result == NeutralOnFailure
      case Reply(x) => c.result == SentimentResult(x.sentimentScore.GetOr(0.0), x.sentimentLabel.GetOr("neutral"),
                                                  x.confidence.GetOr(0.5))
  {
    var request := SentimentRequest(title, TruncateContent(content));
    var result := match ask(request)
      case Failed => NeutralOnFailure
      case Reply(x) => SentimentResult(x.sentimentScore.GetOr(0.0), x.sentimentLabel.GetOr("neutral"), x.confidence.GetOr(0.5));
    Call(result, Some(request))
  }

  /** A reported score reaches the result as it is, even outside [-1, 1]. */
  lemma SentimentNotClamped(title: string, content: string, score: real)
    ensures ClassifySentiment(title, content,
              _ => Reply(SentimentReply(Some(score), None, None))).result.sentimentScore == score
  {
  }

  /** A reply with no fields is not the failure default: its confidence is 0.5, not 0.0. */
  lemma EmptyReplyIsNotFailure(title: string, content: string)
    ensures ClassifySentiment(title, content, _ => Reply(SentimentReply(None, None, None))).result
         == SentimentResult(0.0, "neutral", 0.5)
    ensures ClassifySentiment(title, content, _ => Failed).result != 
            ClassifySentiment(title, content, _ => Reply(SentimentReply(None, None, None))).result
  {
  }

  /** All three stages send the same, truncated, body whenever they call the capability. */
  lemma StagesShareTruncation(title: string, content: string, tickers: seq<string>, maxLength: int,
                              relevance: Request -> Outcome<RelevanceReply>,
                              summary: Request -> Outcome<string>,
                              sentiment: Request -> Outcome<SentimentReply>)
    requires tickers != []
    ensures var t := TruncateContent(content);
      && CheckRelevance(title, content, tickers, relevance).asked.value.content == t
      && Summarize(title, content, maxLength, summary).asked.value.content == t
      && ClassifySentiment(title, content, sentiment).asked.value.content == t
      && |t| <= MaxContentLength + |Ellipsis|
  {
  }
}
