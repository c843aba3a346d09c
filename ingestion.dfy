/** `ArticleIngestionService` (app/services/ingestion/article_ingestion_service.py):
    configuration, the single news-feed request and the queueing loop.

    The HTTP call is a parameter `get` from the request sent to its outcome,
    and the work queue is a `WorkQueue` object handed to the queueing method. */
module Ingestion {
  import opened Wrappers
  import opened PyText
  import Config

  /** A feed entry: a JSON object, passed on without inspection. */
  datatype Article = Article(fields: map<string, string>)

  datatype InitError = MissingNewsApiKey | MissingBaseUrl

  /** The configured service: fields set once by the constructor. */
  datatype IngestionService = IngestionService(
    newsApiKey: string,
    newsApiBaseUrl: string,
    endpoint: string,
    params: seq<(string, string)>)

  /** `value or fallback` for an argument that may be None or "". */
  function Resolve(value: Option<string>, fallback: Option<string>): (r: Option<string>)
    ensures Truthy(value) ==> r == value
    ensures !Truthy(value) ==> r == fallback
  {
    if Truthy(value) then value else fallback
  }

  /** The fixed query parameters every request carries. */
  function FeedParams(key: string): (p: seq<(string, string)>)
    ensures |p| == 3 && p[2] == ("apiKey", key)
    ensures p[0] == ("q", "financial") && p[1] == ("sortBy", "publishedAt")
  {
    [("q", "financial"), ("sortBy", "publishedAt"), ("apiKey", key)]
  }

  /** `ArticleIngestionService.__init__`: key and base URL fall back to the
      settings when the argument is falsy; the key is validated before the
      base URL; the endpoint is the base URL plus `/everything`. */
  function NewIngestionService(settings: Config.Settings, newsApiKey: Option<string>, newsApiBaseUrl: Option<string>)
    : (r: Result<IngestionService, InitError>)
    ensures var key := Resolve(newsApiKey, settings.newsApiKey);
            var base := Resolve(newsApiBaseUrl, Some(settings.newsApiBaseUrl));
      && (!Truthy(key) ==> r == Failure(MissingNewsApiKey))
      && (Truthy(key) && !Truthy(base) ==> r == Failure(MissingBaseUrl))
      && (r.Success? <==> Truthy(key) && Truthy(base))
      && (r.Success? ==>
            && r.value.newsApiKey == key.value
            && r.value.newsApiBaseUrl == base.value
            && r.value.endpoint == base.value + "/everything"
            && r.value.params == FeedParams(key.value))
  {
    var key := Resolve(newsApiKey, settings.newsApiKey);
    var base := Resolve(newsApiBaseUrl, Some(settings.newsApiBaseUrl));
    if !Truthy(key) then Failure(MissingNewsApiKey)
    else if !Truthy(base) then Failure(MissingBaseUrl)
    else Success(IngestionService(key.value, base.value, base.value + "/everything", FeedParams(key.value)))
  }

  /** The GET request sent to the feed. */
  datatype HttpRequest = HttpGet(url: string, params: seq<(string, string)>)

  /** What `response.json()` yields: not JSON at all, JSON that is not an
      object, or an object whose `articles` field may be missing. */
  datatype Body = NotJson | NotAnObject | Object(articles: Option<seq<Article>>)

  /** What `requests.get` yields: a transport failure or a response. */
  datatype HttpOutcome = RequestFailed | Response(status: int, body: Body)

  /** `raise_for_status` raises for client and server errors. */
  predicate IsHttpError(status: int) {
    400 <= status < 600
  }

  datatype Fetched = Fetched(articles: seq<Article>, sent: HttpRequest)

  /** `fetch_articles`: one request with the configured endpoint and
      parameters; the `articles` list of a successful JSON object response,
      `[]` for a missing field and for every failure. */
  function FetchArticles(svc: IngestionService, query: string, fromDate: string, toDate: string,
                         get: HttpRequest -> HttpOutcome): (f: Fetched)
    ensures f.sent == HttpGet(svc.endpoint, svc.params)
    ensures f.articles != [] ==>
      var outcome := get(f.sent);
      && outcome.Response? && !IsHttpError(outcome.status)
      && outcome.body.Object? && outcome.body.articles == Some(f.articles)
    ensures match get(f.sent)
      case Response(status, Object(Some(articles))) => !IsHttpError(status) ==> f.articles == articles
      case _ => f.articles == []
  {
    var request := HttpGet(svc.endpoint, svc.params);
    var articles := match get(request)
      case RequestFailed => []
      case Response(status, body) =>
        if IsHttpError(status) then []
        else match body
          case Object(articles) => articles.GetOr([])
          case _ => [];
    Fetched(articles, request)
  }

  /** The query and date arguments have no effect on what is fetched. */
  lemma FetchIgnoresArguments(svc: IngestionService, q1: string, f1: string, t1: string,
                              q2: string, f2: string, t2: string, get: HttpRequest -> HttpOutcome)
    ensures FetchArticles(svc, q1, f1, t1, get) == FetchArticles(svc, q2, f2, t2, get)
  {
  }

  /** A work queue whose `put` may raise: `accepts(items, a)` says whether
      putting `a` onto a queue holding `items` succeeds. */
  class WorkQueue {
    var items: seq<Article>
    const accepts: (seq<Article>, Article) -> bool

    constructor (accepts: (seq<Article>, Article) -> bool)
      ensures items == [] && this.accepts == accepts
    {
      items := [];
      this.accepts := accepts;
    }

    /** `put`: appends the article, or raises and leaves the queue as it was. */
    method Put(a: Article) returns (ok: bool)
      modifies this
      ensures ok == accepts(old(items), a)
      ensures items == if ok then old(items) + [a] else old(items)
    {
      ok := accepts(items, a);
      if ok {
        items := items + [a];
      }
    }
  }

  /** How many of `articles`, put in order onto a queue holding `queued`,
      go in before the first put that raises. */
  function Enqueued(accepts: (seq<Article>, Article) -> bool, queued: seq<Article>, articles: seq<Article>): (n: nat)
    ensures n <= |articles|
    ensures forall i :: 0 <= i < n ==> accepts(queued + articles[..i], articles[i])
    ensures n < |articles| ==> !accepts(queued + articles[..n], articles[n])
    decreases |articles|
  {
    assert queued + articles[..0] == queued;
    if articles == [] || !accepts(queued, articles[0]) then 0
    else
      var rest := Enqueued(accepts, queued + [articles[0]], articles[1..]);
      assert forall i :: 1 <= i <= rest + 1 && i <= |articles| ==>
        queued + articles[..i] == queued + [articles[0]] + articles[1..][..i - 1];
      1 + rest
  }

  /** The count is the index of the first refused put, and nothing else. */
  lemma EnqueuedIsFirstRefusal(accepts: (seq<Article>, Article) -> bool, queued: seq<Article>,
                               articles: seq<Article>, k: nat)
    requires k <= |articles|
    requires forall i :: 0 <= i < k ==> accepts(queued + articles[..i], articles[i])
    requires k < |articles| ==> !accepts(queued + articles[..k], articles[k])
    ensures Enqueued(accepts, queued, articles) == k
  {
  }

  /** `queue_articles`: puts the articles in order; the first put that raises
      ends the loop, its exception is swallowed and `[]` is returned (Python's
      `None` otherwise). Articles put before the failure stay queued. */
  method QueueArticles(queue: WorkQueue, articles: seq<Article>) returns (r: Option<seq<Article>>)
    modifies queue
    ensures var n := Enqueued(queue.accepts, old(queue.items), articles);
      && queue.items == old(queue.items) + articles[..n]
      && (r == None <==> n == |articles|)
      && (r.Some? ==> r.value == [])
  {
    ghost var start := queue.items;
    var i := 0;
    while i < |articles|
      invariant 0 <= i <= |articles|
      invariant queue.items == start + articles[..i]
      invariant forall j :: 0 <= j < i ==> queue.accepts(start + articles[..j], articles[j])
    {
      var ok := queue.Put(articles[i]);
      if !ok {
        EnqueuedIsFirstRefusal(queue.accepts, start, articles, i);
        return Some([]);
      }
      assert articles[..i + 1] == articles[..i] + [articles[i]];
      i := i + 1;
    }
    EnqueuedIsFirstRefusal(queue.accepts, start, articles, i);
    assert articles[..i] == articles;
    r := None;
  }

  /** `queue_articles` as written reads `self.queue`, which the constructor
      never assigns: the first iteration raises, and the loop ends with
      nothing queued. */
  function QueueArticlesAsWritten(articles: seq<Article>): (r: Option<seq<Article>>)
    ensures r == None <==> articles == []
    ensures r.Some? ==> r.value == []
  {
    if articles == [] then None else Some([])
  }

  /** The as-written loop is `QueueArticles` over a queue that refuses every put. */
  method QueueArticlesWithoutQueue(articles: seq<Article>) returns (r: Option<seq<Article>>, queued: seq<Article>)
    ensures r == QueueArticlesAsWritten(articles)
    ensures queued == []
  {
    var q := new WorkQueue((_, _) => false);
    r := QueueArticles(q, articles);
    queued := q.items;
  }

  /** The missing attribute behaves as a queue refusing every put: a
      non-empty batch is dropped, where an accepting queue takes all of it. */
  lemma MissingQueueDropsBatch(articles: seq<Article>, queued: seq<Article>)
    requires articles != []
    ensures QueueArticlesAsWritten(articles) == Some([])
    ensures Enqueued((_, _) => false, queued, articles) == 0
    ensures Enqueued((_, _) => true, queued, articles) == |articles|
  {
  }
}
