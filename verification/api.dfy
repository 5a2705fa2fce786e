/**
 * The two data endpoints, `GET /api/news` and `POST /api/ingest` (main.py:70-119),
 * over an optional database handle.
 */
module Api {
  import opened Wrappers
  import opened PyText
  import opened Documents
  import opened Articles
  import opened Storage
  import opened Responses

  /** The exact-match filter built from the query parameters, keeping only truthy ones. */
  function BuildFilter(sentiment: Option<string>, ticker: Option<string>): (f: Filter)
    ensures "sentiment" in f <==> Truthy(sentiment)
    ensures "ticker" in f <==> Truthy(ticker)
    ensures "sentiment" in f ==> f["sentiment"] == sentiment.value
    ensures "ticker" in f ==> f["ticker"] == ticker.value
    ensures f.Keys <= {"sentiment", "ticker"}
  {
    var f := if Truthy(sentiment) then map["sentiment" := sentiment.value] else map[];
    if Truthy(ticker) then f["ticker" := ticker.value] else f
  }

  /** An empty string filters nothing, exactly like an absent parameter. */
  lemma EmptyParamIsNoFilter(sentiment: Option<string>, ticker: Option<string>)
    ensures BuildFilter(Some(""), ticker) == BuildFilter(None, ticker)
    ensures BuildFilter(sentiment, Some("")) == BuildFilter(sentiment, None)
    ensures BuildFilter(None, None) == map[]
  {
  }

  /**
   * `list_news(limit, sentiment, ticker)`: without a handle it fails with 500 and
   * touches no storage; otherwise it makes exactly one query on "news" with the
   * built filter and the caller's limit, and answers one response per returned
   * document, in storage order.
   */
  function ListNews(db: Option<Store>, limit: int := 20, sentiment: Option<string> := None,
                    ticker: Option<string> := None)
    : (x: Exchange<seq<NewsResponse>>)
    ensures db.None? ==> x.reply == Err(Unavailable) && x.calls == []
    ensures db.None? ==> StatusCode(x.reply.error) == 500 && Detail(x.reply.error) == "Database not available"
    ensures db.Some? ==> x.calls == [Find(NewsCollection, BuildFilter(sentiment, ticker), limit)]
    ensures x.reply.Ok? ==>
      && db.Some?
      && var found := db.value.find(NewsCollection, BuildFilter(sentiment, ticker), limit);
      && found.Ok?
      && |x.reply.value| == |found.value|
      && forall i :: 0 <= i < |found.value| ==> Project(found.value[i]) == Ok(x.reply.value[i])
    ensures db.Some? && db.value.find(NewsCollection, BuildFilter(sentiment, ticker), limit).Err? ==>
      x.reply == Err(StorageError(db.value.find(NewsCollection, BuildFilter(sentiment, ticker), limit).error))
    ensures db.Some? && db.value.find(NewsCollection, BuildFilter(sentiment, ticker), limit).Ok? ==>
      (x.reply.Ok? <==> forall d :: d in db.value.find(NewsCollection, BuildFilter(sentiment, ticker), limit).value
                          ==> Acceptable(d))
  {
    match db
    case None => Exchange(Err(Unavailable), [])
    case Some(store) =>
      var f := BuildFilter(sentiment, ticker);
      var call := Find(NewsCollection, f, limit);
      match store.find(NewsCollection, f, limit)
      case Err(e) => Exchange(Err(StorageError(e)), [call])
      case Ok(items) => Exchange(ProjectAll(items), [call])
  }

  /** A request without query parameters lists with limit 20 and no filter. */
  lemma ListNewsDefaults(db: Option<Store>)
    ensures ListNews(db) == ListNews(db, 20, None, None)
    ensures db.Some? ==> ListNews(db).calls == [Find(NewsCollection, map[], 20)]
  {
  }

  /** The body `ingest_article` answers with. */
  datatype IngestReply = IngestReply(id: string, status: string)

  /**
   * `ingest_article(payload)`: without a handle it fails with 500 and touches no
   * storage; otherwise it inserts the transformed article into "news" exactly once
   * and answers with the id the store assigned, or fails with the store's error.
   */
  function IngestArticle(db: Option<Store>, p: RawArticle): (x: Exchange<IngestReply>)
    ensures db.None? ==> x.reply == Err(Unavailable) && x.calls == []
    ensures db.None? ==> StatusCode(x.reply.error) == 500 && Detail(x.reply.error) == "Database not available"
    ensures db.Some? ==> x.calls == [Insert(NewsCollection, StoredArticle(p))]
    ensures x.reply.Ok? ==> |x.calls| == 1 && x.calls[0].Insert?
    ensures db.Some? ==>
      match db.value.insert(NewsCollection, StoredArticle(p))
      case Ok(id) => x.reply == Ok(IngestReply(id, "ok"))
      case Err(e) => x.reply == Err(StorageError(e))
  {
    match db
    case None => Exchange(Err(Unavailable), [])
    case Some(store) =>
      var article := StoredArticle(p);
      var call := Insert(NewsCollection, article);
      match store.insert(NewsCollection, article)
      case Ok(id) => Exchange(Ok(IngestReply(id, "ok")), [call])
      case Err(e) => Exchange(Err(StorageError(e)), [call])
  }

  /** Every article an ingest hands to the store has a non-empty summary of at most 500 characters and sentiment "neutral". */
  lemma IngestStoresSummary(db: Option<Store>, p: RawArticle)
    ensures forall c :: c in IngestArticle(db, p).calls ==>
      c.Insert? && c.collection == NewsCollection && 1 <= |c.article.summaryKo| <= SummaryLimit
      && c.article.sentiment == Neutral && c.article.titleKo == p.title
  {
  }
}
