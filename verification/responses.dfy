/**
 * `NewsResponse` and the projection `list_news` applies to each stored document
 * (main.py:59-67, main.py:84-94). Defaults apply only to absent keys; a present
 * key whose value has the wrong kind makes the response model reject it.
 */
module Responses {
  import opened Wrappers
  import opened Documents
  import opened Articles
  import opened Storage

  datatype NewsResponse = NewsResponse(
    id: string,
    source: string,
    titleKo: string,
    summaryKo: string,
    sentiment: string,
    publishedAt: Option<Timestamp>,
    tags: Option<seq<string>>,
    ticker: Option<string>)

  /** A `str` field of the response model: only text is accepted. */
  function AsText(field: string, v: Value): (r: Result<string, Failure>)
    ensures r.Ok? <==> v.Text?
    ensures r.Ok? ==> r.value == v.s
    ensures r.Err? ==> r.error == InvalidDocument(field)
  {
    if v.Text? then Ok(v.s) else Err(InvalidDocument(field))
  }

  /** An `Optional[str]` field: text or null. */
  function AsOptText(field: string, v: Value): (r: Result<Option<string>, Failure>)
    ensures r.Ok? <==> v.Text? || v.Null?
    ensures r.Ok? ==> OptText(r.value) == v
  {
    match v
    case Null => Ok(None)
    case Text(s) => Ok(Some(s))
    case _ => Err(InvalidDocument(field))
  }

  /** An `Optional[datetime]` field: a timestamp or null. */
  function AsOptTime(field: string, v: Value): (r: Result<Option<Timestamp>, Failure>)
    ensures r.Ok? <==> v.Time? || v.Null?
    ensures r.Ok? ==> OptTime(r.value) == v
  {
    match v
    case Null => Ok(None)
    case Time(t) => Ok(Some(t))
    case _ => Err(InvalidDocument(field))
  }

  /** An `Optional[List[str]]` field: a list of strings or null. */
  function AsOptList(field: string, v: Value): (r: Result<Option<seq<string>>, Failure>)
    ensures r.Ok? <==> v.TextList? || v.Null?
    ensures r.Ok? ==> OptList(r.value) == v
  {
    match v
    case Null => Ok(None)
    case TextList(items) => Ok(Some(items))
    case _ => Err(InvalidDocument(field))
  }

  /** The kind of value a response field accepts. */
  datatype Kind = TextKind | OptTextKind | OptTimeKind | OptListKind

  predicate Fits(v: Value, kind: Kind) {
    match kind
    case TextKind => v.Text?
    case OptTextKind => v.Text? || v.Null?
    case OptTimeKind => v.Time? || v.Null?
    case OptListKind => v.TextList? || v.Null?
  }

  /** Key `k` is absent, or present with a value of the given kind. */
  predicate AbsentOr(d: Document, k: string, kind: Kind) {
    k !in d || Fits(d[k], kind)
  }

  /** The stored fields have the kinds `NewsResponse` accepts (after defaulting). */
  predicate Acceptable(d: Document) {
    && AbsentOr(d, "source", TextKind)
    && (if "title_ko" in d then d["title_ko"].Text? else AbsentOr(d, "title_en", TextKind))
    && AbsentOr(d, "summary_ko", TextKind)
    && AbsentOr(d, "sentiment", TextKind)
    && AbsentOr(d, "published_at", OptTimeKind)
    && AbsentOr(d, "tags", OptListKind)
    && AbsentOr(d, "ticker", OptTextKind)
  }

  /** The text stored under `k`, or `default` when `k` is absent. */
  function TextOr(d: Document, k: string, default: string): string
    requires k in d ==> d[k].Text?
  {
    if k in d then d[k].s else default
  }

  /**
   * `NewsResponse(id=str(it.get("_id")), source=it.get("source", ""), ...)`.
   * It succeeds exactly for acceptable documents; every default, including the
   * `title_ko` -> `title_en` -> "" chain, fires only when its key is absent.
   */
  function Project(d: Document): (r: Result<NewsResponse, Failure>)
    ensures r.Ok? <==> Acceptable(d)
    ensures r.Ok? ==>
      && r.value.id == Render(if "_id" in d then d["_id"] else Null)
      && r.value.source == TextOr(d, "source", "")
      && r.value.titleKo == (if "title_ko" in d then d["title_ko"].s else TextOr(d, "title_en", ""))
      && r.value.summaryKo == TextOr(d, "summary_ko", "")
      && r.value.sentiment == TextOr(d, "sentiment", Neutral)
      && ("published_at" in d ==> OptTime(r.value.publishedAt) == d["published_at"])
      && ("published_at" !in d ==> r.value.publishedAt.None?)
      && ("tags" in d ==> (r.value.tags.None? <==> d["tags"].Null?))
      && ("tags" in d && d["tags"].TextList? ==> r.value.tags == Some(d["tags"].items))
      && ("tags" !in d ==> r.value.tags == Some([]))
      && ("ticker" in d ==> OptText(r.value.ticker) == d["ticker"])
      && ("ticker" !in d ==> r.value.ticker.None?)
  {
    var id := Render(Get(d, "_id", Null));
    var source :- AsText("source", Get(d, "source", Text("")));
    var titleKo :- AsText("title_ko", Get(d, "title_ko", Get(d, "title_en", Text(""))));
    var summaryKo :- AsText("summary_ko", Get(d, "summary_ko", Text("")));
    var sentiment :- AsText("sentiment", Get(d, "sentiment", Text(Neutral)));
    var publishedAt :- AsOptTime("published_at", Get(d, "published_at", Null));
    var tags :- AsOptList("tags", Get(d, "tags", TextList([])));
    var ticker :- AsOptText("ticker", Get(d, "ticker", Null));
    Ok(NewsResponse(id, source, titleKo, summaryKo, sentiment, publishedAt, tags, ticker))
  }

  /**
   * The loop of `list_news`: one response per document, in the order given; the
   * first document the response model rejects aborts the whole list.
   */
  function ProjectAll(docs: seq<Document>): (r: Result<seq<NewsResponse>, Failure>)
    ensures r.Ok? <==> forall i :: 0 <= i < |docs| ==> Project(docs[i]).Ok?
    ensures r.Ok? ==> |r.value| == |docs|
    ensures r.Ok? ==> forall i :: 0 <= i < |docs| ==> r.value[i] == Project(docs[i]).value
    ensures r.Err? ==>
      exists i :: (0 <= i < |docs| && Project(docs[i]) == Err(r.error)
                   && forall k :: 0 <= k < i ==> Project(docs[k]).Ok?)
  {
    if docs == [] then Ok([])
    else
      var head :- Project(docs[0]);
      var tail :- ProjectAll(docs[1..]);
      Ok([head] + tail)
  }

  /** The response a stored article `a` reads back as, under identifier `id`. */
  function ResponseOf(a: NewsArticle, id: string): NewsResponse {
    NewsResponse(id, a.source, a.titleKo, a.summaryKo, a.sentiment, a.publishedAt, Some(a.tags), a.ticker)
  }

  /**
   * Reading back a stored article: any document holding the article's dumped
   * fields and an `_id` projects to exactly the article's own values.
   */
  lemma StoredRoundTrip(a: NewsArticle, d: Document)
    requires Extends(d, Dump(a)) && "_id" in d
    ensures Project(d) == Ok(ResponseOf(a, Render(d["_id"])))
  {
  }

  /**
   * Ingest then read back: the response carries the payload's title as `title_ko`,
   * the derived summary, sentiment "neutral", empty tags and the payload's ticker
   * and publication time.
   */
  lemma IngestedRoundTrip(p: RawArticle, d: Document)
    requires Extends(d, Dump(StoredArticle(p))) && "_id" in d
    ensures Project(d).Ok?
    ensures var r := Project(d).value;
      && r.titleKo == p.title && r.summaryKo == Summary(p.content)
      && r.sentiment == "neutral" && r.tags == Some([])
      && r.ticker == p.ticker && r.publishedAt == p.publishedAt && r.source == p.source
  {
  }

  /** The example round trip: title "T" and content "hello" read back as such, with no ticker. */
  lemma HelloRoundTrip(d: Document)
    requires "_id" in d
    requires Extends(d, Dump(StoredArticle(RawArticle("http://x", "S", "T", Some("hello"), None, None))))
    ensures Project(d).Ok?
    ensures var r := Project(d).value;
      r.titleKo == "T" && r.summaryKo == "hello" && r.sentiment == "neutral" && r.ticker.None?
  {
    var p := RawArticle("http://x", "S", "T", Some("hello"), None, None);
    IngestedRoundTrip(p, d);
    SummaryOfText("hello", 0, 5);
  }
}
