/**
 * The inbound raw article, the stored news article, and the transformation
 * `ingest_article` applies between them (main.py:104-117).
 */
module Articles {
  import opened Wrappers
  import opened PyText
  import opened Documents

  /** Placeholder stored when an article has no usable content ("no summary"). */
  const Placeholder: string := "요약 없음"

  /** At most this many characters of content become the summary. */
  const SummaryLimit: nat := 500

  /** Sentiment every ingested article is stored with. */
  const Neutral: string := "neutral"

  /** `RawArticle`, already validated: the url is present and every field well-typed. */
  datatype RawArticle = RawArticle(
    url: string,
    source: string,
    title: string,
    content: Option<string>,
    publishedAt: Option<Timestamp>,
    ticker: Option<string>)

  /** `NewsArticle`, the stored form. */
  datatype NewsArticle = NewsArticle(
    url: string,
    source: string,
    titleEn: Option<string>,
    titleKo: string,
    summaryKo: string,
    sentiment: string,
    publishedAt: Option<Timestamp>,
    tags: seq<string>,
    ticker: Option<string>)

  /** Content that yields no summary: absent, empty or only whitespace. */
  predicate Blank(content: Option<string>) {
    content.None? || AllSpace(content.value)
  }

  /**
   * `(content or "").strip()[:500] or "요약 없음"`: never empty, at most 500
   * characters, the placeholder exactly for blank content and otherwise the
   * first (up to) 500 characters of the stripped content.
   */
  function Summary(content: Option<string>): (r: string)
    ensures 1 <= |r| <= SummaryLimit
    ensures Blank(content) ==> r == Placeholder
    ensures !Blank(content) ==>
      var t := Strip(content.value);
      r <= t && |r| == if |t| < SummaryLimit then |t| else SummaryLimit
  {
    var cut := Take(Strip(content.GetOr("")), SummaryLimit);
    if cut == "" then Placeholder else cut
  }

  /**
   * Non-blank content whose non-space text spans `c[i..j]`: the summary starts at
   * the first non-space character `c[i]` (leading whitespace does not count
   * toward the limit) and is `c[i..]` cut at 500 characters or at `j`.
   */
  lemma SummaryOfText(c: string, i: int, j: int)
    requires StrippedAt(c, i, j) && i < j
    ensures !Blank(Some(c))
    ensures Summary(Some(c)) == c[i..if j - i < SummaryLimit then j else i + SummaryLimit]
    ensures Summary(Some(c))[0] == c[i] && !IsSpace(c[i])
  {
  }

  /** The 500-character cut is taken after stripping, so a summary can still end in whitespace. */
  lemma SummaryMayEndInSpace()
    ensures var c := seq(499, _ => 'a') + " b";
      var r := Summary(Some(c));
      |r| == SummaryLimit && r[|r| - 1] == ' '
  {
  }

  /**
   * The document `ingest_article` builds: title and the copied fields pass through,
   * the summary is derived from the content, sentiment and tags are constants and
   * there is no English title.
   */
  function StoredArticle(p: RawArticle): (a: NewsArticle)
    ensures a.url == p.url && a.source == p.source && a.ticker == p.ticker
    ensures a.publishedAt == p.publishedAt
    ensures a.titleKo == p.title && a.titleEn.None?
    ensures a.summaryKo == Summary(p.content) && a.summaryKo != ""
    ensures a.sentiment == Neutral && a.tags == []
  {
    NewsArticle(
      url := p.url,
      source := p.source,
      titleEn := None,
      titleKo := p.title,
      summaryKo := Summary(p.content),
      sentiment := Neutral,
      publishedAt := p.publishedAt,
      tags := [],
      ticker := p.ticker)
  }

  /** The article's fields under their own names, `None` stored as null (a model dump). */
  function Dump(a: NewsArticle): (d: Document)
    ensures d.Keys == {"url", "source", "title_en", "title_ko", "summary_ko",
                       "sentiment", "published_at", "tags", "ticker"}
  {
    map[
      "url" := Text(a.url),
      "source" := Text(a.source),
      "title_en" := OptText(a.titleEn),
      "title_ko" := Text(a.titleKo),
      "summary_ko" := Text(a.summaryKo),
      "sentiment" := Text(a.sentiment),
      "published_at" := OptTime(a.publishedAt),
      "tags" := TextList(a.tags),
      "ticker" := OptText(a.ticker)]
  }
}
