# MarketView AI news API — verified model of the handler logic

The service stores news articles in a document database and serves them back.
Its handlers in `main.py` do four pieces of pure data shaping, and this project
models them as Dafny functions over immutable datatypes, with proofs:

- **Ingest** (`POST /api/ingest`): a raw article becomes a stored `NewsArticle`.
  The title passes through as `title_ko`, and there is no `title_en`. The summary is
  the content stripped of surrounding whitespace and cut to 500 characters. When that
  is empty, the summary is the placeholder `요약 없음`. Sentiment is always `"neutral"`
  and tags are always empty.
- **Filter** (`GET /api/news`): an exact-match filter is built from the optional
  `sentiment` and `ticker` query parameters. Python truthiness decides, so an empty
  string is dropped like `None`.
- **Projection** (`GET /api/news`): each stored document is turned into a `NewsResponse`,
  one per document and in storage order. A default is used only when its key is
  absent. A present key holding the wrong kind of value (for instance a null
  `title_ko`) makes the response model reject the document, and the request fails
  with 500.
- **Diagnostics** (`GET /test`): a status record built from whether the database
  handle exists, the `DATABASE_URL`/`DATABASE_NAME` environment values and the
  outcome of listing collections. It never fails. At most 10 collection names and at
  most 80 characters of error text are reported.

The database module (`database.py`) is not part of this model. The database handle is
`Option<Store>`, where `None` is `db is None`. A `Store` is an uninterpreted oracle
with two functions: `insert` answers `create_document` and `find` answers
`get_documents`. Each of them returns a value or the text of the error it raised.
Handlers return an `Exchange`, which holds the reply and the list of storage calls
they made. This is how "no storage call without a handle" and "exactly one insert
per ingest" are stated.

Modules, one per file:

- `Wrappers`: `Option` and `Result`.
- `PyText`: Python's `str.isspace`, `strip()`, `[:n]` and truthiness.
- `Documents`: stored value kinds, `dict.get` and `str()`.
- `Articles`: the raw and stored articles, the summary and the ingest transformation.
- `Storage`: the oracle, calls and failures.
- `Responses`: `NewsResponse` and the projection.
- `Api`: the two data endpoints.
- `Diagnostics`: `GET /test`.

Details of `main.py` the model keeps:

- The placeholder is `요약 없음` (main.py:112).
- The stored article carries `url` (main.py:108).
- `title_en` is used only when the `title_ko` key is absent (main.py:88); a null
  `title_ko` is rejected rather than replaced.
- Without a handle, the diagnostics label reads `⚠️  Available but not initialized`
  (main.py:51). The initial `❌ Not Available` value (main.py:31) is always
  overwritten, and so is the intermediate `✅ Available` (main.py:40).

## Model

| member | source | states |
|---|---|---|
| PyText.Strip | main.py:112 | `strip()` result is no longer than its input, is empty exactly when the input is all whitespace, and otherwise starts and ends with a non-space |
| PyText.StripUnique | main.py:112 | any cut `s[i..j]` with only whitespace outside it and non-spaces at both ends is exactly what `strip()` returns (reference characterisation) |
| PyText.StripBounds | main.py:112 | the cut `strip()` makes always satisfies that characterisation |
| PyText.StripIdempotent | main.py:112 | stripping twice equals stripping once |
| PyText.Take | main.py:112 | `[:n]` is the prefix of length `min(n, len)` |
| PyText.LeadingSpaces | main.py:112 | count of leading whitespace: everything before it is a space, the character at it is not |
| PyText.TrailingStart | main.py:112 | start of trailing whitespace: everything from it is a space, the character before it is not |
| Articles.Summary | main.py:112 | summary length is 1..500; blank or absent content gives exactly the placeholder; otherwise it is the prefix of the stripped content of length `min(500, len)` |
| Articles.SummaryOfText | main.py:112 | for content whose non-space text spans `c[i..j]`, the summary is `c[i..min(j, i+500)]`, so it starts at the first non-space and leading whitespace does not count toward 500 |
| Articles.SummaryMayEndInSpace | main.py:112 | the cut happens after stripping, so a 500-character summary can end in a space (499 × `a` then ` b`) |
| Articles.StoredArticle | main.py:104-117 | the stored article copies url, source, ticker and publication time, takes the title as `title_ko`, has no `title_en`, sentiment `"neutral"`, empty tags and a non-empty summary derived from the content |
| Responses.AsOptText | main.py:67 | an `Optional[str]` field accepts exactly text or null, and null reads as `None` |
| Responses.AsOptTime | main.py:65 | an `Optional[datetime]` field accepts exactly a timestamp or null |
| Responses.AsOptList | main.py:66 | an `Optional[List[str]]` field accepts exactly a list of strings or null, and inverts the storing of an optional list |
| Responses.Project | main.py:85-94 | using `dict.get` (`Documents.Get`) and the per-field checks (`AsText`, `AsOptText`, `AsOptTime`, `AsOptList`), projection succeeds exactly for documents whose fields have acceptable kinds; `id` is `str(_id)`; `title_ko` falls back to `title_en` and then to `""`, sentiment to `"neutral"`, tags to `[]`, source and summary to `""`, each only when its key is absent |
| Responses.ProjectAll | main.py:83-95 | the list succeeds exactly when every document projects; then it has one response per document, the i-th being the projection of the i-th; on failure the error is that of the first rejected document |
| Responses.StoredRoundTrip | main.py:85-117 | any document holding a stored article's dumped fields and an `_id` reads back as exactly that article's values |
| Responses.IngestedRoundTrip | main.py:85-117 | ingesting a payload and reading it back gives its title as `title_ko`, its derived summary, `"neutral"`, empty tags, and its ticker, source and publication time |
| Responses.HelloRoundTrip | main.py:85-117 | the example payload (title `T`, content `hello`) reads back with `title_ko` `T`, summary `hello`, `"neutral"` and no ticker |
| Api.BuildFilter | main.py:76-80 | the filter has key `sentiment` iff the parameter is truthy, likewise `ticker`, with the parameter as value and no other keys |
| Api.ListNewsDefaults | main.py:71 | a request without query parameters is the one with limit 20 and no sentiment or ticker, and queries `news` with an empty filter |
| Api.EmptyParamIsNoFilter | main.py:77-80 | an empty-string parameter builds the same filter as an absent one; no parameters means no filtering |
| Api.ListNews | main.py:70-95 | parameters default to limit 20 and no filters; without a handle: status 500 with detail "Database not available" and no storage call; with one: exactly one query on `news` with the built filter and the caller's limit, a store error becomes a 500, and success means one response per returned document in order, which happens iff every document is acceptable |
| Api.IngestArticle | main.py:98-119 | without a handle: status 500 with detail "Database not available" and no storage call; with one: exactly one insert of the transformed article into `news`, answering `{id, "ok"}` with the store's id or failing with the store's error |
| Api.IngestStoresSummary | main.py:106-118 | every article an ingest hands to the store goes to `news` with title = payload title, sentiment `"neutral"` and a summary of 1..500 characters |
| Diagnostics.TestDatabase | main.py:27-55 | never fails; `database` is `✅ Connected & Working` iff the handle exists and listing succeeded; collections are a prefix of the listed names of length `min(10, n)`, else empty; a listing error shows as the error prefix plus the first `min(80, len)` characters of its text; without a handle the record is exactly `✅ Running`, `⚠️  Available but not initialized`, no URL, no name, `Not Connected` and no collections; with one, the URL flag and name follow Python truthiness |
| Diagnostics.TierOfLabel | main.py:44-51 | the `database` label alone distinguishes uninitialised, connected-but-erroring and fully working, whatever the error text |

## Left out

- FastAPI routing, CORS middleware, the constant `GET /` payload and the uvicorn
  start-up (main.py:11-24, main.py:122-125): framework plumbing with no logic.
- Validation of the inbound `RawArticle` (a missing `url` gives 422): `schemas.py` is
  not part of this model. The payload is taken as already well-typed.
- `database.py` is not part of this model. `Store` is an oracle, so nothing is
  claimed about which documents `get_documents` returns for a filter or limit, how
  ids are assigned, or what `create_document` adds to a document.
  `Responses.StoredRoundTrip` therefore allows any extra stored fields.
- `Articles.Dump`: the stored document is assumed to hold the article's fields under
  their own names, with `None` as null (a pydantic model dump). How `create_document`
  really serialises is not visible.
- `os.getenv` and `datetime` are inputs. Environment values are `Option<string>`, and
  a timestamp is opaque, carrying its `str()` text.
- Diagnostics.TestDatabase: the outer `except` (main.py:52-53) is not modelled. In
  the model nothing outside the inner `try` can raise, so the `❌ Error:` label is
  never produced.
- Responses.Project: pydantic's parsing of a text value into a `datetime` is not
  modelled, and such a `published_at` is treated as rejected. Stored numbers,
  booleans and nested objects are not modelled. Pydantic reports every invalid
  field; the model reports the first one, in declaration order.
- Documents.Render: `str()` of a list-valued `_id` quotes every item with single
  quotes and does not reproduce Python's choice of quote character or its escaping.
- Storage.Detail: the text of an unhandled exception's 500 response is the
  framework's generic message. The exception text itself is kept only inside
  `StorageError`.
- Text with lone surrogates: Python strings can hold them (a JSON body with `"\ud800"` decodes to one) and `strip()`/`[:500]` treat each as a code point, but a Dafny `char` is a Unicode scalar value, so such content cannot be expressed.
- Concurrency between requests, and the store's consistency between an insert and
  a later list, are out of scope. Every handler is modelled as one sequential call.
