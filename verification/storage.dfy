/**
 * The storage gateway seen from the handlers. `database.py` is not part of this
 * model: its `create_document` and `get_documents` are an uninterpreted oracle,
 * and a handler's effect on storage is the sequence of calls it makes.
 */
module Storage {
  import opened Wrappers
  import opened Documents
  import opened Articles

  /** Exact-match filter handed to the store: field name to required value. */
  type Filter = map<string, string>

  /**
   * An open database handle: `insert` answers `create_document(collection, article)`
   * with the new id or the raised error's text, `find` answers
   * `get_documents(collection, filter, limit)` with the documents or the error's text.
   */
  datatype Store = Store(
    insert: (string, NewsArticle) -> Result<string, string>,
    find: (string, Filter, int) -> Result<seq<Document>, string>)

  /** One call into the store. */
  datatype Call =
    | Insert(collection: string, article: NewsArticle)
    | Find(collection: string, filter: Filter, limit: int)

  /** Why a handler fails. */
  datatype Failure =
    | Unavailable                  // `db is None`: HTTPException(500, "Database not available")
    | StorageError(message: string) // an exception raised by the store, escaping the handler
    | InvalidDocument(field: string) // `NewsResponse(...)` rejected a stored field

  /** HTTP status the client sees for a failure: every one of them is a 500. */
  function StatusCode(f: Failure): int {
    500
  }

  /** Response detail for a failure. */
  function Detail(f: Failure): string {
    if f.Unavailable? then "Database not available" else "Internal Server Error"
  }

  /** What a handler returns, together with the storage calls it made, in order. */
  datatype Exchange<T> = Exchange(reply: Result<T, Failure>, calls: seq<Call>)

  /** The collection both endpoints use. */
  const NewsCollection: string := "news"
}
