/**
 * `GET /test` (main.py:27-55): a status record assembled from whether the database
 * handle exists, two environment variables and the outcome of listing collections.
 * It never fails: a listing error is folded into the `database` label.
 */
module Diagnostics {
  import opened Wrappers
  import opened PyText

  const Running: string := "✅ Running"
  const Working: string := "✅ Connected & Working"
  const NotInitialized: string := "⚠️  Available but not initialized"
  const ErrorPrefix: string := "⚠️  Connected but Error: "
  const UrlSet: string := "✅ Set"
  const NotSet: string := "❌ Not Set"

  /** At most this many collection names are reported. */
  const MaxCollections: nat := 10
  /** At most this many characters of an error's text are reported. */
  const MaxErrorText: nat := 80

  datatype Status = Status(
    backend: string,
    database: string,
    databaseUrl: Option<string>,
    databaseName: Option<string>,
    connectionStatus: string,
    collections: seq<string>)

  /**
   * `test_database()`. `dbPresent` is `db is not None`; `databaseUrl` and
   * `databaseName` are the environment variables as read (None when unset);
   * `listing` is what `db.list_collection_names()` returned or the text of what it raised.
   */
  function TestDatabase(dbPresent: bool, databaseUrl: Option<string>, databaseName: Option<string>,
                        listing: Result<seq<string>, string>): (s: Status)
    ensures s.backend == Running
    ensures s.database == Working <==> dbPresent && listing.Ok?
    ensures |s.collections| <= MaxCollections
    ensures dbPresent && listing.Ok? ==>
      s.collections <= listing.value
      && |s.collections| == if |listing.value| < MaxCollections then |listing.value| else MaxCollections
    ensures !(dbPresent && listing.Ok?) ==> s.collections == []
    ensures dbPresent && listing.Err? ==>
      && ErrorPrefix <= s.database
      && s.database[|ErrorPrefix|..] <= listing.error
      && |s.database| - |ErrorPrefix| == if |listing.error| < MaxErrorText then |listing.error| else MaxErrorText
    ensures !dbPresent ==> s == Status(Running, NotInitialized, None, None, "Not Connected", [])
    ensures dbPresent ==>
      && s.connectionStatus == "Connected"
      && s.databaseUrl == Some(if Truthy(databaseUrl) then UrlSet else NotSet)
      && s.databaseName == Some(if Truthy(databaseName) then databaseName.value else NotSet)
  {
    if dbPresent then
      var url := if Truthy(databaseUrl) then UrlSet else NotSet;
      var name := if Truthy(databaseName) then databaseName.value else NotSet;
      match listing
      case Ok(names) => Status(Running, Working, Some(url), Some(name), "Connected", Take(names, MaxCollections))
      case Err(e) => Status(Running, ErrorPrefix + Take(e, MaxErrorText), Some(url), Some(name), "Connected", [])
    else
      Status(Running, NotInitialized, None, None, "Not Connected", [])
  }

  /** The three tiers the `database` label reports. */
  datatype Tier = Uninitialized | Degraded | FullyWorking

  /** Reading the tier back from a `database` label. */
  function TierOf(shown: string): Tier {
    if shown == Working then FullyWorking
    else if |shown| >= |ErrorPrefix| && shown[..|ErrorPrefix|] == ErrorPrefix then Degraded
    else Uninitialized
  }

  /** The label alone tells the three situations apart, whatever the error text. */
  lemma TierOfLabel(dbPresent: bool, databaseUrl: Option<string>, databaseName: Option<string>,
                                       listing: Result<seq<string>, string>)
    ensures TierOf(TestDatabase(dbPresent, databaseUrl, databaseName, listing).database) ==
      if !dbPresent then Uninitialized else if listing.Ok? then FullyWorking else Degraded
  {
    var shown := TestDatabase(dbPresent, databaseUrl, databaseName, listing).database;
    if !dbPresent {
      assert shown[4] != ErrorPrefix[4];
    } else if listing.Err? {
      assert shown[..|ErrorPrefix|] == ErrorPrefix;
    }
  }
}
