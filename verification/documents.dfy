/**
 * Documents as the store hands them back: string-keyed maps whose values are of
 * a few kinds, with Python's `dict.get` and `str()` over them.
 */
module Documents {
  import opened Wrappers

  /** A `datetime`, kept opaque; `shown` is its `str()` text. */
  datatype Timestamp = Timestamp(shown: string)

  /** The kinds of field value a stored news document holds. */
  datatype Value =
    | Null                         // Python None
    | Text(s: string)
    | TextList(items: seq<string>)
    | Time(t: Timestamp)
    | ObjectId(hex: string)        // identifier assigned by the store

  /** A stored document: some keys may be absent. */
  type Document = map<string, Value>

  /** `d.get(key, default)`: the default is used only when the key is absent. */
  function Get(d: Document, key: string, default: Value): (v: Value)
    ensures key in d ==> v == d[key]
    ensures key !in d ==> v == default
  {
    if key in d then d[key] else default
  }

  /** `str(v)`. */
  function Render(v: Value): string {
    match v
    case Null => "None"
    case Text(s) => s
    case TextList(items) => "[" + QuotedList(items) + "]"
    case Time(t) => t.shown
    case ObjectId(hex) => hex
  }

  /** The items of a list of strings, each in single quotes, separated by ", ". */
  function QuotedList(items: seq<string>): string {
    if items == [] then ""
    else if |items| == 1 then "'" + items[0] + "'"
    else "'" + items[0] + "', " + QuotedList(items[1..])
  }

  /** An `Optional[str]` as it is stored. */
  function OptText(o: Option<string>): (v: Value)
    ensures v.Null? <==> o.None?
  {
    match o
    case None => Null
    case Some(s) => Text(s)
  }

  /** An `Optional[datetime]` as it is stored. */
  function OptTime(o: Option<Timestamp>): (v: Value)
    ensures v.Null? <==> o.None?
  {
    match o
    case None => Null
    case Some(t) => Time(t)
  }

  /** An `Optional[List[str]]` as it is stored. */
  function OptList(o: Option<seq<string>>): (v: Value)
    ensures v.Null? <==> o.None?
  {
    match o
    case None => Null
    case Some(items) => TextList(items)
  }

  /** `d` holds every field of `base` with the same value, and possibly more. */
  ghost predicate Extends(d: Document, base: Document) {
    forall k :: k in base ==> k in d && d[k] == base[k]
  }
}
