/**
 * The pieces of Python's `str` used by the service: `str.isspace`, `str.strip()`
 * with no argument, slicing `[:n]` and truthiness of an optional string.
 * A Dafny `char` is a Unicode scalar value, so for text without lone surrogates
 * lengths and indices count code points as Python's do.
 */
module PyText {
  import opened Wrappers

  /** Python's `str.isspace` for one code point: the characters `str.strip()` removes. */
  predicate IsSpace(c: char) {
    || ('\t' <= c <= '\r')                  // tab, line feed, vertical tab, form feed, carriage return
    || ('\U{1C}' <= c <= '\U{1F}')          // file, group, record and unit separators
    || c == ' '
    || c == '\U{85}'                        // next line
    || c == '\U{A0}'                        // no-break space
    || c == '\U{1680}'                      // ogham space mark
    || ('\U{2000}' <= c <= '\U{200A}')      // en quad .. hair space
    || c == '\U{2028}' || c == '\U{2029}'   // line and paragraph separators
    || c == '\U{202F}' || c == '\U{205F}' || c == '\U{3000}'
  }

  /** Every character of `s` is whitespace (vacuously so for the empty string). */
  predicate AllSpace(s: string) {
    forall k :: 0 <= k < |s| ==> IsSpace(s[k])
  }

  /** Python truthiness of an `Optional[str]`: neither `None` nor the empty string. */
  predicate Truthy(o: Option<string>) {
    o.Some? && o.value != ""
  }

  /** `s[:n]` for a non-negative `n`: the prefix of `s` of length `min(n, |s|)`. */
  function Take<T>(s: seq<T>, n: nat): (r: seq<T>)
    ensures |r| == if n <= |s| then n else |s|
    ensures r <= s
  {
    if n <= |s| then s[..n] else s
  }

  /**
   * `s[i..j]` is what `strip()` keeps: everything before `i` and from `j` on is
   * whitespace, and a non-empty kept part begins and ends with a non-space.
   */
  ghost predicate StrippedAt(s: string, i: int, j: int) {
    && 0 <= i <= j <= |s|
    && (forall k :: 0 <= k < i ==> IsSpace(s[k]))
    && (forall k :: j <= k < |s| ==> IsSpace(s[k]))
    && (i < j ==> !IsSpace(s[i]) && !IsSpace(s[j - 1]))
  }

  /** Number of leading whitespace characters of `s`. */
  function LeadingSpaces(s: string): (i: nat)
    ensures i <= |s|
    ensures forall k :: 0 <= k < i ==> IsSpace(s[k])
    ensures i < |s| ==> !IsSpace(s[i])
  {
    if |s| > 0 && IsSpace(s[0]) then 1 + LeadingSpaces(s[1..]) else 0
  }

  /** Index where the trailing whitespace of `s` begins. */
  function TrailingStart(s: string): (j: nat)
    ensures j <= |s|
    ensures forall k :: j <= k < |s| ==> IsSpace(s[k])
    ensures 0 < j ==> !IsSpace(s[j - 1])
  {
    if |s| > 0 && IsSpace(s[|s| - 1]) then TrailingStart(s[..|s| - 1]) else |s|
  }

  /** `s.strip()`: drop leading whitespace, then trailing whitespace. */
  function Strip(s: string): (r: string)
    ensures |r| <= |s|
    ensures r == "" <==> AllSpace(s)
    ensures r != "" ==> !IsSpace(r[0]) && !IsSpace(r[|r| - 1])
  {
    var i := LeadingSpaces(s);
    if i == |s| then "" else s[i..TrailingStart(s)]
  }

  /** `strip()` is characterised by `StrippedAt`: any such cut is the one it makes. */
  lemma StripUnique(s: string, i: int, j: int)
    requires StrippedAt(s, i, j)
    ensures Strip(s) == s[i..j]
  {
  }

  /** The bounds `strip()` cuts at satisfy `StrippedAt`. */
  lemma StripBounds(s: string) returns (i: nat, j: nat)
    ensures StrippedAt(s, i, j)
    ensures Strip(s) == s[i..j]
  {
    i := LeadingSpaces(s);
    if i == |s| {
      j := i;
    } else {
      j := TrailingStart(s);
    }
  }

  /** Stripping twice is stripping once. */
  lemma StripIdempotent(s: string)
    ensures Strip(Strip(s)) == Strip(s)
  {
  }
}
