/** Values shared by every view of the dashboard: optional values, the outcome
    of one awaited API call, and the emptiness test the views apply with
    JavaScript's `String.prototype.trim`. */
module Common {

  datatype Option<+T> = None | Some(value: T)

  /** How an awaited API call settled: it resolved with a parsed body, or it
      threw (network failure, non-2xx status, malformed body), in which case
      the view's `catch` branch runs. The kind of failure is never inspected. */
  datatype Outcome<+T> = Success(data: T) | Failure

  /** The characters `trim` removes: ECMAScript WhiteSpace and LineTerminator. */
  predicate IsWhitespace(c: char) {
    || c == '\t' || c == '\n' || c == '\U{B}' || c == '\U{C}' || c == '\r'
    || c == ' ' || c == '\U{A0}' || c == '\U{1680}'
    || ('\U{2000}' <= c <= '\U{200A}')
    || c == '\U{2028}' || c == '\U{2029}' || c == '\U{202F}' || c == '\U{205F}'
    || c == '\U{3000}' || c == '\U{FEFF}'
  }

  /** `s` holds nothing but whitespace (the empty string included). */
  predicate IsBlank(s: string) {
    forall i :: 0 <= i < |s| ==> IsWhitespace(s[i])
  }

  /** Leading whitespace removed: the longest suffix of `s` that does not
      start with whitespace. */
  function TrimStart(s: string): (r: string)
    ensures |r| <= |s| && r == s[|s| - |r|..]
    ensures r == [] || !IsWhitespace(r[0])
    ensures forall i :: 0 <= i < |s| - |r| ==> IsWhitespace(s[i])
  {
    if s != [] && IsWhitespace(s[0]) then TrimStart(s[1..]) else s
  }

  /** Trailing whitespace removed: the longest prefix of `s` that does not
      end with whitespace. */
  function TrimEnd(s: string): (r: string)
    ensures |r| <= |s| && r == s[..|r|]
    ensures r == [] || !IsWhitespace(r[|r| - 1])
    ensures forall i :: |r| <= i < |s| ==> IsWhitespace(s[i])
  {
    if s != [] && IsWhitespace(s[|s| - 1]) then TrimEnd(s[..|s| - 1]) else s
  }

  /** `s.trim()`. */
  function Trim(s: string): string {
    TrimEnd(TrimStart(s))
  }

  /** The views guard with `!s.trim()`, which holds exactly when the trimmed
      string is empty; that is the case exactly when `s` is blank. */
  lemma TrimEmptyIffBlank(s: string)
    ensures Trim(s) == [] <==> IsBlank(s)
  {
  }
}
