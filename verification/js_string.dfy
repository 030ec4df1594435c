/** The part of JavaScript's string semantics the search layer relies on:
    `String.prototype.trim` and the truthiness of its result. A query is
    "blank" when `query.trim()` is the empty string, i.e. falsy. */
module JsString {

  /** The code points `trim` removes: ECMAScript's WhiteSpace (tab, vertical
      tab, form feed, space, no-break space, byte order mark and the other
      Unicode space separators) and LineTerminator (LF, CR, line and paragraph
      separator). */
  predicate IsJsWhitespace(c: char) {
    var n := c as int;
    || n == 0x09 || n == 0x0B || n == 0x0C || n == 0x20 || n == 0xA0 || n == 0xFEFF
    || n == 0x1680 || (0x2000 <= n <= 0x200A) || n == 0x202F || n == 0x205F || n == 0x3000
    || n == 0x0A || n == 0x0D || n == 0x2028 || n == 0x2029
  }

  predicate AllWhitespace(s: string) {
    forall i | 0 <= i < |s| :: IsJsWhitespace(s[i])
  }

  /** Drops the leading whitespace: the result is a suffix of `s`, everything
      dropped is whitespace, and the result does not start with whitespace. */
  function TrimStart(s: string): (r: string)
    ensures |r| <= |s| && r == s[|s| - |r|..]
    ensures AllWhitespace(s[..|s| - |r|])
    ensures r != [] ==> !IsJsWhitespace(r[0])
  {
    if s != [] && IsJsWhitespace(s[0]) then
      var t := TrimStart(s[1..]);
      var dropped := s[..|s| - |t|];
      assert forall i | 1 <= i < |dropped| :: dropped[i] == s[1..][..|s[1..]| - |t|][i - 1];
      assert dropped[0] == s[0];
      t
    else
      s
  }

  /** Drops the trailing whitespace: the result is a prefix of `s`, everything
      dropped is whitespace, and the result does not end with whitespace. */
  function TrimEnd(s: string): (r: string)
    ensures |r| <= |s| && r == s[..|r|]
    ensures AllWhitespace(s[|r|..])
    ensures r != [] ==> !IsJsWhitespace(r[|r| - 1])
  {
    if s != [] && IsJsWhitespace(s[|s| - 1]) then
      var t := TrimEnd(s[..|s| - 1]);
      var dropped := s[|t|..];
      assert forall i | 0 <= i < |dropped| - 1 :: dropped[i] == s[..|s| - 1][|t|..][i];
      assert dropped[|dropped| - 1] == s[|s| - 1];
      t
    else
      s
  }

  /** A prefix of a suffix is a window, and what it leaves behind is the
      rest of the sequence. */
  lemma PrefixOfSuffix<T>(s: seq<T>, front: seq<T>, r: seq<T>)
    requires |front| <= |s| && front == s[|s| - |front|..]
    requires |r| <= |front| && r == front[..|r|]
    ensures r == s[|s| - |front|..|s| - |front| + |r|]
    ensures s[|s| - |front| + |r|..] == front[|r|..]
    ensures r != [] ==> r[0] == front[0]
  {
  }

  /** `r` neither starts nor ends with whitespace. */
  predicate EdgesNotWhitespace(r: string) {
    r != [] ==> !IsJsWhitespace(r[0]) && !IsJsWhitespace(r[|r| - 1])
  }

  /** `r` sits in `s` at `i` with only whitespace on either side. */
  predicate TrimmedWindow(s: string, i: nat, r: string) {
    && i + |r| <= |s| && r == s[i..i + |r|]
    && AllWhitespace(s[..i]) && AllWhitespace(s[i + |r|..])
  }

  /** `String.prototype.trim`: the result is a contiguous part of `s` with
      only whitespace on either side of it, and it neither starts nor ends
      with whitespace. */
  function Trim(s: string): (r: string)
    ensures exists i: nat :: TrimmedWindow(s, i, r)
    ensures EdgesNotWhitespace(r)
  {
    var front := TrimStart(s);
    var r := TrimEnd(front);
    PrefixOfSuffix(s, front, r);
    assert TrimmedWindow(s, |s| - |front|, r);
    r
  }

  /** `!query.trim()`: the trimmed query is the empty string, which happens
      exactly when every character of the query is whitespace; in particular
      the empty query is blank. */
  predicate IsBlank(query: string)
    ensures IsBlank(query) <==> AllWhitespace(query)
  {
    Trim(query) == []
  }
}
