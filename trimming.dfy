/** Foundation's `trimmingCharacters(in: .whitespacesAndNewlines)`. */
module Trimming {

  /** Membership in `CharacterSet.whitespacesAndNewlines`: Unicode general
      category Z (space, line and paragraph separators), the tab,
      U+000A through U+000D, and U+0085. */
  predicate IsWhitespace(c: char) {
    || c == '\t'
    || '\n' <= c <= '\r'
    || c == ' '
    || c == '\U{0085}'
    || c == '\U{00A0}'
    || c == '\U{1680}'
    || '\U{2000}' <= c <= '\U{200A}'
    || c == '\U{2028}'
    || c == '\U{2029}'
    || c == '\U{202F}'
    || c == '\U{205F}'
    || c == '\U{3000}'
  }

  predicate AllWhitespace(s: string) {
    forall i :: 0 <= i < |s| ==> IsWhitespace(s[i])
  }

  /** Length of the whitespace run that starts `s`. */
  function LeadingWhitespace(s: string): (k: nat)
    ensures k <= |s|
    ensures forall i :: 0 <= i < k ==> IsWhitespace(s[i])
    ensures k < |s| ==> !IsWhitespace(s[k])
  {
    if s == [] || !IsWhitespace(s[0]) then 0
    else 1 + LeadingWhitespace(s[1..])
  }

  /** Length of the whitespace run that ends `s`. */
  function TrailingWhitespace(s: string): (k: nat)
    ensures k <= |s|
    ensures forall i :: |s| - k <= i < |s| ==> IsWhitespace(s[i])
    ensures k < |s| ==> !IsWhitespace(s[|s| - 1 - k])
  {
    if s == [] || !IsWhitespace(s[|s| - 1]) then 0
    else 1 + TrailingWhitespace(s[..|s| - 1])
  }

  /** `s` without its leading and trailing whitespace. The result is the
      slice of `s` that starts at its first non-whitespace character; it
      neither starts nor ends with whitespace, and every non-whitespace
      character of `s` lies inside it. */
  function Trim(s: string): (r: string)
    ensures LeadingWhitespace(s) + |r| <= |s|
    ensures r == [] || (!IsWhitespace(r[0]) && !IsWhitespace(r[|r| - 1]))
    ensures r == s[LeadingWhitespace(s)..LeadingWhitespace(s) + |r|]
    ensures forall i :: 0 <= i < |s| && !IsWhitespace(s[i]) ==>
      LeadingWhitespace(s) <= i < LeadingWhitespace(s) + |r|
  {
    var lead := LeadingWhitespace(s);
    var rest := s[lead..];
    var trail := TrailingWhitespace(rest);
    var r := rest[..|rest| - trail];
    assert forall i :: lead + |r| <= i < |s| ==> s[i] == rest[i - lead];
    r
  }

  /** The trimmed string is empty exactly when the input is all whitespace. */
  lemma TrimEmptyIffBlank(s: string)
    ensures Trim(s) == [] <==> AllWhitespace(s)
  {
    if Trim(s) != [] {
      var lead := LeadingWhitespace(s);
      assert s[lead] == Trim(s)[0];
    }
  }

  /** A string that neither starts nor ends with whitespace is its own trim,
      and only such strings are. */
  lemma TrimFixedPoint(s: string)
    ensures Trim(s) == s <==> (s == [] || (!IsWhitespace(s[0]) && !IsWhitespace(s[|s| - 1])))
  {
    if s != [] && !IsWhitespace(s[0]) && !IsWhitespace(s[|s| - 1]) {
      assert LeadingWhitespace(s) == 0;
      assert |Trim(s)| == |s|;
    }
  }

  /** Trimming twice is trimming once. */
  lemma TrimIdempotent(s: string)
    ensures Trim(Trim(s)) == Trim(s)
  {
    TrimFixedPoint(Trim(s));
  }

  /** Trimming `s + " "` gives `s` back when `s` is its own trim. */
  lemma TrimDropsTrailingSpace(s: string)
    requires Trim(s) == s
    ensures Trim(s + " ") == s
  {
    var t := s + " ";
    TrimFixedPoint(s);
    if s == [] {
      assert LeadingWhitespace(t) == 1;
      TrimEmptyIffBlank(t);
    } else {
      assert t[0] == s[0];
      assert LeadingWhitespace(t) == 0;
      var r := Trim(t);
      assert !IsWhitespace(t[|s| - 1]);
      assert |s| <= |r|;
      assert IsWhitespace(t[|s|]);
      assert |r| == |s|;
      assert r == t[..|s|];
    }
  }
}
