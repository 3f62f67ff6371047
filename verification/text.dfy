/** JavaScript's `String.prototype.trim`, used by every "add" button of the
    forms to reject blank entries and to store the entry without its
    surrounding white space. */
module Text {

  /** The characters `trim` strips: ECMAScript WhiteSpace (tab, vertical tab,
      form feed, space, no-break space, byte-order mark and the Unicode space
      separators) and LineTerminator (LF, CR, line and paragraph separators). */
  predicate IsWhitespace(c: char) {
    || c == '\t' || c == '\U{000B}' || c == '\U{000C}' || c == ' ' || c == '\U{00A0}' || c == '\U{FEFF}'
    || c == '\n' || c == '\r' || c == '\U{2028}' || c == '\U{2029}'
    || c == '\U{1680}' || ('\U{2000}' <= c <= '\U{200A}') || c == '\U{202F}' || c == '\U{205F}' || c == '\U{3000}'
  }

  predicate AllWhitespace(s: string) {
    forall i :: 0 <= i < |s| ==> IsWhitespace(s[i])
  }

  /** Number of leading white-space characters. */
  function LeadingSpace(s: string): (n: nat)
    ensures n <= |s|
    ensures AllWhitespace(s[..n])
    ensures n < |s| ==> !IsWhitespace(s[n])
  {
    if |s| == 0 || !IsWhitespace(s[0]) then 0
    else
      var k := LeadingSpace(s[1..]);
      assert s[1..][..k] == s[1..k + 1];
      1 + k
  }

  /** Number of trailing white-space characters. */
  function TrailingSpace(s: string): (n: nat)
    ensures n <= |s|
    ensures AllWhitespace(s[|s| - n..])
    ensures n < |s| ==> !IsWhitespace(s[|s| - n - 1])
  {
    if |s| == 0 || !IsWhitespace(s[|s| - 1]) then 0
    else
      var k := TrailingSpace(s[..|s| - 1]);
      assert s[..|s| - 1][|s| - 1 - k..] == s[|s| - 1 - k..|s| - 1];
      1 + k
  }

  /** `s.trim()`: `s` without its leading and trailing white space. */
  function Trim(s: string): (r: string)
    ensures exists i, j :: 0 <= i <= j <= |s| && r == s[i..j] && AllWhitespace(s[..i]) && AllWhitespace(s[j..])
    ensures |r| > 0 ==> !IsWhitespace(r[0]) && !IsWhitespace(r[|r| - 1])
    ensures r == "" <==> AllWhitespace(s)
  {
    var i := LeadingSpace(s);
    if i == |s| then
      assert s[..i] == s && s[i..i] == "" && s[i..] == "";
      ""
    else
      var t := s[i..];
      var k := TrailingSpace(t);
      assert t[|t| - k..] == s[|s| - k..];
      assert s[i..|s| - k] == t[..|t| - k];
      assert !AllWhitespace(s) by {
        assert !IsWhitespace(s[i]);
      }
      assert AllWhitespace(s[..i]) && AllWhitespace(s[|s| - k..]);
      s[i..|s| - k]
  }

  /** `!value.trim()`: the entry is empty or white space only. */
  predicate IsBlank(s: string) {
    Trim(s) == ""
  }

  /** Trimming twice is trimming once. */
  lemma TrimIdempotent(s: string)
    ensures Trim(Trim(s)) == Trim(s)
  {
    var t := Trim(s);
    if |t| > 0 {
      var i := LeadingSpace(t);
      assert i == 0;
      var k := TrailingSpace(t[i..]);
      assert t[i..] == t;
      assert k == 0;
      assert t[i..|t| - k] == t;
    }
  }
}
