/** The few java.lang.String and commons-lang StringUtils operations the DAO relies on. */
module Text {

  /**
   * Character.isWhitespace for the characters below U+0080: space, the
   * tab/line/form controls and the four information separators.
   */
  predicate IsWhitespace(c: char) {
    c == ' ' || ('\t' <= c <= '\r') || ('\U{1C}' <= c <= '\U{1F}')
  }

  /** StringUtils.isBlank: empty or whitespace only (null is handled by the caller). */
  predicate IsBlank(s: string) {
    forall i :: 0 <= i < |s| ==> IsWhitespace(s[i])
  }

  /** String.indexOf(c): the first position of c, or -1. */
  function IndexOf(s: string, c: char): (r: int)
    ensures r == -1 <==> c !in s
    ensures r != -1 ==> 0 <= r < |s| && s[r] == c && c !in s[..r]
  {
    if s == [] then -1
    else if s[0] == c then 0
    else
      var k := IndexOf(s[1..], c);
      if k == -1 then -1 else k + 1
  }

  /** The elements joined with ", " between them. */
  function Join(items: seq<string>): string {
    if items == [] then ""
    else if |items| == 1 then items[0]
    else items[0] + ", " + Join(items[1..])
  }

  /** Arrays.toString of a String[]: the elements joined with ", " inside brackets. */
  function ArrayText(items: seq<string>): string {
    "[" + Join(items) + "]"
  }
}
