/** The part of Python's `str` that the validators rely on: `isspace` and `strip()`. */
module Text {

  /** Python's `str.isspace` for one character (whitespace per the Unicode database). */
  predicate IsSpace(c: char) {
    || c == ' '
    || ('\t' <= c <= '\r')
    || ('\U{1C}' <= c <= '\U{1F}')
    || c == '\U{85}' || c == '\U{A0}' || c == '\U{1680}'
    || ('\U{2000}' <= c <= '\U{200A}')
    || c == '\U{2028}' || c == '\U{2029}' || c == '\U{202F}' || c == '\U{205F}' || c == '\U{3000}'
  }

  /** Every character of `s` is whitespace (vacuously true of the empty string). */
  predicate AllSpace(s: string) {
    forall i :: 0 <= i < |s| ==> IsSpace(s[i])
  }

  /** Python's `s.strip()`: drops whitespace from both ends. The result is empty exactly when `s`
      is all whitespace, and is never longer than `s`. */
  function Strip(s: string): (r: string)
    ensures |r| <= |s|
    ensures r == [] <==> AllSpace(s)
  {
    if |s| > 0 && IsSpace(s[0]) then
      var r := Strip(s[1..]);
      assert AllSpace(s) <==> AllSpace(s[1..]) by {
        assert forall i :: 0 < i < |s| ==> s[i] == s[1..][i - 1];
      }
      r
    else if |s| > 0 && IsSpace(s[|s| - 1]) then
      var r := Strip(s[..|s| - 1]);
      assert !AllSpace(s[..|s| - 1]) by {
        assert s[..|s| - 1][0] == s[0];
      }
      assert !AllSpace(s);
      r
    else
      assert s != [] ==> !AllSpace(s) by {
        if s != [] { assert !IsSpace(s[0]); }
      }
      s
  }

  /** What `strip()` keeps starts and ends with a non-whitespace character. */
  lemma {:induction false} StripBordas(s: string)
    ensures Strip(s) != [] ==> !IsSpace(Strip(s)[0]) && !IsSpace(Strip(s)[|Strip(s)| - 1])
  {
    if |s| > 0 && IsSpace(s[0]) {
      StripBordas(s[1..]);
    } else if |s| > 0 && IsSpace(s[|s| - 1]) {
      StripBordas(s[..|s| - 1]);
    }
  }
}
