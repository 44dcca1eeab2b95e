/** JavaScript's `String.prototype.trim`, which zod's `.trim()` calls. */
module JsString {
  import opened Trimming

  /** The characters `String.prototype.trim` removes: WhiteSpace and
      LineTerminator of ECMA-262 (ECMAScript 2023, sections 12.2 and 12.3).
      WhiteSpace is TAB, VT, FF, ZWNBSP and every character of Unicode
      category Zs; LineTerminator is LF, CR, LS and PS. */
  predicate IsJsWhitespace(c: char) {
    || c == '\t' || c == '\U{000B}' || c == '\U{000C}' || c == '\U{FEFF}'
    // Unicode category Zs
    || c == ' ' || c == '\U{00A0}' || c == '\U{1680}'
    || ('\U{2000}' <= c <= '\U{200A}')
    || c == '\U{202F}' || c == '\U{205F}' || c == '\U{3000}'
    // line terminators
    || c == '\n' || c == '\r' || c == '\U{2028}' || c == '\U{2029}'
  }

  /** `s.trim()` in JavaScript: no white space is left at either end, and
      the result is empty exactly when `s` held nothing but white space. */
  function JsTrim(s: string): (r: string)
    ensures |r| <= |s|
    ensures Tight(r, IsJsWhitespace)
    ensures r == "" <==> AllWs(s, IsJsWhitespace)
  {
    TrimEmptyIff(s, IsJsWhitespace);
    Trim(s, IsJsWhitespace)
  }

  /** Spaces around a URL are removed and nothing else is. */
  lemma JsTrimSpacesExample()
    ensures JsTrim("   https://example.com/   ") == "https://example.com/"
  {
    assert "   https://example.com/   " == "   " + "https://example.com/" + "   ";
    TrimOfPadded("   ", "https://example.com/", "   ", IsJsWhitespace);
  }

  /** White space beyond ASCII (ideographic space, no-break space, line
      separator) is removed too. */
  lemma JsTrimUnicodeExample()
    ensures JsTrim("\U{3000}\n a.b \U{00A0}\U{2028}") == "a.b"
  {
    assert "\U{3000}\n a.b \U{00A0}\U{2028}" == "\U{3000}\n " + "a.b" + " \U{00A0}\U{2028}";
    TrimOfPadded("\U{3000}\n ", "a.b", " \U{00A0}\U{2028}", IsJsWhitespace);
  }
}
