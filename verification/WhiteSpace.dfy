/** The characters that Python's str.strip, rstrip and isspace take for white space. */
module WhiteSpace {

  predicate IsSpace(c: char) {
    '\t' <= c <= '\r' || '\U{1C}' <= c <= ' ' || c == '\U{85}' || c == '\U{A0}' || c == '\U{1680}'
    || '\U{2000}' <= c <= '\U{200A}' || c == '\U{2028}' || c == '\U{2029}' || c == '\U{202F}'
    || c == '\U{205F}' || c == '\U{3000}'
  }

  /** Stripping the text leaves nothing. */
  predicate IsBlank(text: string) {
    forall c :: c in text ==> IsSpace(c)
  }
}
