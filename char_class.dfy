/**
 * The character classes the lexer dispatches on. These are the ASCII parts of
 * Java's Character.isWhitespace, isJavaIdentifierStart, isJavaIdentifierPart
 * and isDigit; characters beyond ASCII belong to none of the classes here.
 */
module CharClass {

  /** Character.isWhitespace: space, tab, line feed, vertical tab, form feed,
      carriage return and the separators U+001C to U+001F. */
  predicate IsWhitespace(c: char) {
    c == ' ' || ('\t' <= c <= '\r') || ('\U{1C}' <= c <= '\U{1F}')
  }

  /** Character.isJavaIdentifierStart: a letter, '$' or '_'. */
  predicate IsIdStart(c: char) {
    ('a' <= c <= 'z') || ('A' <= c <= 'Z') || c == '$' || c == '_'
  }

  /** Character.isDigit. */
  predicate IsDigit(c: char) {
    '0' <= c <= '9'
  }

  /** Character.isJavaIdentifierPart: an identifier start, a digit, or one of
      the control characters Java calls identifier-ignorable. */
  predicate IsIdPart(c: char) {
    IsIdStart(c) || IsDigit(c) || ('\U{0}' <= c <= '\U{8}') || ('\U{E}' <= c <= '\U{1B}') || c == '\U{7F}'
  }

  /** A character the numeral loop keeps going on. */
  predicate IsSignOrDigit(c: char) {
    IsDigit(c) || c == '+' || c == '-'
  }

  /** An exponent marker. */
  predicate IsMarker(c: char) {
    c == 'e' || c == 'E'
  }
}
