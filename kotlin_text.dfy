/** The Kotlin character and string tests the screens use: `isWhitespace`, `isBlank`, `isDigit`. */
module KotlinText {

  /**
   * `Char.isWhitespace()` on the JVM: a Unicode space, line or paragraph separator (including the
   * no-break spaces) or one of the control characters TAB, LF, VT, FF, CR and FS..US.
   */
  predicate IsWhitespace(c: char) {
    ('\t' <= c <= '\r') || ('\U{1C}' <= c <= ' ') || c == '\U{A0}' || c == '\U{1680}' ||
    ('\U{2000}' <= c <= '\U{200A}') || c == '\U{2028}' || c == '\U{2029}' || c == '\U{202F}' ||
    c == '\U{205F}' || c == '\U{3000}'
  }

  /** `CharSequence.isBlank()`: empty or whitespace only. */
  predicate IsBlank(s: string) {
    forall i :: 0 <= i < |s| ==> IsWhitespace(s[i])
  }

  /** `Char.isDigit()`, restricted to the ASCII digits. */
  predicate IsDigit(c: char) {
    '0' <= c <= '9'
  }

  /** A string that starts with a character other than whitespace is not blank. */
  lemma NotBlankWhenFirstIsVisible(s: string)
    requires s != [] && !IsWhitespace(s[0])
    ensures !IsBlank(s)
  {
  }
}
