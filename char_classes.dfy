/** The character classes the validators rely on: Python's `str.isalpha`,
    `str.isspace` and the `\d` class of the `re` module. */
module CharClasses {

  /** Python's `str.isspace()` for one character: the characters Unicode gives
      the bidirectional class WS, B or S, or the general category Zs. The list
      is finite and written out in full. Whitespace is never an ASCII letter
      or digit. */
  predicate IsSpace(c: char): (b: bool)
    ensures b ==> !('0' <= c <= '9') && !('A' <= c <= 'Z') && !('a' <= c <= 'z')
  {
    ('\t' <= c <= '\r')                 // tab, line feed, vertical tab, form feed, carriage return
    || ('\U{1C}' <= c <= '\U{1F}')      // file, group, record and unit separators
    || c == ' '
    || c == '\U{85}'                    // next line
    || c == '\U{A0}'                    // no-break space
    || c == '\U{1680}'                  // ogham space mark
    || ('\U{2000}' <= c <= '\U{200A}')  // en quad .. hair space
    || c == '\U{2028}' || c == '\U{2029}'  // line and paragraph separators
    || c == '\U{202F}' || c == '\U{205F}' || c == '\U{3000}'
  }

  /** Python's `str.isalpha()` for one character, on the Basic Latin and
      Latin-1 blocks: the ASCII letters, the two ordinal indicators, the micro
      sign and the accented Latin-1 letters. Letters above U+00FF are not
      recognised by this model. No letter is whitespace. */
  predicate IsAlpha(c: char): (b: bool)
    ensures b ==> !IsSpace(c)
  {
    ('A' <= c <= 'Z') || ('a' <= c <= 'z')
    || c == '\U{AA}' || c == '\U{B5}' || c == '\U{BA}'
    || ('\U{C0}' <= c <= '\U{D6}') || ('\U{D8}' <= c <= '\U{F6}') || ('\U{F8}' <= c <= '\U{FF}')
  }

  /** The `\d` class of a regular expression, on ASCII digits. A digit is
      neither a letter nor whitespace. */
  predicate IsDecimalDigit(c: char): (b: bool)
    ensures b ==> !IsAlpha(c) && !IsSpace(c)
  {
    '0' <= c <= '9'
  }
}
