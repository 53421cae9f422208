/** Character classes the lexer consults (Rust's `char::is_whitespace`,
    `is_alphabetic`, `is_numeric`, `is_alphanumeric`).

    `IsWhitespace` is the full Unicode White_Space property.  `IsAlphabetic`
    and `IsNumeric` are exact for code points below U+0100, the only ones the
    program's driver ever produces (it widens each input byte to a `char`);
    above U+00FF they are false. */
module CharClasses {

  /** Unicode White_Space: the ASCII blanks and controls 0x09-0x0D, space,
      NEL, NBSP and the blank characters of the higher planes. */
  predicate IsWhitespace(c: char)
  {
    var n := c as int;
    n == 0x20 || (0x09 <= n <= 0x0D) || n == 0x85 || n == 0xA0 || n == 0x1680
    || (0x2000 <= n <= 0x200A) || n == 0x2028 || n == 0x2029 || n == 0x202F
    || n == 0x205F || n == 0x3000
  }

  /** Alphabetic, for Latin-1: ASCII letters, the ordinal indicators, the
      micro sign and the Latin-1 letters (except the two operators 0xD7, 0xF7). */
  predicate IsAlphabetic(c: char)
  {
    var n := c as int;
    ('A' <= c <= 'Z') || ('a' <= c <= 'z') || n == 0xAA || n == 0xB5 || n == 0xBA
    || (0xC0 <= n <= 0xD6) || (0xD8 <= n <= 0xF6) || (0xF8 <= n <= 0xFF)
  }

  /** Numeric (general categories Nd, Nl, No), for Latin-1: the ASCII digits,
      the superscripts two, three and one, and the vulgar fractions. */
  predicate IsNumeric(c: char)
  {
    var n := c as int;
    ('0' <= c <= '9') || n == 0xB2 || n == 0xB3 || n == 0xB9 || (0xBC <= n <= 0xBE)
  }

  predicate IsAlphanumeric(c: char)
  {
    IsAlphabetic(c) || IsNumeric(c)
  }

  /** The two characters that end a `#` comment. */
  predicate IsLineEnd(c: char)
  {
    c == '\n' || c == '\r'
  }

  /** The relations between the classes that the lexer's dispatch relies on:
      letters and digits are alphanumeric, neither is blank, and `#` is in no
      class, so the four branches of the dispatch are disjoint. */
  lemma ClassesAgree(c: char)
    ensures IsAlphabetic(c) ==> IsAlphanumeric(c) && !IsWhitespace(c) && !IsNumeric(c)
    ensures IsNumeric(c) ==> IsAlphanumeric(c) && !IsWhitespace(c)
    ensures c == '#' ==> !IsAlphanumeric(c) && !IsWhitespace(c)
    ensures IsLineEnd(c) ==> IsWhitespace(c) && !IsAlphanumeric(c)
  {
  }
}
