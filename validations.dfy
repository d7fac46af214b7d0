/** The field checks behind `validates_presence_of` and `validates_bsb`.
    An unset (nil) field is modelled as the empty string. */
module Validations {
  import opened Text

  /** Space, tab, line feed, vertical tab, form feed, carriage return. */
  predicate IsWhitespace(c: char) {
    c == ' ' || (9 <= c as int <= 13)
  }

  /** A blank value is empty or made of whitespace only. */
  predicate Blank(s: string) {
    forall i :: 0 <= i < |s| ==> IsWhitespace(s[i])
  }

  /** What `validates_presence_of` asks of a string field. */
  predicate Present(s: string) { !Blank(s) }

  /** Three digits, a hyphen in the 4th position, three digits: `013-999`. */
  predicate BsbFormat(s: string) {
    && |s| == 7
    && IsDigit(s[0]) && IsDigit(s[1]) && IsDigit(s[2])
    && s[3] == '-'
    && IsDigit(s[4]) && IsDigit(s[5]) && IsDigit(s[6])
  }

  /** What `validates_bsb` asks of a field: when present, it has the BSB shape. */
  predicate BsbValid(s: string) { Blank(s) || BsbFormat(s) }

  /** A well-formed BSB is present, 7 characters long and has no whitespace. */
  lemma BsbFormatPresent(s: string)
    requires BsbFormat(s)
    ensures Present(s) && BsbValid(s)
    ensures forall i :: 0 <= i < |s| ==> !IsWhitespace(s[i])
  {
    assert !IsWhitespace(s[0]);
  }

  /** Examples of the BSB check: `013-999` passes; `12-3456`, `abc-def` and
      `0139999` fail. */
  lemma BsbExamples()
    ensures BsbValid("013-999")
    ensures !BsbValid("12-3456") && !BsbValid("abc-def") && !BsbValid("0139999")
  {
    assert !Blank("12-3456") by { assert !IsWhitespace("12-3456"[0]); }
    assert !Blank("abc-def") by { assert !IsWhitespace("abc-def"[0]); }
    assert !Blank("0139999") by { assert !IsWhitespace("0139999"[0]); }
  }
}
