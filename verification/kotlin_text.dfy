/**
 * The parts of the Kotlin standard library (JVM target) that the details
 * validator relies on: `CharSequence.all`, `Char.isWhitespace`,
 * `CharSequence.isBlank`, `Char.isDigit`, and the full-input match of the
 * regular expression `^[0-9]{n}$`.
 *
 * A Kotlin `Char` is one UTF-16 code unit, while a Dafny `char` is a whole
 * Unicode scalar value. The per-character predicates below are therefore
 * stated on the Basic Multilingual Plane only: a character above U+FFFF is
 * two surrogate units in Kotlin, and neither unit is a digit or whitespace.
 */
module KotlinText {

  /** `s.all { p(it) }`: scans the characters left to right. */
  function All(s: string, p: char -> bool): (b: bool)
    ensures b <==> forall i :: 0 <= i < |s| ==> p(s[i])
  {
    if s == [] then true
    else
      assert forall i :: 1 <= i < |s| ==> s[i] == s[1..][i - 1];
      p(s[0]) && All(s[1..], p)
  }

  /**
   * `Char.isWhitespace()` on the JVM: `Character.isWhitespace(c) ||
   * Character.isSpaceChar(c)`, that is the controls TAB..CR and FS..US, and
   * every character of the Unicode categories Zs, Zl and Zp. All of them
   * lie in the Basic Multilingual Plane, and none is a decimal digit.
   */
  predicate IsWhitespace(c: char)
    ensures IsWhitespace(c) ==> c as int < 0x10000 && !IsDigit(c)
  {
    var n := c as int;
    || 0x09 <= n <= 0x0D
    || 0x1C <= n <= 0x20
    || n == 0xA0 || n == 0x1680
    || 0x2000 <= n <= 0x200A
    || n == 0x2028 || n == 0x2029 || n == 0x202F || n == 0x205F || n == 0x3000
  }

  /** `CharSequence.isBlank()`: empty, or nothing but whitespace. */
  predicate IsBlank(s: string)
    ensures IsBlank(s) <==> forall i :: 0 <= i < |s| ==> IsWhitespace(s[i])
  {
    All(s, IsWhitespace)
  }

  /** `c in '0'..'9'`: the character class `[0-9]` of a regular expression. */
  predicate IsAsciiDigit(c: char) {
    '0' <= c <= '9'
  }

  /** One block of ten consecutive decimal digits, starting at code point `zero`. */
  predicate InDigitBlock(n: int, zero: int) {
    zero <= n < zero + 10
  }

  /**
   * `Char.isDigit()` on the JVM: `Character.isDigit` of one UTF-16 unit, the
   * Unicode general category Nd. Unicode 15.0 places 37 blocks of ten such
   * digits in the Basic Multilingual Plane, each listed here by the code
   * point of its digit zero. Its supplementary-plane digits are surrogate
   * pairs to Kotlin, so they are not digits here either.
   */
  predicate IsDigit(c: char)
    ensures IsAsciiDigit(c) ==> IsDigit(c)
    ensures IsDigit(c) ==> c as int < 0x10000
  {
    var n := c as int;
    || InDigitBlock(n, 0x0030) || InDigitBlock(n, 0x0660) || InDigitBlock(n, 0x06F0) || InDigitBlock(n, 0x07C0)
    || InDigitBlock(n, 0x0966) || InDigitBlock(n, 0x09E6) || InDigitBlock(n, 0x0A66) || InDigitBlock(n, 0x0AE6)
    || InDigitBlock(n, 0x0B66) || InDigitBlock(n, 0x0BE6) || InDigitBlock(n, 0x0C66) || InDigitBlock(n, 0x0CE6)
    || InDigitBlock(n, 0x0D66) || InDigitBlock(n, 0x0DE6) || InDigitBlock(n, 0x0E50) || InDigitBlock(n, 0x0ED0)
    || InDigitBlock(n, 0x0F20) || InDigitBlock(n, 0x1040) || InDigitBlock(n, 0x1090) || InDigitBlock(n, 0x17E0)
    || InDigitBlock(n, 0x1810) || InDigitBlock(n, 0x1946) || InDigitBlock(n, 0x19D0) || InDigitBlock(n, 0x1A80)
    || InDigitBlock(n, 0x1A90) || InDigitBlock(n, 0x1B50) || InDigitBlock(n, 0x1BB0) || InDigitBlock(n, 0x1C40)
    || InDigitBlock(n, 0x1C50) || InDigitBlock(n, 0xA620) || InDigitBlock(n, 0xA8D0) || InDigitBlock(n, 0xA900)
    || InDigitBlock(n, 0xA9D0) || InDigitBlock(n, 0xA9F0) || InDigitBlock(n, 0xAA50) || InDigitBlock(n, 0xABF0)
    || InDigitBlock(n, 0xFF10)
  }

  /**
   * Decimal digits beyond ASCII: ARABIC-INDIC DIGIT THREE is a digit to
   * `isDigit` but not to `[0-9]`, and MATHEMATICAL BOLD DIGIT ZERO, a
   * surrogate pair in Kotlin, is a digit to neither.
   */
  lemma NonAsciiDigits()
    ensures IsDigit('\U{0663}') && !IsAsciiDigit('\U{0663}')
    ensures !IsDigit('\U{1D7CE}')
  {
  }

  /**
   * `s.matches(Regex("^[0-9]{n}$"))`: `matches` demands that the whole input
   * match, so the pattern consumes exactly n characters of the class `[0-9]`.
   */
  function MatchesDigitRun(s: string, n: nat): (b: bool)
    ensures b <==> |s| == n && forall i :: 0 <= i < |s| ==> IsAsciiDigit(s[i])
  {
    if n == 0 then s == []
    else if s == [] then false
    else
      assert forall i :: 1 <= i < |s| ==> s[i] == s[1..][i - 1];
      IsAsciiDigit(s[0]) && MatchesDigitRun(s[1..], n - 1)
  }

  /**
   * A string is blank or not all-digits exactly when it is empty or holds a
   * character that is not a digit: the blank test adds nothing to the digit
   * scan except on the empty string.
   */
  lemma BlankOrNotAllDigits(s: string)
    ensures (IsBlank(s) || !All(s, IsDigit)) <==> (s == [] || exists i :: 0 <= i < |s| && !IsDigit(s[i]))
  {
    if s != [] && IsBlank(s) {
      assert IsWhitespace(s[0]);
    }
  }

  /** A blank string never matches a run of n > 0 ASCII digits. */
  lemma BlankNeverMatchesDigitRun(s: string, n: nat)
    requires n > 0
    ensures IsBlank(s) ==> !MatchesDigitRun(s, n)
  {
    if IsBlank(s) && |s| == n {
      assert IsWhitespace(s[0]);
    }
  }
}
