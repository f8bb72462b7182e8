/** Character classes of ECMAScript regular expressions, as they apply to
    patterns written without the `u` flag. */
module Chars {

  /** `\s` (and the set `String.prototype.trim` removes): the ECMAScript
      WhiteSpace and LineTerminator code points. */
  predicate IsSpace(c: char) {
    var n := c as int;
    || n == 0x09 || n == 0x0A || n == 0x0B || n == 0x0C || n == 0x0D
    || n == 0x20 || n == 0xA0 || n == 0x1680
    || (0x2000 <= n <= 0x200A)
    || n == 0x2028 || n == 0x2029 || n == 0x202F || n == 0x205F
    || n == 0x3000 || n == 0xFEFF
  }

  /** The characters `.` refuses to match. */
  predicate IsLineTerminator(c: char) {
    c == '\n' || c == '\r' || c as int == 0x2028 || c as int == 0x2029
  }

  /** `\d` */
  predicate IsDigit(c: char) {
    '0' <= c <= '9'
  }

  /** The character classes a greedy run in the patterns can range over. */
  datatype Class = WhiteSpace | Digit | NotBar | NotLineEnd

  predicate In(c: char, k: Class) {
    match k
    case WhiteSpace => IsSpace(c)
    case Digit => IsDigit(c)
    case NotBar => c != '|'
    case NotLineEnd => !IsLineTerminator(c)
  }

  predicate IsAsciiLetter(c: char) {
    ('a' <= c <= 'z') || ('A' <= c <= 'Z')
  }

  /** `\w`: without the `u` flag it is exactly [A-Za-z0-9_], even under `i`. */
  predicate IsWordChar(c: char) {
    IsAsciiLetter(c) || IsDigit(c) || c == '_'
  }

  /** ASCII upper-casing: what `toUpperCase` does to an ASCII letter. The
      captures it is applied to are ASCII letters; on any other character it
      is only used through `Fold`. */
  function Upper(c: char): (u: char)
    ensures IsAsciiLetter(c) ==> 'A' <= u <= 'Z'
    ensures IsAsciiLetter(c) ==> u == c || u as int + 32 == c as int
    ensures !('a' <= c <= 'z') ==> u == c
  {
    if 'a' <= c <= 'z' then (c as int - 32) as char else c
  }

  /** Canonical form under the `i` flag. Without `u`, a character at or above
      U+0080 is never folded onto an ASCII one, and every keyword is ASCII,
      so folding the ASCII letters alone decides every comparison the
      patterns make. */
  function Fold(c: char): (f: char)
    ensures IsAsciiLetter(c) ==> 'A' <= f <= 'Z' && (f == c || f as int + 32 == c as int)
    ensures !IsAsciiLetter(c) ==> f == c
    ensures c as int < 0x80 <==> f as int < 0x80
  {
    Upper(c)
  }

  lemma FoldToLetter(c: char, k: char)
    requires IsAsciiLetter(k)
    requires Fold(c) == Fold(k)
    ensures IsAsciiLetter(c)
  {
  }
}
