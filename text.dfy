/**
 * The string operations the evaluators rely on: Python's `str.lower`,
 * `str.startswith`, and the case-insensitive comparison of a character
 * against a lower-case letter done by a regular expression compiled with
 * `re.IGNORECASE`.
 */
module Text {

  /** U+212A KELVIN SIGN, whose Unicode lower-case form is the ASCII letter 'k'. */
  const KELVIN_SIGN: char := '\U{212A}'

  /**
   * Lower-cases one character. Exact on every character whose lower-case form is
   * an ASCII letter: the ASCII capitals and the Kelvin sign. Other characters
   * are left unchanged (see README "Left out").
   */
  function LowerChar(c: char): char {
    if 'A' <= c <= 'Z' then (c as int + 32) as char
    else if c == KELVIN_SIGN then 'k'
    else c
  }

  /** Python's `str.lower`, character by character. */
  function ToLower(s: string): (r: string)
    ensures |r| == |s|
    ensures forall i :: 0 <= i < |s| ==> r[i] == LowerChar(s[i])
  {
    if s == [] then [] else [LowerChar(s[0])] + ToLower(s[1..])
  }

  /** Python's `str.startswith` with a single prefix. */
  predicate StartsWith(s: string, prefix: string) {
    |prefix| <= |s| && s[..|prefix|] == prefix
  }

  /** The characters that lower-case to a given ASCII lower-case letter. */
  lemma LowerCharInverse(c: char, lower: char)
    requires 'a' <= lower <= 'z'
    ensures LowerChar(c) == lower <==>
              c == lower || c as int == lower as int - 32 || (lower == 'k' && c == KELVIN_SIGN)
  {
  }

  /** A character that is not a letter lower-cases only from itself. */
  lemma LowerCharFixed(c: char, other: char)
    requires !('a' <= other <= 'z') && !('A' <= other <= 'Z') && other != KELVIN_SIGN
    ensures LowerChar(c) == other <==> c == other
  {
  }

  /** Lower-casing twice is lower-casing once. */
  lemma {:induction false} ToLowerIdempotent(s: string)
    ensures ToLower(ToLower(s)) == ToLower(s)
  {
    var once := ToLower(s);
    var twice := ToLower(once);
    forall i | 0 <= i < |s| ensures twice[i] == once[i] {
      assert LowerChar(LowerChar(s[i])) == LowerChar(s[i]);
    }
  }

  /** Exactly the eight capitalisations of "out" lower-case to "out". */
  lemma ToLowerIsOut(s: string)
    ensures ToLower(s) == "out" <==>
              |s| == 3 && (s[0] == 'o' || s[0] == 'O') && (s[1] == 'u' || s[1] == 'U')
              && (s[2] == 't' || s[2] == 'T')
  {
    var r := ToLower(s);
    if |s| == 3 {
      LowerCharInverse(s[0], 'o');
      LowerCharInverse(s[1], 'u');
      LowerCharInverse(s[2], 't');
      assert r == "out" <==> r[0] == 'o' && r[1] == 'u' && r[2] == 't';
    }
  }
}
