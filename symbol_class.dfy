/** The alphabets of the language and the names of the character classes. */
module SymbolClass {

  const Digit := "Digit"
  const DigitExample := "0123456789"
  const Letter := "Letter"
  const LetterExample := "abcdefghijklmnopqrstuvwxyz"
  const WhiteSpaces := "ws"
  const WhiteSpacesExample := " \t"
  const NewLine := "nl"
  const NewLineExample := "\n"
  /** Characters that are each a class of their own (the class name is the character itself). */
  const OtherExample := "'+-*/^=(){}:E<>!,;.\""

  /** The letter alphabet is exactly the lower-case ASCII letters. */
  lemma LetterAlphabet(c: char)
    ensures c in LetterExample <==> 'a' <= c <= 'z'
  {
    if 'a' <= c <= 'z' {
      var k := c as int - 'a' as int;
      assert LetterExample[k] == c;
    }
  }

  /** The digit alphabet is exactly '0' to '9'. */
  lemma DigitAlphabet(c: char)
    ensures c in DigitExample <==> '0' <= c <= '9'
  {
    if '0' <= c <= '9' {
      var k := c as int - '0' as int;
      assert DigitExample[k] == c;
    }
  }

  /** White space is space and tab only; the only newline character is '\n', so '\r' belongs to no alphabet. */
  lemma SpacingAlphabets(c: char)
    ensures c in WhiteSpacesExample <==> c == ' ' || c == '\t'
    ensures c in NewLineExample <==> c == '\n'
    ensures '\r' !in LetterExample + DigitExample + WhiteSpacesExample + NewLineExample + OtherExample
  {
  }

  /** No character belongs to two alphabets. */
  lemma AlphabetsDisjoint(c: char)
    ensures c in LetterExample ==> c !in DigitExample && c !in WhiteSpacesExample && c !in NewLineExample && c !in OtherExample
    ensures c in DigitExample ==> c !in WhiteSpacesExample && c !in NewLineExample && c !in OtherExample
    ensures c in WhiteSpacesExample ==> c !in NewLineExample && c !in OtherExample
    ensures c in NewLineExample ==> c !in OtherExample
  {
    LetterAlphabet(c);
    DigitAlphabet(c);
  }

  /** Upper-case 'E' and both quote characters are in the single-character alphabet only. */
  lemma SpecialCharactersAreOther()
    ensures 'E' in OtherExample && '\'' in OtherExample && '"' in OtherExample
    ensures 'E' !in LetterExample && 'E' !in DigitExample
  {
    LetterAlphabet('E');
    assert OtherExample[12] == 'E';
  }

  /** The multi-character class names can never be mistaken for a single-character class. */
  lemma ClassNamesAreLong()
    ensures |Digit| > 1 && |Letter| > 1 && |WhiteSpaces| > 1 && |NewLine| > 1
  {
  }
}
