/** Classification of one character into the class name that the transition table is keyed by. */
module SymbolAnalyzer {
  import opened SymbolClass

  /** The class name given to every character outside the five alphabets. */
  const UnknownSymbol := "symbol doesn't belongs to alphabet"

  /**
   * The alphabets are tried in order: letters, digits, white space, newline, then the
   * single-character alphabet, whose members are their own class.
   */
  function GetClassOfSymbol(c: char): (r: string)
    ensures r == Letter || r == Digit || r == WhiteSpaces || r == NewLine || r == [c] || r == UnknownSymbol
  {
    if c in LetterExample then Letter
    else if c in DigitExample then Digit
    else if c in WhiteSpacesExample then WhiteSpaces
    else if c in NewLineExample then NewLine
    else if c in OtherExample then [c]
    else UnknownSymbol
  }

  /** A character gets the sentinel class exactly when it belongs to none of the five alphabets. */
  lemma UnknownClass(c: char)
    ensures GetClassOfSymbol(c) == UnknownSymbol <==>
              c !in LetterExample && c !in DigitExample && c !in WhiteSpacesExample &&
              c !in NewLineExample && c !in OtherExample
  {
    ClassNamesAreLong();
    assert |UnknownSymbol| > 1;
  }

  /** A lower-case letter is a Letter and a decimal digit is a Digit; nothing else is. */
  lemma LettersAndDigits(c: char)
    ensures GetClassOfSymbol(c) == Letter <==> 'a' <= c <= 'z'
    ensures GetClassOfSymbol(c) == Digit <==> '0' <= c <= '9'
  {
    LetterAlphabet(c);
    DigitAlphabet(c);
    AlphabetsDisjoint(c);
  }

  /** Space and tab are white space and '\n' is a newline; nothing else is. */
  lemma SpacingClasses(c: char)
    ensures GetClassOfSymbol(c) == WhiteSpaces <==> c == ' ' || c == '\t'
    ensures GetClassOfSymbol(c) == NewLine <==> c == '\n'
  {
    SpacingAlphabets(c);
    AlphabetsDisjoint(c);
  }

  /** A member of the single-character alphabet is classified as the string holding just itself. */
  lemma OtherIsItself(c: char)
    requires c in OtherExample
    ensures GetClassOfSymbol(c) == [c]
  {
    AlphabetsDisjoint(c);
  }

  /** Upper-case letters, '#' and '\r' are outside every alphabet, except 'E', which is its own class. */
  lemma OutsideCharacters(c: char)
    requires 'A' <= c <= 'Z' || c == '#' || c == '\r'
    ensures c == 'E' ==> GetClassOfSymbol(c) == "E"
    ensures c != 'E' ==> GetClassOfSymbol(c) == UnknownSymbol
  {
    LetterAlphabet(c);
    DigitAlphabet(c);
    SpacingAlphabets(c);
    if c == 'E' {
      SpecialCharactersAreOther();
    }
  }

  /** Only members of the single-character alphabet get a class name of length one. */
  lemma SingleCharacterClass(c: char)
    ensures |GetClassOfSymbol(c)| == 1 <==> c in OtherExample
  {
    ClassNamesAreLong();
    assert |UnknownSymbol| > 1;
    if c in OtherExample {
      AlphabetsDisjoint(c);
      assert GetClassOfSymbol(c) == [c];
    } else {
      assert GetClassOfSymbol(c) != [c];
    }
  }

  /** Distinct members of the single-character alphabet get distinct classes, and no other character shares one. */
  lemma SingleCharacterClassesDistinct(c: char, d: char)
    requires c in OtherExample && GetClassOfSymbol(c) == GetClassOfSymbol(d)
    ensures c == d
  {
    SingleCharacterClass(c);
    SingleCharacterClass(d);
    OtherIsItself(c);
    OtherIsItself(d);
    assert [c][0] == [d][0];
  }
}
