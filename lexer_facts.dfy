/**
 * Facts about the lexer's lookups over the tables it is built with: where a lookup can miss,
 * which characters and which numeric shapes end in an error state, and how "==" is read.
 */
module LexerFacts {
  import opened Wrappers
  import opened Dto
  import opened SymbolClass
  import opened SymbolAnalyzer
  import opened States
  import opened Tokens
  import opened Lexer

  /** From a live state the lookup never misses, whatever the class, and it leads to a live or a final state. */
  lemma LiveStatesNeverMiss(s: int, symbolClass: string)
    requires s in LiveStates
    ensures GetState(Tables, s, symbolClass) in LiveStates || GetState(Tables, s, symbolClass) in FinalStates
    ensures GetState(Tables, s, symbolClass) != -1
  {
    FallbackCoverage(s);
    var exact := StateTransition(s, symbolClass);
    if exact in StateTransitionsDictionary {
      TargetsClosed(exact);
    } else {
      TargetsClosed(StateTransition(s, Other));
    }
    var next := GetState(Tables, s, symbolClass);
    assert next in LiveStates || next in FinalStates;
    assert next >= 0 by {
      DesignatedStates();
      FinalStatesNatural(next);
    }
  }

  lemma FinalStatesNatural(s: int)
    requires s in FinalStates || s in LiveStates
    ensures s >= 0
  {
  }

  /** The lookup out of a state other than 0 when the class has no entry: the fallback's target. */
  lemma FallbackLookup(s: int, symbolClass: string)
    requires s != InitState && StateTransition(s, Other) in FromOtherStates
    ensures GetState(Tables, s, symbolClass) ==
              if StateTransition(s, symbolClass) in FromOtherStates then FromOtherStates[StateTransition(s, symbolClass)]
              else FromOtherStates[StateTransition(s, Other)]
  {
    OtherLookup(StateTransition(s, symbolClass));
    OtherLookup(StateTransition(s, Other));
  }

  /**
   * From state 0 a character whose class has no entry of its own (".", "E", a quote, or any
   * character outside the alphabets) takes the fallback to error state 101, and the analyzer
   * reports code 101 on the current line.
   */
  lemma InitRejects(c: char, line: int)
    requires c in ".E'\"" || GetClassOfSymbol(c) == UnknownSymbol
    ensures GetState(Tables, InitState, GetClassOfSymbol(c)) == 101
    ensures CheckForErrors(GetState(Tables, InitState, GetClassOfSymbol(c)), line, c) == Some(LexError(101, line, c))
  {
    UnlistedClass(c);
    InitFallback(GetClassOfSymbol(c));
  }

  /** The class of ".", "E", a quote or a character outside the alphabets has no entry out of state 0. */
  lemma UnlistedClass(c: char)
    requires c in ".E'\"" || GetClassOfSymbol(c) == UnknownSymbol
    ensures GetClassOfSymbol(c) !in InitClasses
  {
    if c in ".E'\"" {
      OtherIsItself(c);
      AlphabetsDisjoint(c);
      assert GetClassOfSymbol(c) == [c];
    }
  }

  /** Out of state 0, a class without an entry of its own leads to error state 101. */
  lemma InitFallback(symbolClass: string)
    requires symbolClass !in InitClasses
    ensures GetState(Tables, InitState, symbolClass) == 101
  {
    InitLookup(symbolClass);
    InitLookup(Other);
    InitTransitions(Other);
  }

  /** A "!" not followed by "=" ends in error state 102. */
  lemma BangWithoutEquals(symbolClass: string)
    requires symbolClass != "="
    ensures GetState(Tables, 9, symbolClass) == 102
  {
    FallbackLookup(9, symbolClass);
    BangRow(StateTransition(9, Other));
    if StateTransition(9, symbolClass) in FromOtherStates {
      BangRow(StateTransition(9, symbolClass));
    }
  }

  /** A "." not followed by a digit ends in error state 103. */
  lemma PointWithoutDigit(symbolClass: string)
    requires symbolClass != Digit
    ensures GetState(Tables, 11, symbolClass) == 103
  {
    FallbackLookup(11, symbolClass);
    PointRow(StateTransition(11, Other));
    if StateTransition(11, symbolClass) in FromOtherStates {
      PointRow(StateTransition(11, symbolClass));
    }
  }

  /**
   * An exponent "E" followed by neither a digit nor "-", or "E-" not followed by a digit,
   * ends in error state 104.
   */
  lemma ExponentWithoutDigit(symbolClass: string)
    requires symbolClass != Digit
    ensures symbolClass != "-" ==> GetState(Tables, 15, symbolClass) == 104
    ensures GetState(Tables, 17, symbolClass) == 104
  {
    FallbackLookup(15, symbolClass);
    ExponentRow(StateTransition(15, Other));
    if StateTransition(15, symbolClass) in FromOtherStates {
      ExponentRow(StateTransition(15, symbolClass));
    }
    FallbackLookup(17, symbolClass);
    NegativeExponentRow(StateTransition(17, Other));
    if StateTransition(17, symbolClass) in FromOtherStates {
      NegativeExponentRow(StateTransition(17, symbolClass));
    }
  }

  /**
   * A lexeme finished in the identifier state is a keyword when the token table lists it as
   * one, and an identifier when the table does not know it (as for "print").
   */
  lemma KeywordOrIdentifier(lexeme: string, symbol: char)
    ensures lexeme in Keywords ==> GetToken(Tables, lexeme, 3, symbol) == "keyword"
    ensures lexeme !in LanguageTokens ==> GetToken(Tables, lexeme, 3, symbol) == "ident"
  {
    if lexeme in Keywords {
      KeywordEntry(lexeme);
    }
    IdentifierState();
  }

  /**
   * "==" is finished in state 8 with lexeme "=", which the token table knows as assign_op, and
   * assign_op is recorded without the boundary character: "==" is recorded as "=", an
   * assignment (see FinishedRecord). "<=" is finished the same way from "<", a rel_op, which
   * takes the boundary character in and is recorded whole.
   */
  lemma EqualityLexesAsAssign()
    ensures GetToken(Tables, "=", 8, '=') == "assign_op" && TreatmentOf("assign_op") == Plain
  {
    AssignEntry();
  }

  lemma LessOrEqualLexesWhole()
    ensures GetToken(Tables, "<", 8, '=') == "rel_op" && TreatmentOf("rel_op") == Operator
  {
    LessEntry();
  }

  /**
   * The record an operator or a plain lexeme adds: an operator takes the boundary character in,
   * a plain lexeme is recorded as it is; neither gets a table index.
   */
  lemma FinishedRecord(a: AnalyzerState, lexeme: string, token: string, symbol: char)
    requires TreatmentOf(token) == Plain || TreatmentOf(token) == Operator
    ensures |a.symbols| in FinalizeToken(a, lexeme, token, symbol).symbols
    ensures FinalizeToken(a, lexeme, token, symbol).symbols[|a.symbols|] ==
              SymbolInformation(a.lineOfCode, if TreatmentOf(token) == Operator then lexeme + [symbol] else lexeme, token, None)
  {
  }
}
