/** The plain records shared by the lexer, the transition table and the parser. */
module Dto {
  import opened Wrappers

  /** A key of the DFA transition table: the current state and the class of the next character. */
  datatype StateTransition = StateTransition(state: int, symbolClass: string)

  /**
   * One lexeme found by the lexer: the line it was finished on, its text, its token kind and,
   * for the first occurrence of an identifier or a constant, the index it was given in its table.
   */
  datatype SymbolInformation = SymbolInformation(
    lineNumber: int,
    lexeme: string,
    lexemeToken: string,
    index: Option<int>)
}
