/**
 * What the recogniser accepts and refuses, stated about the grammar functions: the places where
 * it does something other than a reader of the grammar would guess, and a small program it
 * accepts from end to end.
 */
module GrammarFacts {
  import opened Wrappers
  import opened Dto
  import opened Brackets
  import opened Grammar
  import Tokens
  import Lexer

  /** A record as the lexer writes it; the line number and the table index play no part in parsing. */
  function Rec(lexeme: string, lexemeToken: string): (s: SymbolInformation)
    ensures s.lexeme == lexeme && s.lexemeToken == lexemeToken
  {
    SymbolInformation(1, lexeme, lexemeToken, None)
  }

  /**
   * Each bracket the parser hands the matcher is one step of Feed: the matcher accepts it
   * exactly when Feed accepts its lexeme, and leaves the stack Feed computes.
   */
  lemma BracketIsFeedStep(c: Cursor, symbol: SymbolInformation, expectedBracket: string)
    requires IsExpected(symbol, expectedBracket)
    ensures Bracket(c, symbol, expectedBracket).Ok? <==> Feed(c.stack, [symbol.lexeme]).Some?
    ensures Bracket(c, symbol, expectedBracket).Ok? ==>
              Feed(c.stack, [symbol.lexeme]) == Some(Bracket(c, symbol, expectedBracket).value.after.stack)
  {
    assert [symbol.lexeme][1..] == [];
    var bracket := SymbolInformation(0, symbol.lexeme, "par_op", None);
    assert Accepts(c.stack, bracket, symbol.lexeme) == Accepts(c.stack, symbol, expectedBracket);
    assert StackAfter(c.stack, bracket, symbol.lexeme) == StackAfter(c.stack, symbol, expectedBracket);
  }

  /**
   * A leading sign is checked to be an add_op but never stepped over, and no factor starts with
   * one: an arithmetic expression that starts with "+" or "-" answers false where it began.
   */
  lemma LeadingSignDeclines(records: seq<SymbolInformation>, c: Cursor)
    requires InRange(records, c)
    requires records[c.position].lexeme in ["+", "-"] && records[c.position].lexemeToken == "add_op"
    ensures ArithmeticExpression(records, c) == Ok(Parsed(false, c))
  {
    var symbol := records[c.position];
    assert ParseConst(symbol) == Ok(false);
    assert Factor(records, c) == Ok(Parsed(false, c));
    assert Chunk(records, c) == Ok(Parsed(false, c));
    assert Term(records, c) == Ok(Parsed(false, c));
  }

  /**
   * Since the lexer tags "^" as power_op while the chunk asks for pow_op, a "^" that follows a
   * factor always stops the parse.
   */
  lemma PowerOperatorFails(records: seq<SymbolInformation>, c: Cursor)
    requires InRange(records, c)
    requires records[c.position].lexeme == "^" && records[c.position].lexemeToken == Tokens.LanguageTokens["^"]
    ensures ChunkTail(records, c) == Err(UnexpectedToken(records[c.position]))
  {
    Tokens.ArithmeticTable();
  }

  /**
   * After a boolean literal the index stays on the literal, so an assignment of a literal
   * finds the literal where it wants ";" and fails.
   */
  lemma AssignBooleanLiteralFails(literal: string)
    requires literal in ["true", "false"]
    ensures var records := [Rec("x", "ident"), Rec("=", "assign_op"), Rec(literal, "boolval"), Rec(";", "punct")];
      IdentExpression(records, Cursor(0, [])) == Err(UnexpectedToken(records[2]))
  {
    var records := [Rec("x", "ident"), Rec("=", "assign_op"), Rec(literal, "boolval"), Rec(";", "punct")];
    assert BooleanExpression(records, Cursor(1, [])) == Ok(Parsed(true, Cursor(2, [])));
    assert Expression(records, Cursor(1, [])) == Ok(Parsed(true, Cursor(2, [])));
  }

  /** For the same reason a literal condition finds the literal where it wants ")": "if (true)" fails. */
  lemma LiteralConditionFails()
    ensures var records := [Rec("if", "keyword"), Rec("(", "par_op"), Rec("true", "boolval"), Rec(")", "par_op")];
      IfExpression(records, Cursor(0, [])) == Err(BracketFailure(UnexpectedBracket("true", ")")))
  {
    var records := [Rec("if", "keyword"), Rec("(", "par_op"), Rec("true", "boolval"), Rec(")", "par_op")];
    assert BooleanExpression(records, Cursor(1, ["("])) == Ok(Parsed(true, Cursor(2, ["("])));
  }

  /**
   * A bracketed factor looks for its ")" one record AFTER the one the inner expression stopped
   * at, which is already the ")": "( a )" followed by ";" fails, and it is accepted only when
   * a second ")" follows.
   */
  lemma BracketedFactorSkipsItsCloser()
    ensures var records := [Rec("(", "par_op"), Rec("a", "ident"), Rec(")", "par_op"), Rec(";", "punct")];
      Factor(records, Cursor(0, [])) == Err(BracketFailure(UnexpectedBracket(";", ")")))
    ensures var records := [Rec("(", "par_op"), Rec("a", "ident"), Rec(")", "par_op"), Rec(")", "par_op")];
      Factor(records, Cursor(0, [])) == Ok(Parsed(true, Cursor(3, [])))
  {
    var records := [Rec("(", "par_op"), Rec("a", "ident"), Rec(")", "par_op"), Rec(";", "punct")];
    assert ArithmeticExpression(records, Cursor(1, ["("])) == Ok(Parsed(true, Cursor(2, ["("])));
    var records2 := [Rec("(", "par_op"), Rec("a", "ident"), Rec(")", "par_op"), Rec(")", "par_op")];
    assert ArithmeticExpression(records2, Cursor(1, ["("])) == Ok(Parsed(true, Cursor(2, ["("])));
  }

  /**
   * When the boolean attempt fails after pushing its "(", the expression puts the index back
   * but not the bracket stack: here the arithmetic reading succeeds and a "(" is left open.
   */
  lemma BacktrackLeavesBracketOpen()
    ensures Expression(DoubleCloser(), Cursor(-1, [])) == Ok(Parsed(true, Cursor(3, ["("])))
  {
    BooleanAttemptFails();
    ArithmeticAfterBacktrack();
  }

  /** The records of "( a ) )". */
  function DoubleCloser(): (records: seq<SymbolInformation>)
    ensures |records| == 4
  {
    [Rec("(", "par_op"), Rec("a", "ident"), Rec(")", "par_op"), Rec(")", "par_op")]
  }

  /** Read as a boolean expression, "( a ) )" answers false, having pushed its "(". */
  lemma BooleanAttemptFails()
    ensures BooleanExpression(DoubleCloser(), Cursor(-1, [])) == Ok(Parsed(false, Cursor(2, ["("])))
  {
    var records := DoubleCloser();
    assert ArithmeticExpression(records, Cursor(1, ["("])) == Ok(Parsed(true, Cursor(2, ["("])));
    assert Relation(records, Cursor(1, ["("])) == Ok(Parsed(false, Cursor(2, ["("])));
    assert [] + ["("] == ["("];
    assert Bracket(Cursor(0, []), records[0], "(") == Ok(Parsed(true, Cursor(0, ["("])));
    assert BracketedRelation(records, Cursor(0, [])) == Ok(Parsed(false, Cursor(2, ["("])));
  }

  /**
   * Read again as an arithmetic expression on the stack the boolean attempt left, "( a ) )"
   * pushes and pops a second "(" and keeps the first.
   */
  lemma ArithmeticAfterBacktrack()
    ensures ArithmeticExpression(DoubleCloser(), Cursor(0, ["("])) == Ok(Parsed(true, Cursor(3, ["("])))
  {
    var records := DoubleCloser();
    assert ArithmeticExpression(records, Cursor(1, ["(", "("])) == Ok(Parsed(true, Cursor(2, ["(", "("])));
    assert ["("] + ["("] == ["(", "("];
    assert Bracket(Cursor(0, ["("]), records[0], "(") == Ok(Parsed(true, Cursor(0, ["(", "("])));
    assert Bracket(Cursor(3, ["(", "("]), records[3], ")") == Ok(Parsed(true, Cursor(3, ["("])));
    assert Factor(records, Cursor(0, ["("])) == Ok(Parsed(true, Cursor(3, ["("])));
  }

  /**
   * "print" is not in the token table, so the lexer gives it the kind of the identifier state;
   * the statement dispatch then reads a print statement as an assignment, which fails at "(".
   */
  lemma PrintIsReadAsAssignment()
    ensures Lexer.GetToken(Lexer.Tables, "print", 3, '(') == "ident"
    ensures var records := [Rec("print", "ident"), Rec("(", "par_op"), Rec("a", "ident"), Rec(")", "par_op"), Rec(";", "punct")];
      Statement(records, Cursor(-1, [])) == Err(UnexpectedToken(records[1]))
  {
    Tokens.PrintIsNotAToken();
    Tokens.OtherTokensKeys();
  }

  /** Inside the declaration block every record that is neither "}" nor a type name is passed over. */
  lemma DeclarationsSkipOthers(records: seq<SymbolInformation>, c: Cursor)
    requires Valid(records, c) && c.position + 1 < |records|
    requires records[c.position + 1].lexeme != "}" && records[c.position + 1].lexeme !in TypeNames
    ensures Declarations(records, c) == Declarations(records, c.(position := c.position + 1))
  {
  }

  /** A program with one declaration and one assignment, in the form the recogniser wants. */
  function SampleProgram(): (records: seq<SymbolInformation>)
    ensures |records| == 15
  {
    [Rec("program", "keyword"), Rec("p", "ident"), Rec("{", "par_op"),
     Rec("{", "par_op"), Rec("int", "keyword"), Rec("a", "ident"), Rec(";", "punct"), Rec("}", "par_op"),
     Rec("{", "par_op"), Rec("a", "ident"), Rec("=", "assign_op"), Rec("1", "int"), Rec(";", "punct"), Rec("}", "par_op"),
     Rec("}", "par_op")]
  }

  lemma SampleDeclarations()
    ensures DeclarationSection(SampleProgram(), Cursor(2, ["{"])) == Ok(Parsed(true, Cursor(7, ["{"])))
  {
    var records := SampleProgram();
    assert Declarations(records, Cursor(6, ["{", "{"])) == Ok(Parsed(records[7], Cursor(7, ["{", "{"])));
    assert IdentList(records, Cursor(5, ["{", "{"]), ";") == Ok(Parsed(records[6], Cursor(6, ["{", "{"])));
    assert Declarations(records, Cursor(3, ["{", "{"])) == Ok(Parsed(records[7], Cursor(7, ["{", "{"])));
  }

  lemma SampleAssignment()
    ensures Statement(SampleProgram(), Cursor(8, ["{", "{"])) == Ok(Parsed(true, Cursor(12, ["{", "{"])))
  {
    var records := SampleProgram();
    assert ArithmeticExpression(records, Cursor(11, ["{", "{"])) == Ok(Parsed(true, Cursor(12, ["{", "{"])));
    assert Relation(records, Cursor(11, ["{", "{"])) == Ok(Parsed(false, Cursor(12, ["{", "{"])));
    assert BooleanExpression(records, Cursor(10, ["{", "{"])) == Ok(Parsed(false, Cursor(12, ["{", "{"])));
    assert Expression(records, Cursor(10, ["{", "{"])) == Ok(Parsed(true, Cursor(12, ["{", "{"])));
    assert IdentExpression(records, Cursor(9, ["{", "{"])) == Ok(Parsed(true, Cursor(12, ["{", "{"])));
  }

  lemma SampleStatementList()
    ensures StatementList(SampleProgram(), Cursor(8, ["{", "{"])) == Ok(Parsed(false, Cursor(13, ["{", "{"])))
  {
    var records := SampleProgram();
    SampleAssignment();
    assert IsExpected(records[13], "}");
    assert StatementList(records, Cursor(12, ["{", "{"])) == Ok(Parsed(false, Cursor(13, ["{", "{"])));
  }

  lemma SampleStatements()
    ensures DoSection(SampleProgram(), Cursor(7, ["{"])) == Ok(Parsed(true, Cursor(13, ["{"])))
  {
    var records := SampleProgram();
    assert IsExpected(records[8], "{");
    assert ["{"] + ["{"] == ["{", "{"];
    assert Bracket(Cursor(13, ["{", "{"]), records[13], "}") == Ok(Parsed(true, Cursor(13, ["{"])));
    SampleStatementList();
    DoSectionAccepts(records, Cursor(7, ["{"]), Cursor(8, ["{", "{"]), Cursor(13, ["{", "{"]));
  }

  /** A statement section whose "{" opens, whose statements end at body, and whose "}" closes. */
  lemma DoSectionAccepts(records: seq<SymbolInformation>, c: Cursor, pushed: Cursor, body: Cursor)
    requires Valid(records, c) && c.position + 1 < |records| && IsExpected(records[c.position + 1], "{")
    requires pushed == Cursor(c.position + 1, c.stack + ["{"])
    requires StatementList(records, pushed) == Ok(Parsed(false, body))
    requires InRange(records, body) && Bracket(body, records[body.position], "}").Ok?
    ensures DoSection(records, c) == Bracket(body, records[body.position], "}")
  {
    var afterBrace := c.(position := c.position + 1);
    assert Advance(records, c) == Ok(Parsed(records[c.position + 1], afterBrace));
    assert Bracket(afterBrace, records[c.position + 1], "{") == Ok(Parsed(true, pushed));
    assert Current(records, body) == Ok(records[body.position]);
  }

  lemma SampleHeader()
    ensures ProgramStartSection(SampleProgram(), Cursor(-1, [])) == Ok(Parsed(true, Cursor(1, [])))
    ensures Advance(SampleProgram(), Cursor(1, [])) == Ok(Parsed(SampleProgram()[2], Cursor(2, [])))
    ensures Bracket(Cursor(2, []), SampleProgram()[2], "{") == Ok(Parsed(true, Cursor(2, ["{"])))
  {
    assert [] + ["{"] == ["{"];
  }

  /** The sample program is accepted, with every bracket closed and nothing left to read. */
  lemma SampleProgramAccepted()
    ensures Program(SampleProgram(), Cursor(-1, [])) == Ok(Parsed([], Cursor(14, [])))
  {
    var records := SampleProgram();
    SampleHeader();
    SampleDeclarations();
    SampleStatements();
    assert Advance(records, Cursor(13, ["{"])) == Ok(Parsed(records[14], Cursor(14, ["{"])));
    assert Bracket(Cursor(14, ["{"]), records[14], "}") == Ok(Parsed(true, Cursor(14, [])));
  }
}
