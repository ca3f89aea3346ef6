/**
 * The recursive-descent recogniser as functions over a cursor: the index of the record last
 * read and the bracket matcher's stack. Each function takes the cursor a parsing routine starts
 * from and gives either the routine's answer with the cursor it leaves, or the failure it
 * raises. Class SyntaxAnalyzer (module Parser) is the stateful recogniser, and each of its
 * methods is proved to do what the matching function here describes.
 *
 * Every routine that receives "the current record" is given the record at the cursor's index;
 * here that record is read from the cursor instead of being passed along.
 */
module Grammar {
  import opened Wrappers
  import opened Dto
  import opened Brackets

  datatype Cursor = Cursor(position: int, stack: seq<string>)

  /** A routine's answer and the cursor it leaves behind. */
  datatype Parsed<T> = Parsed(answer: T, after: Cursor)

  datatype ParseError =
    | EndOfRecords                             // the advancing read went past the last record
    | NoRecord(index: int)                     // the record at the current index does not exist
    | UnexpectedToken(symbol: SymbolInformation)
    | BracketFailure(error: BracketError)
    | UnexpectedStatement(symbol: SymbolInformation)
    | ExpressionRejected                       // neither kind of expression starts here
    | ProgramStartRejected                     // the program header is not "program" and a name

  type Outcome<T> = Result<Parsed<T>, ParseError>

  /** The cursor lies between "before the first record" and "just past the last one". */
  predicate Valid(records: seq<SymbolInformation>, c: Cursor) {
    -1 <= c.position <= |records|
  }

  predicate InRange(records: seq<SymbolInformation>, c: Cursor) {
    0 <= c.position < |records|
  }

  /** A successful routine never moves the cursor backwards, nor past the end. */
  predicate Moves<T>(records: seq<SymbolInformation>, c: Cursor, r: Outcome<T>) {
    r.Ok? ==> c.position <= r.value.after.position <= |records|
  }

  /** A successful routine has moved the cursor forward. */
  predicate Advances<T>(records: seq<SymbolInformation>, c: Cursor, r: Outcome<T>) {
    r.Ok? ==> c.position < r.value.after.position <= |records|
  }

  /**
   * A routine that answered true has left the bracket stack as it found it, and stopped at an
   * existing record whose lexeme is none of the operators that would have continued it.
   */
  predicate Completes(records: seq<SymbolInformation>, c: Cursor, r: Outcome<bool>, continuations: seq<string>) {
    r.Ok? && r.value.answer ==>
      r.value.after.stack == c.stack && InRange(records, r.value.after) &&
      records[r.value.after.position].lexeme !in continuations
  }

  // ---------------------------------------------------------------- reading records

  /** The advancing read: step the index, fail past the last record, else give that record. */
  function Advance(records: seq<SymbolInformation>, c: Cursor): (r: Outcome<SymbolInformation>)
    requires Valid(records, c)
    ensures r.Ok? <==> c.position + 1 <= |records| - 1
    ensures r.Ok? ==> r.value.after == c.(position := c.position + 1) && r.value.answer == records[c.position + 1]
  {
    var i := c.position + 1;
    if i > |records| - 1 then Err(EndOfRecords) else Ok(Parsed(records[i], c.(position := i)))
  }

  /** The record at the current index, which must exist. */
  function Current(records: seq<SymbolInformation>, c: Cursor): (r: Result<SymbolInformation, ParseError>)
    ensures r.Ok? <==> InRange(records, c)
    ensures r.Ok? ==> r.value == records[c.position]
  {
    if 0 <= c.position < |records| then Ok(records[c.position]) else Err(NoRecord(c.position))
  }

  /** Consulting the bracket matcher: on acceptance the stack moves on and the index stays. */
  function Bracket(c: Cursor, symbol: SymbolInformation, expectedBracket: string): (r: Outcome<bool>)
    ensures r.Ok? <==> Accepts(c.stack, symbol, expectedBracket)
    ensures r.Ok? ==> r.value.answer && r.value.after == c.(stack := StackAfter(c.stack, symbol, expectedBracket))
  {
    if Accepts(c.stack, symbol, expectedBracket) then
      Ok(Parsed(true, c.(stack := StackAfter(c.stack, symbol, expectedBracket))))
    else
      Err(BracketFailure(UnexpectedBracket(symbol.lexeme, expectedBracket)))
  }

  // ---------------------------------------------------------------- token parsers

  /** The record has exactly this lexeme and this kind, or the parse fails; it never answers false. */
  function ParseToken(expectedToken: (string, string), symbol: SymbolInformation): (r: Result<bool, ParseError>)
    ensures r.Ok? <==> symbol.lexeme == expectedToken.0 && symbol.lexemeToken == expectedToken.1
    ensures r.Ok? ==> r.value
  {
    if expectedToken == (symbol.lexeme, symbol.lexemeToken) then Ok(true) else Err(UnexpectedToken(symbol))
  }

  /** The record has exactly this kind, or the parse fails; it never answers false. */
  function ParseTokenKind(expectedToken: string, symbol: SymbolInformation): (r: Result<bool, ParseError>)
    ensures r.Ok? <==> symbol.lexemeToken == expectedToken
    ensures r.Ok? ==> r.value
  {
    if expectedToken == symbol.lexemeToken then Ok(true) else Err(UnexpectedToken(symbol))
  }

  /** An identifier record is accepted; any other record is declined without failing. */
  function ParseIdentToken(symbol: SymbolInformation): (r: Result<bool, ParseError>)
    ensures r.Ok? && (r.value <==> symbol.lexemeToken == "ident")
  {
    if symbol.lexemeToken == "ident" then ParseTokenKind("ident", symbol) else Ok(false)
  }

  const TypeNames: seq<string> := ["int", "float", "boolean"]

  /**
   * Only the lexemes int, float and boolean are candidate types, and a candidate must be a
   * keyword; any other lexeme is declined without failing.
   */
  function ParseTypeToken(symbol: SymbolInformation): (r: Result<bool, ParseError>)
    ensures r.Ok? <==> symbol.lexeme !in TypeNames || symbol.lexemeToken == "keyword"
    ensures r.Ok? ==> (r.value <==> symbol.lexeme in TypeNames)
  {
    if symbol.lexeme in TypeNames then ParseTokenKind("keyword", symbol) else Ok(false)
  }

  /** A relational operator is accepted; any other record is declined without failing. */
  function ParseRelExpression(symbol: SymbolInformation): (r: Result<bool, ParseError>)
    ensures r.Ok? && (r.value <==> symbol.lexemeToken == "rel_op")
  {
    if symbol.lexemeToken == "rel_op" then ParseTokenKind("rel_op", symbol) else Ok(false)
  }

  /** A number of the given kind; a lexeme "+" or "-" must then be an add_op record as well. */
  function ParseNumber(symbol: SymbolInformation, typeOfNumber: string): (r: Result<bool, ParseError>)
    ensures r.Ok? <==> (symbol.lexeme in ["+", "-"] ==> symbol.lexemeToken == "add_op") && symbol.lexemeToken == typeOfNumber
    ensures r.Ok? ==> r.value
  {
    var signed :- if symbol.lexeme == "+" || symbol.lexeme == "-" then ParseTokenKind("add_op", symbol) else Ok(true);
    ParseTokenKind(typeOfNumber, symbol)
  }

  const NumberKinds: seq<string> := ["int", "exp", "float"]

  /**
   * A boolean literal or a number: a boolval record is accepted, a number record is accepted
   * unless its lexeme is a sign (then the parse fails), and anything else is declined.
   */
  function ParseConst(symbol: SymbolInformation): (r: Result<bool, ParseError>)
    ensures r.Ok? <==> !(symbol.lexemeToken in NumberKinds && symbol.lexeme in ["+", "-"])
    ensures r.Ok? ==> (r.value <==> symbol.lexemeToken == "boolval" || symbol.lexemeToken in NumberKinds)
  {
    if symbol.lexemeToken == "boolval" then ParseTokenKind("boolval", symbol)
    else if symbol.lexemeToken == "int" then ParseNumber(symbol, "int")
    else if symbol.lexemeToken == "exp" then ParseNumber(symbol, "exp")
    else if symbol.lexemeToken == "float" then ParseNumber(symbol, "float")
    else Ok(false)
  }

  // ---------------------------------------------------------------- expressions

  /**
   * A factor at the current record: a constant or an identifier is taken by stepping the index
   * past it; "(" is pushed, an arithmetic expression follows, and the record AFTER the one the
   * expression stopped at must be ")".
   */
  function Factor(records: seq<SymbolInformation>, c: Cursor): (r: Outcome<bool>)
    requires InRange(records, c)
    ensures Moves(records, c, r)
    ensures ParseConst(records[c.position]) == Ok(true) || records[c.position].lexemeToken == "ident" ==>
              r == Ok(Parsed(true, c.(position := c.position + 1)))
    ensures r.Ok? && r.value.answer ==> c.position < r.value.after.position && r.value.after.stack == c.stack
    ensures r.Ok? && r.value.answer && ParseConst(records[c.position]) != Ok(true) && records[c.position].lexemeToken != "ident" ==>
              IsExpected(records[c.position], "(") &&
              InRange(records, r.value.after) && IsExpected(records[r.value.after.position], ")")
    decreases |records| - c.position, 0
  {
    var symbol := records[c.position];
    var isConst :- ParseConst(symbol);
    var isIdent := !isConst && ParseIdentToken(symbol).value;
    if isConst || isIdent then Ok(Parsed(true, c.(position := c.position + 1)))
    else if symbol.lexeme == "(" then (
      var pushed :- Bracket(c, symbol, "(");
      var first :- Advance(records, pushed.after);
      var inner :- ArithmeticExpression(records, first.after);
      if inner.answer then
        var closing :- Advance(records, inner.after);
        Bracket(closing.after, closing.answer, ")")
      else Ok(Parsed(false, inner.after)))
    else Ok(Parsed(false, c))
  }

  /** A factor followed by any number of "^" factors; the operator record must be ("^", pow_op). */
  function Chunk(records: seq<SymbolInformation>, c: Cursor): (r: Outcome<bool>)
    requires InRange(records, c)
    ensures Moves(records, c, r)
    ensures Completes(records, c, r, ["^"])
    decreases |records| - c.position, 1
  {
    var factor :- Factor(records, c);
    if factor.answer then ChunkTail(records, factor.after) else Ok(Parsed(false, factor.after))
  }

  /** The loop of Chunk, from the record the last factor stopped at. */
  function ChunkTail(records: seq<SymbolInformation>, c: Cursor): (r: Outcome<bool>)
    requires Valid(records, c)
    ensures Moves(records, c, r)
    ensures Completes(records, c, r, ["^"])
    ensures !InRange(records, c) ==> r == Err(NoRecord(c.position))
    ensures InRange(records, c) && records[c.position].lexeme != "^" ==> r == Ok(Parsed(true, c))
    ensures InRange(records, c) && records[c.position].lexeme == "^" && records[c.position].lexemeToken != "pow_op" ==>
              r == Err(UnexpectedToken(records[c.position]))
    decreases |records| - c.position, 0
  {
    var symbol :- Current(records, c);
    if symbol.lexeme == "^" then (
      var power :- ParseToken(("^", "pow_op"), symbol);
      var next :- Advance(records, c);
      var factor :- Factor(records, next.after);
      if factor.answer then ChunkTail(records, factor.after) else Ok(Parsed(false, factor.after)))
    else Ok(Parsed(true, c))
  }

  /** A chunk followed by any number of mult_op chunks ("*" or "/"). */
  function Term(records: seq<SymbolInformation>, c: Cursor): (r: Outcome<bool>)
    requires InRange(records, c)
    ensures Moves(records, c, r)
    ensures Completes(records, c, r, ["*", "/"])
    decreases |records| - c.position, 2
  {
    var chunk :- Chunk(records, c);
    if chunk.answer then TermTail(records, chunk.after) else Ok(Parsed(false, chunk.after))
  }

  /** The loop of Term, from the record the last chunk stopped at. */
  function TermTail(records: seq<SymbolInformation>, c: Cursor): (r: Outcome<bool>)
    requires Valid(records, c)
    ensures Moves(records, c, r)
    ensures Completes(records, c, r, ["*", "/"])
    ensures !InRange(records, c) ==> r == Err(NoRecord(c.position))
    ensures InRange(records, c) && records[c.position].lexeme !in ["*", "/"] ==> r == Ok(Parsed(true, c))
    ensures InRange(records, c) && records[c.position].lexeme in ["*", "/"] && records[c.position].lexemeToken != "mult_op" ==>
              r == Err(UnexpectedToken(records[c.position]))
    decreases |records| - c.position, 0
  {
    var symbol :- Current(records, c);
    if symbol.lexeme == "*" || symbol.lexeme == "/" then (
      var multiply :- ParseTokenKind("mult_op", symbol);
      var next :- Advance(records, c);
      var chunk :- Chunk(records, next.after);
      if chunk.answer then TermTail(records, chunk.after) else Ok(Parsed(false, chunk.after)))
    else Ok(Parsed(true, c))
  }

  /**
   * An arithmetic expression: a leading "+" or "-" is checked to be an add_op but not stepped
   * over, then a term and any number of add_op terms.
   */
  function ArithmeticExpression(records: seq<SymbolInformation>, c: Cursor): (r: Outcome<bool>)
    requires InRange(records, c)
    ensures Moves(records, c, r)
    ensures Completes(records, c, r, ["+", "-"])
    ensures records[c.position].lexeme in ["+", "-"] && records[c.position].lexemeToken != "add_op" ==>
              r == Err(UnexpectedToken(records[c.position]))
    decreases |records| - c.position, 3
  {
    var symbol := records[c.position];
    var signed :- if symbol.lexeme == "+" || symbol.lexeme == "-" then ParseTokenKind("add_op", symbol) else Ok(true);
    var term :- Term(records, c);
    if term.answer then ArithmeticTail(records, term.after) else Ok(Parsed(false, term.after))
  }

  /** The loop of ArithmeticExpression, from the record the last term stopped at. */
  function ArithmeticTail(records: seq<SymbolInformation>, c: Cursor): (r: Outcome<bool>)
    requires Valid(records, c)
    ensures Moves(records, c, r)
    ensures Completes(records, c, r, ["+", "-"])
    ensures !InRange(records, c) ==> r == Err(NoRecord(c.position))
    ensures InRange(records, c) && records[c.position].lexeme !in ["+", "-"] ==> r == Ok(Parsed(true, c))
    ensures InRange(records, c) && records[c.position].lexeme in ["+", "-"] && records[c.position].lexemeToken != "add_op" ==>
              r == Err(UnexpectedToken(records[c.position]))
    decreases |records| - c.position, 0
  {
    var symbol :- Current(records, c);
    if symbol.lexeme == "+" || symbol.lexeme == "-" then (
      var add :- ParseTokenKind("add_op", symbol);
      var next :- Advance(records, c);
      var term :- Term(records, next.after);
      if term.answer then ArithmeticTail(records, term.after) else Ok(Parsed(false, term.after)))
    else Ok(Parsed(true, c))
  }

  /**
   * A boolean expression from the next record: a boolean literal (the index stays on it);
   * "(" relation ")" (the index steps past the ")"); or a bare relation. A failed part answers
   * false; after "(" the bare relation is not tried.
   */
  function BooleanExpression(records: seq<SymbolInformation>, c: Cursor): (r: Outcome<bool>)
    requires Valid(records, c)
    ensures Moves(records, c, r)
    ensures r.Ok? && r.value.answer ==> r.value.after.stack == c.stack
    ensures c.position + 1 < |records| && records[c.position + 1].lexeme in ["true", "false"] &&
            records[c.position + 1].lexemeToken == "boolval" ==>
              r == Ok(Parsed(true, c.(position := c.position + 1)))
    decreases |records| - c.position, 0
  {
    var first :- Advance(records, c);
    var symbol := first.answer;
    if symbol.lexeme == "true" || symbol.lexeme == "false" then (
      var literal :- ParseTokenKind("boolval", symbol);
      Ok(Parsed(true, first.after)))
    else if symbol.lexeme == "(" then
      BracketedRelation(records, first.after)
    else
      Relation(records, first.after)
  }

  /**
   * The bracketed form of a boolean expression, from its "(": the bracket, a relation, then the
   * current record must close it, and the index steps past the ")".
   */
  function BracketedRelation(records: seq<SymbolInformation>, c: Cursor): (r: Outcome<bool>)
    requires InRange(records, c)
    ensures Moves(records, c, r)
    ensures !IsExpected(records[c.position], "(") ==> r == Err(BracketFailure(UnexpectedBracket(records[c.position].lexeme, "(")))
    ensures r.Ok? && r.value.answer ==>
              c.position < r.value.after.position &&
              IsExpected(records[r.value.after.position - 1], ")") &&
              r.value.after.stack == c.stack
    decreases |records| - c.position, 0
  {
    var pushed :- Bracket(c, records[c.position], "(");
    var left :- Advance(records, pushed.after);
    var relation :- Relation(records, left.after);
    if !relation.answer then Ok(relation) else CloseBracket(records, relation.after)
  }

  /** The current record must be the ")" that closes a bracketed relation; the index steps past it. */
  function CloseBracket(records: seq<SymbolInformation>, c: Cursor): (r: Outcome<bool>)
    requires Valid(records, c)
    ensures Moves(records, c, r)
    ensures r.Ok? <==> InRange(records, c) && Accepts(c.stack, records[c.position], ")")
    ensures r.Ok? ==>
              IsExpected(records[c.position], ")") && |c.stack| > 0 && c.stack[|c.stack| - 1] == "(" &&
              r.value == Parsed(true, Cursor(c.position + 1, c.stack[..|c.stack| - 1]))
  {
    var closing :- Current(records, c);
    var closed :- Bracket(c, closing, ")");
    Ok(Parsed(true, closed.after.(position := closed.after.position + 1)))
  }

  /**
   * Arithmetic expression, rel_op, arithmetic expression, from the current record; the
   * boolean expression reads this both inside and outside brackets.
   */
  function Relation(records: seq<SymbolInformation>, c: Cursor): (r: Outcome<bool>)
    requires InRange(records, c)
    ensures Moves(records, c, r)
    ensures Completes(records, c, r, ["+", "-"])
    decreases |records| - c.position, 4
  {
    var lhs :- ArithmeticExpression(records, c);
    if !lhs.answer then Ok(lhs) else
    // the left-hand side stopped on an existing record (Completes), so reading it cannot fail
    var relation := records[lhs.after.position];
    if !ParseRelExpression(relation).value then Ok(Parsed(false, lhs.after)) else
    var right :- Advance(records, lhs.after);
    ArithmeticExpression(records, right.after)
  }

  predicate ArithmeticAnswersTrue(records: seq<SymbolInformation>, c: Cursor)
    requires InRange(records, c)
    decreases |records| - c.position, 4
  {
    var a := ArithmeticExpression(records, c);
    a.Ok? && a.value.answer
  }

  /**
   * The one backtracking point: try a boolean expression; if it answers false, put the index
   * back (the bracket stack is not put back) and read an arithmetic expression instead; if
   * that answers false too, fail.
   */
  function Expression(records: seq<SymbolInformation>, c: Cursor): (r: Outcome<bool>)
    requires Valid(records, c)
    ensures Moves(records, c, r)
    ensures r.Ok? ==> r.value.answer
    ensures var b := BooleanExpression(records, c);
      && (b.Err? ==> r == Err(b.error))
      && (b.Ok? && b.value.answer ==> r == b)
      && (b.Ok? && !b.value.answer ==>
            (r.Ok? <==> c.position + 1 < |records| && ArithmeticAnswersTrue(records, Cursor(c.position + 1, b.value.after.stack))) &&
            (r.Ok? ==> r == ArithmeticExpression(records, Cursor(c.position + 1, b.value.after.stack))))
    decreases |records| - c.position, 1
  {
    var temp := c.position;
    var boolean :- BooleanExpression(records, c);
    if boolean.answer then Ok(boolean)
    else
      var first :- Advance(records, boolean.after.(position := temp));
      var arithmetic :- ArithmeticExpression(records, first.after);
      if arithmetic.answer then Ok(arithmetic) else Err(ExpressionRejected)
  }

  // ---------------------------------------------------------------- statements

  /** An assignment: identifier, ("=", assign_op), an expression, and (";", punct) at the record it stopped at. */
  function IdentExpression(records: seq<SymbolInformation>, c: Cursor): (r: Outcome<bool>)
    requires InRange(records, c)
    ensures Moves(records, c, r)
    ensures r.Ok? ==> (r.value.answer <==> records[c.position].lexemeToken == "ident")
    ensures r.Ok? && r.value.answer ==>
              c.position + 1 < |records| &&
              records[c.position + 1].lexeme == "=" && records[c.position + 1].lexemeToken == "assign_op" &&
              InRange(records, r.value.after) &&
              records[r.value.after.position].lexeme == ";" && records[r.value.after.position].lexemeToken == "punct"
    decreases |records| - c.position, 0
  {
    var isIdent := ParseIdentToken(records[c.position]).value;
    if !isIdent then Ok(Parsed(false, c)) else
    var assign :- Advance(records, c);
    var isAssign :- ParseToken(("=", "assign_op"), assign.answer);
    var value :- Expression(records, assign.after);
    if !value.answer then Ok(Parsed(false, value.after)) else
    var terminator :- Current(records, value.after);
    var ended :- ParseToken((";", "punct"), terminator);
    Ok(Parsed(ended, value.after))
  }

  /**
   * "input" or "print": the keyword, "(", a comma-separated list of identifiers closed by ")",
   * and (";", punct).
   */
  function IoExpression(records: seq<SymbolInformation>, c: Cursor, keyword: string): (r: Outcome<bool>)
    requires InRange(records, c)
    ensures Moves(records, c, r)
    ensures r.Ok? ==> r.value.answer
    ensures r.Ok? ==>
              records[c.position].lexeme == keyword && records[c.position].lexemeToken == "keyword" &&
              c.position + 1 < |records| && IsExpected(records[c.position + 1], "(") &&
              InRange(records, r.value.after) &&
              records[r.value.after.position].lexeme == ";" && records[r.value.after.position].lexemeToken == "punct"
  {
    var start :- ParseToken((keyword, "keyword"), records[c.position]);
    var opening :- Advance(records, c);
    var pushed :- Bracket(opening.after, opening.answer, "(");
    var first :- Advance(records, pushed.after);
    var list :- IdentList(records, first.after, ")");
    var closed :- Bracket(list.after, list.answer, ")");
    var terminator :- Advance(records, closed.after);
    var ended :- ParseToken((";", "punct"), terminator.answer);
    Ok(Parsed(ended, terminator.after))
  }

  /** "if" "(" condition ")" "{" statements "}"; a condition that answers false makes the statement answer false. */
  function IfExpression(records: seq<SymbolInformation>, c: Cursor): (r: Outcome<bool>)
    requires InRange(records, c)
    ensures Moves(records, c, r)
    ensures r.Ok? ==>
              records[c.position].lexeme == "if" && records[c.position].lexemeToken == "keyword" &&
              c.position + 1 < |records| && IsExpected(records[c.position + 1], "(")
    ensures r.Ok? && r.value.answer ==>
              InRange(records, r.value.after) && IsExpected(records[r.value.after.position], "}")
    decreases |records| - c.position, 0
  {
    var start :- ParseToken(("if", "keyword"), records[c.position]);
    var opening :- Advance(records, c);
    var pushed :- Bracket(opening.after, opening.answer, "(");
    var condition :- BooleanExpression(records, pushed.after);
    if !condition.answer then Ok(Parsed(false, condition.after)) else
    var closing :- Current(records, condition.after);
    var closed :- Bracket(condition.after, closing, ")");
    var brace :- Advance(records, closed.after);
    var braced :- Bracket(brace.after, brace.answer, "{");
    var body :- StatementList(records, braced.after);
    var ending :- Current(records, body.after);
    Bracket(body.after, ending, "}")
  }

  /** "do" "{" statements "}" "while" "(" condition ")"; a condition that answers false makes the statement answer false. */
  function DoWhileExpression(records: seq<SymbolInformation>, c: Cursor): (r: Outcome<bool>)
    requires InRange(records, c)
    ensures Moves(records, c, r)
    ensures r.Ok? ==>
              records[c.position].lexeme == "do" && records[c.position].lexemeToken == "keyword" &&
              c.position + 1 < |records| && IsExpected(records[c.position + 1], "{")
    ensures r.Ok? && r.value.answer ==>
              InRange(records, r.value.after) && IsExpected(records[r.value.after.position], ")")
    decreases |records| - c.position, 0
  {
    var start :- ParseToken(("do", "keyword"), records[c.position]);
    var opening :- Advance(records, c);
    var pushed :- Bracket(opening.after, opening.answer, "{");
    var body :- StatementList(records, pushed.after);
    var ending :- Current(records, body.after);
    var ended :- Bracket(body.after, ending, "}");
    var loop :- Advance(records, ended.after);
    var keyword :- ParseToken(("while", "keyword"), loop.answer);
    var opening2 :- Advance(records, loop.after);
    var pushed2 :- Bracket(opening2.after, opening2.answer, "(");
    var condition :- BooleanExpression(records, pushed2.after);
    if !condition.answer then Ok(Parsed(false, condition.after)) else
    var closing :- Current(records, condition.after);
    Bracket(condition.after, closing, ")")
  }

  /**
   * One statement, chosen by the next record: an identifier starts an assignment, the keywords
   * input, print, if and do start their statements, ("}", par_op) answers false, and anything
   * else fails.
   */
  function Statement(records: seq<SymbolInformation>, c: Cursor): (r: Outcome<bool>)
    requires Valid(records, c)
    ensures Advances(records, c, r)
    ensures r.Ok? && !r.value.answer ==> c.position + 1 < |records| && StatementEndsFalse(records[c.position + 1])
    ensures c.position + 1 >= |records| ==> r == Err(EndOfRecords)
    ensures c.position + 1 < |records| && IsExpected(records[c.position + 1], "}") ==>
              r == Ok(Parsed(false, c.(position := c.position + 1)))
    ensures c.position + 1 < |records| && !StartsStatement(records[c.position + 1]) ==>
              r == Err(UnexpectedStatement(records[c.position + 1]))
    decreases |records| - c.position, 1
  {
    var next :- Advance(records, c);
    var symbol := next.answer;
    if symbol.lexemeToken == "ident" then IdentExpression(records, next.after)
    else if symbol.lexemeToken == "keyword" && symbol.lexeme == "input" then IoExpression(records, next.after, "input")
    else if symbol.lexemeToken == "keyword" && symbol.lexeme == "print" then IoExpression(records, next.after, "print")
    else if symbol.lexemeToken == "keyword" && symbol.lexeme == "if" then IfExpression(records, next.after)
    else if symbol.lexemeToken == "keyword" && symbol.lexeme == "do" then DoWhileExpression(records, next.after)
    else if symbol.lexemeToken == "par_op" && symbol.lexeme == "}" then Ok(Parsed(false, next.after))
    else Err(UnexpectedStatement(symbol))
  }

  /** The records a statement may begin with: an identifier, one of its four keywords, or the closing "}". */
  predicate StartsStatement(symbol: SymbolInformation) {
    symbol.lexemeToken == "ident" ||
    (symbol.lexemeToken == "keyword" && symbol.lexeme in ["input", "print", "if", "do"]) ||
    IsExpected(symbol, "}")
  }

  /** The only records at which a statement can answer false: the closing "}" and the keywords whose condition can fail. */
  predicate StatementEndsFalse(symbol: SymbolInformation) {
    (symbol.lexemeToken == "par_op" && symbol.lexeme == "}") ||
    (symbol.lexemeToken == "keyword" && symbol.lexeme in ["if", "do"])
  }

  /** Statements until one answers false. */
  function StatementList(records: seq<SymbolInformation>, c: Cursor): (r: Outcome<bool>)
    requires Valid(records, c)
    ensures Advances(records, c, r)
    ensures r.Ok? ==> !r.value.answer
    decreases |records| - c.position, 2
  {
    var statement :- Statement(records, c);
    if statement.answer then StatementList(records, statement.after) else Ok(statement)
  }

  // ---------------------------------------------------------------- declarations and program

  /**
   * A comma-separated identifier list ending at the lexeme endOfIdent, starting at the current
   * record. It answers the record it stopped at: the end marker, or the first record when that
   * is not an identifier. After a comma the next record is read but not required to be an
   * identifier.
   */
  function IdentList(records: seq<SymbolInformation>, c: Cursor, endOfIdent: string): (r: Outcome<SymbolInformation>)
    requires InRange(records, c)
    ensures Moves(records, c, r)
    ensures r.Ok? ==> InRange(records, r.value.after) && r.value.answer == records[r.value.after.position]
    ensures r.Ok? ==> r.value.after.stack == c.stack
    ensures records[c.position].lexemeToken != "ident" ==> r == Ok(Parsed(records[c.position], c))
    ensures r.Ok? && records[c.position].lexemeToken == "ident" ==> r.value.answer.lexeme == endOfIdent
  {
    var isIdent := ParseIdentToken(records[c.position]).value;
    if !isIdent then Ok(Parsed(records[c.position], c))
    else
      var next :- Advance(records, c);
      IdentListTail(records, next.after, endOfIdent)
  }

  /** The loop of IdentList, at the record after an identifier. */
  function IdentListTail(records: seq<SymbolInformation>, c: Cursor, endOfIdent: string): (r: Outcome<SymbolInformation>)
    requires InRange(records, c)
    ensures Moves(records, c, r)
    ensures r.Ok? ==> InRange(records, r.value.after) && r.value.answer == records[r.value.after.position]
    ensures r.Ok? ==> r.value.after.stack == c.stack
    ensures r.Ok? ==> r.value.answer.lexeme == endOfIdent
    decreases |records| - c.position
  {
    var symbol := records[c.position];
    if symbol.lexeme == endOfIdent then Ok(Parsed(symbol, c))
    else
      var comma :- ParseToken((",", "punct"), symbol);
      var ident :- Advance(records, c);
      var isIdent := ParseIdentToken(ident.answer).value;
      var next :- Advance(records, ident.after);
      IdentListTail(records, next.after, endOfIdent)
  }

  /**
   * The declarations up to the closing "}": each record that is a type name starts
   * "type identifiers ;", and every other record is passed over.
   */
  function Declarations(records: seq<SymbolInformation>, c: Cursor): (r: Outcome<SymbolInformation>)
    requires Valid(records, c)
    ensures Advances(records, c, r)
    ensures r.Ok? ==> InRange(records, r.value.after) && r.value.answer == records[r.value.after.position]
    ensures r.Ok? ==> r.value.answer.lexeme == "}"
    ensures r.Ok? ==> r.value.after.stack == c.stack
    decreases |records| - c.position
  {
    var next :- Advance(records, c);
    if next.answer.lexeme == "}" then Ok(next)
    else
      var isType :- ParseTypeToken(next.answer);
      if isType then (
        var first :- Advance(records, next.after);
        var list :- IdentList(records, first.after, ";");
        var ended :- ParseToken((";", "punct"), list.answer);
        Declarations(records, list.after))
      else Declarations(records, next.after)
  }

  /** "{" declarations "}", leaving the index on the closing brace. */
  function DeclarationSection(records: seq<SymbolInformation>, c: Cursor): (r: Outcome<bool>)
    requires Valid(records, c)
    ensures Advances(records, c, r)
    ensures r.Ok? ==>
              c.position + 1 < |records| && IsExpected(records[c.position + 1], "{") &&
              InRange(records, r.value.after) && IsExpected(records[r.value.after.position], "}") &&
              r.value.answer && r.value.after.stack == c.stack
  {
    var opening :- Advance(records, c);
    var pushed :- Bracket(opening.after, opening.answer, "{");
    var declarations :- Declarations(records, pushed.after);
    Bracket(declarations.after, declarations.answer, "}")
  }

  /** "{" statements "}", leaving the index on the closing brace. */
  function DoSection(records: seq<SymbolInformation>, c: Cursor): (r: Outcome<bool>)
    requires Valid(records, c)
    ensures Advances(records, c, r)
    ensures r.Ok? ==>
              c.position + 1 < |records| && IsExpected(records[c.position + 1], "{") &&
              InRange(records, r.value.after) && IsExpected(records[r.value.after.position], "}") &&
              r.value.answer
  {
    var opening :- Advance(records, c);
    var pushed :- Bracket(opening.after, opening.answer, "{");
    var body :- StatementList(records, pushed.after);
    var ending :- Current(records, body.after);
    Bracket(body.after, ending, "}")
  }

  /** ("program", keyword) followed by an identifier; a missing name answers false. */
  function ProgramStartSection(records: seq<SymbolInformation>, c: Cursor): (r: Outcome<bool>)
    requires Valid(records, c)
    ensures Advances(records, c, r)
    ensures r.Ok? ==>
              c.position + 2 < |records| && IsProgramKeyword(records[c.position + 1]) &&
              r.value.after == c.(position := c.position + 2) &&
              (r.value.answer <==> records[c.position + 2].lexemeToken == "ident")
  {
    var first :- Advance(records, c);
    var keyword :- ParseToken(("program", "keyword"), first.answer);
    var name :- Advance(records, first.after);
    var isIdent := ParseIdentToken(name.answer).value;
    Ok(Parsed(isIdent, name.after))
  }

  predicate IsProgramKeyword(symbol: SymbolInformation) {
    symbol.lexeme == "program" && symbol.lexemeToken == "keyword"
  }

  /**
   * The whole program: header, "{", the declaration section, the statement section, "}", and
   * then no bracket may still be opening. The answer is the (always empty) output list. An
   * accepted program starts with "program", its name and two "{" (the program's and the
   * declaration section's), and ends on a closing "}" record.
   */
  function Program(records: seq<SymbolInformation>, c: Cursor): (r: Outcome<seq<string>>)
    requires Valid(records, c)
    ensures Advances(records, c, r)
    ensures r.Ok? ==> r.value.answer == [] && r.value.after.stack == []
    ensures r.Ok? ==>
              c.position + 4 < |records| && IsProgramKeyword(records[c.position + 1]) &&
              records[c.position + 2].lexemeToken == "ident" &&
              IsExpected(records[c.position + 3], "{") && IsExpected(records[c.position + 4], "{") &&
              InRange(records, r.value.after) && IsExpected(records[r.value.after.position], "}")
  {
    var start :- ProgramStartSection(records, c);
    if !start.answer then Err(ProgramStartRejected) else
    ProgramBlock(records, start.after)
  }

  /** The program after its header: "{", the two sections, "}", and no bracket left open. */
  function ProgramBlock(records: seq<SymbolInformation>, c: Cursor): (r: Outcome<seq<string>>)
    requires Valid(records, c)
    ensures Advances(records, c, r)
    ensures r.Ok? ==> r.value.answer == [] && r.value.after.stack == []
    ensures r.Ok? ==>
              c.position + 2 < |records| &&
              IsExpected(records[c.position + 1], "{") && IsExpected(records[c.position + 2], "{") &&
              InRange(records, r.value.after) && IsExpected(records[r.value.after.position], "}")
  {
    var opening :- Advance(records, c);
    var pushed :- Bracket(opening.after, opening.answer, "{");
    var declarations :- DeclarationSection(records, pushed.after);
    var body :- DoSection(records, declarations.after);
    var close :- Advance(records, body.after);
    var closed :- Bracket(close.after, close.answer, "}");
    if |closed.after.stack| != 0 then Err(BracketFailure(UnclosedBrackets))
    else Ok(Parsed([], closed.after))
  }
}
