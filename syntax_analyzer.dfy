/**
 * The stateful recursive-descent recogniser: a read cursor over the records the lexer produced,
 * advanced in place, with the bracket matcher as a collaborator. Each method is proved to end
 * as the function of module Grammar with the same role describes; a failure stands for the
 * exception the routine throws, after which the parse is abandoned.
 */
module Parser {
  import opened Wrappers
  import opened Dto
  import opened Brackets
  import opened Grammar
  import Lexer

  /** A method's result together with the cursor it leaves, in the shape of the Grammar functions. */
  function Report<T>(r: Result<T, ParseError>, c: Cursor): Outcome<T> {
    match r
    case Ok(v) => Ok(Parsed(v, c))
    case Err(e) => Err(e)
  }

  /** The values of a record table keyed 0..n-1, in key order (the order they were added in). */
  function InsertionOrder(symbols: map<int, SymbolInformation>): (r: seq<SymbolInformation>)
    requires Lexer.DenseKeys(symbols)
    ensures |r| == |symbols|
    ensures forall i :: 0 <= i < |r| ==> r[i] == symbols[i]
  {
    seq(|symbols|, i requires 0 <= i < |symbols| => symbols[i])
  }

  class SyntaxAnalyzer {
    const records: seq<SymbolInformation>
    const bracketsProcessor: BracketsProcessor
    /** The index of the record read last; -1 before the first read. */
    var position: int

    function View(): Cursor
      reads this, bracketsProcessor
    {
      Cursor(position, bracketsProcessor.bracketsStack)
    }

    constructor (symbolsInformation: map<int, SymbolInformation>, bracketsProcessor: BracketsProcessor)
      requires Lexer.DenseKeys(symbolsInformation)
      ensures records == InsertionOrder(symbolsInformation)
      ensures this.bracketsProcessor == bracketsProcessor
      ensures position == -1
    {
      records := InsertionOrder(symbolsInformation);
      this.bracketsProcessor := bracketsProcessor;
      position := -1;
    }

    /** The whole program; the answer is the output list, which this recogniser leaves empty. */
    method ParseProgram() returns (r: Result<seq<string>, ParseError>)
      requires Valid(records, View())
      modifies this, bracketsProcessor
      ensures Report(r, View()) == Program(records, old(View()))
    {
      var start :- ProcessProgramStartSection();
      if !start {
        return Err(ProgramStartRejected);
      }
      var opening :- NextRecord();
      var pushed :- Flow(opening, "{");
      var declarations :- ProcessDeclarationSection();
      var body :- ProcessDoSection();
      var closing :- NextRecord();
      var closed :- Flow(closing, "}");
      var status := bracketsProcessor.CheckStackStatus();
      if status.Some? {
        return Err(BracketFailure(status.value));
      }
      return Ok([]);
    }

    // ------------------------------------------------------------ reading records

    /** The advancing read: step the index first, then fail if it is past the last record. */
    method NextRecord() returns (r: Result<SymbolInformation, ParseError>)
      requires Valid(records, View())
      modifies this
      ensures Report(r, View()) == Advance(records, old(View()))
    {
      position := position + 1;
      if position > |records| - 1 {
        return Err(EndOfRecords);
      }
      return Ok(records[position]);
    }

    /** The record at the current index, read without moving. */
    method CurrentRecord() returns (r: Result<SymbolInformation, ParseError>)
      ensures r == Current(records, View())
    {
      if 0 <= position < |records| {
        return Ok(records[position]);
      }
      return Err(NoRecord(position));
    }

    /** Hands a record to the bracket matcher; its refusal becomes a parse failure. */
    method Flow(symbol: SymbolInformation, expectedBracket: string) returns (r: Result<bool, ParseError>)
      modifies bracketsProcessor
      ensures Report(r, View()) == Bracket(old(View()), symbol, expectedBracket)
    {
      var flow := bracketsProcessor.ControlBracketsFlow(symbol, expectedBracket);
      if flow.Err? {
        return Err(BracketFailure(flow.error));
      }
      return Ok(flow.value);
    }

    // ------------------------------------------------------------ sections

    method ProcessProgramStartSection() returns (r: Result<bool, ParseError>)
      requires Valid(records, View())
      modifies this
      ensures Report(r, View()) == ProgramStartSection(records, old(View()))
    {
      var first :- NextRecord();
      var keyword :- ParseToken(("program", "keyword"), first);
      var name :- NextRecord();
      return Ok(ParseIdentToken(name).value);
    }

    method ProcessDeclarationSection() returns (r: Result<bool, ParseError>)
      requires Valid(records, View())
      modifies this, bracketsProcessor
      ensures Report(r, View()) == DeclarationSection(records, old(View()))
    {
      var opening :- NextRecord();
      var pushed :- Flow(opening, "{");
      var last :- ProcessIdentList();
      r := Flow(last, "}");
    }

    /** The declarations up to "}", passing over every record that is not a type name. */
    method ProcessIdentList() returns (r: Result<SymbolInformation, ParseError>)
      requires Valid(records, View())
      modifies this
      ensures Report(r, View()) == Declarations(records, old(View()))
    {
      ghost var target := Declarations(records, View());
      while true
        invariant Valid(records, View())
        invariant Declarations(records, View()) == target
        decreases |records| - position
      {
        var symbol :- NextRecord();
        if symbol.lexeme == "}" {
          return Ok(symbol);
        }
        var isType :- ParseTypeToken(symbol);
        if isType {
          var first :- NextRecord();
          var list :- ParseIdentList(";");
          var ended :- ParseToken((";", "punct"), list);
        }
      }
    }

    /** Identifiers separated by commas, from the current record up to the lexeme endOfIdent. */
    method ParseIdentList(endOfIdent: string) returns (r: Result<SymbolInformation, ParseError>)
      requires InRange(records, View())
      modifies this
      ensures Report(r, View()) == IdentList(records, old(View()), endOfIdent)
    {
      if !ParseIdentToken(records[position]).value {
        return Ok(records[position]);
      }
      var next :- NextRecord();
      ghost var target := IdentListTail(records, View(), endOfIdent);
      while records[position].lexeme != endOfIdent
        invariant InRange(records, View())
        invariant IdentListTail(records, View(), endOfIdent) == target
        decreases |records| - position
      {
        var comma :- ParseToken((",", "punct"), records[position]);
        var ident :- NextRecord();
        var isIdent := ParseIdentToken(ident).value;
        var following :- NextRecord();
      }
      return Ok(records[position]);
    }

    method ProcessDoSection() returns (r: Result<bool, ParseError>)
      requires Valid(records, View())
      modifies this, bracketsProcessor
      ensures Report(r, View()) == DoSection(records, old(View()))
    {
      var opening :- NextRecord();
      var pushed :- Flow(opening, "{");
      var body :- ProcessStatements();
      var ending :- CurrentRecord();
      r := Flow(ending, "}");
    }

    // ------------------------------------------------------------ statements

    /** The loop `while (ProcessStatementList()) { }`: statements until one answers false. */
    method ProcessStatements() returns (r: Result<bool, ParseError>)
      requires Valid(records, View())
      modifies this, bracketsProcessor
      ensures Report(r, View()) == StatementList(records, old(View()))
      decreases |records| - position, 2
    {
      ghost var target := StatementList(records, View());
      while true
        invariant Valid(records, View()) && old(position) <= position
        invariant StatementList(records, View()) == target
        decreases |records| - position
      {
        var statement :- ProcessStatementList();
        if !statement {
          return Ok(false);
        }
      }
    }

    /** Reads the next record and runs the statement it starts. */
    method ProcessStatementList() returns (r: Result<bool, ParseError>)
      requires Valid(records, View())
      modifies this, bracketsProcessor
      ensures Report(r, View()) == Statement(records, old(View()))
      decreases |records| - position, 1
    {
      var symbol :- NextRecord();
      if symbol.lexemeToken == "ident" {
        r := ProcessIdentExpression();
      } else if symbol.lexemeToken == "keyword" && symbol.lexeme == "input" {
        r := ProcessIoExpression("input");
      } else if symbol.lexemeToken == "keyword" && symbol.lexeme == "print" {
        r := ProcessIoExpression("print");
      } else if symbol.lexemeToken == "keyword" && symbol.lexeme == "if" {
        r := ProcessIfExpression();
      } else if symbol.lexemeToken == "keyword" && symbol.lexeme == "do" {
        r := ProcessDoWhileExpression();
      } else if symbol.lexemeToken == "par_op" && symbol.lexeme == "}" {
        r := Ok(false);
      } else {
        r := Err(UnexpectedStatement(symbol));
      }
    }

    method ProcessIdentExpression() returns (r: Result<bool, ParseError>)
      requires InRange(records, View())
      modifies this, bracketsProcessor
      ensures Report(r, View()) == IdentExpression(records, old(View()))
      decreases |records| - position, 0
    {
      if !ParseIdentToken(records[position]).value {
        return Ok(false);
      }
      var assign :- NextRecord();
      var isAssign :- ParseToken(("=", "assign_op"), assign);
      var value :- ParseExpression();
      r := Ok(value);
      if value {
        var terminator :- CurrentRecord();
        var ended :- ParseToken((";", "punct"), terminator);
        r := Ok(ended);
      }
    }

    /** The input and the print statement, which differ only in their keyword. */
    method ProcessIoExpression(keyword: string) returns (r: Result<bool, ParseError>)
      requires InRange(records, View())
      modifies this, bracketsProcessor
      ensures Report(r, View()) == IoExpression(records, old(View()), keyword)
    {
      var start :- ParseToken((keyword, "keyword"), records[position]);
      var opening :- NextRecord();
      var pushed :- Flow(opening, "(");
      var first :- NextRecord();
      var last :- ParseIdentList(")");
      var closed :- Flow(last, ")");
      var terminator :- NextRecord();
      var ended :- ParseToken((";", "punct"), terminator);
      return Ok(ended);
    }

    method ProcessIfExpression() returns (r: Result<bool, ParseError>)
      requires InRange(records, View())
      modifies this, bracketsProcessor
      ensures Report(r, View()) == IfExpression(records, old(View()))
      decreases |records| - position, 0
    {
      var start :- ParseToken(("if", "keyword"), records[position]);
      var opening :- NextRecord();
      var pushed :- Flow(opening, "(");
      var condition :- ParseBooleanExpression();
      if !condition {
        return Ok(false);
      }
      var closing :- CurrentRecord();
      var closed :- Flow(closing, ")");
      var brace :- NextRecord();
      var braced :- Flow(brace, "{");
      var body :- ProcessStatements();
      var ending :- CurrentRecord();
      r := Flow(ending, "}");
    }

    method ProcessDoWhileExpression() returns (r: Result<bool, ParseError>)
      requires InRange(records, View())
      modifies this, bracketsProcessor
      ensures Report(r, View()) == DoWhileExpression(records, old(View()))
      decreases |records| - position, 0
    {
      var start :- ParseToken(("do", "keyword"), records[position]);
      var opening :- NextRecord();
      var pushed :- Flow(opening, "{");
      var body :- ProcessStatements();
      var ending :- CurrentRecord();
      var ended :- Flow(ending, "}");
      var loop :- NextRecord();
      var keyword :- ParseToken(("while", "keyword"), loop);
      var opening2 :- NextRecord();
      var pushed2 :- Flow(opening2, "(");
      var condition :- ParseBooleanExpression();
      if !condition {
        return Ok(false);
      }
      var closing :- CurrentRecord();
      r := Flow(closing, ")");
    }

    // ------------------------------------------------------------ expressions

    /** Tries a boolean expression, then backtracks the index (only) to read an arithmetic one. */
    method ParseExpression() returns (r: Result<bool, ParseError>)
      requires Valid(records, View())
      modifies this, bracketsProcessor
      ensures Report(r, View()) == Expression(records, old(View()))
      decreases |records| - position, 1
    {
      var temp := position;
      var boolean :- ParseBooleanExpression();
      if boolean {
        return Ok(true);
      }
      position := temp;
      var first :- NextRecord();
      var arithmetic :- ParseArithmeticExpression();
      if arithmetic {
        return Ok(true);
      }
      return Err(ExpressionRejected);
    }

    method ParseBooleanExpression() returns (r: Result<bool, ParseError>)
      requires Valid(records, View())
      modifies this, bracketsProcessor
      ensures Report(r, View()) == BooleanExpression(records, old(View()))
      decreases |records| - position, 0
    {
      var symbol :- NextRecord();
      if symbol.lexeme == "true" || symbol.lexeme == "false" {
        var literal :- ParseTokenKind("boolval", symbol);
        return Ok(true);
      }
      if symbol.lexeme == "(" {
        r := ParseBracketedRelation();
      } else {
        r := ParseRelation();
      }
    }

    /** From a "(": the bracket, a relation, the closing ")" at the current record, and one step past it. */
    method ParseBracketedRelation() returns (r: Result<bool, ParseError>)
      requires InRange(records, View())
      modifies this, bracketsProcessor
      ensures Report(r, View()) == BracketedRelation(records, old(View()))
      decreases |records| - position, 0
    {
      var pushed :- Flow(records[position], "(");
      var left :- NextRecord();
      var relation :- ParseRelation();
      if !relation {
        return Ok(false);
      }
      r := CloseBracketedRelation();
    }

    method CloseBracketedRelation() returns (r: Result<bool, ParseError>)
      requires Valid(records, View())
      modifies this, bracketsProcessor
      ensures Report(r, View()) == CloseBracket(records, old(View()))
    {
      var closing :- CurrentRecord();
      var closed :- Flow(closing, ")");
      position := position + 1;
      r := Ok(true);
    }

    /** Arithmetic expression, relational operator, arithmetic expression. */
    method ParseRelation() returns (r: Result<bool, ParseError>)
      requires InRange(records, View())
      modifies this, bracketsProcessor
      ensures Report(r, View()) == Relation(records, old(View()))
      decreases |records| - position, 4
    {
      var lhs :- ParseArithmeticExpression();
      if !lhs {
        return Ok(false);
      }
      // the left-hand side stopped on an existing record, so reading it cannot fail
      var relation := records[position];
      if !ParseRelExpression(relation).value {
        return Ok(false);
      }
      var right :- NextRecord();
      r := ParseArithmeticExpression();
    }

    method ParseArithmeticExpression() returns (r: Result<bool, ParseError>)
      requires InRange(records, View())
      modifies this, bracketsProcessor
      ensures Report(r, View()) == ArithmeticExpression(records, old(View()))
      decreases |records| - position, 3
    {
      var symbol := records[position];
      if symbol.lexeme == "+" || symbol.lexeme == "-" {
        var signed :- ParseTokenKind("add_op", symbol);
      }
      var term :- ParseTerm();
      if !term {
        return Ok(false);
      }
      ghost var target := ArithmeticTail(records, View());
      while true
        invariant Valid(records, View()) && old(position) <= position
        invariant ArithmeticTail(records, View()) == target
        decreases |records| - position
      {
        var operator :- CurrentRecord();
        if !(operator.lexeme == "+" || operator.lexeme == "-") {
          return Ok(true);
        }
        var add :- ParseTokenKind("add_op", operator);
        var next :- NextRecord();
        term :- ParseTerm();
        if !term {
          return Ok(false);
        }
      }
    }

    method ParseTerm() returns (r: Result<bool, ParseError>)
      requires InRange(records, View())
      modifies this, bracketsProcessor
      ensures Report(r, View()) == Term(records, old(View()))
      decreases |records| - position, 2
    {
      var chunk :- ParseChunk();
      if !chunk {
        return Ok(false);
      }
      ghost var target := TermTail(records, View());
      while true
        invariant Valid(records, View()) && old(position) <= position
        invariant TermTail(records, View()) == target
        decreases |records| - position
      {
        var operator :- CurrentRecord();
        if !(operator.lexeme == "*" || operator.lexeme == "/") {
          return Ok(true);
        }
        var multiply :- ParseTokenKind("mult_op", operator);
        var next :- NextRecord();
        chunk :- ParseChunk();
        if !chunk {
          return Ok(false);
        }
      }
    }

    method ParseChunk() returns (r: Result<bool, ParseError>)
      requires InRange(records, View())
      modifies this, bracketsProcessor
      ensures Report(r, View()) == Chunk(records, old(View()))
      decreases |records| - position, 1
    {
      var factor :- ParseFactor();
      if !factor {
        return Ok(false);
      }
      ghost var target := ChunkTail(records, View());
      while true
        invariant Valid(records, View()) && old(position) <= position
        invariant ChunkTail(records, View()) == target
        decreases |records| - position
      {
        var operator :- CurrentRecord();
        if operator.lexeme != "^" {
          return Ok(true);
        }
        var power :- ParseToken(("^", "pow_op"), operator);
        var next :- NextRecord();
        factor :- ParseFactor();
        if !factor {
          return Ok(false);
        }
      }
    }

    method ParseFactor() returns (r: Result<bool, ParseError>)
      requires InRange(records, View())
      modifies this, bracketsProcessor
      ensures Report(r, View()) == Factor(records, old(View()))
      decreases |records| - position, 0
    {
      var symbol := records[position];
      var isConst :- ParseConst(symbol);
      var isIdent := !isConst && ParseIdentToken(symbol).value;
      if isConst || isIdent {
        position := position + 1;
        return Ok(true);
      }
      if symbol.lexeme == "(" {
        var pushed :- Flow(symbol, "(");
        var first :- NextRecord();
        var inner :- ParseArithmeticExpression();
        if inner {
          var closing :- NextRecord();
          r := Flow(closing, ")");
          return;
        }
      }
      return Ok(false);
    }
  }
}
