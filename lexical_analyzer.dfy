/**
 * The lexical analyzer: a character-by-character driver of the automaton in States that fills
 * the identifier table, the constant table and the ordered table of symbol records.
 *
 * The functions in this module are the specification; class LexicalAnalyzer is the stateful
 * analyzer, and each of its methods is proved to do what the matching function describes.
 * The specification takes the three tables as a Lexicon value, so that the general proofs
 * rely only on property WellFormed of the tables; Tables holds the tables of States and
 * Tokens, which are the ones the analyzer is built with.
 */
module Lexer {
  import opened Wrappers
  import opened Dto
  import opened SymbolAnalyzer
  import opened States
  import opened Tokens

  /** A lexer failure: the status code (101 to 104) its message starts with, the current line and the offending character. */
  datatype LexError = LexError(code: int, line: int, symbol: char)

  /** The tables the analyzer consults: the automaton, the kinds of known lexemes and the kinds of final states. */
  datatype Lexicon = Lexicon(
    classify: char -> string,
    transitions: map<StateTransition, int>,
    languageTokens: map<string, string>,
    otherTokens: map<int, string>)

  /** The tables of States and Tokens. */
  const Tables := Lexicon(GetClassOfSymbol, StateTransitionsDictionary, LanguageTokens, OtherTokens)

  /** Everything the analyzer keeps between characters (besides the automaton state and the current lexeme). */
  datatype AnalyzerState = AnalyzerState(
    lineOfCode: int,
    counter: int,
    symbols: map<int, SymbolInformation>,
    ids: map<string, int>,
    constants: map<string, int>)

  /** The record table is keyed 0, 1, ..., n-1. */
  ghost predicate DenseKeys(symbols: map<int, SymbolInformation>) {
    forall k :: k in symbols <==> 0 <= k < |symbols|
  }

  /** The token kinds whose lexeme is registered in the constant table. */
  const ConstantTokens: seq<string> := ["int", "float", "exp", "boolval"]

  /** The token kinds whose lexeme is completed with the character that ended it. */
  const OperatorTokens: seq<string> := ["punct", "add_op", "mult_op", "power_op", "par_op", "rel_op"]

  /** The finalisations after which the boundary character is read again from the initial state. */
  predicate StepsBack(token: string) {
    TreatmentOf(token) == Identifier || TreatmentOf(token) == Constant
  }

  /**
   * What the progress of a scan relies on: no transition out of state 0 leads to a state whose
   * token kind comes from the final-state table, and no lexeme of at most one character is an
   * identifier or a constant. Then a lexeme finished straight from state 0 never steps back.
   */
  ghost predicate WellFormed(lex: Lexicon) {
    InitAvoidsStateKinds(lex.transitions, lex.otherTokens) && ShortLexemesStay(lex.languageTokens)
  }

  ghost predicate InitAvoidsStateKinds(transitions: map<StateTransition, int>, otherTokens: map<int, string>) {
    forall symbolClass :: StateTransition(InitState, symbolClass) in transitions ==>
      transitions[StateTransition(InitState, symbolClass)] !in otherTokens
  }

  ghost predicate ShortLexemesStay(languageTokens: map<string, string>) {
    forall lexeme :: lexeme in languageTokens && |lexeme| <= 1 ==> !StepsBack(languageTokens[lexeme])
  }

  // ---------------------------------------------------------------------------------------------
  // Lookups

  /** The next state: the exact (state, class) entry, else the state's fallback entry, else -1. */
  function GetState(lex: Lexicon, currentState: int, symbolClass: string): (r: int)
    ensures StateTransition(currentState, symbolClass) in lex.transitions ==>
              r == lex.transitions[StateTransition(currentState, symbolClass)]
    ensures StateTransition(currentState, symbolClass) !in lex.transitions && StateTransition(currentState, Other) in lex.transitions ==>
              r == lex.transitions[StateTransition(currentState, Other)]
    ensures StateTransition(currentState, symbolClass) !in lex.transitions && StateTransition(currentState, Other) !in lex.transitions ==>
              r == -1
  {
    var exact := StateTransition(currentState, symbolClass);
    var fallback := StateTransition(currentState, Other);
    if exact in lex.transitions then lex.transitions[exact]
    else if fallback in lex.transitions then lex.transitions[fallback]
    else -1
  }

  /** Reaching one of the error states is a failure carrying that state as its code and the current line. */
  function CheckForErrors(currentState: int, lineOfCode: int, symbol: char): (r: Option<LexError>)
    ensures r.Some? <==> currentState in ErrorStates
    ensures r.Some? ==> r.value == LexError(currentState, lineOfCode, symbol)
  {
    if currentState == 101 || currentState == 102 || currentState == 103 || currentState == 104 then
      Some(LexError(currentState, lineOfCode, symbol))
    else
      None
  }

  /**
   * The token kind of a finished lexeme: the lexeme's own entry, else the kind of the final
   * state, else the entry of the lexeme followed by the boundary character, else the entry of
   * the boundary character alone, else the empty string.
   */
  function GetToken(lex: Lexicon, lexeme: string, state: int, symbol: char): (r: string)
    ensures lexeme in lex.languageTokens ==> r == lex.languageTokens[lexeme]
    ensures lexeme !in lex.languageTokens && state in lex.otherTokens ==> r == lex.otherTokens[state]
    ensures lexeme !in lex.languageTokens && state !in lex.otherTokens && lexeme + [symbol] in lex.languageTokens ==>
              r == lex.languageTokens[lexeme + [symbol]]
    ensures (lexeme !in lex.languageTokens && state !in lex.otherTokens &&
             lexeme + [symbol] !in lex.languageTokens && [symbol] in lex.languageTokens) ==> r == lex.languageTokens[[symbol]]
    ensures (lexeme !in lex.languageTokens && state !in lex.otherTokens &&
             lexeme + [symbol] !in lex.languageTokens && [symbol] !in lex.languageTokens) ==> r == ""
  {
    if lexeme in lex.languageTokens then lex.languageTokens[lexeme]
    else if state in lex.otherTokens then lex.otherTokens[state]
    else if lexeme + [symbol] in lex.languageTokens then lex.languageTokens[lexeme + [symbol]]
    else if [symbol] in lex.languageTokens then lex.languageTokens[[symbol]]
    else ""
  }

  // ---------------------------------------------------------------------------------------------
  // One character

  /** Adds a record under the key equal to the number of records so far. */
  function Append(a: AnalyzerState, record: SymbolInformation): AnalyzerState {
    a.(symbols := a.symbols[|a.symbols| := record])
  }

  /**
   * Finishing a lexeme: classify it, register identifiers and constants the first time they are
   * seen (both with index |ids| + 1), and record it. A newline advances the line counter first;
   * an identifier or a constant steps the read cursor back so that its boundary character is
   * read again; an operator or punctuation lexeme takes the boundary character in.
   */
  function FinalizeLexeme(lex: Lexicon, a: AnalyzerState, lexeme: string, state: int, symbol: char): (r: AnalyzerState)
    ensures |a.symbols| in r.symbols && r.symbols[|a.symbols|].lexemeToken == GetToken(lex, lexeme, state, symbol)
    ensures r.counter == if StepsBack(GetToken(lex, lexeme, state, symbol)) then a.counter - 1 else a.counter
  {
    FinalizeToken(a, lexeme, GetToken(lex, lexeme, state, symbol), symbol)
  }

  /** Finishing a lexeme keeps the record table dense and keeps everything the analyzer held. */
  lemma FinalizeKeepsEarlier(lex: Lexicon, a: AnalyzerState, lexeme: string, state: int, symbol: char)
    requires DenseKeys(a.symbols)
    ensures DenseKeys(FinalizeLexeme(lex, a, lexeme, state, symbol).symbols)
    ensures Extends(a, FinalizeLexeme(lex, a, lexeme, state, symbol))
  {
    var token := GetToken(lex, lexeme, state, symbol);
    FinalizeAppendsOneRecord(a, lexeme, token, symbol);
    FinalizeRegisters(a, lexeme, token, symbol);
    FinalizeLine(a, lexeme, token, symbol);
    AppendKeepsKeysDense(a.symbols, FinalizeToken(a, lexeme, token, symbol).symbols[|a.symbols|]);
  }

  /**
   * The analyzer b has kept everything a held: every record under its key, every identifier
   * and constant with its index, and a line counter no smaller.
   */
  ghost predicate Extends(a: AnalyzerState, b: AnalyzerState) {
    && a.symbols.Keys <= b.symbols.Keys && (forall k :: k in a.symbols ==> b.symbols[k] == a.symbols[k])
    && a.ids.Keys <= b.ids.Keys && (forall x :: x in a.ids ==> b.ids[x] == a.ids[x])
    && a.constants.Keys <= b.constants.Keys && (forall x :: x in a.constants ==> b.constants[x] == a.constants[x])
    && a.lineOfCode <= b.lineOfCode
  }

  /** How a finished lexeme is recorded, decided by its token kind. */
  datatype Treatment = Newline | Identifier | Constant | Operator | Plain

  function TreatmentOf(token: string): Treatment {
    if token == "nl" then Newline
    else if token == "ident" then Identifier
    else if token in ConstantTokens then Constant
    else if token in OperatorTokens then Operator
    else Plain
  }

  /** Adds a lexeme to an identifier or constant table unless it is already there. */
  function Register(table: map<string, int>, lexeme: string, index: int): map<string, int> {
    if lexeme in table then table else table[lexeme := index]
  }

  /** Registering adds the lexeme as a key, gives it the index only if it was new, and changes no other entry. */
  lemma RegisterAddsOnce(table: map<string, int>, lexeme: string, index: int)
    ensures Register(table, lexeme, index).Keys == table.Keys + {lexeme}
    ensures forall x :: x in table ==> Register(table, lexeme, index)[x] == table[x]
    ensures lexeme !in table ==> Register(table, lexeme, index)[lexeme] == index
  {
  }

  /** FinalizeLexeme once the token kind of the lexeme is known. */
  function FinalizeToken(a: AnalyzerState, lexeme: string, token: string, symbol: char): (r: AnalyzerState)
    ensures r.counter == if StepsBack(token) then a.counter - 1 else a.counter
  {
    match TreatmentOf(token)
    case Newline =>
      var line := a.lineOfCode + 1;
      Append(a.(lineOfCode := line), SymbolInformation(line, "\\n", token, None))
    case Identifier =>
      var index := if lexeme in a.ids then None else Some(|a.ids| + 1);
      Append(a.(ids := Register(a.ids, lexeme, |a.ids| + 1), counter := a.counter - 1),
             SymbolInformation(a.lineOfCode, lexeme, token, index))
    case Constant =>
      var index := if lexeme in a.constants then None else Some(|a.ids| + 1);
      Append(a.(constants := Register(a.constants, lexeme, |a.ids| + 1), counter := a.counter - 1),
             SymbolInformation(a.lineOfCode, lexeme, token, index))
    case Operator =>
      Append(a, SymbolInformation(a.lineOfCode, lexeme + [symbol], token, None))
    case Plain =>
      Append(a, SymbolInformation(a.lineOfCode, lexeme, token, None))
  }

  /**
   * Finishing a lexeme adds exactly one record, under the next key and with the lexeme's token
   * kind, and leaves the earlier records alone.
   */
  lemma FinalizeAppendsOneRecord(a: AnalyzerState, lexeme: string, token: string, symbol: char)
    ensures FinalizeToken(a, lexeme, token, symbol).symbols.Keys == a.symbols.Keys + {|a.symbols|}
    ensures forall k :: k in a.symbols && k != |a.symbols| ==>
              FinalizeToken(a, lexeme, token, symbol).symbols[k] == a.symbols[k]
    ensures FinalizeToken(a, lexeme, token, symbol).symbols[|a.symbols|].lexemeToken == token
  {
    FinalizeAddsNextKey(a, lexeme, token, symbol);
    FinalizeKeepsRecords(a, lexeme, token, symbol);
  }

  lemma FinalizeAddsNextKey(a: AnalyzerState, lexeme: string, token: string, symbol: char)
    ensures FinalizeToken(a, lexeme, token, symbol).symbols.Keys == a.symbols.Keys + {|a.symbols|}
  {
  }

  lemma FinalizeKeepsRecords(a: AnalyzerState, lexeme: string, token: string, symbol: char)
    ensures forall k :: k in a.symbols && k != |a.symbols| ==>
              FinalizeToken(a, lexeme, token, symbol).symbols[k] == a.symbols[k]
  {
  }

  /** Only a newline moves the line counter, by one; the record of a newline carries the new line number and the text "\\n". */
  lemma FinalizeLine(a: AnalyzerState, lexeme: string, token: string, symbol: char)
    ensures FinalizeToken(a, lexeme, token, symbol).lineOfCode == if token == "nl" then a.lineOfCode + 1 else a.lineOfCode
    ensures token == "nl" ==>
              FinalizeToken(a, lexeme, token, symbol).symbols[|a.symbols|] == SymbolInformation(a.lineOfCode + 1, "\\n", "nl", None)
  {
  }

  /**
   * Identifiers and constants are registered only when absent, with index |ids| + 1 in both
   * tables, and entries already there never change.
   */
  lemma FinalizeRegisters(a: AnalyzerState, lexeme: string, token: string, symbol: char)
    ensures var r := FinalizeToken(a, lexeme, token, symbol);
      r.ids.Keys == (if token == "ident" then a.ids.Keys + {lexeme} else a.ids.Keys) &&
      (forall x :: x in a.ids ==> r.ids[x] == a.ids[x]) &&
      (lexeme !in a.ids && lexeme in r.ids ==> r.ids[lexeme] == |a.ids| + 1)
    ensures var r := FinalizeToken(a, lexeme, token, symbol);
      r.constants.Keys == (if token in ConstantTokens then a.constants.Keys + {lexeme} else a.constants.Keys) &&
      (forall x :: x in a.constants ==> r.constants[x] == a.constants[x]) &&
      (lexeme !in a.constants && lexeme in r.constants ==> r.constants[lexeme] == |a.ids| + 1)
  {
    FinalizeRegistersIdentifiers(a, lexeme, token, symbol);
    FinalizeRegistersConstants(a, lexeme, token, symbol);
  }

  lemma FinalizeRegistersIdentifiers(a: AnalyzerState, lexeme: string, token: string, symbol: char)
    ensures var r := FinalizeToken(a, lexeme, token, symbol);
      r.ids.Keys == (if token == "ident" then a.ids.Keys + {lexeme} else a.ids.Keys) &&
      (forall x :: x in a.ids ==> r.ids[x] == a.ids[x]) &&
      (lexeme !in a.ids && lexeme in r.ids ==> r.ids[lexeme] == |a.ids| + 1)
  {
    TreatmentKinds(token);
    RegisterAddsOnce(a.ids, lexeme, |a.ids| + 1);
  }

  lemma FinalizeRegistersConstants(a: AnalyzerState, lexeme: string, token: string, symbol: char)
    ensures var r := FinalizeToken(a, lexeme, token, symbol);
      r.constants.Keys == (if token in ConstantTokens then a.constants.Keys + {lexeme} else a.constants.Keys) &&
      (forall x :: x in a.constants ==> r.constants[x] == a.constants[x]) &&
      (lexeme !in a.constants && lexeme in r.constants ==> r.constants[lexeme] == |a.ids| + 1)
  {
    TreatmentKinds(token);
    RegisterAddsOnce(a.constants, lexeme, |a.ids| + 1);
  }

  /** The treatment of a finished lexeme is decided by its token kind alone. */
  lemma TreatmentKinds(token: string)
    ensures TreatmentOf(token) == Newline <==> token == "nl"
    ensures TreatmentOf(token) == Identifier <==> token == "ident"
    ensures TreatmentOf(token) == Constant <==> token in ConstantTokens
    ensures TreatmentOf(token) == Operator <==> token in OperatorTokens
  {
  }

  /** The analyzer after one character has been processed in the state the automaton moved to. */
  datatype Step = Step(analyzer: AnalyzerState, lexeme: string, state: int)

  /**
   * A final or process-now state finishes the lexeme and returns to the initial state; the
   * initial state discards the lexeme; any other state appends the character to it.
   */
  function StepState(lex: Lexicon, a: AnalyzerState, symbol: char, lexeme: string, state: int): (r: Step)
    ensures r.state !in FinalStates && r.state !in StatesToProcess
    ensures r.state == InitState <==> r.lexeme == ""
    ensures state !in FinalStates && state !in StatesToProcess ==> r.analyzer == a
    ensures state in FinalStates || state in StatesToProcess ==> |a.symbols| in r.analyzer.symbols
  {
    if state in FinalStates || state in StatesToProcess then Step(FinalizeLexeme(lex, a, lexeme, state, symbol), "", InitState)
    else if state == InitState then Step(a, "", state)
    else Step(a, lexeme + [symbol], state)
  }

  /**
   * Over well-formed tables, a character read in state 0 with an empty lexeme never steps the
   * cursor back: the lexeme it may finish is the empty one, whose kind is neither an identifier
   * nor a constant.
   */
  lemma {:induction false} InitStepAdvances(lex: Lexicon, a: AnalyzerState, symbol: char, symbolClass: string)
    requires WellFormed(lex)
    ensures StepState(lex, a, symbol, "", GetState(lex, InitState, symbolClass)).analyzer.counter == a.counter
  {
    var next := GetState(lex, InitState, symbolClass);
    if next in FinalStates {
      assert next !in lex.otherTokens by {
        if StateTransition(InitState, symbolClass) !in lex.transitions {
          assert StateTransition(InitState, Other) in lex.transitions;
        }
      }
      // every candidate entry GetToken can pick is keyed by a lexeme of at most one character
      assert "" + [symbol] == [symbol];
      if "" in lex.languageTokens {
        assert |""| <= 1;
      } else if [symbol] in lex.languageTokens {
        assert |[symbol]| <= 1;
      }
      assert !StepsBack(GetToken(lex, "", next, symbol));
    }
  }

  /**
   * A step leaves the lexeme empty whenever it returns to state 0, and moves the cursor back
   * only when it finishes a lexeme begun in another state.
   */
  lemma {:induction false} StepProgress(lex: Lexicon, a: AnalyzerState, symbol: char, symbolClass: string, state: int, lexeme: string)
    requires WellFormed(lex)
    requires state == InitState ==> lexeme == ""
    ensures var s := StepState(lex, a, symbol, lexeme, GetState(lex, state, symbolClass));
      (s.state == InitState ==> s.lexeme == "") &&
      (s.analyzer.counter == a.counter || (s.analyzer.counter == a.counter - 1 && state != InitState && s.state == InitState))
  {
    if state == InitState {
      InitStepAdvances(lex, a, symbol, symbolClass);
    }
  }

  // ---------------------------------------------------------------------------------------------
  // One line

  /** Where a line's scan stopped: the analyzer, the automaton state and the failure, if any. */
  datatype Scanned = Scanned(analyzer: AnalyzerState, state: int, error: Option<LexError>)

  /**
   * The scan of the rest of a line from the read cursor: classify, move, fail on an error
   * state, otherwise process the state and advance the cursor by one.
   */
  function Scan(lex: Lexicon, line: string, a: AnalyzerState, state: int, lexeme: string): (r: Scanned)
    requires WellFormed(lex)
    requires 0 <= a.counter
    requires state == InitState ==> lexeme == ""
    ensures r.error.None? ==> |line| <= r.analyzer.counter
    ensures r.error.Some? ==>
              0 <= r.analyzer.counter < |line| && r.state in ErrorStates &&
              r.error.value == LexError(r.state, r.analyzer.lineOfCode, line[r.analyzer.counter])
    decreases |line| - a.counter, if state == InitState then 0 else 1, 1
  {
    if a.counter >= |line| then Scanned(a, state, None)
    else
      var symbol := line[a.counter];
      var symbolClass := lex.classify(symbol);
      var next := GetState(lex, state, symbolClass);
      match CheckForErrors(next, a.lineOfCode, symbol)
      case Some(e) => Scanned(a, next, Some(e))
      case None =>
        StepProgress(lex, a, symbol, symbolClass, state, lexeme);
        Resume(lex, line, StepState(lex, a, symbol, lexeme, next))
  }

  /** The scan after a step: from the analyzer the step left, with the cursor moved on by one. */
  function Resume(lex: Lexicon, line: string, s: Step): (r: Scanned)
    requires WellFormed(lex)
    requires 0 <= s.analyzer.counter + 1
    requires s.state == InitState ==> s.lexeme == ""
    ensures r.error.None? ==> |line| <= r.analyzer.counter
    ensures r.error.Some? ==>
              0 <= r.analyzer.counter < |line| && r.state in ErrorStates &&
              r.error.value == LexError(r.state, r.analyzer.lineOfCode, line[r.analyzer.counter])
    decreases |line| - s.analyzer.counter - 1, if s.state == InitState then 0 else 1, 2
  {
    Scan(lex, line, s.analyzer.(counter := s.analyzer.counter + 1), s.state, s.lexeme)
  }

  /** The scan of the rest of the line from this point ends in result. */
  ghost predicate ScansTo(lex: Lexicon, line: string, a: AnalyzerState, state: int, lexeme: string, result: Scanned)
    requires WellFormed(lex)
    requires 0 <= a.counter
    requires state == InitState ==> lexeme == ""
  {
    Scan(lex, line, a, state, lexeme) == result
  }

  /** With the cursor past the end of the line, the scan stops where it is. */
  lemma {:induction false} ScanEnds(lex: Lexicon, line: string, a: AnalyzerState, state: int, lexeme: string)
    requires WellFormed(lex)
    requires |line| <= a.counter
    requires state == InitState ==> lexeme == ""
    ensures Scan(lex, line, a, state, lexeme) == Scanned(a, state, None)
  {
  }

  /** A character that leads to an error state stops the scan where it is, with that failure. */
  lemma {:induction false} ScanStops(lex: Lexicon, line: string, a: AnalyzerState, state: int, lexeme: string, next: int)
    requires WellFormed(lex)
    requires 0 <= a.counter < |line|
    requires state == InitState ==> lexeme == ""
    requires next == GetState(lex, state, lex.classify(line[a.counter]))
    requires CheckForErrors(next, a.lineOfCode, line[a.counter]).Some?
    ensures Scan(lex, line, a, state, lexeme) == Scanned(a, next, CheckForErrors(next, a.lineOfCode, line[a.counter]))
  {
  }

  /**
   * Any other character: the scan goes on from what StepState leaves, with the cursor one
   * further or, after a step back out of a non-initial state, at the same character in state 0.
   */
  lemma {:induction false} ScanContinues(lex: Lexicon, line: string, a: AnalyzerState, state: int, lexeme: string, next: int, s: Step)
    requires WellFormed(lex)
    requires 0 <= a.counter < |line|
    requires state == InitState ==> lexeme == ""
    requires next == GetState(lex, state, lex.classify(line[a.counter]))
    requires CheckForErrors(next, a.lineOfCode, line[a.counter]).None?
    requires s == StepState(lex, a, line[a.counter], lexeme, next)
    requires 0 <= s.analyzer.counter + 1
    requires s.state == InitState ==> s.lexeme == ""
    ensures Resume(lex, line, s) == Scan(lex, line, a, state, lexeme)
  {
  }

  /** Resuming after a step is scanning from the analyzer it left, with the cursor moved on. */
  lemma {:induction false} ResumeScans(lex: Lexicon, line: string, s: Step, b: AnalyzerState)
    requires WellFormed(lex)
    requires b == s.analyzer.(counter := s.analyzer.counter + 1)
    requires 0 <= b.counter
    requires s.state == InitState ==> s.lexeme == ""
    ensures ScansTo(lex, line, b, s.state, s.lexeme, Resume(lex, line, s))
  {
    assert s.analyzer.(counter := s.analyzer.counter + 1) == b;
  }

  function AnalyzeLine(lex: Lexicon, a: AnalyzerState, line: string, currentState: int): (r: Scanned)
    requires WellFormed(lex)
    requires 0 <= a.counter
    ensures r.error.Some? ==>
              0 <= r.analyzer.counter < |line| && r.state in ErrorStates &&
              r.error.value == LexError(r.state, r.analyzer.lineOfCode, line[r.analyzer.counter])
    ensures r.error.None? ==> r.analyzer.counter == 0
  {
    var s := Scan(lex, line, a, currentState, "");
    if s.error.Some? then s
    else Scanned(s.analyzer.(counter := 0, lineOfCode := s.analyzer.lineOfCode + 1), s.state, None)
  }

  /**
   * Scanning the rest of a line keeps every record, identifier and constant already there and
   * adds records only under the next keys.
   */
  lemma {:induction false} ScanKeepsEarlier(lex: Lexicon, line: string, a: AnalyzerState, state: int, lexeme: string)
    requires WellFormed(lex)
    requires 0 <= a.counter
    requires state == InitState ==> lexeme == ""
    requires DenseKeys(a.symbols)
    ensures var r := Scan(lex, line, a, state, lexeme);
      DenseKeys(r.analyzer.symbols) && Extends(a, r.analyzer)
    decreases |line| - a.counter, if state == InitState then 0 else 1
  {
    if a.counter < |line| && CheckForErrors(GetState(lex, state, lex.classify(line[a.counter])), a.lineOfCode, line[a.counter]).None? {
      var s := ScanStepsOn(lex, line, a, state, lexeme);
      var b := s.analyzer.(counter := s.analyzer.counter + 1);
      ScanKeepsEarlier(lex, line, b, s.state, s.lexeme);
      ExtendsTransitive(a, s.analyzer, Scan(lex, line, b, s.state, s.lexeme).analyzer);
    } else if a.counter < |line| {
      ScanStops(lex, line, a, state, lexeme, GetState(lex, state, lex.classify(line[a.counter])));
    } else {
      ScanEnds(lex, line, a, state, lexeme);
    }
  }

  /**
   * A character that does not lead to an error state: the scan goes on after the step it
   * makes, which keeps what the analyzer held.
   */
  lemma ScanStepsOn(lex: Lexicon, line: string, a: AnalyzerState, state: int, lexeme: string) returns (s: Step)
    requires WellFormed(lex)
    requires 0 <= a.counter < |line|
    requires state == InitState ==> lexeme == ""
    requires CheckForErrors(GetState(lex, state, lex.classify(line[a.counter])), a.lineOfCode, line[a.counter]).None?
    ensures s.state == InitState ==> s.lexeme == ""
    ensures s.analyzer.counter == a.counter || (s.analyzer.counter == a.counter - 1 && state != InitState && s.state == InitState)
    ensures s.state !in FinalStates
    ensures DenseKeys(a.symbols) ==> DenseKeys(s.analyzer.symbols) && Extends(a, s.analyzer)
    ensures Scan(lex, line, a, state, lexeme) == Scan(lex, line, s.analyzer.(counter := s.analyzer.counter + 1), s.state, s.lexeme)
  {
    var symbol := line[a.counter];
    var symbolClass := lex.classify(symbol);
    var next := GetState(lex, state, symbolClass);
    StepProgress(lex, a, symbol, symbolClass, state, lexeme);
    s := StepState(lex, a, symbol, lexeme, next);
    if DenseKeys(a.symbols) && (next in FinalStates || next in StatesToProcess) {
      FinalizeKeepsEarlier(lex, a, lexeme, next, symbol);
    }
    ScanContinues(lex, line, a, state, lexeme, next, s);
    ResumeScans(lex, line, s, s.analyzer.(counter := s.analyzer.counter + 1));
  }

  /**
   * A scan that ends without failure, begun outside the final states, ends outside them too,
   * so the state carried to the next line never finishes a lexeme by itself.
   */
  lemma {:induction false} ScanEndsOutsideFinal(lex: Lexicon, line: string, a: AnalyzerState, state: int, lexeme: string)
    requires WellFormed(lex)
    requires 0 <= a.counter
    requires state == InitState ==> lexeme == ""
    requires state !in FinalStates
    ensures var r := Scan(lex, line, a, state, lexeme);
      r.error.None? ==> r.state !in FinalStates
    decreases |line| - a.counter, if state == InitState then 0 else 1
  {
    if a.counter < |line| && CheckForErrors(GetState(lex, state, lex.classify(line[a.counter])), a.lineOfCode, line[a.counter]).None? {
      var s := ScanStepsOn(lex, line, a, state, lexeme);
      ScanEndsOutsideFinal(lex, line, s.analyzer.(counter := s.analyzer.counter + 1), s.state, s.lexeme);
    } else if a.counter >= |line| {
      ScanEnds(lex, line, a, state, lexeme);
    }
  }

  lemma ExtendsTransitive(a: AnalyzerState, b: AnalyzerState, c: AnalyzerState)
    requires Extends(a, b) && Extends(b.(counter := b.counter + 1), c)
    ensures Extends(a, c)
  {
  }

  /**
   * Analyzing a line keeps what the earlier lines recorded; without failure it moves the line
   * counter past the line and hands on a state that is not final.
   */
  lemma {:induction false} LineKeepsEarlier(lex: Lexicon, a: AnalyzerState, line: string, currentState: int)
    requires WellFormed(lex)
    requires 0 <= a.counter
    requires DenseKeys(a.symbols)
    ensures var r := AnalyzeLine(lex, a, line, currentState);
      DenseKeys(r.analyzer.symbols) && Extends(a, r.analyzer) &&
      (r.error.None? ==> a.lineOfCode < r.analyzer.lineOfCode) &&
      (r.error.None? && currentState !in FinalStates ==> r.state !in FinalStates)
  {
    ScanKeepsEarlier(lex, line, a, currentState, "");
    if currentState !in FinalStates {
      ScanEndsOutsideFinal(lex, line, a, currentState, "");
    }
  }

  // ---------------------------------------------------------------------------------------------
  // The analyzer object

  class LexicalAnalyzer {
    /** The tables the analyzer consults; a fresh analyzer holds those of States and Tokens. */
    const tables: Lexicon
    var lineOfCode: int
    var symbolsInformation: map<int, SymbolInformation>
    var ids: map<string, int>
    var constants: map<string, int>
    var counter: int

    function View(): AnalyzerState
      reads this
    {
      AnalyzerState(lineOfCode, counter, symbolsInformation, ids, constants)
    }

    ghost predicate Valid()
      reads this
    {
      0 <= counter && DenseKeys(symbolsInformation) && WellFormed(tables)
    }

    /**
     * A fresh analyzer starts on line 1 with empty tables and the cursor at 0. The tables it
     * consults are a parameter here; NewLexicalAnalyzer passes those of States and Tokens.
     */
    constructor (tables: Lexicon)
      requires WellFormed(tables)
      ensures Valid()
      ensures this.tables == tables
      ensures View() == AnalyzerState(1, 0, map[], map[], map[])
    {
      this.tables := tables;
      lineOfCode := 1;
      symbolsInformation := map[];
      ids := map[];
      constants := map[];
      counter := 0;
    }

    /**
     * Analyzes one line, carrying the automaton state in and out. On a failure the state
     * returned is the error state reached and the tables hold what the earlier characters added.
     */
    method Analyze(lineOfText: string, currentState: int) returns (newState: int, error: Option<LexError>)
      requires Valid()
      modifies this
      ensures Valid()
      ensures Scanned(View(), newState, error) == AnalyzeLine(tables, old(View()), lineOfText, currentState)
    {
      var lexeme := "";
      var state := currentState;
      ghost var target := Scan(tables, lineOfText, View(), state, lexeme);
      while counter <= |lineOfText| - 1
        invariant 0 <= counter && DenseKeys(symbolsInformation)
        invariant state == InitState ==> lexeme == ""
        invariant ScansTo(tables, lineOfText, View(), state, lexeme, target)
        decreases |lineOfText| - counter, if state == InitState then 0 else 1
      {
        var failure;
        state, lexeme, failure := ReadSymbol(lineOfText, state, lexeme, target);
        if failure.Some? {
          return state, failure;
        }
      }
      ScanEnds(tables, lineOfText, View(), state, lexeme);
      NextLine();
      return state, None;
    }

    /** The end of a line scanned without failure: the cursor goes back to 0 and the line counter on by one. */
    method NextLine()
      requires Valid()
      modifies this
      ensures Valid()
      ensures View() == old(View()).(counter := 0, lineOfCode := old(lineOfCode) + 1)
    {
      counter := 0;
      lineOfCode := lineOfCode + 1;
    }

    /**
     * One turn of the loop of Analyze: classify the character under the cursor, move, fail on
     * an error state, otherwise process the new state and move the cursor on.
     */
    method ReadSymbol(lineOfText: string, state: int, lexeme: string, ghost target: Scanned)
      returns (newState: int, newLexeme: string, failure: Option<LexError>)
      requires Valid() && counter < |lineOfText|
      requires state == InitState ==> lexeme == ""
      requires ScansTo(tables, lineOfText, View(), state, lexeme, target)
      modifies this
      ensures Valid()
      ensures failure.Some? ==> target == Scanned(View(), newState, failure)
      ensures failure.None? ==> newState == InitState ==> newLexeme == ""
      ensures failure.None? ==> ScansTo(tables, lineOfText, View(), newState, newLexeme, target)
      ensures failure.None? ==> old(counter) < counter || (counter == old(counter) && state != InitState && newState == InitState)
    {
      var symbol := lineOfText[counter];
      var symbolClass := tables.classify(symbol);
      var next := GetState(tables, state, symbolClass);
      failure := CheckForErrors(next, lineOfCode, symbol);
      if failure.Some? {
        ScanStops(tables, lineOfText, View(), state, lexeme, next);
        return next, lexeme, failure;
      }
      newState, newLexeme := TakeSymbol(lineOfText, state, lexeme, next, target);
    }

    /** The character under the cursor did not lead to an error state: process the new state and move on. */
    method TakeSymbol(lineOfText: string, state: int, lexeme: string, next: int, ghost target: Scanned)
      returns (newState: int, newLexeme: string)
      requires Valid() && counter < |lineOfText|
      requires state == InitState ==> lexeme == ""
      requires next == GetState(tables, state, tables.classify(lineOfText[counter]))
      requires CheckForErrors(next, lineOfCode, lineOfText[counter]).None?
      requires ScansTo(tables, lineOfText, View(), state, lexeme, target)
      modifies this
      ensures Valid()
      ensures newState == InitState ==> newLexeme == ""
      ensures ScansTo(tables, lineOfText, View(), newState, newLexeme, target)
      ensures old(counter) < counter || (counter == old(counter) && state != InitState && newState == InitState)
    {
      ghost var before := View();
      newLexeme, newState := ProcessStates(lineOfText[counter], lexeme, next);
      ghost var step := Step(View(), newLexeme, newState);
      StepProgress(tables, before, lineOfText[before.counter], tables.classify(lineOfText[before.counter]), state, lexeme);
      MoveOn();
      ScanContinues(tables, lineOfText, before, state, lexeme, next, step);
      ResumeScans(tables, lineOfText, step, View());
    }

    /** Moves the read cursor on by one character. */
    method MoveOn()
      modifies this
      ensures View() == old(View()).(counter := old(counter) + 1)
    {
      counter := counter + 1;
    }

    /** Processes the state the automaton has just moved to, as StepState describes. */
    method ProcessStates(symbol: char, lexeme: string, currentState: int) returns (newLexeme: string, newState: int)
      requires DenseKeys(symbolsInformation)
      modifies this
      ensures DenseKeys(symbolsInformation)
      ensures Step(View(), newLexeme, newState) == StepState(tables, old(View()), symbol, lexeme, currentState)
    {
      if currentState in FinalStates || currentState in StatesToProcess {
        ProcessFinalState(lexeme, currentState, symbol);
        // ProcessFinalState empties the caller's lexeme through its reference parameter.
        newLexeme, newState := "", InitState;
      } else if currentState == InitState {
        newLexeme, newState := "", currentState;
      } else {
        newLexeme, newState := lexeme + [symbol], currentState;
      }
    }

    /** Finishes the current lexeme, as FinalizeLexeme describes. */
    method ProcessFinalState(lexeme: string, currentState: int, symbol: char)
      requires DenseKeys(symbolsInformation)
      modifies this
      ensures DenseKeys(symbolsInformation)
      ensures View() == FinalizeLexeme(tables, old(View()), lexeme, currentState, symbol)
    {
      var token := GetToken(tables, lexeme, currentState, symbol);
      ghost var expected := FinalizeToken(View(), lexeme, token, symbol);
      var text := lexeme;
      var index: Option<int> := None;
      match TreatmentOf(token) {
        case Newline =>
          text := "\\n";
          lineOfCode := lineOfCode + 1;
        case Identifier =>
          if lexeme !in ids {
            index := Some(|ids| + 1);
            ids := ids[lexeme := |ids| + 1];
          }
          counter := counter - 1;
        case Constant =>
          if lexeme !in constants {
            index := Some(|ids| + 1);
            constants := constants[lexeme := |ids| + 1];
          }
          counter := counter - 1;
        case Operator =>
          text := lexeme + [symbol];
        case Plain =>
      }
      var data := SymbolInformation(lineOfCode, text, token, index);
      AppendKeepsKeysDense(symbolsInformation, data);
      symbolsInformation := symbolsInformation[|symbolsInformation| := data];
      assert View() == expected;
    }
  }

  /** The analyzer as the source creates it: over the tables of States and Tokens. */
  method NewLexicalAnalyzer() returns (analyzer: LexicalAnalyzer)
    ensures fresh(analyzer) && analyzer.Valid()
    ensures analyzer.tables == Tables
    ensures analyzer.View() == AnalyzerState(1, 0, map[], map[], map[])
  {
    TablesWellFormed();
    analyzer := new LexicalAnalyzer(Tables);
  }

  /** Adding a record under the next key keeps the keys 0..n-1. */
  lemma AppendKeepsKeysDense(symbols: map<int, SymbolInformation>, record: SymbolInformation)
    requires DenseKeys(symbols)
    ensures DenseKeys(symbols[|symbols| := record])
    ensures |symbols[|symbols| := record]| == |symbols| + 1
  {
    assert |symbols| !in symbols;
  }

  /** The tables of States and Tokens are well formed. */
  lemma TablesWellFormed()
    ensures WellFormed(Tables)
  {
    InitAvoidsStateKindsHolds();
    ShortLexemesStayHolds();
  }

  lemma InitAvoidsStateKindsHolds()
    ensures InitAvoidsStateKinds(StateTransitionsDictionary, OtherTokens)
  {
    OtherTokensKeys();
    forall symbolClass | StateTransition(InitState, symbolClass) in StateTransitionsDictionary
      ensures StateTransitionsDictionary[StateTransition(InitState, symbolClass)] !in OtherTokens
    {
      InitAvoidsNamedFinals(symbolClass);
    }
  }

  lemma ShortLexemesStayHolds()
    ensures ShortLexemesStay(LanguageTokens)
  {
    forall lexeme | lexeme in LanguageTokens && |lexeme| <= 1
      ensures !StepsBack(LanguageTokens[lexeme])
    {
      ShortLexemeKinds(lexeme);
    }
  }
}
