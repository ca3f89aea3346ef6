# Luminax front end in Dafny

Luminax is a small teaching language with `program`, typed declarations, assignments,
`input`/`print`, `if` and `do ... while`. This project models the front end of its
translator:

- the character classes and the classifier that maps a character to the class name the
  automaton is keyed by (`SymbolClass`, `SymbolAnalyzer`);
- the automaton's transition table, its final, process-now and error states (`States`), and
  the table of token kinds (`Tokens`);
- the lexical analyzer, which runs the automaton over one line at a time and fills the ordered
  table of symbol records, the identifier table and the constant table (`Lexer`, with class
  `LexicalAnalyzer`);
- the bracket matcher, a stack of open brackets (`Brackets`, with class `BracketsProcessor`);
- the recursive-descent recogniser, which walks the records with an index and consults the
  bracket matcher (`Grammar` holds it as functions over a cursor; `Parser` holds the stateful
  class `SyntaxAnalyzer`, each of whose methods is proved to end as the matching function
  says);
- the conversion between type names and runtime types (`TypeConverter`).

Modules `LexerFacts` and `GrammarFacts` state what the lexer and the recogniser do on
particular inputs, including the places where they behave differently from what their grammar
suggests. The model follows the code as written:

- "==" is recorded as the assignment "=";
- "print" is read as an identifier;
- a "^" always stops the parse, because the lexer calls it power_op and the recogniser asks
  for pow_op;
- a boolean literal leaves the index on itself;
- a bracketed factor looks for its ")" one record too far;
- the one backtracking point restores the index but not the bracket stack.

Failures are modelled as values: the lexer's status codes 101 to 104 become `LexError`. Every
exception the recogniser or the bracket matcher throws becomes an `Err` of `ParseError` or
`BracketError`.

## Model

| member | source | states |
|---|---|---|
| SymbolClass.LetterAlphabet | LuminaxLanguage/Constants/SymbolClass.cs:8 | a character is in the letter alphabet exactly when it is 'a' to 'z' |
| SymbolClass.DigitAlphabet | LuminaxLanguage/Constants/SymbolClass.cs:6 | a character is in the digit alphabet exactly when it is '0' to '9' |
| SymbolClass.SpacingAlphabets | LuminaxLanguage/Constants/SymbolClass.cs:10-12 | white space is exactly space and tab, newline exactly '\n'; '\r' is in no alphabet |
| SymbolClass.AlphabetsDisjoint | LuminaxLanguage/Constants/SymbolClass.cs:6-13 | no character belongs to two of the five alphabets |
| SymbolClass.SpecialCharactersAreOther | LuminaxLanguage/Constants/SymbolClass.cs:13 | 'E' and both quotes are in the single-character alphabet, and 'E' is not a letter or a digit |
| SymbolClass.ClassNamesAreLong | LuminaxLanguage/Constants/SymbolClass.cs:5-11 | the class names Digit, Letter, ws and nl are longer than one character |
| SymbolAnalyzer.GetClassOfSymbol | LuminaxLanguage/Processors/SymbolAnalyzer.cs:7-19 | the class is one of the four named classes, the character itself, or the sentinel |
| SymbolAnalyzer.UnknownClass | LuminaxLanguage/Processors/SymbolAnalyzer.cs:17 | the sentinel class is given exactly to characters outside all five alphabets |
| SymbolAnalyzer.LettersAndDigits | LuminaxLanguage/Processors/SymbolAnalyzer.cs:12-13 | Letter exactly for 'a'..'z', Digit exactly for '0'..'9' |
| SymbolAnalyzer.SpacingClasses | LuminaxLanguage/Processors/SymbolAnalyzer.cs:14-15 | ws exactly for space and tab, nl exactly for '\n' |
| SymbolAnalyzer.OtherIsItself | LuminaxLanguage/Processors/SymbolAnalyzer.cs:16 | a member of the single-character alphabet is classified as itself |
| SymbolAnalyzer.OutsideCharacters | LuminaxLanguage/Processors/SymbolAnalyzer.cs:7-19 | upper-case letters other than 'E', '#' and '\r' get the sentinel; 'E' gets "E" |
| SymbolAnalyzer.SingleCharacterClass | LuminaxLanguage/Processors/SymbolAnalyzer.cs:16 | a class name has length one exactly for members of the single-character alphabet |
| SymbolAnalyzer.SingleCharacterClassesDistinct | LuminaxLanguage/Processors/SymbolAnalyzer.cs:16 | distinct single characters never share a class with any other character |
| States.TransitionSources | LuminaxLanguage/Constants/States.cs:7-54 | every key of the table starts at a live state, or at final state 3 |
| States.InitSources | LuminaxLanguage/Constants/States.cs:9-29 | the first group of entries all leave state 0 |
| States.OtherSources | LuminaxLanguage/Constants/States.cs:30-53 | the second group leaves only states 1, 3, 6, 9, 10, 11, 13, 14, 15 and 17 |
| States.InitLookup | LuminaxLanguage/Constants/States.cs:9-29 | out of state 0 exactly the 21 listed classes have an entry |
| States.OtherLookup | LuminaxLanguage/Constants/States.cs:30-53 | out of any other state the table's entries are those of the second group |
| States.BangRow | LuminaxLanguage/Constants/States.cs:37-38 | after "!": "=" leads to 8, anything else to 102 |
| States.PointRow | LuminaxLanguage/Constants/States.cs:42-43 | after a number and ".": a digit leads to 14, anything else to 103 |
| States.ExponentRow | LuminaxLanguage/Constants/States.cs:47-51 | after "E": a digit leads to 13, "-" to 17, anything else to 104 |
| States.NegativeExponentRow | LuminaxLanguage/Constants/States.cs:48-50 | after "E-": a digit leads to 13, anything else to 104 |
| States.FallbackCoverage | LuminaxLanguage/Constants/States.cs:7-54 | every live state has an "other" entry |
| States.TargetsClosed | LuminaxLanguage/Constants/States.cs:7-56 | every transition leads to a live state or a final state |
| States.InitTransitions | LuminaxLanguage/Constants/States.cs:9-29 | a transition out of state 0 is one of the first group |
| States.InitFinishingClasses | LuminaxLanguage/Constants/States.cs:9-29 | out of state 0 only operator classes reach 4 and only nl reaches 5 |
| States.InitTargets | LuminaxLanguage/Constants/States.cs:9-29 | out of state 0 only states 0, 1, 4, 5, 6, 9, 10 and 101 are reached |
| States.InitAvoidsNamedFinals | LuminaxLanguage/Constants/States.cs:9-29 | out of state 0 no transition reaches 3, 12, 16 or 18 |
| States.DesignatedStates | LuminaxLanguage/Constants/States.cs:56-62 | error and process-now states are final, state 0 is live, and no live state is final |
| Tokens.OtherTokensKeys | LuminaxLanguage/Constants/Tokens.cs:45-51 | the final states with their own kind are exactly 3 (ident), 12 (int), 16 (float) and 18 (exp), and each is a final state of the automaton |
| Tokens.IdentifierState | LuminaxLanguage/Constants/Tokens.cs:47 | state 3 gives the kind ident |
| Tokens.KeywordTable | LuminaxLanguage/Constants/Tokens.cs:7-15 | the nine keywords are keywords and "print" is not in the table |
| Tokens.KeywordEntry | LuminaxLanguage/Constants/Tokens.cs:7-15 | each keyword's entry is keyword |
| Tokens.PrintIsNotAToken | LuminaxLanguage/Constants/Tokens.cs:5-43 | "print" has no entry |
| Tokens.OperatorAndLiteralTable | LuminaxLanguage/Constants/Tokens.cs:16-42 | "=" is assign_op, the six relational operators are rel_op, true and false are boolval |
| Tokens.AssignEntry | LuminaxLanguage/Constants/Tokens.cs:16 | "=" is assign_op |
| Tokens.LessEntry | LuminaxLanguage/Constants/Tokens.cs:19 | "<" is rel_op |
| Tokens.ArithmeticTable | LuminaxLanguage/Constants/Tokens.cs:32-40 | "+"/"-" add_op, "*"/"/" mult_op, "^" power_op, the four brackets par_op |
| Tokens.ShortLexemeKinds | LuminaxLanguage/Constants/Tokens.cs:5-43 | no lexeme of at most one character is an identifier, a number or a boolean literal |
| Lexer.GetState | LuminaxLanguage/Processors/LexicalAnalyzer.cs:32-48 | the exact (state, class) entry wins, else the state's "other" entry, else -1 when the state has neither |
| Lexer.CheckForErrors | LuminaxLanguage/Processors/LexicalAnalyzer.cs:50-63 | a failure exactly for the error states, with that state as code and the current line |
| Lexer.GetToken | LuminaxLanguage/Processors/LexicalAnalyzer.cs:125-147 | the full priority order: a lexeme in the token table takes its entry; otherwise a final state with its own kind gives that kind; otherwise the lexeme followed by the boundary character takes that entry; otherwise the boundary character alone takes its entry; with no candidate at all the kind is "" |
| Lexer.FinalizeLexeme | LuminaxLanguage/Processors/LexicalAnalyzer.cs:83-123 | one record is added under the next key, with the kind GetToken gives; the cursor steps back exactly for identifiers and constants |
| Lexer.FinalizeKeepsEarlier | LuminaxLanguage/Processors/LexicalAnalyzer.cs:83-123 | finishing a lexeme keeps the record keys 0..n-1 and keeps every record, identifier, constant and the line count |
| Lexer.RegisterAddsOnce | LuminaxLanguage/Processors/LexicalAnalyzer.cs:93-112 | registering adds the lexeme, gives the index only to a new one, and keeps other entries |
| Lexer.FinalizeToken | LuminaxLanguage/Processors/LexicalAnalyzer.cs:93-112 | the cursor steps back by one exactly for identifiers and constants |
| Lexer.FinalizeAppendsOneRecord | LuminaxLanguage/Processors/LexicalAnalyzer.cs:118-120 | one record is added, under the next key, with the lexeme's kind; earlier ones are kept |
| Lexer.FinalizeAddsNextKey | LuminaxLanguage/Processors/LexicalAnalyzer.cs:118-120 | the keys grow by exactly the next key |
| Lexer.FinalizeKeepsRecords | LuminaxLanguage/Processors/LexicalAnalyzer.cs:118-120 | earlier records are unchanged |
| Lexer.FinalizeLine | LuminaxLanguage/Processors/LexicalAnalyzer.cs:88-92 | only a newline moves the line counter, by one; its record carries the new line and "\\n" |
| Lexer.FinalizeRegisters | LuminaxLanguage/Processors/LexicalAnalyzer.cs:93-112 | identifiers and constants are registered once, both with index \|ids\| + 1, existing entries kept |
| Lexer.FinalizeRegistersIdentifiers | LuminaxLanguage/Processors/LexicalAnalyzer.cs:93-102 | the identifier table gains exactly the new identifier, with index \|ids\| + 1 |
| Lexer.FinalizeRegistersConstants | LuminaxLanguage/Processors/LexicalAnalyzer.cs:103-112 | the constant table gains exactly the new constant, with index \|ids\| + 1 |
| Lexer.TreatmentKinds | LuminaxLanguage/Processors/LexicalAnalyzer.cs:86-116 | the treatment of a lexeme is decided by its kind, both ways for each kind |
| Lexer.StepState | LuminaxLanguage/Processors/LexicalAnalyzer.cs:65-81 | after a step the state is neither final nor process-now, and it is state 0 exactly when the lexeme is empty; only a final or process-now state changes the tables, by one record |
| Lexer.InitStepAdvances | LuminaxLanguage/Processors/LexicalAnalyzer.cs:65-81 | a character read in state 0 never steps the cursor back |
| Lexer.StepProgress | LuminaxLanguage/Processors/LexicalAnalyzer.cs:65-81 | a step back happens only when a lexeme begun in another state is finished, and state 0 has an empty lexeme |
| Lexer.Scan | LuminaxLanguage/Processors/LexicalAnalyzer.cs:17-26 | without failure the scan reads to the end of the line; a failure happens at a character of the line, in an error state, with that state as code and the current line and character |
| Lexer.ScanStepsOn | LuminaxLanguage/Processors/LexicalAnalyzer.cs:19-25 | a character that does not fail keeps what the analyzer held, leaves a non-final state, and the scan goes on from that step |
| Lexer.ScanKeepsEarlier | LuminaxLanguage/Processors/LexicalAnalyzer.cs:13-30 | scanning the rest of a line keeps every earlier record, identifier and constant, and keeps the record keys 0..n-1 |
| Lexer.ScanEndsOutsideFinal | LuminaxLanguage/Processors/LexicalAnalyzer.cs:13-30 | a scan begun outside the final states that does not fail ends outside them |
| Lexer.AnalyzeLine | LuminaxLanguage/Processors/LexicalAnalyzer.cs:13-30 | a failure is at a character of the line, in an error state, with that code; a clean line leaves the cursor at 0 |
| Lexer.LineKeepsEarlier | LuminaxLanguage/Processors/LexicalAnalyzer.cs:13-30 | a line keeps what earlier lines recorded; a clean line moves the line counter on and hands over a state that is not final |
| Lexer.LexicalAnalyzer.constructor | LuminaxLanguage/Processors/LexicalAnalyzer.cs:9-11 | a new analyzer starts on line 1, at cursor 0, with empty tables |
| Lexer.LexicalAnalyzer.Analyze | LuminaxLanguage/Processors/LexicalAnalyzer.cs:13-30 | the loop ends in the state, failure and tables the line's scan describes |
| Lexer.LexicalAnalyzer.NextLine | LuminaxLanguage/Processors/LexicalAnalyzer.cs:28-29 | the cursor goes to 0 and the line counter up by one |
| Lexer.LexicalAnalyzer.ReadSymbol | LuminaxLanguage/Processors/LexicalAnalyzer.cs:19-25 | one loop turn: a failure ends the scan, otherwise the rest of the scan is unchanged and progress is made |
| Lexer.LexicalAnalyzer.TakeSymbol | LuminaxLanguage/Processors/LexicalAnalyzer.cs:23-25 | processing the state and moving on keeps the rest of the scan and makes progress |
| Lexer.LexicalAnalyzer.MoveOn | LuminaxLanguage/Processors/LexicalAnalyzer.cs:25 | only the cursor moves, by one |
| Lexer.LexicalAnalyzer.ProcessStates | LuminaxLanguage/Processors/LexicalAnalyzer.cs:65-81 | the new lexeme, state and tables are those of one step of the automaton |
| Lexer.LexicalAnalyzer.ProcessFinalState | LuminaxLanguage/Processors/LexicalAnalyzer.cs:83-123 | the tables after finishing a lexeme, as FinalizeLexeme defines them |
| Lexer.NewLexicalAnalyzer | LuminaxLanguage/Processors/LexicalAnalyzer.cs:9-11 | a fresh analyzer over the tables of States and Tokens |
| Lexer.AppendKeepsKeysDense | LuminaxLanguage/Processors/LexicalAnalyzer.cs:118-120 | adding under key Count keeps the keys 0..n-1 |
| Lexer.TablesWellFormed | LuminaxLanguage/Constants/States.cs:9-29 | the tables the analyzer is built with have the two properties the scan's progress needs |
| Lexer.InitAvoidsStateKindsHolds | LuminaxLanguage/Constants/Tokens.cs:45-51 | no transition out of state 0 reaches a state with its own kind |
| Lexer.ShortLexemesStayHolds | LuminaxLanguage/Constants/Tokens.cs:5-43 | no one-character lexeme is finished as an identifier or a constant |
| LexerFacts.LiveStatesNeverMiss | LuminaxLanguage/Processors/LexicalAnalyzer.cs:32-48 | from a live state the lookup never gives -1 and reaches a live or final state |
| LexerFacts.FinalStatesNatural | LuminaxLanguage/Constants/States.cs:56 | designated states are non-negative |
| LexerFacts.FallbackLookup | LuminaxLanguage/Processors/LexicalAnalyzer.cs:32-48 | out of a state other than 0, the exact entry else the "other" entry |
| LexerFacts.InitRejects | LuminaxLanguage/Processors/LexicalAnalyzer.cs:50-63 | ".", "E", quotes and unknown characters at the start of a lexeme fail with code 101 |
| LexerFacts.UnlistedClass | LuminaxLanguage/Constants/States.cs:9-29 | those characters' classes have no entry out of state 0 |
| LexerFacts.InitFallback | LuminaxLanguage/Constants/States.cs:28 | out of state 0 an unlisted class leads to 101 |
| LexerFacts.BangWithoutEquals | LuminaxLanguage/Constants/States.cs:37-38 | "!" not followed by "=" reaches 102 |
| LexerFacts.PointWithoutDigit | LuminaxLanguage/Constants/States.cs:42-43 | "." in a number not followed by a digit reaches 103 |
| LexerFacts.ExponentWithoutDigit | LuminaxLanguage/Constants/States.cs:47-51 | "E" without a digit or "-", or "E-" without a digit, reaches 104 |
| LexerFacts.KeywordOrIdentifier | LuminaxLanguage/Processors/LexicalAnalyzer.cs:125-147 | a keyword finished in state 3 is a keyword; an unknown lexeme is an identifier |
| LexerFacts.EqualityLexesAsAssign | LuminaxLanguage/Processors/LexicalAnalyzer.cs:125-147 | "==" is finished as "=" of kind assign_op, recorded without its second "=" |
| LexerFacts.LessOrEqualLexesWhole | LuminaxLanguage/Processors/LexicalAnalyzer.cs:113-116 | "<=" is finished as "<" of kind rel_op, which takes the "=" in |
| LexerFacts.FinishedRecord | LuminaxLanguage/Processors/LexicalAnalyzer.cs:113-120 | an operator record holds the lexeme plus the boundary character, a plain one the lexeme |
| Brackets.Accepts | LuminaxLanguage/Processors/BracketsProcessor.cs:11-40 | only the expected bracket, one of the four bracket lexemes, is accepted; acceptance grows the stack by one for an opener and shrinks it by one for a closer |
| Brackets.StackAfter | LuminaxLanguage/Processors/BracketsProcessor.cs:11-40 | the stack is kept, pushed with an opener or popped; a record that is not the expected bracket keeps it |
| Brackets.Feed | LuminaxLanguage/Processors/BracketsProcessor.cs:11-40 | an accepted word changes the stack's length by an amount of the same parity as the word's length |
| Brackets.FeedAcceptsBracketsOnly | LuminaxLanguage/Processors/BracketsProcessor.cs:11-40 | an accepted word is made of the four bracket lexemes, and a stack of openers stays a stack of openers |
| Brackets.Balanced | LuminaxLanguage/Processors/BracketsProcessor.cs:11-48 | a balanced word has even length |
| Brackets.BracketsProcessor.constructor | LuminaxLanguage/Processors/BracketsProcessor.cs:9 | the stack starts empty |
| Brackets.BracketsProcessor.ControlBracketsFlow | LuminaxLanguage/Processors/BracketsProcessor.cs:11-40 | accepted exactly when expected and an opener or matching the top; the stack is pushed, popped or kept; a refusal names the bracket |
| Brackets.BracketsProcessor.CheckStackStatus | LuminaxLanguage/Processors/BracketsProcessor.cs:42-48 | fails exactly when a bracket is still open |
| Brackets.UnexpectedLeavesStack | LuminaxLanguage/Processors/BracketsProcessor.cs:15 | a record that is not the expected bracket is refused and leaves the stack |
| Brackets.OpenerPushes | LuminaxLanguage/Processors/BracketsProcessor.cs:19-23 | an expected opener is accepted and pushed |
| Brackets.CloserPops | LuminaxLanguage/Processors/BracketsProcessor.cs:24-31 | a closer pops the top and is accepted exactly when the top is its opener |
| Brackets.EmptyStackRefusesCloser | LuminaxLanguage/Processors/BracketsProcessor.cs:24-37 | a closer on an empty stack is refused |
| Brackets.PushThenCloseRestores | LuminaxLanguage/Processors/BracketsProcessor.cs:19-31 | an opener and its closer give the stack back |
| Brackets.FeedUnderneath | LuminaxLanguage/Processors/BracketsProcessor.cs:11-40 | what lies under the stack is untouched and does not change acceptance |
| Brackets.BalancedKeepsStack | LuminaxLanguage/Processors/BracketsProcessor.cs:11-40 | a balanced word on any stack is accepted and gives that stack back |
| Brackets.FeedConcat | LuminaxLanguage/Processors/BracketsProcessor.cs:11-40 | feeding u then v is feeding u + v |
| Brackets.BalancedClosure | LuminaxLanguage/Processors/BracketsProcessor.cs:11-48 | wrapping in a matching pair, or concatenating, keeps a word balanced |
| Brackets.BalancedWrapped | LuminaxLanguage/Processors/BracketsProcessor.cs:11-48 | wrapping a balanced word in a matching pair keeps it balanced |
| TypeConverter.ConvertName | LuminaxLanguage/Processors/TypeConverter.cs:5-13 | exactly int, float, exp, boolean and boolval convert, to one of the three types |
| TypeConverter.ConvertType | LuminaxLanguage/Processors/TypeConverter.cs:15-33 | exactly the three supported types have a name |
| TypeConverter.NamesDistinct | LuminaxLanguage/Processors/TypeConverter.cs:15-33 | distinct types get distinct names |
| TypeConverter.NameRoundTrip | LuminaxLanguage/Processors/TypeConverter.cs:5-33 | name to type to name gives back exactly int and float; exp becomes float, the boolean names bool |
| TypeConverter.TypeRoundTrip | LuminaxLanguage/Processors/TypeConverter.cs:5-33 | type to name to type gives back Int and Float; the name of Bool is refused |
| Grammar.Advance | LuminaxLanguage/Processors/SyntaxAnalyzer.cs:13-22 | the read succeeds exactly when a next record exists, and gives it with the index moved by one |
| Grammar.Current | LuminaxLanguage/Processors/SyntaxAnalyzer.cs:307 | the record at the index, exactly when it exists |
| Grammar.Bracket | LuminaxLanguage/Processors/BracketsProcessor.cs:11-40 | accepted exactly as the matcher accepts; the stack moves on and the index stays |
| Grammar.ParseToken | LuminaxLanguage/Processors/SyntaxAnalyzer.cs:60-79 | success exactly when lexeme and kind both match; never false |
| Grammar.ParseTokenKind | LuminaxLanguage/Processors/SyntaxAnalyzer.cs:82-100 | success exactly when the kind matches; never false |
| Grammar.ParseIdentToken | LuminaxLanguage/Processors/SyntaxAnalyzer.cs:102-103 | true exactly for identifiers; never fails |
| Grammar.ParseTypeToken | LuminaxLanguage/Processors/SyntaxAnalyzer.cs:105-107 | a type name must be a keyword; true exactly for the type names |
| Grammar.ParseRelExpression | LuminaxLanguage/Processors/SyntaxAnalyzer.cs:297-298 | true exactly for rel_op; never fails |
| Grammar.ParseNumber | LuminaxLanguage/Processors/SyntaxAnalyzer.cs:390-399 | success exactly when the kind matches and a sign is an add_op |
| Grammar.ParseConst | LuminaxLanguage/Processors/SyntaxAnalyzer.cs:384-388 | fails only on a signed number; true exactly for literals and numbers |
| Grammar.Factor | LuminaxLanguage/Processors/SyntaxAnalyzer.cs:365-382 | an identifier or a constant is one factor, leaving the index on the next record; any other factor that answers true began at a ("(", par_op) record and stopped on a (")", par_op) record; a factor that answers true has moved forward and left the bracket stack as it was |
| Grammar.Chunk | LuminaxLanguage/Processors/SyntaxAnalyzer.cs:343-363 | a chunk that answers true leaves the bracket stack as it was and stops at an existing record that is not "^" |
| Grammar.ChunkTail | LuminaxLanguage/Processors/SyntaxAnalyzer.cs:349-360 | at a record other than "^" the loop ends answering true where it is; a "^" that is not pow_op fails on that record; a missing record fails; true leaves the stack as it was and stops off "^" |
| Grammar.Term | LuminaxLanguage/Processors/SyntaxAnalyzer.cs:323-341 | a term that answers true leaves the bracket stack as it was and stops at an existing record that is neither "*" nor "/" |
| Grammar.TermTail | LuminaxLanguage/Processors/SyntaxAnalyzer.cs:328-338 | at a record other than "*" or "/" the loop ends answering true where it is; such a record that is not mult_op fails on it; a missing record fails; true stops off "*" and "/" |
| Grammar.ArithmeticExpression | LuminaxLanguage/Processors/SyntaxAnalyzer.cs:300-321 | a leading "+" or "-" that is not add_op fails on it; true leaves the bracket stack as it was and stops at an existing record that is neither "+" nor "-" |
| Grammar.ArithmeticTail | LuminaxLanguage/Processors/SyntaxAnalyzer.cs:307-318 | at a record other than "+" or "-" the loop ends answering true where it is; such a record that is not add_op fails on it; a missing record fails; true stops off "+" and "-" |
| Grammar.BooleanExpression | LuminaxLanguage/Processors/SyntaxAnalyzer.cs:253-295 | a boolval literal answers true with the index left on the literal; true leaves the bracket stack as it was |
| Grammar.BracketedRelation | LuminaxLanguage/Processors/SyntaxAnalyzer.cs:262-278 | a record that is not ("(", par_op) fails as an unexpected bracket; true ends just after a (")", par_op) record with the bracket stack as it was |
| Grammar.CloseBracket | LuminaxLanguage/Processors/SyntaxAnalyzer.cs:270-276 | succeeds exactly when the record exists and the matcher accepts it as ")": the record is (")", par_op), the top was "(", it is popped, and the index moves past it |
| Grammar.Relation | LuminaxLanguage/Processors/SyntaxAnalyzer.cs:262-290 | a relation that answers true leaves the bracket stack as it was and stops at an existing record that is neither "+" nor "-" |
| Grammar.Expression | LuminaxLanguage/Processors/SyntaxAnalyzer.cs:234-251 | never answers false; a failing or true boolean reading is the result; after a false one the result succeeds exactly when the arithmetic reading from the record after the start, on the stack the boolean reading left, answers true, and is then that reading |
| Grammar.IdentExpression | LuminaxLanguage/Processors/SyntaxAnalyzer.cs:207-232 | a successful assignment answers true exactly when it starts at an identifier; one that answers true has ("=", assign_op) as its second record and stops on a (";", punct) record |
| Grammar.IoExpression | LuminaxLanguage/Processors/SyntaxAnalyzer.cs:451-485 | a successful input or print statement answers true, starts at its keyword followed by ("(", par_op), and stops on a (";", punct) record |
| Grammar.IfExpression | LuminaxLanguage/Processors/SyntaxAnalyzer.cs:428-449 | success needs ("if", keyword) followed by ("(", par_op); true ends on a ("}", par_op) record |
| Grammar.DoWhileExpression | LuminaxLanguage/Processors/SyntaxAnalyzer.cs:401-426 | success needs ("do", keyword) followed by ("{", par_op); true ends on a (")", par_op) record |
| Grammar.Statement | LuminaxLanguage/Processors/SyntaxAnalyzer.cs:189-205 | no next record fails; a ("}", par_op) record answers false on that record; a record no statement starts with fails naming it; false happens only at "}" or at if/do; success moves forward |
| Grammar.StatementList | LuminaxLanguage/Processors/SyntaxAnalyzer.cs:180-187 | the list moves forward and always ends on a statement that answered false |
| Grammar.IdentList | LuminaxLanguage/Processors/SyntaxAnalyzer.cs:160-178 | it answers the record at the index it stops at and leaves the bracket stack as it was; a first record that is not an identifier is answered in place; a list that starts with an identifier and succeeds stops at a record whose lexeme is the end marker |
| Grammar.IdentListTail | LuminaxLanguage/Processors/SyntaxAnalyzer.cs:166-175 | it answers the record at the index it stops at and leaves the bracket stack as it was; the loop ends without failing only at a record whose lexeme is the end marker |
| Grammar.Declarations | LuminaxLanguage/Processors/SyntaxAnalyzer.cs:141-158 | it moves forward, stops at a "}" record, which it answers, and leaves the bracket stack as it was |
| Grammar.DeclarationSection | LuminaxLanguage/Processors/SyntaxAnalyzer.cs:132-139 | success needs ("{", par_op) as the next record, ends on a ("}", par_op) record, answers true and leaves the bracket stack as it was |
| Grammar.DoSection | LuminaxLanguage/Processors/SyntaxAnalyzer.cs:180-187 | success needs ("{", par_op) as the next record, ends on a ("}", par_op) record and answers true |
| Grammar.ProgramStartSection | LuminaxLanguage/Processors/SyntaxAnalyzer.cs:113-130 | success needs ("program", keyword) as the next record and ends on the record after it, answering true exactly when that record is an identifier |
| Grammar.Program | LuminaxLanguage/Processors/SyntaxAnalyzer.cs:31-56 | an accepted program starts with ("program", keyword), an identifier and two ("{", par_op), ends on a ("}", par_op) record, leaves no bracket open and gives an empty output list |
| Grammar.ProgramBlock | LuminaxLanguage/Processors/SyntaxAnalyzer.cs:39-47 | after the header: two ("{", par_op) records open it, it ends on a ("}", par_op) record, no bracket is left open and the output list is empty |
| Parser.InsertionOrder | LuminaxLanguage/Processors/SyntaxAnalyzer.cs:24-29 | the records in key order, one per key |
| Parser.SyntaxAnalyzer.constructor | LuminaxLanguage/Processors/SyntaxAnalyzer.cs:24-29 | records in insertion order, the given matcher, index -1 |
| Parser.SyntaxAnalyzer.ParseProgram | LuminaxLanguage/Processors/SyntaxAnalyzer.cs:31-56 | the outcome and final cursor are those of Program |
| Parser.SyntaxAnalyzer.NextRecord | LuminaxLanguage/Processors/SyntaxAnalyzer.cs:13-22 | the outcome and cursor are those of Advance |
| Parser.SyntaxAnalyzer.CurrentRecord | LuminaxLanguage/Processors/SyntaxAnalyzer.cs:307 | the outcome is that of Current |
| Parser.SyntaxAnalyzer.Flow | LuminaxLanguage/Processors/BracketsProcessor.cs:11-40 | the outcome and stack are those of Bracket |
| Parser.SyntaxAnalyzer.ProcessProgramStartSection | LuminaxLanguage/Processors/SyntaxAnalyzer.cs:113-130 | as ProgramStartSection |
| Parser.SyntaxAnalyzer.ProcessDeclarationSection | LuminaxLanguage/Processors/SyntaxAnalyzer.cs:132-139 | as DeclarationSection |
| Parser.SyntaxAnalyzer.ProcessIdentList | LuminaxLanguage/Processors/SyntaxAnalyzer.cs:141-158 | the loop ends as Declarations |
| Parser.SyntaxAnalyzer.ParseIdentList | LuminaxLanguage/Processors/SyntaxAnalyzer.cs:160-178 | the loop ends as IdentList |
| Parser.SyntaxAnalyzer.ProcessDoSection | LuminaxLanguage/Processors/SyntaxAnalyzer.cs:180-187 | as DoSection |
| Parser.SyntaxAnalyzer.ProcessStatements | LuminaxLanguage/Processors/SyntaxAnalyzer.cs:184 | the loop over statements ends as StatementList |
| Parser.SyntaxAnalyzer.ProcessStatementList | LuminaxLanguage/Processors/SyntaxAnalyzer.cs:189-205 | as Statement |
| Parser.SyntaxAnalyzer.ProcessIdentExpression | LuminaxLanguage/Processors/SyntaxAnalyzer.cs:207-232 | as IdentExpression |
| Parser.SyntaxAnalyzer.ProcessIoExpression | LuminaxLanguage/Processors/SyntaxAnalyzer.cs:451-485 | as IoExpression |
| Parser.SyntaxAnalyzer.ProcessIfExpression | LuminaxLanguage/Processors/SyntaxAnalyzer.cs:428-449 | as IfExpression |
| Parser.SyntaxAnalyzer.ProcessDoWhileExpression | LuminaxLanguage/Processors/SyntaxAnalyzer.cs:401-426 | as DoWhileExpression |
| Parser.SyntaxAnalyzer.ParseExpression | LuminaxLanguage/Processors/SyntaxAnalyzer.cs:234-251 | as Expression |
| Parser.SyntaxAnalyzer.ParseBooleanExpression | LuminaxLanguage/Processors/SyntaxAnalyzer.cs:253-295 | as BooleanExpression |
| Parser.SyntaxAnalyzer.ParseBracketedRelation | LuminaxLanguage/Processors/SyntaxAnalyzer.cs:262-278 | as BracketedRelation |
| Parser.SyntaxAnalyzer.CloseBracketedRelation | LuminaxLanguage/Processors/SyntaxAnalyzer.cs:270-276 | as CloseBracket |
| Parser.SyntaxAnalyzer.ParseRelation | LuminaxLanguage/Processors/SyntaxAnalyzer.cs:262-290 | as Relation |
| Parser.SyntaxAnalyzer.ParseArithmeticExpression | LuminaxLanguage/Processors/SyntaxAnalyzer.cs:300-321 | as ArithmeticExpression |
| Parser.SyntaxAnalyzer.ParseTerm | LuminaxLanguage/Processors/SyntaxAnalyzer.cs:323-341 | as Term |
| Parser.SyntaxAnalyzer.ParseChunk | LuminaxLanguage/Processors/SyntaxAnalyzer.cs:343-363 | as Chunk |
| Parser.SyntaxAnalyzer.ParseFactor | LuminaxLanguage/Processors/SyntaxAnalyzer.cs:365-382 | as Factor |
| GrammarFacts.BracketIsFeedStep | LuminaxLanguage/Processors/BracketsProcessor.cs:11-40 | each bracket the recogniser hands the matcher is one step of Feed: accepted exactly when Feed accepts it, with the stack Feed computes |
| GrammarFacts.LeadingSignDeclines | LuminaxLanguage/Processors/SyntaxAnalyzer.cs:300-321 | an expression starting with a sign answers false where it began |
| GrammarFacts.PowerOperatorFails | LuminaxLanguage/Processors/SyntaxAnalyzer.cs:349 | a "^" as the lexer tags it stops the parse |
| GrammarFacts.AssignBooleanLiteralFails | LuminaxLanguage/Processors/SyntaxAnalyzer.cs:257-260 | "x = true ;" fails at the literal |
| GrammarFacts.LiteralConditionFails | LuminaxLanguage/Processors/SyntaxAnalyzer.cs:428-449 | "if ( true )" fails because the literal is where ")" is wanted |
| GrammarFacts.BracketedFactorSkipsItsCloser | LuminaxLanguage/Processors/SyntaxAnalyzer.cs:365-382 | "( a ) ;" fails and "( a ) )" is accepted as a factor |
| GrammarFacts.BacktrackLeavesBracketOpen | LuminaxLanguage/Processors/SyntaxAnalyzer.cs:234-251 | on "( a ) )" the expression succeeds with a "(" left on the stack |
| GrammarFacts.BooleanAttemptFails | LuminaxLanguage/Processors/SyntaxAnalyzer.cs:262-278 | the boolean reading of "( a ) )" answers false after pushing "(" |
| GrammarFacts.ArithmeticAfterBacktrack | LuminaxLanguage/Processors/SyntaxAnalyzer.cs:243-248 | the arithmetic reading then succeeds on top of that "(" |
| GrammarFacts.PrintIsReadAsAssignment | LuminaxLanguage/Processors/SyntaxAnalyzer.cs:189-205 | "print" is lexed as an identifier, so a print statement fails as an assignment |
| GrammarFacts.DeclarationsSkipOthers | LuminaxLanguage/Processors/SyntaxAnalyzer.cs:141-158 | a record that is neither "}" nor a type name is passed over |
| GrammarFacts.SampleHeader | LuminaxLanguage/Processors/SyntaxAnalyzer.cs:113-130 | the sample's header is accepted |
| GrammarFacts.SampleDeclarations | LuminaxLanguage/Processors/SyntaxAnalyzer.cs:132-158 | the sample's declaration block is accepted |
| GrammarFacts.SampleAssignment | LuminaxLanguage/Processors/SyntaxAnalyzer.cs:207-232 | the sample's assignment is accepted |
| GrammarFacts.SampleStatementList | LuminaxLanguage/Processors/SyntaxAnalyzer.cs:180-205 | the sample's statements end at its "}" |
| GrammarFacts.DoSectionAccepts | LuminaxLanguage/Processors/SyntaxAnalyzer.cs:180-187 | a statement section whose "{" is pushed and whose statements end on a record accepted as "}" ends exactly as that closing bracket step |
| GrammarFacts.SampleStatements | LuminaxLanguage/Processors/SyntaxAnalyzer.cs:180-205 | the sample's statement block is accepted |
| GrammarFacts.SampleProgramAccepted | LuminaxLanguage/Processors/SyntaxAnalyzer.cs:31-56 | the sample program is accepted with every bracket closed |

## Left out

- The interpreter, the text reader and the program entry point are not part of this model.
  They are the file I/O and the back end that consume the records.
- Console messages and the exact texts of the exceptions are left out. A failure carries the
  lexer's status code and line, or the offending record.
- The null check on the recogniser's record list is left out: the list is always present here.
- The recogniser's state after a failure is not stated: the source abandons the parse on an
  exception.
- Postfix output is not modelled: the recogniser's output list is always empty.
- Characters are Dafny `char`. The model has no UTF-16 surrogate handling and no "\r\n" line
  splitting, because lines are handed in already split.
- Dictionary initialisers that would throw on a duplicate key are not modelled. Maps are
  functions by construction, and the displays here have distinct keys.
- Lexer.LexicalAnalyzer.constructor: takes the tables as a parameter instead of reading them
  as statics; NewLexicalAnalyzer passes the tables of States and Tokens.
- Grammar: the routines that receive "the current record" as an argument read it from the
  cursor's index instead. They are only ever called with the record at that index.
- Parser.SyntaxAnalyzer.ProcessIoExpression: ProcessPrintExpression and
  ProcessInputExpression differ only in their keyword, and are one method with the keyword as
  a parameter.
- Parser.SyntaxAnalyzer.ProcessIdentExpression: the source's separate failure for a missing
  "=" is unreachable, because the token check before it already fails. Only the first failure
  is modelled.
- The analysis-information container is folded into the analyzer's fields: the record table,
  the identifier table and the constant table.
- Grammar.Relation: the contract does not say that a relation answering true passed a
  rel_op record. That record's position is where the left side stopped, which the contract
  does not name.
- Grammar.Factor, Grammar.Chunk, Grammar.Term, Grammar.ArithmeticExpression,
  Grammar.BooleanExpression: a failure's cause is stated only for the operator that would
  continue the expression, not for each inner record. What they refuse further in is stated on
  concrete inputs in GrammarFacts.
- Brackets.Feed, Brackets.Balanced: the theory of words fed to the matcher is linked to the
  recogniser one bracket at a time (GrammarFacts.BracketIsFeedStep). No lemma says that an
  accepted program's bracket records form a balanced word.
