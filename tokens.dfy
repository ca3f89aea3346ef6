/** The token kinds: by exact lexeme, and by the final state a lexeme ended in. */
module Tokens {
  import States

  const LanguageTokens: map<string, string> := map[
    "program" := "keyword",
    "int" := "keyword",
    "float" := "keyword",
    "boolean" := "keyword",
    "while" := "keyword",
    "do" := "keyword",
    "if" := "keyword",
    "then" := "keyword",
    "input" := "keyword",
    "=" := "assign_op",
    "<=" := "rel_op",
    ">=" := "rel_op",
    "<" := "rel_op",
    ">" := "rel_op",
    "==" := "rel_op",
    "!=" := "rel_op",
    "." := "punct",
    "," := "punct",
    ":" := "punct",
    ";" := "punct",
    "E" := "punct",
    " " := "ws",
    "\t" := "ws",
    "\n" := "nl",
    "\r\n" := "nl",
    "-" := "add_op",
    "+" := "add_op",
    "*" := "mult_op",
    "/" := "mult_op",
    "^" := "power_op",
    "(" := "par_op",
    ")" := "par_op",
    "{" := "par_op",
    "}" := "par_op",
    "true" := "boolval",
    "false" := "boolval"
  ]

  const OtherTokens: map<int, string> := map[
    3 := "ident",
    12 := "int",
    16 := "float",
    18 := "exp"
  ]

  /**
   * The final states with a token kind of their own: the identifier state and the three
   * number states. Each of them is a final state of the automaton.
   */
  lemma OtherTokensKeys()
    ensures OtherTokens.Keys == {3, 12, 16, 18}
    ensures OtherTokens[3] == "ident" && OtherTokens[12] == "int" && OtherTokens[16] == "float" && OtherTokens[18] == "exp"
    ensures forall k :: k in OtherTokens ==> k in States.FinalStates
  {
  }

  /** The identifier state's kind. */
  lemma IdentifierState()
    ensures 3 in OtherTokens && OtherTokens[3] == "ident"
  {
  }

  const Keywords: seq<string> := ["program", "int", "float", "boolean", "while", "do", "if", "then", "input"]

  /** The nine keywords are keywords; "print" is not in the table at all. */
  lemma KeywordTable()
    ensures forall k :: k in Keywords ==> k in LanguageTokens && LanguageTokens[k] == "keyword"
    ensures "print" !in LanguageTokens
  {
    forall k | k in Keywords
      ensures k in LanguageTokens && LanguageTokens[k] == "keyword"
    {
      KeywordEntry(k);
    }
    PrintIsNotAToken();
  }

  lemma KeywordEntry(k: string)
    requires k in Keywords
    ensures k in LanguageTokens && LanguageTokens[k] == "keyword"
  {
  }

  lemma PrintIsNotAToken()
    ensures "print" !in LanguageTokens
  {
  }

  /** Assignment, the six relational operators and the two boolean literals. */
  lemma OperatorAndLiteralTable()
    ensures LanguageTokens["="] == "assign_op"
    ensures forall op :: op in ["<=", ">=", "<", ">", "==", "!="] ==> op in LanguageTokens && LanguageTokens[op] == "rel_op"
    ensures LanguageTokens["true"] == "boolval" && LanguageTokens["false"] == "boolval"
  {
  }

  lemma AssignEntry()
    ensures "=" in LanguageTokens && LanguageTokens["="] == "assign_op"
  {
  }

  lemma LessEntry()
    ensures "<" in LanguageTokens && LanguageTokens["<"] == "rel_op"
  {
  }

  /** Arithmetic operators and brackets; note that '^' is tagged power_op. */
  lemma ArithmeticTable()
    ensures LanguageTokens["+"] == "add_op" && LanguageTokens["-"] == "add_op"
    ensures LanguageTokens["*"] == "mult_op" && LanguageTokens["/"] == "mult_op"
    ensures LanguageTokens["^"] == "power_op"
    ensures forall b :: b in ["(", ")", "{", "}"] ==> b in LanguageTokens && LanguageTokens[b] == "par_op"
  {
  }

  /** No lexeme of at most one character is an identifier, a number or a boolean literal. */
  lemma ShortLexemeKinds(lexeme: string)
    requires lexeme in LanguageTokens && |lexeme| <= 1
    ensures LanguageTokens[lexeme] != "ident"
    ensures LanguageTokens[lexeme] !in ["int", "float", "exp", "boolval"]
  {
  }
}
