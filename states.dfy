/** The lexer's deterministic automaton: its transition table and its designated state lists. */
module States {
  import opened Dto

  /** The class name of the fallback transition taken when no entry names the exact class. */
  const Other := "other"

  /**
   * The table, in the order of its source initialiser. It is written as the union of two
   * displays (the transitions out of state 0, then all others) because the two key sets are
   * disjoint and the verifier reasons about two short displays more readily than one long one.
   */
  const StateTransitionsDictionary: map<StateTransition, int> := FromInitState + FromOtherStates

  const FromInitState: map<StateTransition, int> := map[
    StateTransition(0, "Letter") := 1,
    StateTransition(0, "nl") := 5,
    StateTransition(0, "ws") := 0,
    StateTransition(0, "+") := 4,
    StateTransition(0, "-") := 4,
    StateTransition(0, "*") := 4,
    StateTransition(0, "/") := 4,
    StateTransition(0, "^") := 4,
    StateTransition(0, "(") := 4,
    StateTransition(0, ")") := 4,
    StateTransition(0, "{") := 4,
    StateTransition(0, "}") := 4,
    StateTransition(0, ";") := 4,
    StateTransition(0, ",") := 4,
    StateTransition(0, ":") := 4,
    StateTransition(0, "other") := 101,
    StateTransition(0, "=") := 6,
    StateTransition(0, "<") := 6,
    StateTransition(0, ">") := 6,
    StateTransition(0, "!") := 9,
    StateTransition(0, "Digit") := 10
  ]

  const FromOtherStates: map<StateTransition, int> := map[
    StateTransition(1, "Letter") := 1,
    StateTransition(1, "Digit") := 1,
    StateTransition(1, "other") := 3,
    StateTransition(3, "Digit") := 3,
    StateTransition(3, "other") := 4,
    StateTransition(6, "other") := 7,
    StateTransition(6, "=") := 8,
    StateTransition(9, "=") := 8,
    StateTransition(9, "other") := 102,
    StateTransition(10, "Digit") := 10,
    StateTransition(10, "other") := 12,
    StateTransition(10, ".") := 11,
    StateTransition(11, "Digit") := 14,
    StateTransition(11, "other") := 103,
    StateTransition(14, "Digit") := 14,
    StateTransition(14, "other") := 16,
    StateTransition(14, "E") := 15,
    StateTransition(15, "-") := 17,
    StateTransition(17, "Digit") := 13,
    StateTransition(15, "other") := 104,
    StateTransition(17, "other") := 104,
    StateTransition(15, "Digit") := 13,
    StateTransition(13, "Digit") := 13,
    StateTransition(13, "other") := 18
  ]

  const FinalStates: seq<int> := [3, 4, 5, 7, 8, 12, 16, 18, 101, 102, 103, 104]

  const StatesToProcess: seq<int> := [3, 4, 7, 12, 16]

  const ErrorStates: seq<int> := [101, 102, 103, 104]

  const InitState := 0

  /** The states that are not final yet have outgoing transitions: where the automaton can stand between characters. */
  const LiveStates: set<int> := {0, 1, 6, 9, 10, 11, 13, 14, 15, 17}

  /** Every key of the table starts from a live state, except the two entries of final state 3. */
  lemma TransitionSources(k: StateTransition)
    requires k in StateTransitionsDictionary
    ensures k.state in LiveStates || k.state == 3
  {
    if k in FromInitState {
      InitSources(k);
    } else {
      OtherSources(k);
    }
  }

  lemma InitSources(k: StateTransition)
    requires k in FromInitState
    ensures k.state == InitState
  {
  }

  lemma OtherSources(k: StateTransition)
    requires k in FromOtherStates
    ensures k.state in {1, 3, 6, 9, 10, 11, 13, 14, 15, 17}
  {
  }

  /** The classes with an entry of their own out of state 0. */
  const InitClasses: set<string> :=
    {"Letter", "nl", "ws", "+", "-", "*", "/", "^", "(", ")", "{", "}", ";", ",", ":", "other", "=", "<", ">", "!", "Digit"}

  /** The entries out of state 0 are those of the first display, one per class of InitClasses. */
  lemma InitLookup(symbolClass: string)
    ensures StateTransition(InitState, symbolClass) !in FromOtherStates
    ensures StateTransition(InitState, symbolClass) in FromInitState <==> symbolClass in InitClasses
  {
    if StateTransition(InitState, symbolClass) in FromOtherStates {
      OtherSources(StateTransition(InitState, symbolClass));
    }
  }

  /** The entries out of any other state are those of the second display. */
  lemma OtherLookup(k: StateTransition)
    requires k.state != InitState
    ensures k in StateTransitionsDictionary <==> k in FromOtherStates
    ensures k in FromOtherStates ==> StateTransitionsDictionary[k] == FromOtherStates[k]
  {
    assert k !in FromInitState;
  }

  /** Out of state 9 ("!"): "=" leads to state 8, anything else to error state 102. */
  lemma BangRow(k: StateTransition)
    requires k in FromOtherStates && k.state == 9
    ensures FromOtherStates[k] == if k.symbolClass == "=" then 8 else 102
  {
  }

  /** Out of state 11 (a number and "."): a digit leads to state 14, anything else to error state 103. */
  lemma PointRow(k: StateTransition)
    requires k in FromOtherStates && k.state == 11
    ensures FromOtherStates[k] == if k.symbolClass == "Digit" then 14 else 103
  {
  }

  /** Out of state 15 (after "E"): a digit leads to 13, "-" to 17, anything else to error state 104. */
  lemma ExponentRow(k: StateTransition)
    requires k in FromOtherStates && k.state == 15
    ensures FromOtherStates[k] == if k.symbolClass == "Digit" then 13 else if k.symbolClass == "-" then 17 else 104
  {
  }

  /** Out of state 17 (after "E-"): a digit leads to 13, anything else to error state 104. */
  lemma NegativeExponentRow(k: StateTransition)
    requires k in FromOtherStates && k.state == 17
    ensures FromOtherStates[k] == if k.symbolClass == "Digit" then 13 else 104
  {
  }

  /** Every live state has a fallback entry, so a lookup from it never misses. */
  lemma FallbackCoverage(s: int)
    requires s in LiveStates
    ensures StateTransition(s, Other) in StateTransitionsDictionary
  {
  }

  /** Every transition leads to a live state or to a final state. */
  lemma TargetsClosed(k: StateTransition)
    requires k in StateTransitionsDictionary
    ensures StateTransitionsDictionary[k] in LiveStates || StateTransitionsDictionary[k] in FinalStates
  {
  }

  /** A one-character class that state 0 sends to state 4, where single-character operators are finished. */
  predicate InitOperatorClass(symbolClass: string) {
    symbolClass == "+" || symbolClass == "-" || symbolClass == "*" || symbolClass == "/" ||
    symbolClass == "^" || symbolClass == "(" || symbolClass == ")" || symbolClass == "{" ||
    symbolClass == "}" || symbolClass == ";" || symbolClass == "," || symbolClass == ":"
  }

  /** The transitions out of state 0 are the entries of the first display. */
  lemma InitTransitions(symbolClass: string)
    requires StateTransition(InitState, symbolClass) in StateTransitionsDictionary
    ensures StateTransition(InitState, symbolClass) in FromInitState
    ensures StateTransitionsDictionary[StateTransition(InitState, symbolClass)] ==
            FromInitState[StateTransition(InitState, symbolClass)]
  {
  }

  /** Out of state 0, only the operator classes lead to state 4 and only the newline class to state 5. */
  lemma InitFinishingClasses(symbolClass: string)
    requires StateTransition(InitState, symbolClass) in FromInitState
    ensures FromInitState[StateTransition(InitState, symbolClass)] == 4 ==> InitOperatorClass(symbolClass)
    ensures FromInitState[StateTransition(InitState, symbolClass)] == 5 ==> symbolClass == "nl"
  {
  }

  /** The transitions out of state 0 lead only to states 0, 1, 4, 5, 6, 9, 10 and 101. */
  lemma InitTargets(symbolClass: string)
    requires StateTransition(InitState, symbolClass) in FromInitState
    ensures FromInitState[StateTransition(InitState, symbolClass)] in {0, 1, 4, 5, 6, 9, 10, 101}
  {
  }

  /** Out of state 0 no transition reaches state 3, 12, 16 or 18, the final states of identifiers and numbers. */
  lemma InitAvoidsNamedFinals(symbolClass: string)
    requires StateTransition(InitState, symbolClass) in StateTransitionsDictionary
    ensures StateTransitionsDictionary[StateTransition(InitState, symbolClass)] !in {3, 12, 16, 18}
  {
    InitTransitions(symbolClass);
    InitTargets(symbolClass);
  }

  /** The error states and the process-now states are final states, and the automaton starts in state 0. */
  lemma DesignatedStates()
    ensures forall s :: s in ErrorStates ==> s in FinalStates
    ensures forall s :: s in StatesToProcess ==> s in FinalStates
    ensures InitState == 0 && InitState in LiveStates
    ensures forall s :: s in LiveStates ==> s !in FinalStates
  {
  }
}
