/**
 * The bracket matcher the parser consults: a stack of the opening brackets "{" and "(" still
 * waiting for their closer. The stack is a sequence whose last element is the top.
 */
module Brackets {
  import opened Wrappers
  import opened Dto

  datatype BracketError =
    | UnexpectedBracket(lexeme: string, expected: string)
    | UnclosedBrackets

  predicate IsOpener(lexeme: string) {
    lexeme == "{" || lexeme == "("
  }

  /** The opener a closing bracket must find on top of the stack. */
  predicate Closes(opener: string, closer: string) {
    (opener == "{" && closer == "}") || (opener == "(" && closer == ")")
  }

  /** The record is the bracket the parser asked for: a par_op token with exactly that lexeme. */
  predicate IsExpected(bracket: SymbolInformation, expectedBracket: string) {
    bracket.lexemeToken == "par_op" && bracket.lexeme == expectedBracket
  }

  /** Whether the matcher accepts the bracket, given the stack it finds. */
  predicate Accepts(stack: seq<string>, bracket: SymbolInformation, expectedBracket: string)
    ensures Accepts(stack, bracket, expectedBracket) ==>
              IsExpected(bracket, expectedBracket) && bracket.lexeme in ["{", "(", "}", ")"]
    ensures Accepts(stack, bracket, expectedBracket) ==>
              |StackAfter(stack, bracket, expectedBracket)| == if IsOpener(bracket.lexeme) then |stack| + 1 else |stack| - 1
  {
    IsExpected(bracket, expectedBracket) &&
    (IsOpener(bracket.lexeme) || (|stack| > 0 && Closes(stack[|stack| - 1], bracket.lexeme)))
  }

  /**
   * The stack after the matcher has seen the bracket, whether it accepted it or not: an expected
   * opener is pushed, any other expected bracket pops the top if there is one, and a record that
   * is not the expected bracket leaves the stack alone.
   */
  function StackAfter(stack: seq<string>, bracket: SymbolInformation, expectedBracket: string): (r: seq<string>)
    ensures r == stack || r == stack + [bracket.lexeme] || (|stack| > 0 && r == stack[..|stack| - 1])
    ensures !IsExpected(bracket, expectedBracket) ==> r == stack
    ensures r == stack + [bracket.lexeme] ==> IsOpener(bracket.lexeme)
  {
    if !IsExpected(bracket, expectedBracket) then stack
    else if IsOpener(bracket.lexeme) then stack + [bracket.lexeme]
    else if |stack| > 0 then stack[..|stack| - 1]
    else stack
  }

  class BracketsProcessor {
    var bracketsStack: seq<string>

    constructor ()
      ensures bracketsStack == []
    {
      bracketsStack := [];
    }

    /**
     * Checks one bracket against the one the parser expects. It either answers true or fails;
     * it never answers false.
     */
    method ControlBracketsFlow(bracket: SymbolInformation, expectedBracket: string) returns (r: Result<bool, BracketError>)
      modifies this
      ensures bracketsStack == StackAfter(old(bracketsStack), bracket, expectedBracket)
      ensures r.Ok? <==> Accepts(old(bracketsStack), bracket, expectedBracket)
      ensures r.Ok? ==> r.value
      ensures r.Err? ==> r.error == UnexpectedBracket(bracket.lexeme, expectedBracket)
    {
      var result := false;
      if bracket.lexemeToken == "par_op" && bracket.lexeme == expectedBracket {
        if bracket.lexeme == "{" || bracket.lexeme == "(" {
          bracketsStack := bracketsStack + [bracket.lexeme];
          result := true;
        } else if |bracketsStack| > 0 {
          var bracketInStack := bracketsStack[|bracketsStack| - 1];
          bracketsStack := bracketsStack[..|bracketsStack| - 1];
          if (bracketInStack == "{" && bracket.lexeme == "}") || (bracketInStack == "(" && bracket.lexeme == ")") {
            result := true;
          }
        }
      }
      if !result {
        return Err(UnexpectedBracket(bracket.lexeme, expectedBracket));
      }
      return Ok(result);
    }

    /** Fails exactly when some bracket is still open; the stack is only read. */
    method CheckStackStatus() returns (failure: Option<BracketError>)
      ensures failure.Some? <==> |bracketsStack| != 0
      ensures failure.Some? ==> failure.value == UnclosedBrackets
    {
      if |bracketsStack| != 0 {
        return Some(UnclosedBrackets);
      }
      return None;
    }
  }

  /** A record that is not the expected bracket is refused and leaves the stack as it was. */
  lemma UnexpectedLeavesStack(stack: seq<string>, bracket: SymbolInformation, expectedBracket: string)
    requires !IsExpected(bracket, expectedBracket)
    ensures !Accepts(stack, bracket, expectedBracket)
    ensures StackAfter(stack, bracket, expectedBracket) == stack
  {
  }

  /** An expected opener is accepted and pushed: the stack grows by exactly that one element. */
  lemma OpenerPushes(stack: seq<string>, bracket: SymbolInformation)
    requires bracket.lexemeToken == "par_op" && IsOpener(bracket.lexeme)
    ensures Accepts(stack, bracket, bracket.lexeme)
    ensures StackAfter(stack, bracket, bracket.lexeme) == stack + [bracket.lexeme]
    ensures |StackAfter(stack, bracket, bracket.lexeme)| == |stack| + 1
  {
  }

  /**
   * Any other expected bracket pops exactly one element, and is accepted exactly when that
   * element is its opener; a mismatched closer has still removed the top.
   */
  lemma CloserPops(stack: seq<string>, bracket: SymbolInformation)
    requires bracket.lexemeToken == "par_op" && !IsOpener(bracket.lexeme) && |stack| > 0
    ensures StackAfter(stack, bracket, bracket.lexeme) == stack[..|stack| - 1]
    ensures Accepts(stack, bracket, bracket.lexeme) <==> Closes(stack[|stack| - 1], bracket.lexeme)
  {
  }

  /** A closer that finds the stack empty is refused. */
  lemma EmptyStackRefusesCloser(bracket: SymbolInformation, expectedBracket: string)
    requires !IsOpener(bracket.lexeme)
    ensures !Accepts([], bracket, expectedBracket)
    ensures StackAfter([], bracket, expectedBracket) == []
  {
  }

  /** An opener followed by its own closer is accepted twice and gives back the stack as it was. */
  lemma PushThenCloseRestores(stack: seq<string>, opener: SymbolInformation, closer: SymbolInformation)
    requires opener.lexemeToken == "par_op" && closer.lexemeToken == "par_op"
    requires IsOpener(opener.lexeme) && Closes(opener.lexeme, closer.lexeme)
    ensures Accepts(stack, opener, opener.lexeme)
    ensures Accepts(StackAfter(stack, opener, opener.lexeme), closer, closer.lexeme)
    ensures StackAfter(StackAfter(stack, opener, opener.lexeme), closer, closer.lexeme) == stack
  {
    var pushed := StackAfter(stack, opener, opener.lexeme);
    assert pushed == stack + [opener.lexeme];
    assert pushed[..|pushed| - 1] == stack;
  }

  /**
   * Feeding a sequence of bracket lexemes, each one as the bracket the parser expects: the final
   * stack, or None at the first refusal.
   */
  function Feed(stack: seq<string>, lexemes: seq<string>): (r: Option<seq<string>>)
    ensures r.Some? ==> (|stack| + |lexemes| + |r.value|) % 2 == 0
    decreases |lexemes|
  {
    if lexemes == [] then Some(stack)
    else
      var bracket := SymbolInformation(0, lexemes[0], "par_op", None);
      if Accepts(stack, bracket, lexemes[0]) then Feed(StackAfter(stack, bracket, lexemes[0]), lexemes[1..])
      else None
  }

  /**
   * A word the matcher accepts is made of the four bracket lexemes only, and from a stack of
   * openers it leaves a stack of openers.
   */
  lemma {:induction false} FeedAcceptsBracketsOnly(stack: seq<string>, lexemes: seq<string>)
    requires Feed(stack, lexemes).Some?
    ensures forall i :: 0 <= i < |lexemes| ==> lexemes[i] in ["{", "(", "}", ")"]
    ensures (forall j :: 0 <= j < |stack| ==> IsOpener(stack[j])) ==>
              forall j :: 0 <= j < |Feed(stack, lexemes).value| ==> IsOpener(Feed(stack, lexemes).value[j])
    decreases |lexemes|
  {
    if lexemes != [] {
      var bracket := SymbolInformation(0, lexemes[0], "par_op", None);
      var next := StackAfter(stack, bracket, lexemes[0]);
      FeedAcceptsBracketsOnly(next, lexemes[1..]);
      forall i | 0 < i < |lexemes|
        ensures lexemes[i] in ["{", "(", "}", ")"]
      {
        assert lexemes[i] == lexemes[1..][i - 1];
      }
      if forall j :: 0 <= j < |stack| ==> IsOpener(stack[j]) {
        forall j | 0 <= j < |next|
          ensures IsOpener(next[j])
        {
          if j >= |stack| {
            assert next == stack + [lexemes[0]];
          }
        }
      }
    }
  }

  /** A balanced word: one that the matcher accepts from the empty stack and leaves empty. */
  predicate Balanced(lexemes: seq<string>)
    ensures Balanced(lexemes) ==> |lexemes| % 2 == 0
  {
    Feed([], lexemes) == Some([])
  }

  /**
   * What lies below the stack does not matter: a word the matcher accepts from one stack is
   * accepted from that stack with anything underneath, and the part underneath is untouched.
   */
  lemma {:induction false} FeedUnderneath(below: seq<string>, stack: seq<string>, lexemes: seq<string>)
    requires Feed(stack, lexemes).Some?
    ensures Feed(below + stack, lexemes) == Some(below + Feed(stack, lexemes).value)
    decreases |lexemes|
  {
    if lexemes != [] {
      var bracket := SymbolInformation(0, lexemes[0], "par_op", None);
      var next := StackAfter(stack, bracket, lexemes[0]);
      if IsOpener(lexemes[0]) {
        assert below + stack + [lexemes[0]] == below + (stack + [lexemes[0]]);
      } else {
        assert (below + stack)[..|below + stack| - 1] == below + stack[..|stack| - 1];
      }
      assert StackAfter(below + stack, bracket, lexemes[0]) == below + next;
      FeedUnderneath(below, next, lexemes[1..]);
    }
  }

  /** A balanced word, fed on top of any stack, is accepted and gives that stack back. */
  lemma BalancedKeepsStack(stack: seq<string>, lexemes: seq<string>)
    requires Balanced(lexemes)
    ensures Feed(stack, lexemes) == Some(stack)
  {
    FeedUnderneath(stack, [], lexemes);
    assert stack + [] == stack;
  }

  /** Feeding two words one after the other is feeding their concatenation. */
  lemma {:induction false} FeedConcat(stack: seq<string>, u: seq<string>, v: seq<string>)
    ensures Feed(stack, u + v) == (if Feed(stack, u).Some? then Feed(Feed(stack, u).value, v) else None)
    decreases |u|
  {
    if u == [] {
      assert u + v == v;
    } else {
      assert (u + v)[0] == u[0];
      assert (u + v)[1..] == u[1..] + v;
      var bracket := SymbolInformation(0, u[0], "par_op", None);
      if Accepts(stack, bracket, u[0]) {
        FeedConcat(StackAfter(stack, bracket, u[0]), u[1..], v);
      }
    }
  }

  /** Wrapping a balanced word in a matching pair of brackets, or putting two side by side, keeps it balanced. */
  lemma BalancedClosure(opener: string, closer: string, u: seq<string>, v: seq<string>)
    requires Closes(opener, closer) && Balanced(u) && Balanced(v)
    ensures Balanced([opener] + u + [closer])
    ensures Balanced(u + v)
  {
    BalancedWrapped(opener, closer, u);
    FeedConcat([], u, v);
  }

  lemma BalancedWrapped(opener: string, closer: string, u: seq<string>)
    requires Closes(opener, closer) && Balanced(u)
    ensures Balanced([opener] + u + [closer])
  {
    BalancedKeepsStack([opener], u);
    FeedConcat([], [opener], u);
    assert [] + [opener] == [opener] && [opener][1..] == [];
    assert Feed([], [opener]) == Feed([opener], []);
    FeedConcat([], [opener] + u, [closer]);
    assert [opener][..0] == [] && [closer][1..] == [];
    assert Feed([opener], [closer]) == Feed([], []);
  }
}
