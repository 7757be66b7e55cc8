/** The loop of `parseParameterList` (src/parser/parser.js) as written.

    The loop runs while `tok` is not `)`: it reads a name, calls `nextToken()`, and calls
    it once more over a `,`. Past the end of the input `nextToken()` keeps yielding EOF,
    so on an input such as `fn(x` no `)` ever comes and the loop does not end.
    `Grammar.ParameterLoop` is the loop the rest of the model uses: it stops at EOF as
    well, as the parser does for a missing `)` after a group or an `if` condition. This
    module states where the two part. */
module ParameterListAsWritten {
  import opened Wrappers
  import opened Token
  import opened Scanning
  import opened Grammar

  /** The loop as written, allowed at most `fuel` names; `None` when it has read `fuel`
      names and is still short of a `)`. */
  function LoopAsWritten(lx: Lexed, p: nat, fuel: nat): (r: Option<Result<Parsed<seq<string>>>>)
    requires At(lx, p)
    ensures r.Some? && r.value.Ok? ==> At(lx, r.value.value.next)
    ensures r.Some? && r.value.Ok? ==> Tok(lx, r.value.value.next).kind == RightParen
    decreases fuel
  {
    if Tok(lx, p).kind == RightParen then Some(Ok(Parsed([], p)))
    else if fuel == 0 then None
    else
      var name := Tok(lx, p).literal;
      match StepOver(lx, p, Comma)
      case Err(message) => Some(Err(message))
      case Ok(s) =>
        match LoopAsWritten(lx, s, fuel - 1)
        case None => None
        case Some(Err(message)) => Some(Err(message))
        case Some(Ok(rest)) => Some(Ok(Parsed([name] + rest.node, rest.next)))
  }

  /** No `)` at or after `p` in a stream that scanned cleanly. */
  predicate Unclosed(lx: Lexed, p: nat) {
    lx.failure.None? && forall k | p <= k < |lx.tokens| :: lx.tokens[k].kind != RightParen
  }

  /** Without a `)` ahead the loop as written never ends, however many names it is allowed. */
  lemma {:induction false} NeverEnds(lx: Lexed, p: nat, fuel: nat)
    requires At(lx, p) && Unclosed(lx, p)
    ensures LoopAsWritten(lx, p, fuel) == None
    decreases fuel
  {
    UnclosedStep(lx, p);
    if fuel > 0 {
      var s := StepOver(lx, p, Comma).value;
      NeverEnds(lx, s, fuel - 1);
      StillShort(lx, p, s, fuel);
    }
  }

  /** Without a `)` ahead, `tok` is no `)` and the step past the name succeeds, again
      without a `)` ahead. */
  lemma UnclosedStep(lx: Lexed, p: nat)
    requires At(lx, p) && Unclosed(lx, p)
    ensures Tok(lx, p).kind != RightParen
    ensures StepOver(lx, p, Comma).Ok? && Unclosed(lx, StepOver(lx, p, Comma).value)
  {
    assert TokenAt(lx, p + 2).Ok?;
  }

  /** A loop still short of a `)` after the step past a name is short before it too. */
  lemma StillShort(lx: Lexed, p: nat, s: nat, fuel: nat)
    requires At(lx, p) && Tok(lx, p).kind != RightParen && fuel > 0
    requires StepOver(lx, p, Comma) == Ok(s) && LoopAsWritten(lx, s, fuel - 1) == None
    ensures LoopAsWritten(lx, p, fuel) == None
  {
  }

  /** Wherever the corrected loop does not stop at EOF, the loop as written, given enough
      names, gives the same result. */
  lemma {:induction false} AgreesWhenClosed(lx: Lexed, p: nat, fuel: nat)
    requires At(lx, p) && fuel >= Remaining(lx, p)
    requires ParameterLoop(lx, p).Ok? ==> Tok(lx, ParameterLoop(lx, p).value.next).kind == RightParen
    ensures LoopAsWritten(lx, p, fuel) == Some(ParameterLoop(lx, p))
    decreases fuel
  {
    if Tok(lx, p).kind != RightParen && Tok(lx, p).kind != Eof {
      assert p < |lx.tokens|;
      var step := StepOver(lx, p, Comma);
      if step.Ok? {
        AgreesWhenClosed(lx, step.value, fuel - 1);
      }
    }
  }

  /** The stream of `fn(x`. */
  const UnclosedStream: Lexed :=
    Lexed([Token(Fn, "fn"), Token(LeftParen, "("), Token(TokenType.Identifier, "x"), EofToken], None)

  /** `fn(x`: the loop as written, entered on the `x`, never ends; the corrected loop stops
      at EOF with the one name, and the function then fails on its missing body. */
  lemma UnclosedParameters()
    ensures forall fuel: nat :: LoopAsWritten(UnclosedStream, 2, fuel) == None
    ensures ParameterLoop(UnclosedStream, 2) == Ok(Parsed(["x"], 3))
    ensures ParseFunction(UnclosedStream, 0) == Err(UnexpectedToken(EofToken))
  {
    forall fuel: nat ensures LoopAsWritten(UnclosedStream, 2, fuel) == None {
      NeverEnds(UnclosedStream, 2, fuel);
    }
    UnclosedNames(UnclosedStream);
    UnclosedBody(UnclosedStream);
  }

  lemma UnclosedNames(lx: Lexed)
    requires lx == UnclosedStream
    ensures ParameterLoop(lx, 2) == Ok(Parsed(["x"], 3))
  {
    assert TokenAt(lx, 4) == Ok(EofToken);
    assert StepOver(lx, 2, Comma) == Ok(3);
    assert ParameterLoop(lx, 3) == Ok(Parsed([], 3));
    assert ["x"] + [] == ["x"];
  }

  lemma UnclosedBody(lx: Lexed)
    requires lx == UnclosedStream && ParameterLoop(lx, 2) == Ok(Parsed(["x"], 3))
    ensures ParseFunction(lx, 0) == Err(UnexpectedToken(EofToken))
  {
    assert ParseParameterList(lx, 1) == Ok(Parsed(["x"], 4));
    UnclosedBlock(lx);
  }

  lemma UnclosedBlock(lx: Lexed)
    requires lx == UnclosedStream
    ensures ParseBlockStatement(lx, 4) == Err(UnexpectedToken(EofToken))
  {
    assert ParseExpression(lx, 5, Lowest) == Err(UnexpectedToken(EofToken));
    assert BlockLoop(lx, 5) == Err(UnexpectedToken(EofToken));
  }
}
