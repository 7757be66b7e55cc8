/** The `Parser` class of src/parser/parser.js: it holds a scanner and the two lookahead
    tokens `tok` and `peek`, and every `parse...` method advances them by `nextToken`.

    Each method is proved to build the node the corresponding function of `Grammar` gives
    for the stream the scanner produces, and to leave `tok` at the index that function says;
    a thrown error is the same `Err` as the function's. The handler tables are fixed once the
    constructor has filled them, so they are the functions `PrefixParser` and `InfixParser`,
    and calling a handler from the table is a dispatch on its rule. */
module Parsing {
  import opened Wrappers
  import opened Token
  import opened Scanning
  import opened ScannerFacts
  import opened Ast
  import opened Grammar

  /** `new Parser(scanner)`: two `nextToken` calls fill `peek` and then `tok` and `peek`; a
      failing scan makes the constructor throw. */
  method Open(scanner: Scanner) returns (r: Result<Parser>)
    requires scanner.Valid()
    modifies scanner
    ensures var lx := LexFrom(scanner.input, old(scanner.current));
      && (r.Ok? <==> At(lx, 0))
      && (r.Err? ==> r.message == (if TokenAt(lx, 0).Err? then TokenAt(lx, 0) else TokenAt(lx, 1)).message)
    ensures r.Ok? ==> && fresh(r.value) && r.value.Valid() && r.value.index == 0
                      && r.value.scanner == scanner
                      && r.value.stream == LexFrom(scanner.input, old(scanner.current))
  {
    ghost var origin := scanner.current;
    TokenAtScans(scanner.input, origin, 0);
    var first := scanner.ScanToken();
    if first.Err? {
      return Err(first.message);
    }
    TokenAtScans(scanner.input, origin, 1);
    ScansStep(scanner.input, origin, 1);
    var second := scanner.ScanToken();
    if second.Err? {
      return Err(second.message);
    }
    ScansStep(scanner.input, origin, 2);
    var parser := new Parser.Init(scanner, origin, first.value, second.value);
    return Ok(parser);
  }

  class Parser {
    const scanner: Scanner
    var tok: Token
    var peek: Token
    /** The stream the scanner produces from where the parser started reading it. */
    ghost const stream: Lexed
    ghost const origin: nat
    /** The stream index of `tok`. */
    ghost var index: nat

    ghost predicate Valid()
      reads this, scanner
    {
      && scanner.Valid()
      && origin <= |scanner.input|
      && stream == LexFrom(scanner.input, origin)
      && At(stream, index)
      && tok == Tok(stream, index)
      && peek == Tok(stream, index + 1)
      && Scans(scanner.input, origin, index + 2) == Some(scanner.current)
    }

    /** The state the constructor's two `nextToken` calls leave behind. */
    constructor Init(scanner: Scanner, ghost origin: nat, tok: Token, peek: Token)
      requires scanner.Valid() && origin <= |scanner.input|
      requires Scans(scanner.input, origin, 2) == Some(scanner.current)
      requires TokenAt(LexFrom(scanner.input, origin), 0) == Ok(tok)
      requires TokenAt(LexFrom(scanner.input, origin), 1) == Ok(peek)
      ensures Valid() && index == 0
      ensures this.scanner == scanner && this.origin == origin && stream == LexFrom(scanner.input, origin)
    {
      this.scanner := scanner;
      this.tok := tok;
      this.peek := peek;
      this.stream := LexFrom(scanner.input, origin);
      this.origin := origin;
      this.index := 0;
    }

    predicate IsCurToken(kind: TokenType)
      reads this
    {
      tok.kind == kind
    }

    predicate IsPeekToken(kind: TokenType)
      reads this
    {
      peek.kind == kind
    }

    function PeekPrecedence(): nat
      reads this
    {
      Precedence(peek.kind)
    }

    function GetPrecedence(): nat
      reads this
    {
      Precedence(tok.kind)
    }

    /** `nextToken()`: `tok` takes `peek`'s token, then the scanner is asked for the next
        one; when it throws, `peek` keeps its old token. */
    method NextToken() returns (r: Status)
      requires Valid()
      modifies this, scanner
      ensures Grammar.NextToken(stream, old(index)) == Stepped(r, index)
      ensures r.Pass? ==> Valid()
      ensures r.Fail? ==> tok == old(peek) && peek == old(peek)
    {
      TokenAtScans(scanner.input, origin, index + 2);
      ScansStep(scanner.input, origin, index + 2);
      tok := peek;
      var next := scanner.ScanToken();
      if next.Err? {
        return Fail(next.message);
      }
      peek := next.value;
      index := index + 1;
      return Pass;
    }

    // -------------------------------------------------------------------------
    // Expressions
    // -------------------------------------------------------------------------

    method ParseExpression(precedence: nat) returns (r: Result<Expr>)
      requires Valid()
      modifies this, scanner
      ensures Grammar.ParseExpression(stream, old(index), precedence) == Reached(r, index)
      ensures r.Ok? ==> Valid()
      decreases Remaining(stream, index), 4
    {
      var prefix := PrefixParser(tok.kind);
      if prefix.None? {
        return Err(UnexpectedToken(tok));
      }
      var prefixed := ApplyPrefix(prefix.value);
      PrefixThen(stream, old(index), precedence, prefix.value, Reached(prefixed, index));
      if prefixed.Err? {
        return Err(prefixed.message);
      }
      var left := prefixed.value;
      ghost var goal := InfixLoop(stream, left, index, precedence);
      while precedence < PeekPrecedence()
        invariant Valid() && old(index) <= index
        invariant InfixLoop(stream, left, index, precedence) == goal
        decreases Remaining(stream, index)
      {
        var infix := InfixParser(peek.kind);
        if infix.None? {
          return Ok(left);
        }
        var combined := InfixTurn(infix.value, left, precedence);
        if combined.Err? {
          return Err(combined.message);
        }
        left := combined.value;
      }
      return Ok(left);
    }

    /** One turn of the `while` loop of `parseExpression`, once `peek` binds tighter than
        `precedence`: `nextToken` onto the operator, then its infix handler. What is left of
        the loop is the same before and after the turn. */
    method InfixTurn(rule: InfixRule, left: Expr, precedence: nat) returns (r: Result<Expr>)
      requires Valid() && precedence < Precedence(peek.kind) && InfixParser(peek.kind) == Some(rule)
      modifies this, scanner
      ensures r.Ok? ==> Valid() && old(index) < index
      ensures r.Ok? ==> InfixLoop(stream, left, old(index), precedence) == InfixLoop(stream, r.value, index, precedence)
      ensures r.Err? ==> InfixLoop(stream, left, old(index), precedence) == Err(r.message)
      decreases Remaining(stream, index), 3
    {
      ghost var k := index;
      var stepped := NextToken();
      InfixThen(stream, left, k, precedence, rule, Stepped(stepped, index));
      if stepped.Fail? {
        return Err(stepped.message);
      }
      ghost var j := index;
      var combined := ApplyInfix(rule, left);
      InfixApplied(stream, left, k, j, precedence, rule, Reached(combined, index));
      if combined.Err? {
        return Err(combined.message);
      }
      return Ok(combined.value);
    }

    /** The prefix handler registered for `tok`, called. */
    method ApplyPrefix(rule: PrefixRule) returns (r: Result<Expr>)
      requires Valid() && PrefixParser(tok.kind) == Some(rule)
      modifies this, scanner
      ensures Grammar.ApplyPrefix(stream, old(index), rule) == Reached(r, index)
      ensures r.Ok? ==> Valid()
      decreases Remaining(stream, index), 2
    {
      match rule
      case IdentifierRule => return Ok(Expr.Identifier(tok.literal));
      case NumberRule => return Ok(NumberLiteral(tok.literal));
      case StringRule => return Ok(StringLiteral(tok.literal));
      case BooleanRule => return Ok(BooleanLiteral(tok.literal));
      case NullRule => return Ok(NullLiteral(tok.literal));
      case GroupRule => r := ParseGroupExpression();
      case PrefixOperatorRule => r := ParsePrefixExpression();
    }

    method ParseGroupExpression() returns (r: Result<Expr>)
      requires Valid() && tok.kind == LeftParen
      modifies this, scanner
      ensures Grammar.ParseGroupExpression(stream, old(index)) == Reached(r, index)
      ensures r.Ok? ==> Valid()
      decreases Remaining(stream, index), 1
    {
      // past the `(`
      var stepped := NextToken();
      if stepped.Fail? {
        return Err(stepped.message);
      }
      var expression :- ParseExpression(Lowest);
      r := CloseGroup(expression);
    }

    method CloseGroup(expression: Expr) returns (r: Result<Expr>)
      requires Valid()
      modifies this, scanner
      ensures Grammar.CloseGroup(stream, expression, old(index)) == Reached(r, index)
      ensures r.Ok? ==> Valid()
    {
      if IsPeekToken(RightParen) {
        :- NextToken();
      }
      return Ok(expression);
    }

    method ParsePrefixExpression() returns (r: Result<Expr>)
      requires Valid() && PrefixParser(tok.kind) == Some(PrefixOperatorRule)
      modifies this, scanner
      ensures Grammar.ParsePrefixExpression(stream, old(index)) == Reached(r, index)
      ensures r.Ok? ==> Valid()
      decreases Remaining(stream, index), 1
    {
      var op := tok.literal;
      :- NextToken();
      var right :- ParseExpression(PrefixPrecedence);
      return Ok(PrefixExpression(op, right));
    }

    /** The infix handler registered for `tok`, called with the left operand. */
    method ApplyInfix(rule: InfixRule, left: Expr) returns (r: Result<Expr>)
      requires Valid() && InfixParser(tok.kind) == Some(rule)
      modifies this, scanner
      ensures Grammar.ApplyInfix(stream, left, old(index), rule) == Reached(r, index)
      ensures r.Ok? ==> Valid()
      decreases Remaining(stream, index), 2
    {
      match rule
      case InfixOperatorRule => r := ParseInfixExpression(left);
      case AssignmentRule => r := ParseAssignmentExpression(left);
    }

    method ParseInfixExpression(left: Expr) returns (r: Result<Expr>)
      requires Valid() && tok.kind != Eof
      modifies this, scanner
      ensures Grammar.ParseInfixExpression(stream, left, old(index)) == Reached(r, index)
      ensures r.Ok? ==> Valid()
      decreases Remaining(stream, index), 1
    {
      var op := tok.literal;
      var precedence := GetPrecedence();
      :- NextToken();
      var right :- ParseExpression(precedence);
      return Ok(InfixExpression(op, left, right));
    }

    method ParseAssignmentExpression(left: Expr) returns (r: Result<Expr>)
      requires Valid() && tok.kind != Eof
      modifies this, scanner
      ensures Grammar.ParseAssignmentExpression(stream, left, old(index)) == Reached(r, index)
      ensures r.Ok? ==> Valid()
      decreases Remaining(stream, index), 1
    {
      var op := tok.literal;
      :- NextToken();
      var right :- ParseExpression(Lowest);
      return Ok(AssignmentExpression(op, left, right));
    }

    // -------------------------------------------------------------------------
    // Statements
    // -------------------------------------------------------------------------

    method ParseStatement() returns (r: Result<Stmt>)
      requires Valid()
      modifies this, scanner
      ensures Grammar.ParseStatement(stream, old(index)) == Reached(r, index)
      ensures r.Ok? ==> Valid()
      decreases Remaining(stream, index), 3
    {
      ghost var spec := Grammar.ParseStatement(stream, index);
      if tok.kind == If {
        assert spec == Grammar.ParseIfStatement(stream, index);
        r := ParseIfStatement();
      } else if tok.kind == Let {
        assert spec == Grammar.ParseLetStatement(stream, index);
        r := ParseLetStatement();
      } else if tok.kind == Return {
        assert spec == Grammar.ParseReturnStatement(stream, index);
        r := ParseReturnStatement();
      } else if tok.kind == LeftBrace {
        assert spec == Grammar.ParseBlockStatement(stream, index);
        r := ParseBlockStatement();
      } else {
        assert spec == Grammar.ParseExpressionStatement(stream, index);
        r := ParseExpressionStatement();
      }
    }

    method ParseIfStatement() returns (r: Result<Stmt>)
      requires Valid()
      modifies this, scanner
      ensures Grammar.ParseIfStatement(stream, old(index)) == Reached(r, index)
      ensures r.Ok? ==> Valid()
      decreases Remaining(stream, index), 2
    {
      // past `if`, onto the `(` of the condition
      var stepped := NextToken();
      if stepped.Fail? {
        return Err(stepped.message);
      }
      var condition :- ParseExpression(Lowest);
      r := ParseIfThen(condition);
    }

    method ParseIfThen(condition: Expr) returns (r: Result<Stmt>)
      requires Valid()
      modifies this, scanner
      ensures IfThen(stream, condition, old(index)) == Reached(r, index)
      ensures r.Ok? ==> Valid()
      decreases Remaining(stream, index), 4
    {
      if IsCurToken(RightParen) {
        :- NextToken();
      }
      var thenArm :- ParseStatement();
      r := ParseElseArm(condition, thenArm);
    }

    method ParseElseArm(condition: Expr, thenArm: Stmt) returns (r: Result<Stmt>)
      requires Valid()
      modifies this, scanner
      ensures ElseArm(stream, condition, thenArm, old(index)) == Reached(r, index)
      ensures r.Ok? ==> Valid()
      decreases Remaining(stream, index), 1
    {
      if IsCurToken(Else) {
        ghost var k := index;
        var stepped := NextToken();
        if stepped.Fail? {
          ElseFails(stream, condition, thenArm, k, stepped.message);
          return Err(stepped.message);
        }
        ghost var m := index;
        var elseArm := ParseStatement();
        ElseParsed(stream, condition, thenArm, k, m, Reached(elseArm, index));
        if elseArm.Err? {
          return Err(elseArm.message);
        }
        return Ok(IfStatement(condition, thenArm, Some(elseArm.value)));
      }
      return Ok(IfStatement(condition, thenArm, None));
    }

    method ParseBlockStatement() returns (r: Result<Stmt>)
      requires Valid()
      modifies this, scanner
      ensures Grammar.ParseBlockStatement(stream, old(index)) == Reached(r, index)
      ensures r.Ok? ==> Valid()
      decreases Remaining(stream, index), if tok.kind == Eof then 5 else 2
    {
      // past the `{`
      var stepped := NextToken();
      if stepped.Fail? {
        return Err(stepped.message);
      }
      var statements :- ParseBlockBody();
      :- NextToken();
      return Ok(BlockStatement(statements));
    }

    /** The loop of `parseBlockStatement`: statements until `tok` is `}`. */
    method ParseBlockBody() returns (r: Result<seq<Stmt>>)
      requires Valid()
      modifies this, scanner
      ensures BlockLoop(stream, old(index)) == Reached(r, index)
      ensures r.Ok? ==> Valid()
      decreases Remaining(stream, index), 4
    {
      var statements: seq<Stmt> := [];
      ghost var goal := BlockLoop(stream, index);
      PrefixedNil(goal);
      while !IsCurToken(RightBrace)
        invariant Valid() && old(index) <= index
        invariant Prefixed(statements, BlockLoop(stream, index)) == goal
        decreases Remaining(stream, index)
      {
        var statement :- ParseStatement();
        PrefixedStep(statements, statement, BlockLoop(stream, index));
        statements := statements + [statement];
      }
      assert statements + [] == statements;
      return Ok(statements);
    }

    method ParseLetStatement() returns (r: Result<Stmt>)
      requires Valid()
      modifies this, scanner
      ensures Grammar.ParseLetStatement(stream, old(index)) == Reached(r, index)
      ensures r.Ok? ==> Valid()
    {
      // past `let`, onto the name
      var stepped := NextToken();
      if stepped.Fail? {
        return Err(stepped.message);
      }
      var name := tok.literal;
      ghost var j := index;
      var value: Option<Expr> := None;
      if IsPeekToken(Equal) {
        value :- ParseLetValue();
      }
      assert (if Tok(stream, j + 1).kind == Equal then Grammar.ParseLetValue(stream, j) else Ok(Parsed(None, j)))
          == Ok(Parsed(value, index));
      :- StepOver(Semicolon);
      return Ok(LetStatement(name, value));
    }

    /** The `= value` part of `parseLetStatement`, entered with `tok` on the name. */
    method ParseLetValue() returns (r: Result<Option<Expr>>)
      requires Valid()
      modifies this, scanner
      ensures Grammar.ParseLetValue(stream, old(index)) == Reached(r, index)
      ensures r.Ok? ==> Valid()
    {
      // onto the `=`, then past it
      var stepped := NextToken();
      if stepped.Fail? {
        return Err(stepped.message);
      }
      :- NextToken();
      var e :- ParseExpression(Lowest);
      return Ok(Some(e));
    }

    /** `nextToken`, and again when `tok` has become `optional`. */
    method StepOver(optional: TokenType) returns (r: Status)
      requires Valid()
      modifies this, scanner
      ensures Grammar.StepOver(stream, old(index), optional) == Stepped(r, index)
      ensures r.Pass? ==> Valid()
    {
      r := NextToken();
      if r.Pass? && IsCurToken(optional) {
        r := NextToken();
      }
    }

    method ParseReturnStatement() returns (r: Result<Stmt>)
      requires Valid()
      modifies this, scanner
      ensures Grammar.ParseReturnStatement(stream, old(index)) == Reached(r, index)
      ensures r.Ok? ==> Valid()
    {
      // past `return`
      var stepped := NextToken();
      if stepped.Fail? {
        return Err(stepped.message);
      }
      var expression :- ParseExpression(Lowest);
      :- StepOver(Semicolon);
      return Ok(ReturnStatement(expression));
    }

    method ParseExpressionStatement() returns (r: Result<Stmt>)
      requires Valid()
      modifies this, scanner
      ensures Grammar.ParseExpressionStatement(stream, old(index)) == Reached(r, index)
      ensures r.Ok? ==> Valid()
    {
      var expression :- ParseExpression(Lowest);
      :- StepOver(Semicolon);
      return Ok(ExpressionStatement(expression));
    }

    method ParseProgram() returns (r: Result<Program>)
      requires Valid()
      modifies this, scanner
      ensures r == Grammar.ParseProgram(stream, old(index))
      ensures r.Ok? ==> Valid() && tok.kind == Eof
    {
      var statements: seq<Stmt> := [];
      ghost var goal := ProgramLoop(stream, index);
      PrefixedAllNil(goal);
      while !IsCurToken(Eof)
        invariant Valid()
        invariant PrefixedAll(statements, ProgramLoop(stream, index)) == goal
        decreases Remaining(stream, index)
      {
        var statement :- ParseStatement();
        PrefixedAllStep(statements, statement, ProgramLoop(stream, index));
        statements := statements + [statement];
      }
      assert statements + [] == statements;
      return Ok(Program(statements));
    }

    // -------------------------------------------------------------------------
    // Functions
    // -------------------------------------------------------------------------

    method ParseParameterList() returns (r: Result<seq<string>>)
      requires Valid()
      modifies this, scanner
      ensures Grammar.ParseParameterList(stream, old(index)) == Reached(r, index)
      ensures r.Ok? ==> Valid()
    {
      // past the `(`
      var stepped := NextToken();
      if stepped.Fail? {
        return Err(stepped.message);
      }
      var params :- ParseParameters();
      :- NextToken();
      return Ok(params);
    }

    /** The loop of `parseParameterList`: a name per step until `tok` is `)` or EOF. */
    method ParseParameters() returns (r: Result<seq<string>>)
      requires Valid()
      modifies this, scanner
      ensures ParameterLoop(stream, old(index)) == Reached(r, index)
      ensures r.Ok? ==> Valid()
    {
      var params: seq<string> := [];
      ghost var goal := ParameterLoop(stream, index);
      PrefixedNil(goal);
      while !IsCurToken(RightParen) && !IsCurToken(Eof)
        invariant Valid()
        invariant Prefixed(params, ParameterLoop(stream, index)) == goal
        decreases Remaining(stream, index)
      {
        var name := ParameterTurn();
        if name.Err? {
          return Err(name.message);
        }
        PrefixedStep(params, name.value, ParameterLoop(stream, index));
        params := params + [name.value];
      }
      ParameterEnds(stream, index, params);
      return Ok(params);
    }

    /** One turn of that loop: the name in `tok`, then the step past it and an optional
        comma. The loop from before the name is the name followed by the loop after it. */
    method ParameterTurn() returns (r: Result<string>)
      requires Valid() && tok.kind != RightParen && tok.kind != Eof
      modifies this, scanner
      ensures r.Ok? ==> Valid() && old(index) < index && r.value == old(tok).literal
      ensures r.Ok? ==> ParameterLoop(stream, old(index)) == Prefixed([r.value], ParameterLoop(stream, index))
      ensures r.Err? ==> ParameterLoop(stream, old(index)) == Err(r.message)
    {
      ghost var p := index;
      var name := tok.literal;
      var stepped := StepOver(Comma);
      ParameterStep(stream, p, Stepped(stepped, index));
      if stepped.Fail? {
        return Err(stepped.message);
      }
      return Ok(name);
    }

    method ParseFunction() returns (r: Result<FunctionNode>)
      requires Valid()
      modifies this, scanner
      ensures Grammar.ParseFunction(stream, old(index)) == Reached(r, index)
      ensures r.Ok? ==> Valid()
    {
      // past `fn`, onto the `(`
      var stepped := NextToken();
      if stepped.Fail? {
        return Err(stepped.message);
      }
      var params :- ParseParameterList();
      var body :- ParseBlockStatement();
      return Ok(FunctionNode(params, body));
    }
  }

  /** A method's result and where it left `tok`, as a parse result (the position is
      irrelevant once it has thrown). */
  function Reached<T>(r: Result<T>, next: nat): Result<Parsed<T>> {
    if r.Ok? then Ok(Parsed(r.value, next)) else Err(r.message)
  }

  /** The outcome of a step that only moves `tok`, as a position. */
  function Stepped(s: Status, next: nat): Result<nat> {
    if s.Pass? then Ok(next) else Err(s.message)
  }

  /** `xs` followed by the nodes of `rest`, or the failure of `rest`. */
  function Prefixed<T>(xs: seq<T>, rest: Result<Parsed<seq<T>>>): Result<Parsed<seq<T>>> {
    if rest.Ok? then Ok(Parsed(xs + rest.value.node, rest.value.next)) else rest
  }

  function PrefixedAll<T>(xs: seq<T>, rest: Result<seq<T>>): Result<seq<T>> {
    if rest.Ok? then Ok(xs + rest.value) else rest
  }

  lemma PrefixedNil<T>(rest: Result<Parsed<seq<T>>>)
    ensures Prefixed([], rest) == rest
  {
    if rest.Ok? {
      assert [] + rest.value.node == rest.value.node;
    }
  }

  lemma PrefixedStep<T>(xs: seq<T>, x: T, rest: Result<Parsed<seq<T>>>)
    ensures Prefixed(xs + [x], rest) == Prefixed(xs, if rest.Ok? then Ok(Parsed([x] + rest.value.node, rest.value.next)) else rest)
  {
    if rest.Ok? {
      assert (xs + [x]) + rest.value.node == xs + ([x] + rest.value.node);
    }
  }

  /** `parseExpression` after its prefix handler: the infix loop, or the handler's error. */
  lemma PrefixThen(lx: Lexed, i: nat, precedence: nat, rule: PrefixRule, prefixed: Result<Parsed<Expr>>)
    requires At(lx, i) && PrefixParser(Tok(lx, i).kind) == Some(rule)
    requires ApplyPrefix(lx, i, rule) == prefixed
    ensures prefixed.Ok? ==>
      ParseExpression(lx, i, precedence) == InfixLoop(lx, prefixed.value.node, prefixed.value.next, precedence)
    ensures prefixed.Err? ==> ParseExpression(lx, i, precedence) == Err(prefixed.message)
  {
  }

  /** One turn of the infix loop, once the operator binds tighter: step onto it, or fail. */
  lemma InfixThen(lx: Lexed, left: Expr, k: nat, precedence: nat, rule: InfixRule, stepped: Result<nat>)
    requires At(lx, k) && precedence < Precedence(Tok(lx, k + 1).kind)
    requires InfixParser(Tok(lx, k + 1).kind) == Some(rule)
    requires NextToken(lx, k) == stepped
    ensures stepped.Err? ==> InfixLoop(lx, left, k, precedence) == Err(stepped.message)
  {
  }

  /** The rest of that turn: the handler's error, or the loop from the combined node. */
  lemma InfixApplied(lx: Lexed, left: Expr, k: nat, j: nat, precedence: nat, rule: InfixRule,
                     combined: Result<Parsed<Expr>>)
    requires At(lx, k) && precedence < Precedence(Tok(lx, k + 1).kind)
    requires InfixParser(Tok(lx, k + 1).kind) == Some(rule)
    requires NextToken(lx, k) == Ok(j) && ApplyInfix(lx, left, j, rule) == combined
    ensures combined.Err? ==> InfixLoop(lx, left, k, precedence) == Err(combined.message)
    ensures combined.Ok? ==>
      InfixLoop(lx, left, k, precedence) == InfixLoop(lx, combined.value.node, combined.value.next, precedence)
  {
  }

  /** `else` that the scanner cannot step past: the if statement throws what it throws. */
  lemma ElseFails(lx: Lexed, condition: Expr, thenArm: Stmt, k: nat, message: string)
    requires At(lx, k) && Tok(lx, k).kind == Else && NextToken(lx, k) == Err(message)
    ensures ElseArm(lx, condition, thenArm, k) == Err(message)
  {
  }

  /** `else` followed by a statement: the if statement with that else arm, or its error. */
  lemma ElseParsed(lx: Lexed, condition: Expr, thenArm: Stmt, k: nat, m: nat, elseArm: Result<Parsed<Stmt>>)
    requires At(lx, k) && Tok(lx, k).kind == Else && NextToken(lx, k) == Ok(m)
    requires ParseStatement(lx, m) == elseArm
    ensures elseArm.Err? ==> ElseArm(lx, condition, thenArm, k) == Err(elseArm.message)
    ensures elseArm.Ok? ==>
      ElseArm(lx, condition, thenArm, k) == Ok(Parsed(IfStatement(condition, thenArm, Some(elseArm.value.node)), elseArm.value.next))
  {
  }

  /** One step of the parameter loop: the name, then the loop past the step over it, or
      what that step throws. */
  lemma ParameterStep(lx: Lexed, p: nat, stepped: Result<nat>)
    requires At(lx, p) && Tok(lx, p).kind != RightParen && Tok(lx, p).kind != Eof
    requires StepOver(lx, p, Comma) == stepped
    ensures stepped.Err? ==> ParameterLoop(lx, p) == Err(stepped.message)
    ensures stepped.Ok? ==>
      ParameterLoop(lx, p) == Prefixed([Tok(lx, p).literal], ParameterLoop(lx, stepped.value))
  {
  }

  /** The parameter loop stops at `)` or EOF. */
  lemma ParameterEnds(lx: Lexed, p: nat, params: seq<string>)
    requires At(lx, p) && (Tok(lx, p).kind == RightParen || Tok(lx, p).kind == Eof)
    ensures Prefixed(params, ParameterLoop(lx, p)) == Ok(Parsed(params, p))
  {
    assert params + [] == params;
  }

  lemma PrefixedAllNil<T>(rest: Result<seq<T>>)
    ensures PrefixedAll([], rest) == rest
  {
    if rest.Ok? {
      assert [] + rest.value == rest.value;
    }
  }

  lemma PrefixedAllStep<T>(xs: seq<T>, x: T, rest: Result<seq<T>>)
    ensures PrefixedAll(xs + [x], rest) == PrefixedAll(xs, if rest.Ok? then Ok([x] + rest.value) else rest)
  {
    if rest.Ok? {
      assert (xs + [x]) + rest.value == xs + ([x] + rest.value);
    }
  }
}
