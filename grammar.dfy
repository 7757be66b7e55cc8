/** The parser of src/parser/parser.js as functions over the token stream.

    A parser state is an index `i` into the stream `lx` the parser's scanner produces on
    demand: `tok` is token `i` and `peek` is token `i + 1`, both already scanned. `nextToken`
    moves to `i + 1` and scans token `i + 2`, so it fails when that scan fails. Each
    `parse...` method of the parser is a function here from a state to the node it builds
    and the state it leaves behind, or to the message of the exception it throws. */
module Grammar {
  import opened Wrappers
  import opened Token
  import opened Scanning
  import opened Ast

  // ---------------------------------------------------------------------------
  // Precedences and the handler tables
  // ---------------------------------------------------------------------------

  const Lowest: nat := 0
  const AssignmentPrecedence: nat := 1
  const Conditional: nat := 2
  const Sum: nat := 3
  const ProductPrecedence: nat := 4
  const PrefixPrecedence: nat := 5

  /** `precedences[type]`, with `LOWEST` for the types the table does not list. */
  function Precedence(kind: TokenType): nat {
    match kind
    case Minus => Sum
    case Plus => Sum
    case Slash => ProductPrecedence
    case Star => ProductPrecedence
    case Less => Conditional
    case LessEqual => Conditional
    case Greater => Conditional
    case GreaterEqual => Conditional
    case EqualEqual => Conditional
    case BangEqual => Conditional
    case Equal => AssignmentPrecedence
    case _ => Lowest
  }

  /** The handlers the constructor registers in `prefixParsers`. */
  datatype PrefixRule =
    | IdentifierRule | NumberRule | StringRule | BooleanRule | NullRule | GroupRule | PrefixOperatorRule

  function PrefixParser(kind: TokenType): Option<PrefixRule> {
    match kind
    case Identifier => Some(IdentifierRule)
    case Number => Some(NumberRule)
    case String => Some(StringRule)
    case True => Some(BooleanRule)
    case False => Some(BooleanRule)
    case Null => Some(NullRule)
    case LeftParen => Some(GroupRule)
    case Minus => Some(PrefixOperatorRule)
    case Plus => Some(PrefixOperatorRule)
    case Bang => Some(PrefixOperatorRule)
    case _ => None
  }

  /** The handlers the constructor registers in `infixParsers`; `-` has none. */
  datatype InfixRule = InfixOperatorRule | AssignmentRule

  function InfixParser(kind: TokenType): Option<InfixRule> {
    match kind
    case Equal => Some(AssignmentRule)
    case Plus => Some(InfixOperatorRule)
    case Star => Some(InfixOperatorRule)
    case Slash => Some(InfixOperatorRule)
    case Less => Some(InfixOperatorRule)
    case LessEqual => Some(InfixOperatorRule)
    case Greater => Some(InfixOperatorRule)
    case GreaterEqual => Some(InfixOperatorRule)
    case EqualEqual => Some(InfixOperatorRule)
    case BangEqual => Some(InfixOperatorRule)
    case _ => None
  }

  // ---------------------------------------------------------------------------
  // Parser states
  // ---------------------------------------------------------------------------

  /** A node together with the index of the parser's `tok` after building it. */
  datatype Parsed<+T> = Parsed(node: T, next: nat)

  /** `i` is a reachable state: `tok` and `peek` have both been scanned. */
  predicate At(lx: Lexed, i: nat) {
    TokenAt(lx, i).Ok? && TokenAt(lx, i + 1).Ok?
  }

  function Tok(lx: Lexed, i: nat): Token
    requires TokenAt(lx, i).Ok?
  {
    TokenAt(lx, i).value
  }

  /** How many stream tokens lie at or after `i`; past the stream every token is EOF or
      the stream's failure, so no handler makes progress there. */
  function Remaining(lx: Lexed, i: nat): nat {
    if i < |lx.tokens| then |lx.tokens| - i else 0
  }

  /** `nextToken()`: `tok` becomes `peek` and `peek` the next scanned token. */
  function NextToken(lx: Lexed, i: nat): (r: Result<nat>)
    requires At(lx, i)
    ensures r.Ok? <==> TokenAt(lx, i + 2).Ok?
    ensures r.Ok? ==> r.value == i + 1 && At(lx, r.value)
    ensures r.Err? ==> r.message == TokenAt(lx, i + 2).message
  {
    if TokenAt(lx, i + 2).Err? then Err(TokenAt(lx, i + 2).message) else Ok(i + 1)
  }

  /** The node of a parse result, without the state it leaves behind. */
  function Node<T>(r: Result<Parsed<T>>): Result<T> {
    if r.Ok? then Ok(r.value.node) else Err(r.message)
  }

  /** The error `parseExpression` throws at a token with no prefix handler. */
  function UnexpectedToken(t: Token): string {
    "Syntax error: unexpected token " + t.literal
  }

  // ---------------------------------------------------------------------------
  // Expressions
  // ---------------------------------------------------------------------------

  /** `parseExpression(precedence)`. */
  function ParseExpression(lx: Lexed, i: nat, precedence: nat): (r: Result<Parsed<Expr>>)
    requires At(lx, i)
    ensures r.Ok? ==> i <= r.value.next && At(lx, r.value.next) && i < |lx.tokens|
    ensures PrefixParser(Tok(lx, i).kind).None? ==> r == Err(UnexpectedToken(Tok(lx, i)))
    decreases Remaining(lx, i), 3
  {
    var rule := PrefixParser(Tok(lx, i).kind);
    if rule.None? then Err(UnexpectedToken(Tok(lx, i)))
    else
      var left :- ApplyPrefix(lx, i, rule.value);
      InfixLoop(lx, left.node, left.next, precedence)
  }

  /** The prefix handler for `tok`. */
  function ApplyPrefix(lx: Lexed, i: nat, rule: PrefixRule): (r: Result<Parsed<Expr>>)
    requires At(lx, i) && PrefixParser(Tok(lx, i).kind) == Some(rule)
    ensures r.Ok? ==> i <= r.value.next && At(lx, r.value.next)
    decreases Remaining(lx, i), 2
  {
    var t := Tok(lx, i);
    match rule
    case IdentifierRule => Ok(Parsed(Expr.Identifier(t.literal), i))
    case NumberRule => Ok(Parsed(NumberLiteral(t.literal), i))
    case StringRule => Ok(Parsed(StringLiteral(t.literal), i))
    case BooleanRule => Ok(Parsed(BooleanLiteral(t.literal), i))
    case NullRule => Ok(Parsed(NullLiteral(t.literal), i))
    case GroupRule => ParseGroupExpression(lx, i)
    case PrefixOperatorRule => ParsePrefixExpression(lx, i)
  }

  /** `parseGroupExpression`: the inner expression, consuming a `)` only when one follows. */
  function ParseGroupExpression(lx: Lexed, i: nat): (r: Result<Parsed<Expr>>)
    requires At(lx, i) && Tok(lx, i).kind == LeftParen
    ensures r.Ok? ==> i < r.value.next && At(lx, r.value.next)
    decreases Remaining(lx, i), 1
  {
    var j :- NextToken(lx, i);
    var inner :- ParseExpression(lx, j, Lowest);
    CloseGroup(lx, inner.node, inner.next)
  }

  /** The end of `parseGroupExpression` once the inner expression ends at `tok == b`: a
      `)` in `peek` is consumed, anything else is left for the caller. */
  function CloseGroup(lx: Lexed, inner: Expr, b: nat): (r: Result<Parsed<Expr>>)
    requires At(lx, b)
    ensures r.Ok? ==> b <= r.value.next && At(lx, r.value.next)
  {
    if Tok(lx, b + 1).kind == RightParen then
      var k :- NextToken(lx, b);
      Ok(Parsed(inner, k))
    else Ok(Parsed(inner, b))
  }

  /** `parsePrefixExpression`: the operator, then an operand parsed at PREFIX precedence. */
  function ParsePrefixExpression(lx: Lexed, i: nat): (r: Result<Parsed<Expr>>)
    requires At(lx, i) && PrefixParser(Tok(lx, i).kind) == Some(PrefixOperatorRule)
    ensures r.Ok? ==> i < r.value.next && At(lx, r.value.next)
    decreases Remaining(lx, i), 1
  {
    var j :- NextToken(lx, i);
    var right :- ParseExpression(lx, j, PrefixPrecedence);
    Ok(Parsed(PrefixExpression(Tok(lx, i).literal, right.node), right.next))
  }

  /** The `while` loop of `parseExpression` with `left` ending at `tok == k`. */
  function InfixLoop(lx: Lexed, left: Expr, k: nat, precedence: nat): (r: Result<Parsed<Expr>>)
    requires At(lx, k)
    ensures r.Ok? ==> k <= r.value.next && At(lx, r.value.next)
    ensures precedence >= Precedence(Tok(lx, k + 1).kind) ==> r == Ok(Parsed(left, k))
    ensures InfixParser(Tok(lx, k + 1).kind).None? ==> r == Ok(Parsed(left, k))
    decreases Remaining(lx, k), 2
  {
    var peek := Tok(lx, k + 1);
    if precedence < Precedence(peek.kind) then
      var rule := InfixParser(peek.kind);
      if rule.None? then Ok(Parsed(left, k))
      else
        var j :- NextToken(lx, k);
        var combined :- ApplyInfix(lx, left, j, rule.value);
        InfixLoop(lx, combined.node, combined.next, precedence)
    else Ok(Parsed(left, k))
  }

  /** The infix handler for `tok`, applied to the operand already parsed. */
  function ApplyInfix(lx: Lexed, left: Expr, j: nat, rule: InfixRule): (r: Result<Parsed<Expr>>)
    requires At(lx, j) && InfixParser(Tok(lx, j).kind) == Some(rule)
    ensures r.Ok? ==> j < r.value.next && At(lx, r.value.next)
    decreases Remaining(lx, j), 2
  {
    match rule
    case InfixOperatorRule => ParseInfixExpression(lx, left, j)
    case AssignmentRule => ParseAssignmentExpression(lx, left, j)
  }

  /** `parseInfixExpression`: the right operand is parsed at the operator's precedence. */
  function ParseInfixExpression(lx: Lexed, left: Expr, j: nat): (r: Result<Parsed<Expr>>)
    requires At(lx, j) && Tok(lx, j).kind != Eof
    ensures r.Ok? ==> j < r.value.next && At(lx, r.value.next)
    decreases Remaining(lx, j), 1
  {
    var op := Tok(lx, j);
    var k :- NextToken(lx, j);
    var right :- ParseExpression(lx, k, Precedence(op.kind));
    Ok(Parsed(InfixExpression(op.literal, left, right.node), right.next))
  }

  /** `parseAssignmentExpression`: the right side is parsed at LOWEST precedence. */
  function ParseAssignmentExpression(lx: Lexed, left: Expr, j: nat): (r: Result<Parsed<Expr>>)
    requires At(lx, j) && Tok(lx, j).kind != Eof
    ensures r.Ok? ==> j < r.value.next && At(lx, r.value.next)
    decreases Remaining(lx, j), 1
  {
    var op := Tok(lx, j);
    var k :- NextToken(lx, j);
    var right :- ParseExpression(lx, k, Lowest);
    Ok(Parsed(AssignmentExpression(op.literal, left, right.node), right.next))
  }

  // ---------------------------------------------------------------------------
  // Statements
  // ---------------------------------------------------------------------------

  /** `parseStatement`: dispatch on `tok`. */
  function ParseStatement(lx: Lexed, i: nat): (r: Result<Parsed<Stmt>>)
    requires At(lx, i)
    ensures r.Ok? ==> i < r.value.next && At(lx, r.value.next) && i < |lx.tokens|
    decreases Remaining(lx, i), 3
  {
    match Tok(lx, i).kind
    case If => ParseIfStatement(lx, i)
    case Let => ParseLetStatement(lx, i)
    case Return => ParseReturnStatement(lx, i)
    case LeftBrace => ParseBlockStatement(lx, i)
    case _ => ParseExpressionStatement(lx, i)
  }

  /** A `nextToken`, then one more when `tok` has become `optional`: how `let`, `return` and
      expression statements step over their last token and a `;`, and how a parameter list
      steps over a name and a `,`. */
  function StepOver(lx: Lexed, k: nat, optional: TokenType): (r: Result<nat>)
    requires At(lx, k)
    ensures r.Ok? ==> k < r.value && At(lx, r.value)
  {
    var m :- NextToken(lx, k);
    if Tok(lx, m).kind == optional then NextToken(lx, m) else Ok(m)
  }

  /** `parseIfStatement`: `if`, the condition, an optional `)`, the then arm, and an else arm
      when `else` follows. */
  function ParseIfStatement(lx: Lexed, i: nat): (r: Result<Parsed<Stmt>>)
    requires At(lx, i)
    ensures r.Ok? ==> i < r.value.next && At(lx, r.value.next)
    decreases Remaining(lx, i), 2
  {
    var j :- NextToken(lx, i);
    var condition :- ParseExpression(lx, j, Lowest);
    IfThen(lx, condition.node, condition.next)
  }

  /** The rest of `parseIfStatement` once the condition ends at `tok == c`: a `)` is
      stepped over when `tok` is one, then the then arm and what may follow it. */
  function IfThen(lx: Lexed, condition: Expr, c: nat): (r: Result<Parsed<Stmt>>)
    requires At(lx, c)
    ensures r.Ok? ==> c < r.value.next && At(lx, r.value.next)
    decreases Remaining(lx, c), 4
  {
    var k :- if Tok(lx, c).kind == RightParen then NextToken(lx, c) else Ok(c);
    var thenArm :- ParseStatement(lx, k);
    ElseArm(lx, condition, thenArm.node, thenArm.next)
  }

  /** The end of `parseIfStatement` once the then arm ends at `tok == k`. */
  function ElseArm(lx: Lexed, condition: Expr, thenArm: Stmt, k: nat): (r: Result<Parsed<Stmt>>)
    requires At(lx, k)
    ensures r.Ok? ==> k <= r.value.next && At(lx, r.value.next)
    decreases Remaining(lx, k), 1
  {
    if Tok(lx, k).kind == Else then
      var m :- NextToken(lx, k);
      var elseArm :- ParseStatement(lx, m);
      Ok(Parsed(IfStatement(condition, thenArm, Some(elseArm.node)), elseArm.next))
    else
      Ok(Parsed(IfStatement(condition, thenArm, None), k))
  }

  /** `parseBlockStatement`: `{`, statements up to `}`, and the `}`. (Entered at EOF, as
      `parseFunction` may, it makes no progress before its first statement fails.) */
  function ParseBlockStatement(lx: Lexed, i: nat): (r: Result<Parsed<Stmt>>)
    requires At(lx, i)
    ensures r.Ok? ==> i < r.value.next && At(lx, r.value.next)
    decreases Remaining(lx, i), if Tok(lx, i).kind == Eof then 5 else 2
  {
    var j :- NextToken(lx, i);
    var body :- BlockLoop(lx, j);
    var k :- NextToken(lx, body.next);
    Ok(Parsed(BlockStatement(body.node), k))
  }

  /** The statements of a block, from `tok == p` up to the closing `}`. */
  function BlockLoop(lx: Lexed, p: nat): (r: Result<Parsed<seq<Stmt>>>)
    requires At(lx, p)
    ensures r.Ok? ==> p <= r.value.next && At(lx, r.value.next) && Tok(lx, r.value.next).kind == RightBrace
    decreases Remaining(lx, p), 4
  {
    if Tok(lx, p).kind == RightBrace then Ok(Parsed([], p))
    else
      var first :- ParseStatement(lx, p);
      var rest :- BlockLoop(lx, first.next);
      Ok(Parsed([first.node] + rest.node, rest.next))
  }

  /** `parseLetStatement`: `let`, the name, and `= value` when `peek` is `=`. */
  function ParseLetStatement(lx: Lexed, i: nat): (r: Result<Parsed<Stmt>>)
    requires At(lx, i)
    ensures r.Ok? ==> i < r.value.next && At(lx, r.value.next)
  {
    var j :- NextToken(lx, i);
    var name := Tok(lx, j).literal;
    var value :- if Tok(lx, j + 1).kind == Equal then ParseLetValue(lx, j) else Ok(Parsed(None, j));
    var end :- StepOver(lx, value.next, Semicolon);
    Ok(Parsed(LetStatement(name, value.node), end))
  }

  /** The `= value` of a `let`, entered with `tok` on the name and `peek` on `=`. */
  function ParseLetValue(lx: Lexed, j: nat): (r: Result<Parsed<Option<Expr>>>)
    requires At(lx, j)
    ensures r.Ok? ==> j < r.value.next && At(lx, r.value.next) && r.value.node.Some?
  {
    var k :- NextToken(lx, j);
    var m :- NextToken(lx, k);
    var e :- ParseExpression(lx, m, Lowest);
    Ok(Parsed(Some(e.node), e.next))
  }

  /** `parseReturnStatement`. */
  function ParseReturnStatement(lx: Lexed, i: nat): (r: Result<Parsed<Stmt>>)
    requires At(lx, i)
    ensures r.Ok? ==> i < r.value.next && At(lx, r.value.next)
  {
    var j :- NextToken(lx, i);
    var e :- ParseExpression(lx, j, Lowest);
    var end :- StepOver(lx, e.next, Semicolon);
    Ok(Parsed(ReturnStatement(e.node), end))
  }

  /** `parseExpressionStatement`. */
  function ParseExpressionStatement(lx: Lexed, i: nat): (r: Result<Parsed<Stmt>>)
    requires At(lx, i)
    ensures r.Ok? ==> i < r.value.next && At(lx, r.value.next) && i < |lx.tokens|
  {
    var e :- ParseExpression(lx, i, Lowest);
    var end :- StepOver(lx, e.next, Semicolon);
    Ok(Parsed(ExpressionStatement(e.node), end))
  }

  /** `parseProgram`: statements until `tok` is EOF. */
  function ParseProgram(lx: Lexed, i: nat): (r: Result<Program>)
    requires At(lx, i)
    ensures r.Ok? ==> |r.value.statements| <= Remaining(lx, i)
    ensures lx.failure.None? && Tok(lx, i).kind == Eof ==> r == Ok(Program([]))
  {
    var statements :- ProgramLoop(lx, i);
    Ok(Program(statements))
  }

  function ProgramLoop(lx: Lexed, p: nat): (r: Result<seq<Stmt>>)
    requires At(lx, p)
    ensures r.Ok? ==> |r.value| <= Remaining(lx, p)
    decreases Remaining(lx, p)
  {
    if Tok(lx, p).kind == Eof then Ok([])
    else
      var first :- ParseStatement(lx, p);
      var rest :- ProgramLoop(lx, first.next);
      Ok([first.node] + rest)
  }

  // ---------------------------------------------------------------------------
  // Functions
  // ---------------------------------------------------------------------------

  /** `parseParameterList`: step over `(`, then collect a name per step until `)`, skipping
      a `,` after a name. */
  function ParseParameterList(lx: Lexed, i: nat): (r: Result<Parsed<seq<string>>>)
    requires At(lx, i)
    ensures r.Ok? ==> i < r.value.next && At(lx, r.value.next)
  {
    var j :- NextToken(lx, i);
    var params :- ParameterLoop(lx, j);
    var k :- NextToken(lx, params.next);
    Ok(Parsed(params.node, k))
  }

  /** The loop of `parseParameterList`. As written it stops only at `)`, and on a stream with
      no `)` left it steps over EOF forever (`ParameterListAsWritten`); this loop stops at EOF
      too, as the parser does for a missing `)` after a group or an `if` condition. */
  function ParameterLoop(lx: Lexed, p: nat): (r: Result<Parsed<seq<string>>>)
    requires At(lx, p)
    ensures r.Ok? ==> p <= r.value.next && At(lx, r.value.next)
    ensures r.Ok? ==> Tok(lx, r.value.next).kind in {RightParen, Eof}
    ensures r.Ok? ==> |r.value.node| <= r.value.next - p
    decreases Remaining(lx, p)
  {
    if Tok(lx, p).kind == RightParen || Tok(lx, p).kind == Eof then Ok(Parsed([], p))
    else
      var name := Tok(lx, p).literal;
      var s :- StepOver(lx, p, Comma);
      var rest :- ParameterLoop(lx, s);
      Ok(Parsed([name] + rest.node, rest.next))
  }

  /** `parseFunction`: `fn`, the parameter list, then the block. */
  function ParseFunction(lx: Lexed, i: nat): (r: Result<Parsed<FunctionNode>>)
    requires At(lx, i)
    ensures r.Ok? ==> i < r.value.next && At(lx, r.value.next)
  {
    var j :- NextToken(lx, i);
    var params :- ParseParameterList(lx, j);
    var body :- ParseBlockStatement(lx, params.next);
    Ok(Parsed(FunctionNode(params.node, body.node), body.next))
  }
}
