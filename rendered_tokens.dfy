/** The token sequences of rendered trees, and where in a stream each part of a rendering
    lies. */
module RenderedTokens {
  import opened Wrappers
  import opened Token
  import opened Scanning
  import opened Ast
  import opened Grammar

  // ---------------------------------------------------------------------------
  // The tokens of a rendering
  // ---------------------------------------------------------------------------

  /** The token type an operator's text is scanned as (`Eof` for text that is none). */
  function OperatorKind(op: string): TokenType {
    if op == "+" then Plus
    else if op == "-" then Minus
    else if op == "!" then Bang
    else if op == "*" then Star
    else if op == "/" then Slash
    else if op == "<" then Less
    else if op == "<=" then LessEqual
    else if op == ">" then Greater
    else if op == ">=" then GreaterEqual
    else if op == "==" then EqualEqual
    else if op == "!=" then BangEqual
    else if op == "=" then Equal
    else Eof
  }

  const OpenParen: Token := Token(LeftParen, "(")
  const CloseParen: Token := Token(RightParen, ")")
  const SemicolonToken: Token := Token(Semicolon, ";")

  /** The tokens of `RenderExpr(e)`. */
  function ExprTokens(e: Expr): seq<Token> {
    match e
    case Identifier(name) => [Token(TokenType.Identifier, name)]
    case NumberLiteral(literal) => [Token(Number, literal)]
    case StringLiteral(value) => [Token(String, value)]
    case BooleanLiteral(literal) => [Token(if literal == "false" then False else True, literal)]
    case NullLiteral(literal) => [Token(Null, literal)]
    case PrefixExpression(op, right) =>
      [OpenParen, Token(OperatorKind(op), op)] + ExprTokens(right) + [CloseParen]
    case InfixExpression(op, left, right) => Bracket(ExprTokens(left), Token(OperatorKind(op), op), ExprTokens(right))
    case AssignmentExpression(op, left, right) => Bracket(ExprTokens(left), Token(OperatorKind(op), op), ExprTokens(right))
  }

  /** The tokens of `(left o right)`. */
  function Bracket(left: seq<Token>, o: Token, right: seq<Token>): seq<Token> {
    [OpenParen] + left + [o] + right + [CloseParen]
  }

  /** Every operator in `e` is one the parser has a handler of the node's kind for. */
  predicate WellFormed(e: Expr) {
    match e
    case PrefixExpression(op, right) =>
      PrefixParser(OperatorKind(op)) == Some(PrefixOperatorRule) && WellFormed(right)
    case InfixExpression(op, left, right) =>
      InfixParser(OperatorKind(op)) == Some(InfixOperatorRule) && WellFormed(left) && WellFormed(right)
    case AssignmentExpression(op, left, right) =>
      InfixParser(OperatorKind(op)) == Some(AssignmentRule) && WellFormed(left) && WellFormed(right)
    case _ => true
  }

  /** The tokens of `RenderStmt(s)`. */
  function StmtTokens(s: Stmt): seq<Token> {
    match s
    case LetStatement(name, value) =>
      [Token(Let, "let"), Token(TokenType.Identifier, name)]
        + (if value.Some? then [Token(Equal, "=")] + ExprTokens(value.value) else [])
        + [SemicolonToken]
    case ReturnStatement(e) => [Token(Return, "return")] + ExprTokens(e) + [SemicolonToken]
    case ExpressionStatement(e) => ExprTokens(e) + [SemicolonToken]
    case BlockStatement(statements) => [Token(LeftBrace, "{")] + StmtsTokens(statements) + [Token(RightBrace, "}")]
    case IfStatement(condition, thenArm, elseArm) =>
      [Token(If, "if"), OpenParen] + ExprTokens(condition) + [CloseParen] + StmtTokens(thenArm)
        + (if elseArm.Some? then [Token(Else, "else")] + StmtTokens(elseArm.value) else [])
  }

  /** The tokens of `RenderStmts(ss)`. */
  function StmtsTokens(ss: seq<Stmt>): seq<Token> {
    if ss == [] then [] else StmtTokens(ss[0]) + StmtsTokens(ss[1..])
  }

  /** An `if` whose last arm is an `if` without `else`: an `else` after it would be read as
      that inner `if`'s. */
  predicate OpenIf(s: Stmt) {
    s.IfStatement? && (s.elseArm.None? || OpenIf(s.elseArm.value))
  }

  /** Well-formed expressions throughout, and no `else` that the rendering would hand to an
      inner `if`. */
  predicate WellFormedStmt(s: Stmt) {
    match s
    case LetStatement(_, value) => value.Some? ==> WellFormed(value.value)
    case ReturnStatement(e) => WellFormed(e)
    case ExpressionStatement(e) => WellFormed(e)
    case BlockStatement(statements) => WellFormedStmts(statements)
    case IfStatement(condition, thenArm, elseArm) =>
      && WellFormed(condition) && WellFormedStmt(thenArm)
      && (elseArm.Some? ==> !OpenIf(thenArm) && WellFormedStmt(elseArm.value))
  }

  predicate WellFormedStmts(ss: seq<Stmt>) {
    ss != [] ==> WellFormedStmt(ss[0]) && WellFormedStmts(ss[1..])
  }

  // ---------------------------------------------------------------------------
  // Streams that hold a rendering
  // ---------------------------------------------------------------------------

  /** The stream holds `ts` from index `i` on. */
  predicate Spells(lx: Lexed, i: nat, ts: seq<Token>) {
    forall k | 0 <= k < |ts| :: TokenAt(lx, i + k) == Ok(ts[k])
  }

  /** A stream that spells two runs of tokens one after the other spells each of them. */
  lemma SpellsConcat(lx: Lexed, i: nat, a: seq<Token>, b: seq<Token>)
    requires Spells(lx, i, a + b)
    ensures Spells(lx, i, a) && Spells(lx, i + |a|, b)
  {
    forall k | 0 <= k < |a| ensures TokenAt(lx, i + k) == Ok(a[k]) {
      assert (a + b)[k] == a[k];
    }
    forall k | 0 <= k < |b| ensures TokenAt(lx, i + |a| + k) == Ok(b[k]) {
      assert (a + b)[|a| + k] == b[k];
    }
  }

  /** A run of tokens between an opening and a closing token. */
  lemma Enclosed(lx: Lexed, i: nat, first: Token, middle: seq<Token>, last: Token)
    requires Spells(lx, i, [first] + middle + [last])
    ensures TokenAt(lx, i) == Ok(first) && Spells(lx, i + 1, middle) && TokenAt(lx, i + 1 + |middle|) == Ok(last)
  {
    SpellsConcat(lx, i, [first] + middle, [last]);
    SpellsConcat(lx, i, [first], middle);
    assert TokenAt(lx, i + 0) == Ok([first][0]);
    assert TokenAt(lx, i + 1 + |middle| + 0) == Ok([last][0]);
  }

  /** A stream that spells `(`, `l`, `o`, `r` and `)` spells each part where it stands. */
  lemma BracketSpelled(lx: Lexed, i: nat, l: seq<Token>, o: Token, r: seq<Token>)
    requires Spells(lx, i, Bracket(l, o, r))
    ensures TokenAt(lx, i) == Ok(OpenParen) && Spells(lx, i + 1, l) && TokenAt(lx, i + 1 + |l|) == Ok(o)
    ensures Spells(lx, i + 2 + |l|, r) && TokenAt(lx, i + 2 + |l| + |r|) == Ok(CloseParen)
    ensures |Bracket(l, o, r)| == |l| + |r| + 3
  {
    assert Bracket(l, o, r) == [OpenParen] + (l + [o] + r) + [CloseParen];
    Enclosed(lx, i, OpenParen, l + [o] + r, CloseParen);
    SpellsConcat(lx, i + 1, l + [o], r);
    SpellsConcat(lx, i + 1, l, [o]);
    assert TokenAt(lx, i + 1 + |l| + 0) == Ok([o][0]);
  }

  /** How many tokens `e`'s rendering has. */
  function Width(e: Expr): (n: nat)
    ensures n >= 1
  {
    match e
    case PrefixExpression(_, right) => Width(right) + 3
    case InfixExpression(_, left, right) => Width(left) + Width(right) + 3
    case AssignmentExpression(_, left, right) => Width(left) + Width(right) + 3
    case _ => 1
  }

  function StmtWidth(s: Stmt): (n: nat)
    ensures n >= 2
  {
    match s
    case LetStatement(_, value) => if value.Some? then Width(value.value) + 4 else 3
    case ReturnStatement(e) => Width(e) + 2
    case ExpressionStatement(e) => Width(e) + 1
    case BlockStatement(statements) => StmtsWidth(statements) + 2
    case IfStatement(condition, thenArm, elseArm) =>
      Width(condition) + 3 + StmtWidth(thenArm) + (if elseArm.Some? then 1 + StmtWidth(elseArm.value) else 0)
  }

  function StmtsWidth(ss: seq<Stmt>): nat {
    if ss == [] then 0 else StmtWidth(ss[0]) + StmtsWidth(ss[1..])
  }

  /** The first token of `e`'s rendering. */
  function FirstToken(e: Expr): (t: Token)
    ensures t == ExprTokens(e)[0]
  {
    match e
    case Identifier(name) => Token(TokenType.Identifier, name)
    case NumberLiteral(literal) => Token(Number, literal)
    case StringLiteral(value) => Token(String, value)
    case BooleanLiteral(literal) => Token(if literal == "false" then False else True, literal)
    case NullLiteral(literal) => Token(Null, literal)
    case _ => OpenParen
  }

  /** The stream holds the rendering of `e` from index `i` on, read token by token at the
      positions the widths of its parts give. */
  predicate Reads(lx: Lexed, i: nat, e: Expr)
    decreases Width(e), 2
  {
    ReadsShape(lx, i, e)
  }

  /** `Reads` by the shape of `e`: one node's tokens, its children read through `Reads`. */
  predicate ReadsShape(lx: Lexed, i: nat, e: Expr)
    decreases Width(e), 1
  {
    match e
    case PrefixExpression(op, right) => ReadsPrefix(lx, i, Token(OperatorKind(op), op), right)
    case InfixExpression(op, left, right) => ReadsBinary(lx, i, Token(OperatorKind(op), op), left, right)
    case AssignmentExpression(op, left, right) => ReadsBinary(lx, i, Token(OperatorKind(op), op), left, right)
    case _ => TokenAt(lx, i) == Ok(FirstToken(e))
  }

  /** `(o right)` from `i` on. */
  predicate ReadsPrefix(lx: Lexed, i: nat, o: Token, right: Expr)
    decreases Width(right) + 3, 0
  {
    && TokenAt(lx, i) == Ok(OpenParen) && TokenAt(lx, i + 1) == Ok(o)
    && Reads(lx, i + 2, right) && TokenAt(lx, i + 2 + Width(right)) == Ok(CloseParen)
  }

  /** `(left o right)` from `i` on. */
  predicate ReadsBinary(lx: Lexed, i: nat, o: Token, left: Expr, right: Expr)
    decreases Width(left) + Width(right) + 3, 0
  {
    && TokenAt(lx, i) == Ok(OpenParen) && Reads(lx, i + 1, left)
    && TokenAt(lx, i + 1 + Width(left)) == Ok(o)
    && Reads(lx, i + 2 + Width(left), right) && TokenAt(lx, i + 2 + Width(left) + Width(right)) == Ok(CloseParen)
  }

  /** The stream holds the rendering of `s` from index `i` on. */
  predicate ReadsStmt(lx: Lexed, i: nat, s: Stmt)
    decreases s, 1
  {
    ReadsStmtShape(lx, i, s)
  }

  /** `ReadsStmt` by the shape of `s`. */
  predicate ReadsStmtShape(lx: Lexed, i: nat, s: Stmt)
    decreases s, 0
  {
    match s
    case LetStatement(name, value) =>
      && TokenAt(lx, i) == Ok(Token(Let, "let")) && TokenAt(lx, i + 1) == Ok(Token(TokenType.Identifier, name))
      && if value.Some? then
           && TokenAt(lx, i + 2) == Ok(Token(Equal, "=")) && Reads(lx, i + 3, value.value)
           && TokenAt(lx, i + 3 + Width(value.value)) == Ok(SemicolonToken)
         else TokenAt(lx, i + 2) == Ok(SemicolonToken)
    case ReturnStatement(e) =>
      TokenAt(lx, i) == Ok(Token(Return, "return")) && Reads(lx, i + 1, e) && TokenAt(lx, i + 1 + Width(e)) == Ok(SemicolonToken)
    case ExpressionStatement(e) => Reads(lx, i, e) && TokenAt(lx, i + Width(e)) == Ok(SemicolonToken)
    case BlockStatement(statements) =>
      && TokenAt(lx, i) == Ok(Token(LeftBrace, "{")) && ReadsStmts(lx, i + 1, statements)
      && TokenAt(lx, i + 1 + StmtsWidth(statements)) == Ok(Token(RightBrace, "}"))
    case IfStatement(condition, thenArm, elseArm) =>
      && TokenAt(lx, i) == Ok(Token(If, "if")) && TokenAt(lx, i + 1) == Ok(OpenParen)
      && Reads(lx, i + 2, condition) && TokenAt(lx, i + 2 + Width(condition)) == Ok(CloseParen)
      && ReadsStmt(lx, i + 3 + Width(condition), thenArm)
      && (elseArm.Some? ==>
           && TokenAt(lx, i + 3 + Width(condition) + StmtWidth(thenArm)) == Ok(Token(Else, "else"))
           && ReadsStmt(lx, i + 4 + Width(condition) + StmtWidth(thenArm), elseArm.value))
  }

  /** The stream holds the renderings of `ss`, one after the other, from index `i` on. */
  predicate ReadsStmts(lx: Lexed, i: nat, ss: seq<Stmt>)
    decreases ss, 2
  {
    ss != [] ==> ReadsStmt(lx, i, ss[0]) && ReadsStmts(lx, i + StmtWidth(ss[0]), ss[1..])
  }
}
