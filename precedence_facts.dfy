/** How the precedences and handlers of src/parser/parser.js group operators: associativity,
    binding strength, right-associative assignment, nested prefix operators, parentheses,
    and the `-` that has a precedence but no infix handler.

    The general lemmas speak of short streams of names and literals joined by operators;
    the example lemmas apply them to token streams and compare the rendering of the tree
    with the text the parser's tests expect. */
module PrecedenceFacts {
  import opened Wrappers
  import opened Token
  import opened Scanning
  import opened Ast
  import opened Grammar
  import opened RenderedTokens
  import opened GrammarFacts

  /** A token whose prefix handler builds a leaf: a name or a literal. */
  predicate IsAtom(t: Token) {
    t.kind in {TokenType.Identifier, Number, String, True, False, Null}
  }

  /** The leaf a name or literal token stands for. */
  function Leaf(t: Token): Expr
    requires IsAtom(t)
  {
    match t.kind
    case Identifier => Expr.Identifier(t.literal)
    case Number => NumberLiteral(t.literal)
    case String => StringLiteral(t.literal)
    case Null => NullLiteral(t.literal)
    case _ => BooleanLiteral(t.literal)
  }

  /** The stream the scanner would produce for `ts` followed by the end of input. */
  function Stream(ts: seq<Token>): Lexed {
    Lexed(ts, None)
  }

  /** A name or literal at `i` starts the operator loop with its leaf, ending at `i`. */
  lemma AtomStart(lx: Lexed, i: nat, t: Token, precedence: nat)
    requires lx.failure.None? && TokenAt(lx, i) == Ok(t) && IsAtom(t)
    ensures ParseExpression(lx, i, precedence) == InfixLoop(lx, Leaf(t), i, precedence)
  {
  }

  /** A name or literal at `i` followed by a token binding no tighter than `precedence` is
      the whole operand. */
  lemma AtomAlone(lx: Lexed, i: nat, t: Token, c: nat, precedence: nat)
    requires lx.failure.None? && TokenAt(lx, i) == Ok(t) && IsAtom(t)
    requires c == i + 1 && Precedence(Tok(lx, c).kind) <= precedence
    ensures ParseExpression(lx, i, precedence) == Ok(Parsed(Leaf(t), i))
  {
    AtomStart(lx, i, t, precedence);
    LoopEnds(lx, Leaf(t), i, c, precedence);
  }

  /** No token binds as tightly as a prefix operator's operand. */
  lemma BelowPrefix(kind: TokenType)
    ensures Precedence(kind) < PrefixPrecedence
  {
  }

  // ---------------------------------------------------------------------------
  // Three operands, two operators
  // ---------------------------------------------------------------------------

  /** `a o1 b o2 c` groups to the left, `((a o1 b) o2 c)`, when `o1` is an ordinary infix
      operator that binds at least as tightly as `o2`: equal precedences associate left and
      a tighter first operator takes its operands first. */
  lemma {:induction false} GroupsLeft(a: Token, o1: Token, b: Token, o2: Token, c: Token)
    requires IsAtom(a) && IsAtom(b) && IsAtom(c)
    requires InfixParser(o1.kind) == Some(InfixOperatorRule) && InfixParser(o2.kind).Some?
    requires Precedence(o2.kind) <= Precedence(o1.kind)
    ensures ParseExpression(Stream([a, o1, b, o2, c]), 0, Lowest)
         == Ok(Parsed(Combine(o2, Combine(o1, Leaf(a), Leaf(b)), Leaf(c)), 4))
  {
    var lx := Stream([a, o1, b, o2, c]);
    var ab := Combine(o1, Leaf(a), Leaf(b));
    AtomStart(lx, 0, a, Lowest);
    AtomAlone(lx, 2, b, 3, RightPrecedence(o1.kind));
    LoopStep(lx, Leaf(a), 0, 1, 2, Lowest, Leaf(b), 2);
    AtomAlone(lx, 4, c, 5, RightPrecedence(o2.kind));
    InfixBinds(o2.kind);
    LoopStep(lx, ab, 2, 3, 4, Lowest, Leaf(c), 4);
    LoopEnds(lx, Combine(o2, ab, Leaf(c)), 4, 5, Lowest);
  }

  /** `a o1 b o2 c` groups to the right, `(a o1 (b o2 c))`, when `o2` binds more tightly
      than `o1`, or when `o1` is `=`, whose right side is parsed at LOWEST. */
  lemma {:induction false} GroupsRight(a: Token, o1: Token, b: Token, o2: Token, c: Token)
    requires IsAtom(a) && IsAtom(b) && IsAtom(c)
    requires InfixParser(o1.kind).Some? && InfixParser(o2.kind).Some?
    requires InfixParser(o1.kind) == Some(AssignmentRule) || Precedence(o1.kind) < Precedence(o2.kind)
    ensures ParseExpression(Stream([a, o1, b, o2, c]), 0, Lowest)
         == Ok(Parsed(Combine(o1, Leaf(a), Combine(o2, Leaf(b), Leaf(c))), 4))
  {
    var lx := Stream([a, o1, b, o2, c]);
    var bc := Combine(o2, Leaf(b), Leaf(c));
    InfixBinds(o1.kind);
    InfixBinds(o2.kind);
    AtomStart(lx, 2, b, RightPrecedence(o1.kind));
    AtomAlone(lx, 4, c, 5, RightPrecedence(o2.kind));
    LoopStep(lx, Leaf(b), 2, 3, 4, RightPrecedence(o1.kind), Leaf(c), 4);
    LoopEnds(lx, bc, 4, 5, RightPrecedence(o1.kind));
    AtomStart(lx, 0, a, Lowest);
    LoopStep(lx, Leaf(a), 0, 1, 2, Lowest, bc, 4);
    LoopEnds(lx, Combine(o1, Leaf(a), bc), 4, 5, Lowest);
  }

  /** `a o b - c` stops before the `-`: `-` has SUM precedence but no infix handler, so the
      loop returns `(a o b)` with `tok` still on `b`. */
  lemma {:induction false} MinusEndsExpression(a: Token, o: Token, b: Token, minus: Token, c: Token)
    requires IsAtom(a) && IsAtom(b) && InfixParser(o.kind).Some? && minus.kind == Minus
    ensures ParseExpression(Stream([a, o, b, minus, c]), 0, Lowest) == Ok(Parsed(Combine(o, Leaf(a), Leaf(b)), 2))
  {
    var lx := Stream([a, o, b, minus, c]);
    InfixBinds(o.kind);
    AtomStart(lx, 0, a, Lowest);
    AtomStart(lx, 2, b, RightPrecedence(o.kind));
    LoopStep(lx, Leaf(a), 0, 1, 2, Lowest, Leaf(b), 2);
  }

  // ---------------------------------------------------------------------------
  // Prefix operators and parentheses
  // ---------------------------------------------------------------------------

  /** `ops` applied as prefix operators to `e`, the first outermost. */
  function Nest(ops: seq<Token>, e: Expr): (r: Expr)
    ensures |ops| > 0 ==> r.PrefixExpression? && r.op == ops[0].literal
  {
    if ops == [] then e else PrefixExpression(ops[0].literal, Nest(ops[1..], e))
  }

  /** Every token of `ops` has the prefix operator handler. */
  predicate PrefixOperators(ops: seq<Token>) {
    forall k | 0 <= k < |ops| :: PrefixParser(ops[k].kind) == Some(PrefixOperatorRule)
  }

  /** A run of prefix operators before a name or literal nests, each operator applying to
      everything after it, and the operator loop then goes on after the leaf. */
  lemma {:induction false} PrefixesNest(lx: Lexed, i: nat, ops: seq<Token>, t: Token, n: nat, precedence: nat)
    requires lx.failure.None? && Spells(lx, i, ops) && PrefixOperators(ops)
    requires n == i + |ops| && TokenAt(lx, n) == Ok(t) && IsAtom(t)
    ensures ParseExpression(lx, i, precedence) == InfixLoop(lx, Nest(ops, Leaf(t)), n, precedence)
    decreases |ops|
  {
    if ops == [] {
      AtomStart(lx, i, t, precedence);
    } else {
      var rest := ops[1..];
      assert Spells(lx, i + 1, rest) by {
        forall k | 0 <= k < |rest| ensures TokenAt(lx, i + 1 + k) == Ok(rest[k]) {
          assert TokenAt(lx, i + (k + 1)) == Ok(ops[k + 1]);
        }
      }
      assert TokenAt(lx, i + 0) == Ok(ops[0]);
      PrefixesNest(lx, i + 1, rest, t, n, PrefixPrecedence);
      BelowPrefix(Tok(lx, n + 1).kind);
      LoopEnds(lx, Nest(rest, Leaf(t)), n, n + 1, PrefixPrecedence);
      PrefixStep(lx, i, i + 1, Nest(rest, Leaf(t)), n);
      ExpressionStep(lx, i, precedence, Nest(ops, Leaf(t)), n);
    }
  }

  /** `tok` has kind `kind` at each of the `d` positions from `i`. */
  predicate Run(lx: Lexed, i: nat, d: nat, kind: TokenType)
    requires lx.failure.None?
  {
    forall k | i <= k < i + d :: Tok(lx, k).kind == kind
  }

  /** A name or literal inside `d` pairs of parentheses is read as the bare leaf: a group
      builds no node, and each `)` is consumed with its group. */
  lemma {:induction false} ParenthesesVanish(lx: Lexed, i: nat, d: nat, t: Token, c: nat, precedence: nat)
    requires lx.failure.None? && Run(lx, i, d, LeftParen) && TokenAt(lx, i + d) == Ok(t) && IsAtom(t)
    requires Run(lx, i + d + 1, d, RightParen) && c == i + 2 * d
    ensures ParseExpression(lx, i, precedence) == InfixLoop(lx, Leaf(t), c, precedence)
    decreases d
  {
    if d == 0 {
      AtomStart(lx, i, t, precedence);
    } else {
      var j, e, b := i + 1, d - 1, c - 1;
      RunsShrink(lx, i, d, j, e);
      ParenthesesVanish(lx, j, e, t, b, Lowest);
      Unwrap(lx, i, j, t, b, c, precedence);
    }
  }

  /** Inside `d` parentheses around a leaf lie `d - 1` of them, starting one token later. */
  lemma RunsShrink(lx: Lexed, i: nat, d: nat, j: nat, e: nat)
    requires lx.failure.None? && Run(lx, i, d, LeftParen) && Run(lx, i + d + 1, d, RightParen)
    requires d > 0 && j == i + 1 && e == d - 1
    ensures Run(lx, j, e, LeftParen) && Run(lx, j + e + 1, e, RightParen)
    ensures Tok(lx, i).kind == LeftParen && Tok(lx, i + 2 * d).kind == RightParen
  {
    assert j + e == i + d;
    forall k | j + e + 1 <= k < j + e + 1 + e ensures Tok(lx, k).kind == RightParen {
      assert i + d + 1 <= k < i + d + 1 + d;
    }
    assert i + d + 1 <= i + 2 * d < i + d + 1 + d;
  }

  /** One pair of parentheses around an expression that parses to the leaf `t` by itself
      vanishes. */
  lemma Unwrap(lx: Lexed, i: nat, j: nat, t: Token, b: nat, c: nat, precedence: nat)
    requires lx.failure.None? && IsAtom(t) && Tok(lx, i).kind == LeftParen
    requires c == b + 1 && Tok(lx, c).kind == RightParen
    requires j == i + 1 && ParseExpression(lx, j, Lowest) == InfixLoop(lx, Leaf(t), b, Lowest)
    ensures ParseExpression(lx, i, precedence) == InfixLoop(lx, Leaf(t), c, precedence)
  {
    GroupStep(lx, i, j, Leaf(t), b, c);
    ExpressionStep(lx, i, precedence, Leaf(t), c);
  }

  /** A group whose inner expression is not followed by `)` ends with that expression: the
      missing `)` is not reported. */
  lemma UnclosedGroup(lx: Lexed, i: nat, e: Expr, b: nat)
    requires lx.failure.None? && Tok(lx, i).kind == LeftParen
    requires ParseExpression(lx, i + 1, Lowest) == Ok(Parsed(e, b)) && Tok(lx, b + 1).kind != RightParen
    ensures ApplyPrefix(lx, i, GroupRule) == Ok(Parsed(e, b))
  {
  }

  /** An expression cannot start at a token without a prefix handler: the parser reports
      that token. */
  lemma NoPrefixHandler(lx: Lexed, i: nat, precedence: nat)
    requires At(lx, i) && PrefixParser(Tok(lx, i).kind).None?
    ensures ParseExpression(lx, i, precedence).Err?
    ensures ParseExpression(lx, i, precedence).message == "Syntax error: unexpected token " + Tok(lx, i).literal
  {
  }

  // ---------------------------------------------------------------------------
  // The parser's own examples
  // ---------------------------------------------------------------------------

  function Name(s: string): Token { Token(TokenType.Identifier, s) }

  /** The tree parsed from the tokens `ts`, rendered. */
  function Rendered(ts: seq<Token>): (r: Option<string>) {
    match ParseExpression(Stream(ts), 0, Lowest)
    case Ok(p) => Some(RenderExpr(p.node))
    case Err(_) => None
  }

  /** `a + b + c` renders `((a + b) + c)`. */
  lemma SumsAssociateLeft()
    ensures Rendered([Name("a"), Token(Plus, "+"), Name("b"), Token(Plus, "+"), Name("c")]) == Some("((a + b) + c)")
  {
    var a, b, c := Expr.Identifier("a"), Expr.Identifier("b"), Expr.Identifier("c");
    var e := InfixExpression("+", InfixExpression("+", a, b), c);
    assert RenderExpr(e.left) == "(a + b)";
    assert RenderExpr(e) == "((a + b) + c)";
    GroupsLeft(Name("a"), Token(Plus, "+"), Name("b"), Token(Plus, "+"), Name("c"));
    assert Combine(Token(Plus, "+"), Combine(Token(Plus, "+"), a, b), c) == e;
  }

  /** `a > b >= 0` renders `((a > b) >= 0)`. */
  lemma ComparisonsAssociateLeft()
    ensures Rendered([Name("a"), Token(Greater, ">"), Name("b"), Token(GreaterEqual, ">="), Token(Number, "0")])
         == Some("((a > b) >= 0)")
  {
    var e := InfixExpression(">=", InfixExpression(">", Expr.Identifier("a"), Expr.Identifier("b")), NumberLiteral("0"));
    assert RenderExpr(e.left) == "(a > b)";
    assert RenderExpr(e) == "((a > b) >= 0)";
    ComparisonsParse();
  }

  /** The tree of `a > b >= 0`. */
  lemma ComparisonsParse()
    ensures ParseExpression(Stream([Name("a"), Token(Greater, ">"), Name("b"), Token(GreaterEqual, ">="), Token(Number, "0")]), 0, Lowest)
         == Ok(Parsed(InfixExpression(">=", InfixExpression(">", Expr.Identifier("a"), Expr.Identifier("b")), NumberLiteral("0")), 4))
  {
    GroupsLeft(Name("a"), Token(Greater, ">"), Name("b"), Token(GreaterEqual, ">="), Token(Number, "0"));
  }

  /** `a * b + c` renders `((a * b) + c)`. */
  lemma ProductBindsTighterOnTheLeft()
    ensures Rendered([Name("a"), Token(Star, "*"), Name("b"), Token(Plus, "+"), Name("c")]) == Some("((a * b) + c)")
  {
    var a, b, c := Expr.Identifier("a"), Expr.Identifier("b"), Expr.Identifier("c");
    var e := InfixExpression("+", InfixExpression("*", a, b), c);
    assert RenderExpr(e.left) == "(a * b)";
    assert RenderExpr(e) == "((a * b) + c)";
    GroupsLeft(Name("a"), Token(Star, "*"), Name("b"), Token(Plus, "+"), Name("c"));
    assert Combine(Token(Plus, "+"), Combine(Token(Star, "*"), a, b), c) == e;
  }

  /** `a + b * c` renders `(a + (b * c))`. */
  lemma ProductBindsTighterOnTheRight()
    ensures Rendered([Name("a"), Token(Plus, "+"), Name("b"), Token(Star, "*"), Name("c")]) == Some("(a + (b * c))")
  {
    var a, b, c := Expr.Identifier("a"), Expr.Identifier("b"), Expr.Identifier("c");
    var e := InfixExpression("+", a, InfixExpression("*", b, c));
    assert RenderExpr(e.right) == "(b * c)";
    assert RenderExpr(e) == "(a + (b * c))";
    GroupsRight(Name("a"), Token(Plus, "+"), Name("b"), Token(Star, "*"), Name("c"));
    assert Combine(Token(Plus, "+"), a, Combine(Token(Star, "*"), b, c)) == e;
  }

  /** `a * b + c / d` renders `((a * b) + (c / d))`. */
  lemma TwoProductsSummed()
    ensures Rendered([Name("a"), Token(Star, "*"), Name("b"), Token(Plus, "+"), Name("c"), Token(Slash, "/"), Name("d")])
         == Some("((a * b) + (c / d))")
  {
    var ab := InfixExpression("*", Expr.Identifier("a"), Expr.Identifier("b"));
    var cd := InfixExpression("/", Expr.Identifier("c"), Expr.Identifier("d"));
    assert RenderExpr(ab) == "(a * b)";
    assert RenderExpr(cd) == "(c / d)";
    assert RenderExpr(InfixExpression("+", ab, cd)) == "((a * b) + (c / d))";
    TwoProductsParse(Stream([Name("a"), Token(Star, "*"), Name("b"), Token(Plus, "+"), Name("c"), Token(Slash, "/"), Name("d")]));
  }

  /** The tree of `a * b + c / d`. */
  lemma {:induction false} TwoProductsParse(lx: Lexed)
    requires lx == Stream([Name("a"), Token(Star, "*"), Name("b"), Token(Plus, "+"), Name("c"), Token(Slash, "/"), Name("d")])
    ensures ParseExpression(lx, 0, Lowest)
         == Ok(Parsed(InfixExpression("+", InfixExpression("*", Expr.Identifier("a"), Expr.Identifier("b")),
                                           InfixExpression("/", Expr.Identifier("c"), Expr.Identifier("d"))), 6))
  {
    var ab := InfixExpression("*", Expr.Identifier("a"), Expr.Identifier("b"));
    var cd := InfixExpression("/", Expr.Identifier("c"), Expr.Identifier("d"));
    ProductFirst(lx);
    QuotientOperand(lx);
    LoopStep(lx, ab, 2, 3, 4, Lowest, cd, 6);
    LoopEnds(lx, InfixExpression("+", ab, cd), 6, 7, Lowest);
  }

  /** In `a * b + c / d`, the loop reaches `+` with `(a * b)` as its left operand. */
  lemma {:induction false} ProductFirst(lx: Lexed)
    requires lx == Stream([Name("a"), Token(Star, "*"), Name("b"), Token(Plus, "+"), Name("c"), Token(Slash, "/"), Name("d")])
    ensures ParseExpression(lx, 0, Lowest)
         == InfixLoop(lx, InfixExpression("*", Expr.Identifier("a"), Expr.Identifier("b")), 2, Lowest)
  {
    AtomStart(lx, 0, Name("a"), Lowest);
    AtomAlone(lx, 2, Name("b"), 3, ProductPrecedence);
    LoopStep(lx, Expr.Identifier("a"), 0, 1, 2, Lowest, Expr.Identifier("b"), 2);
  }

  /** In `a * b + c / d`, the right operand of `+` is `(c / d)`. */
  lemma {:induction false} QuotientOperand(lx: Lexed)
    requires lx == Stream([Name("a"), Token(Star, "*"), Name("b"), Token(Plus, "+"), Name("c"), Token(Slash, "/"), Name("d")])
    ensures ParseExpression(lx, 4, Sum) == Ok(Parsed(InfixExpression("/", Expr.Identifier("c"), Expr.Identifier("d")), 6))
  {
    AtomStart(lx, 4, Name("c"), Sum);
    AtomAlone(lx, 6, Name("d"), 7, ProductPrecedence);
    LoopStep(lx, Expr.Identifier("c"), 4, 5, 6, Sum, Expr.Identifier("d"), 6);
    LoopEnds(lx, InfixExpression("/", Expr.Identifier("c"), Expr.Identifier("d")), 6, 7, Sum);
  }

  /** `a = b = c` renders `(a = (b = c))`. */
  lemma AssignmentAssociatesRight()
    ensures Rendered([Name("a"), Token(Equal, "="), Name("b"), Token(Equal, "="), Name("c")]) == Some("(a = (b = c))")
  {
    var a, b, c := Expr.Identifier("a"), Expr.Identifier("b"), Expr.Identifier("c");
    var e := AssignmentExpression("=", a, AssignmentExpression("=", b, c));
    assert RenderExpr(e.right) == "(b = c)";
    assert RenderExpr(e) == "(a = (b = c))";
    GroupsRight(Name("a"), Token(Equal, "="), Name("b"), Token(Equal, "="), Name("c"));
    assert Combine(Token(Equal, "="), a, Combine(Token(Equal, "="), b, c)) == e;
  }

  /** `a + b - c` yields `(a + b)`, the `-` left unread. */
  lemma MinusIsNotInfix()
    ensures ParseExpression(Stream([Name("a"), Token(Plus, "+"), Name("b"), Token(Minus, "-"), Name("c")]), 0, Lowest)
         == Ok(Parsed(InfixExpression("+", Expr.Identifier("a"), Expr.Identifier("b")), 2))
  {
    MinusEndsExpression(Name("a"), Token(Plus, "+"), Name("b"), Token(Minus, "-"), Name("c"));
  }

  /** `---a` renders `(-(-(-a)))`. */
  lemma PrefixesRender()
    ensures Rendered([Token(Minus, "-"), Token(Minus, "-"), Token(Minus, "-"), Name("a")]) == Some("(-(-(-a)))")
  {
    var e := PrefixExpression("-", PrefixExpression("-", PrefixExpression("-", Expr.Identifier("a"))));
    assert RenderExpr(e.right.right) == "(-a)";
    assert RenderExpr(e.right) == "(-(-a))";
    assert RenderExpr(e) == "(-(-(-a)))";
    PrefixesParse();
  }

  /** The tree of `---a`. */
  lemma {:induction false} PrefixesParse()
    ensures ParseExpression(Stream([Token(Minus, "-"), Token(Minus, "-"), Token(Minus, "-"), Name("a")]), 0, Lowest)
         == Ok(Parsed(PrefixExpression("-", PrefixExpression("-", PrefixExpression("-", Expr.Identifier("a")))), 3))
  {
    var ops := [Token(Minus, "-"), Token(Minus, "-"), Token(Minus, "-")];
    var lx := Stream(ops + [Name("a")]);
    assert lx == Stream([Token(Minus, "-"), Token(Minus, "-"), Token(Minus, "-"), Name("a")]);
    PrefixesNest(lx, 0, ops, Name("a"), 3, Lowest);
    var e := Nest(ops, Expr.Identifier("a"));
    assert e == PrefixExpression("-", PrefixExpression("-", PrefixExpression("-", Expr.Identifier("a"))));
    LoopEnds(lx, e, 3, 4, Lowest);
  }

  /** `(((a)))` renders `a`, and `(a` is read as `a`. */
  lemma {:induction false} ParenthesesRender()
    ensures Rendered([OpenParen, OpenParen, OpenParen, Name("a"), CloseParen, CloseParen, CloseParen])
         == Some("a")
    ensures ParseExpression(Stream([OpenParen, Name("a")]), 0, Lowest) == Ok(Parsed(Expr.Identifier("a"), 1))
  {
    var lx := Stream([OpenParen, OpenParen, OpenParen, Name("a"), CloseParen, CloseParen, CloseParen]);
    ParenthesesVanish(lx, 0, 3, Name("a"), 6, Lowest);
    LoopEnds(lx, Expr.Identifier("a"), 6, 7, Lowest);
    var open := Stream([OpenParen, Name("a")]);
    AtomAlone(open, 1, Name("a"), 2, Lowest);
    UnclosedGroup(open, 0, Expr.Identifier("a"), 1);
    ExpressionStep(open, 0, Lowest, Expr.Identifier("a"), 1);
    LoopEnds(open, Expr.Identifier("a"), 1, 2, Lowest);
  }
}
