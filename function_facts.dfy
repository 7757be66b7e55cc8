/** What `parseFunction` and `parseParameterList` of src/parser/parser.js do with the tokens
    of a function literal: a stream spelling `fn`, a parameter list and a block is read back
    as those names and that block, and the two inputs of the parser's function tests read
    as the text the tests expect. */
module FunctionFacts {
  import opened Wrappers
  import opened Token
  import opened Scanning
  import opened Ast
  import opened Grammar
  import opened RenderedTokens
  import opened GrammarFacts
  import opened StatementFacts
  import opened PrecedenceFacts
  import opened Strings

  const FnToken: Token := Token(Fn, "fn")
  const CommaToken: Token := Token(Comma, ",")

  // ---------------------------------------------------------------------------
  // The tokens of a function
  // ---------------------------------------------------------------------------

  /** The tokens of `Join(ps, ", ")`: each name, with a `,` between each two. */
  function NamesTokens(ps: seq<string>): seq<Token> {
    if ps == [] then []
    else if |ps| == 1 then [Name(ps[0])]
    else [Name(ps[0]), CommaToken] + NamesTokens(ps[1..])
  }

  /** The tokens of `RenderParams(ps)`. */
  function ParamsTokens(ps: seq<string>): seq<Token> {
    [OpenParen] + NamesTokens(ps) + [CloseParen]
  }

  /** The tokens of `RenderFunction(f)`. */
  function FunctionTokens(f: FunctionNode): seq<Token> {
    [FnToken] + ParamsTokens(f.params) + StmtTokens(f.body)
  }

  // ---------------------------------------------------------------------------
  // Functions read back
  // ---------------------------------------------------------------------------

  /** The names of `ps`, up to the `)` at `q`, read back by the parameter loop. */
  lemma {:induction false} ParameterNames(lx: Lexed, p: nat, ps: seq<string>, q: nat)
    requires lx.failure.None? && Spells(lx, p, NamesTokens(ps)) && q == p + |NamesTokens(ps)|
    requires Tok(lx, q).kind == RightParen
    ensures ParameterLoop(lx, p) == Ok(Parsed(ps, q))
    decreases ps
  {
    if |ps| == 1 {
      assert TokenAt(lx, p + 0) == Ok(NamesTokens(ps)[0]);
      assert StepOver(lx, p, Comma) == Ok(q);
      assert [ps[0]] + [] == ps;
    } else if ps != [] {
      var rest := NamesTokens(ps[1..]);
      SpellsConcat(lx, p, [Name(ps[0]), CommaToken], rest);
      var h := [Name(ps[0]), CommaToken];
      assert TokenAt(lx, p + 0) == Ok(h[0]) && TokenAt(lx, p + 1) == Ok(h[1]);
      assert StepOver(lx, p, Comma) == Ok(p + 2);
      ParameterNames(lx, p + 2, ps[1..], q);
      assert [ps[0]] + ps[1..] == ps;
    }
  }

  /** A parameter list at `i` is read back as its names, with the `)` consumed. */
  lemma ParameterListRead(lx: Lexed, i: nat, ps: seq<string>, n: nat)
    requires lx.failure.None? && Spells(lx, i, ParamsTokens(ps)) && n == i + |ParamsTokens(ps)|
    ensures ParseParameterList(lx, i) == Ok(Parsed(ps, n))
  {
    var q := i + 1 + |NamesTokens(ps)|;
    Enclosed(lx, i, OpenParen, NamesTokens(ps), CloseParen);
    ParameterNames(lx, i + 1, ps, q);
    ParameterListSteps(lx, i, i + 1, ps, q, n);
  }

  /** The steps of `parseParameterList` around its loop. */
  lemma ParameterListSteps(lx: Lexed, i: nat, j: nat, ps: seq<string>, q: nat, n: nat)
    requires lx.failure.None? && j == i + 1 && n == q + 1 && ParameterLoop(lx, j) == Ok(Parsed(ps, q))
    ensures ParseParameterList(lx, i) == Ok(Parsed(ps, n))
  {
    assert NextToken(lx, i) == Ok(j) && NextToken(lx, q) == Ok(n);
  }

  /** A parameter list at `j`, after the `fn` at `i`, and a block at `b` that
      `parseBlockStatement` reads, make a function of those names and that block. */
  lemma FunctionParts(lx: Lexed, i: nat, j: nat, ps: seq<string>, b: nat, body: Stmt, n: nat)
    requires lx.failure.None? && j == i + 1 && Spells(lx, j, ParamsTokens(ps))
    requires b == j + |ParamsTokens(ps)| && ParseBlockStatement(lx, b) == Ok(Parsed(body, n))
    ensures ParseFunction(lx, i) == Ok(Parsed(FunctionNode(ps, body), n))
  {
    ParameterListRead(lx, j, ps, b);
    FunctionSteps(lx, i, j, ps, b, body, n);
  }

  /** `parseFunction` past the `fn`: the parameter list, then the block. */
  lemma FunctionSteps(lx: Lexed, i: nat, j: nat, ps: seq<string>, b: nat, body: Stmt, n: nat)
    requires lx.failure.None? && j == i + 1
    requires ParseParameterList(lx, j) == Ok(Parsed(ps, b)) && ParseBlockStatement(lx, b) == Ok(Parsed(body, n))
    ensures ParseFunction(lx, i) == Ok(Parsed(FunctionNode(ps, body), n))
  {
    assert NextToken(lx, i) == Ok(j);
  }

  /** A stream spelling the tokens of a function whose body is a block of well-formed
      statements reads that function, up to the token after its `}`. */
  lemma FunctionRead(lx: Lexed, i: nat, ps: seq<string>, ss: seq<Stmt>, n: nat)
    requires lx.failure.None? && WellFormedStmts(ss)
    requires Spells(lx, i, FunctionTokens(FunctionNode(ps, BlockStatement(ss))))
    requires n == i + |FunctionTokens(FunctionNode(ps, BlockStatement(ss)))|
    ensures ParseFunction(lx, i) == Ok(Parsed(FunctionNode(ps, BlockStatement(ss)), n))
  {
    var head := [FnToken] + ParamsTokens(ps);
    var b := i + |head|;
    SpellsConcat(lx, i, head, StmtTokens(BlockStatement(ss)));
    BodyRead(lx, b, ss, n);
    SpellsConcat(lx, i, [FnToken], ParamsTokens(ps));
    FunctionParts(lx, i, i + 1, ps, b, BlockStatement(ss), n);
  }

  /** The tokens of a block of well-formed statements are read back by
      `parseBlockStatement`, which stops past the `}`. */
  lemma BodyRead(lx: Lexed, b: nat, ss: seq<Stmt>, n: nat)
    requires lx.failure.None? && WellFormedStmts(ss)
    requires Spells(lx, b, StmtTokens(BlockStatement(ss))) && n == b + |StmtTokens(BlockStatement(ss))|
    ensures ParseBlockStatement(lx, b) == Ok(Parsed(BlockStatement(ss), n))
  {
    Enclosed(lx, b, Token(LeftBrace, "{"), StmtsTokens(ss), Token(RightBrace, "}"));
    SpellsReadsStmts(lx, b + 1, ss);
    var q := b + 1 + StmtsWidth(ss);
    assert n == q + 1;
    BlockStatements(lx, b + 1, ss, q);
    BlockParsed(lx, b, ss, q, n);
  }

  /** The tokens of any function whose body is a block of well-formed statements, followed
      by the end of input, are read back by `parseFunction` as that function. */
  lemma FunctionRoundTrip(ps: seq<string>, ss: seq<Stmt>)
    requires WellFormedStmts(ss)
    ensures var f := FunctionNode(ps, BlockStatement(ss));
      ParseFunction(Lexed(FunctionTokens(f) + [EofToken], None), 0) == Ok(Parsed(f, |FunctionTokens(f)|))
  {
    var f := FunctionNode(ps, BlockStatement(ss));
    var ts := FunctionTokens(f);
    var lx := Lexed(ts + [EofToken], None);
    forall k | 0 <= k < |ts| ensures TokenAt(lx, 0 + k) == Ok(ts[k]) {
      assert lx.tokens[k] == ts[k];
    }
    FunctionRead(lx, 0, ps, ss, |ts|);
  }

  // ---------------------------------------------------------------------------
  // The parser's function tests
  // ---------------------------------------------------------------------------

  /** `{ return x * x }`, with no `;` after the expression. */
  const SquareBody: seq<Token> :=
    [Token(LeftBrace, "{"), Token(Return, "return"), Name("x"), Token(Star, "*"), Name("x"), Token(RightBrace, "}")]

  const Square: Expr := InfixExpression("*", Expr.Identifier("x"), Expr.Identifier("x"))

  /** `return x * x` at `r`, before a `}` at `c`, is one return statement of `(x * x)`. */
  lemma SquareReturn(lx: Lexed, r: nat, c: nat)
    requires lx.failure.None? && c == r + 4
    requires TokenAt(lx, r) == Ok(Token(Return, "return")) && TokenAt(lx, r + 1) == Ok(Name("x"))
    requires TokenAt(lx, r + 2) == Ok(Token(Star, "*")) && TokenAt(lx, r + 3) == Ok(Name("x"))
    requires TokenAt(lx, c) == Ok(Token(RightBrace, "}"))
    ensures ParseStatement(lx, r) == Ok(Parsed(ReturnStatement(Square), c))
  {
    SquareExpression(lx, r + 1, c);
    assert StepOver(lx, r + 3, Semicolon) == Ok(c);
    assert ParseReturnStatement(lx, r) == Ok(Parsed(ReturnStatement(Square), c));
    DispatchReturn(lx, r);
  }

  /** `x * x` at `e`, before a `}` at `c`, is `(x * x)` ending on the second `x`. */
  lemma SquareExpression(lx: Lexed, e: nat, c: nat)
    requires lx.failure.None? && c == e + 3
    requires TokenAt(lx, e) == Ok(Name("x")) && TokenAt(lx, e + 1) == Ok(Token(Star, "*"))
    requires TokenAt(lx, e + 2) == Ok(Name("x")) && TokenAt(lx, c) == Ok(Token(RightBrace, "}"))
    ensures ParseExpression(lx, e, Lowest) == Ok(Parsed(Square, e + 2))
  {
    AtomStart(lx, e, Name("x"), Lowest);
    AtomAlone(lx, e + 2, Name("x"), c, ProductPrecedence);
    LoopStep(lx, Expr.Identifier("x"), e, e + 1, e + 2, Lowest, Expr.Identifier("x"), e + 2);
    LoopEnds(lx, Square, e + 2, c, Lowest);
  }

  /** The block `{ return x * x }` at `b` holds one return statement of `(x * x)`. */
  lemma SquareBlock(lx: Lexed, b: nat, n: nat)
    requires lx.failure.None? && Spells(lx, b, SquareBody) && n == b + 6
    ensures ParseBlockStatement(lx, b) == Ok(Parsed(BlockStatement([ReturnStatement(Square)]), n))
  {
    SquareTokens(lx, b);
    SquareBlockAt(lx, b, n);
  }

  /** The tokens that spell `{ return x * x }` at `b`, one by one. */
  lemma SquareTokens(lx: Lexed, b: nat)
    requires Spells(lx, b, SquareBody)
    ensures TokenAt(lx, b) == Ok(Token(LeftBrace, "{")) && TokenAt(lx, b + 1) == Ok(Token(Return, "return"))
    ensures TokenAt(lx, b + 2) == Ok(Name("x")) && TokenAt(lx, b + 3) == Ok(Token(Star, "*"))
    ensures TokenAt(lx, b + 4) == Ok(Name("x")) && TokenAt(lx, b + 5) == Ok(Token(RightBrace, "}"))
  {
    assert TokenAt(lx, b + 0) == Ok(SquareBody[0]) && TokenAt(lx, b + 1) == Ok(SquareBody[1]);
    assert TokenAt(lx, b + 2) == Ok(SquareBody[2]) && TokenAt(lx, b + 3) == Ok(SquareBody[3]);
    assert TokenAt(lx, b + 4) == Ok(SquareBody[4]) && TokenAt(lx, b + 5) == Ok(SquareBody[5]);
  }

  lemma SquareBlockAt(lx: Lexed, b: nat, n: nat)
    requires lx.failure.None? && n == b + 6
    requires TokenAt(lx, b) == Ok(Token(LeftBrace, "{")) && TokenAt(lx, b + 1) == Ok(Token(Return, "return"))
    requires TokenAt(lx, b + 2) == Ok(Name("x")) && TokenAt(lx, b + 3) == Ok(Token(Star, "*"))
    requires TokenAt(lx, b + 4) == Ok(Name("x")) && TokenAt(lx, b + 5) == Ok(Token(RightBrace, "}"))
    ensures ParseBlockStatement(lx, b) == Ok(Parsed(BlockStatement([ReturnStatement(Square)]), n))
  {
    SquareLoop(lx, b + 1, b + 5);
  }

  /** The statements from `return x * x` at `r` up to the `}` at `c`. */
  lemma SquareLoop(lx: Lexed, r: nat, c: nat)
    requires lx.failure.None? && c == r + 4
    requires TokenAt(lx, r) == Ok(Token(Return, "return")) && TokenAt(lx, r + 1) == Ok(Name("x"))
    requires TokenAt(lx, r + 2) == Ok(Token(Star, "*")) && TokenAt(lx, r + 3) == Ok(Name("x"))
    requires TokenAt(lx, c) == Ok(Token(RightBrace, "}"))
    ensures BlockLoop(lx, r) == Ok(Parsed([ReturnStatement(Square)], c))
  {
    SquareReturn(lx, r, c);
    assert BlockLoop(lx, c) == Ok(Parsed([], c));
    assert [ReturnStatement(Square)] + [] == [ReturnStatement(Square)];
  }

  /** `fn`, the parameter list of `ps`, and `{ return x * x }` read as the function of `ps`
      returning `(x * x)`. */
  lemma SquareFunction(lx: Lexed, ps: seq<string>, b: nat, n: nat)
    requires lx.failure.None? && Spells(lx, 1, ParamsTokens(ps)) && b == 1 + |ParamsTokens(ps)|
    requires Spells(lx, b, SquareBody) && n == b + 6
    ensures ParseFunction(lx, 0) == Ok(Parsed(FunctionNode(ps, BlockStatement([ReturnStatement(Square)])), n))
  {
    SquareBlock(lx, b, n);
    FunctionParts(lx, 0, 1, ps, b, BlockStatement([ReturnStatement(Square)]), n);
  }

  /** The function parsed from the tokens `ts`, rendered. */
  function RenderedFunction(ts: seq<Token>): Option<string> {
    match ParseFunction(Stream(ts), 0)
    case Ok(p) => Some(RenderFunction(p.node))
    case Err(_) => None
  }

  /** The function of `ps` returning `(x * x)` renders its parameter list and
      `{ return (x * x); }`. */
  lemma SquareText(ps: seq<string>)
    ensures RenderFunction(FunctionNode(ps, BlockStatement([ReturnStatement(Square)])))
         == "fn" + RenderParams(ps) + " { return (x * x); }"
  {
    assert RenderExpr(Square) == "(x * x)";
    assert RenderStmts([ReturnStatement(Square)]) == "return (x * x);";
  }

  /** The tokens of `fn(x) { return x * x }`. */
  const OneParameterTokens: seq<Token> := [FnToken, OpenParen, Name("x"), CloseParen] + SquareBody

  /** The tokens of `fn(x, y, z) { return x * x }`. */
  const ThreeParameterTokens: seq<Token> :=
    [FnToken, OpenParen, Name("x"), CommaToken, Name("y"), CommaToken, Name("z"), CloseParen] + SquareBody

  /** `fn(x) { return x * x }` renders `fn(x) { return (x * x); }`. */
  lemma OneParameter()
    ensures RenderedFunction(OneParameterTokens) == Some("fn(x) { return (x * x); }")
  {
    OneParameterParse();
    OneParameterText();
  }

  lemma OneParameterText()
    ensures RenderFunction(FunctionNode(["x"], BlockStatement([ReturnStatement(Square)]))) == "fn(x) { return (x * x); }"
  {
    SquareText(["x"]);
    assert RenderParams(["x"]) == "(x)";
  }

  lemma OneParameterParse()
    ensures ParseFunction(Stream(OneParameterTokens), 0)
         == Ok(Parsed(FunctionNode(["x"], BlockStatement([ReturnStatement(Square)])), 10))
  {
    var lx := Stream(OneParameterTokens);
    var ps := ["x"];
    assert ParamsTokens(ps) == OneParameterTokens[1..4];
    forall k | 0 <= k < 3 ensures TokenAt(lx, 1 + k) == Ok(ParamsTokens(ps)[k]) {
      assert lx.tokens[1 + k] == OneParameterTokens[1..4][k];
    }
    forall k | 0 <= k < 6 ensures TokenAt(lx, 4 + k) == Ok(SquareBody[k]) {
      assert lx.tokens[4 + k] == SquareBody[k];
    }
    SquareFunction(lx, ps, 4, 10);
  }

  /** `fn(x, y, z) { return x * x }` renders `fn(x, y, z) { return (x * x); }`. */
  lemma ThreeParameters()
    ensures RenderedFunction(ThreeParameterTokens) == Some("fn(x, y, z) { return (x * x); }")
  {
    ThreeParametersParse();
    ThreeParametersText(["x", "y", "z"]);
  }

  lemma ThreeParametersText(ps: seq<string>)
    requires ps == ["x", "y", "z"]
    ensures RenderFunction(FunctionNode(ps, BlockStatement([ReturnStatement(Square)])))
         == "fn(x, y, z) { return (x * x); }"
  {
    SquareText(ps);
    ThreeNames(ps);
    SquareAround(RenderParams(ps), "(x, y, z)");
  }

  /** The text of the squaring function around a parameter list's text. */
  lemma SquareAround(params: string, expected: string)
    requires params == expected
    ensures "fn" + params + " { return (x * x); }" == "fn" + expected + " { return (x * x); }"
  {
  }

  lemma ThreeNames(ps: seq<string>)
    requires ps == ["x", "y", "z"]
    ensures RenderParams(ps) == "(x, y, z)"
  {
    assert Join(ps[1..], ", ") == "y, z";
  }

  lemma ThreeParametersParse()
    ensures ParseFunction(Stream(ThreeParameterTokens), 0)
         == Ok(Parsed(FunctionNode(["x", "y", "z"], BlockStatement([ReturnStatement(Square)])), 14))
  {
    var ps := ["x", "y", "z"];
    assert NamesTokens(ps[2..]) == [Name("z")];
    assert NamesTokens(ps[1..]) == [Name("y"), CommaToken, Name("z")];
    var lx := Stream(ThreeParameterTokens);
    assert ParamsTokens(ps) == ThreeParameterTokens[1..8];
    forall k | 0 <= k < 7 ensures TokenAt(lx, 1 + k) == Ok(ParamsTokens(ps)[k]) {
      assert lx.tokens[1 + k] == ThreeParameterTokens[1..8][k];
    }
    forall k | 0 <= k < 6 ensures TokenAt(lx, 8 + k) == Ok(SquareBody[k]) {
      assert lx.tokens[8 + k] == SquareBody[k];
    }
    SquareFunction(lx, ps, 8, 14);
  }
}
