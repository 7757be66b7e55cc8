/** What the parser of src/parser/parser.js does with the tokens of a tree's own rendering,
    and how its precedences group operators.

    `ExprTokens(e)` is the token sequence of `e`'s `toString` text: every compound node is
    wrapped in parentheses, so it reads back as a group. The main results are that the
    parser rebuilds `e` from `ExprTokens(e)`, and a program from the tokens of its
    statements, when nothing in the tree is beyond what the handler tables accept. */
module GrammarFacts {
  import opened Wrappers
  import opened Token
  import opened Scanning
  import opened Ast
  import opened Grammar
  import opened RenderedTokens

  /** A stream that spells `e`'s tokens reads `e`, and the rendering is `Width(e)` long. */
  lemma {:induction false} SpellsReads(lx: Lexed, i: nat, e: Expr)
    requires Spells(lx, i, ExprTokens(e))
    ensures Reads(lx, i, e) && |ExprTokens(e)| == Width(e)
    decreases Width(e), 1
  {
    var ts := ExprTokens(e);
    assert TokenAt(lx, i) == Ok(ts[0]);
    match e
    case PrefixExpression(op, right) =>
      var r := ExprTokens(right);
      forall k | 0 <= k < |r| ensures TokenAt(lx, i + 2 + k) == Ok(r[k]) {
        assert ts[2 + k] == r[k];
      }
      SpellsReads(lx, i + 2, right);
      assert ts[1] == Token(OperatorKind(op), op);
      assert ts[2 + |r|] == CloseParen;
    case InfixExpression(op, left, right) =>
      SpellsReadsBinary(lx, i, Token(OperatorKind(op), op), left, right);
    case AssignmentExpression(op, left, right) =>
      SpellsReadsBinary(lx, i, Token(OperatorKind(op), op), left, right);
    case _ =>
  }

  lemma {:induction false} SpellsReadsBinary(lx: Lexed, i: nat, o: Token, left: Expr, right: Expr)
    requires Spells(lx, i, Bracket(ExprTokens(left), o, ExprTokens(right)))
    ensures ReadsBinary(lx, i, o, left, right)
    ensures |Bracket(ExprTokens(left), o, ExprTokens(right))| == Width(left) + Width(right) + 3
    decreases Width(left) + Width(right) + 3, 0
  {
    var l, r := ExprTokens(left), ExprTokens(right);
    BracketSpelled(lx, i, l, o, r);
    SpellsReads(lx, i + 1, left);
    SpellsReads(lx, i + 2 + |l|, right);
  }

  /** The first token of a rendering read from `i` is at `i`. */
  lemma FirstRead(lx: Lexed, i: nat, e: Expr)
    requires Reads(lx, i, e)
    ensures TokenAt(lx, i) == Ok(FirstToken(e))
  {
    assert ReadsShape(lx, i, e);
    match e
    case PrefixExpression(op, right) => assert ReadsPrefix(lx, i, Token(OperatorKind(op), op), right);
    case InfixExpression(op, left, right) => assert ReadsBinary(lx, i, Token(OperatorKind(op), op), left, right);
    case AssignmentExpression(op, left, right) => assert ReadsBinary(lx, i, Token(OperatorKind(op), op), left, right);
    case _ =>
  }

  // ---------------------------------------------------------------------------
  // Single steps of the parser on a stream without a failure
  // ---------------------------------------------------------------------------

  /** The precedence at which the infix handler for `kind` parses its right operand:
      `parseAssignmentExpression` uses LOWEST, `parseInfixExpression` the operator's own. */
  function RightPrecedence(kind: TokenType): nat {
    if InfixParser(kind) == Some(AssignmentRule) then Lowest else Precedence(kind)
  }

  /** The node the infix handler for `op` builds. */
  function Combine(op: Token, left: Expr, right: Expr): Expr {
    if InfixParser(op.kind) == Some(AssignmentRule) then AssignmentExpression(op.literal, left, right)
    else InfixExpression(op.literal, left, right)
  }

  /** Every operator with an infix handler binds tighter than LOWEST. */
  lemma InfixBinds(kind: TokenType)
    requires InfixParser(kind).Some?
    ensures Lowest < Precedence(kind)
  {
  }

  /** The constructor's tables: every token that has a precedence above LOWEST has an infix
      handler except `-`; only `=` is parsed as an assignment; `-`, `+` and `!` are the
      prefix operators, and `+` is the one token with both kinds of handler. */
  lemma HandlerTables(kind: TokenType)
    ensures InfixParser(kind).Some? <==> Lowest < Precedence(kind) && kind != Minus
    ensures InfixParser(kind) == Some(AssignmentRule) <==> kind == Equal
    ensures PrefixParser(kind) == Some(PrefixOperatorRule) <==> kind in {Minus, Plus, Bang}
    ensures PrefixParser(kind).Some? && InfixParser(kind).Some? <==> kind == Plus
  {
  }

  // The step lemmas below take every position they relate as a parameter, tied to the
  // others by plain arithmetic, so that callers hand them the positions exactly as
  // `Reads` and the other lemmas spell them.

  /** A prefix operator at `i` takes the operand parsed at PREFIX precedence after it. */
  lemma PrefixStep(lx: Lexed, i: nat, j: nat, right: Expr, b: nat)
    requires lx.failure.None? && PrefixParser(Tok(lx, i).kind) == Some(PrefixOperatorRule)
    requires j == i + 1 && ParseExpression(lx, j, PrefixPrecedence) == Ok(Parsed(right, b))
    ensures ApplyPrefix(lx, i, PrefixOperatorRule) == Ok(Parsed(PrefixExpression(Tok(lx, i).literal, right), b))
  {
  }

  /** The operator loop stops at once before a token that binds no tighter than
      `precedence`. */
  lemma LoopEnds(lx: Lexed, e: Expr, k: nat, c: nat, precedence: nat)
    requires lx.failure.None? && c == k + 1 && Precedence(Tok(lx, c).kind) <= precedence
    ensures InfixLoop(lx, e, k, precedence) == Ok(Parsed(e, k))
  {
  }

  /** A `(` at `i` whose inner expression ends at `b`, just before a `)` at `c`, yields that
      expression with the `)` consumed. */
  lemma GroupStep(lx: Lexed, i: nat, j: nat, e: Expr, b: nat, c: nat)
    requires lx.failure.None? && Tok(lx, i).kind == LeftParen
    requires c == b + 1 && Tok(lx, c).kind == RightParen
    requires j == i + 1 && ParseExpression(lx, j, Lowest) == InfixLoop(lx, e, b, Lowest)
    ensures ApplyPrefix(lx, i, GroupRule) == Ok(Parsed(e, c))
  {
    LoopEnds(lx, e, b, c, Lowest);
  }

  /** One turn of the operator loop: when the operator at `m` binds tighter than
      `precedence` and has an infix handler, `left` is combined with the operand after it
      and the loop goes on. */
  lemma LoopStep(lx: Lexed, left: Expr, k: nat, m: nat, s: nat, precedence: nat, right: Expr, b: nat)
    requires lx.failure.None? && m == k + 1 && s == k + 2
    requires precedence < Precedence(Tok(lx, m).kind) && InfixParser(Tok(lx, m).kind).Some?
    requires ParseExpression(lx, s, RightPrecedence(Tok(lx, m).kind)) == Ok(Parsed(right, b))
    ensures InfixLoop(lx, left, k, precedence) == InfixLoop(lx, Combine(Tok(lx, m), left, right), b, precedence)
  {
    var rule := InfixParser(Tok(lx, m).kind).value;
    assert ApplyInfix(lx, left, m, rule) == Ok(Parsed(Combine(Tok(lx, m), left, right), b));
  }

  // ---------------------------------------------------------------------------
  // Expressions read back
  // ---------------------------------------------------------------------------

  /** Parsing at a token with a prefix handler runs the operator loop after what that
      handler builds. */
  lemma ExpressionStep(lx: Lexed, i: nat, precedence: nat, e: Expr, b: nat)
    requires lx.failure.None? && PrefixParser(Tok(lx, i).kind).Some?
    requires ApplyPrefix(lx, i, PrefixParser(Tok(lx, i).kind).value) == Ok(Parsed(e, b))
    ensures ParseExpression(lx, i, precedence) == InfixLoop(lx, e, b, precedence)
  {
  }

  /** A literal or a name is a single token its handler turns back into the node. */
  lemma Atom(lx: Lexed, i: nat, e: Expr)
    requires !(e.PrefixExpression? || e.InfixExpression? || e.AssignmentExpression?)
    requires lx.failure.None? && Reads(lx, i, e)
    ensures PrefixParser(Tok(lx, i).kind).Some?
    ensures ApplyPrefix(lx, i, PrefixParser(Tok(lx, i).kind).value) == Ok(Parsed(e, i))
  {
  }

  // The lemmas below take the width `w` of each tree they read as a parameter tied by
  // `w == Width(e)`, and every position they relate as a parameter too, so that each
  // position is written the same way in a lemma and in its callers.

  /** The prefix handler at the first token of `e`'s rendering, `w` tokens long, consumes
      exactly that rendering, up to `k`, and builds `e`. */
  lemma {:induction false} Primary(lx: Lexed, i: nat, e: Expr, w: nat, k: nat)
    requires lx.failure.None? && WellFormed(e) && Reads(lx, i, e) && w == Width(e) && k == i + w - 1
    ensures PrefixParser(Tok(lx, i).kind).Some?
    ensures ApplyPrefix(lx, i, PrefixParser(Tok(lx, i).kind).value) == Ok(Parsed(e, k))
    decreases w, 4
  {
    match e
    case PrefixExpression(op, right) => PrefixRead(lx, i, op, right, w, k);
    case InfixExpression(op, left, right) => BinaryRead(lx, i, e, w, k);
    case AssignmentExpression(op, left, right) => BinaryRead(lx, i, e, w, k);
    case _ => Atom(lx, i, e);
  }

  /** `Primary` for a prefix operator node. */
  lemma {:induction false} PrefixRead(lx: Lexed, i: nat, op: string, right: Expr, w: nat, k: nat)
    requires lx.failure.None? && WellFormed(PrefixExpression(op, right)) && Reads(lx, i, PrefixExpression(op, right))
    requires w == Width(PrefixExpression(op, right)) && k == i + w - 1
    ensures Tok(lx, i) == OpenParen
    ensures ApplyPrefix(lx, i, GroupRule) == Ok(Parsed(PrefixExpression(op, right), k))
    decreases w, 3
  {
    assert ReadsShape(lx, i, PrefixExpression(op, right));
    assert ReadsPrefix(lx, i, Token(OperatorKind(op), op), right);
    Unary(lx, i, Token(OperatorKind(op), op), right, Width(right), k);
  }

  /** `Primary` for an infix or assignment node. */
  lemma {:induction false} BinaryRead(lx: Lexed, i: nat, e: Expr, w: nat, k: nat)
    requires e.InfixExpression? || e.AssignmentExpression?
    requires lx.failure.None? && WellFormed(e) && Reads(lx, i, e) && w == Width(e) && k == i + w - 1
    ensures Tok(lx, i) == OpenParen
    ensures ApplyPrefix(lx, i, GroupRule) == Ok(Parsed(e, k))
    decreases w, 3
  {
    assert ReadsShape(lx, i, e);
    var o := Token(OperatorKind(e.op), e.op);
    assert ReadsBinary(lx, i, o, e.left, e.right);
    Binary(lx, i, o, e.left, e.right, Width(e.left), Width(e.right),
           i + 1, i + 1 + Width(e.left), i + 2 + Width(e.left), k);
  }

  /** `Primary` for `(o r)` ending at `c`: the group's inner expression is the prefix
      operator with its operand, and nothing after it binds. */
  lemma {:induction false} Unary(lx: Lexed, i: nat, o: Token, r: Expr, wr: nat, c: nat)
    requires lx.failure.None? && PrefixParser(o.kind) == Some(PrefixOperatorRule) && WellFormed(r)
    requires wr == Width(r) && c == i + 2 + wr
    requires TokenAt(lx, i) == Ok(OpenParen) && TokenAt(lx, i + 1) == Ok(o)
    requires Reads(lx, i + 2, r) && TokenAt(lx, c) == Ok(CloseParen)
    ensures Tok(lx, i) == OpenParen
    ensures ApplyPrefix(lx, i, GroupRule) == Ok(Parsed(PrefixExpression(o.literal, r), c))
    decreases wr + 3, 2
  {
    var b := c - 1;
    Whole(lx, i + 2, r, wr, b, c, PrefixPrecedence);
    PrefixStep(lx, i + 1, i + 2, r, b);
    ExpressionStep(lx, i + 1, Lowest, PrefixExpression(o.literal, r), b);
    GroupStep(lx, i, i + 1, PrefixExpression(o.literal, r), b, c);
  }

  /** `Primary` for `(l o r)` ending at `c`: `l`, one turn of the operator loop, the `)`. */
  lemma {:induction false} Binary(lx: Lexed, i: nat, o: Token, l: Expr, r: Expr, wl: nat, wr: nat,
                                  j: nat, m: nat, s: nat, c: nat)
    requires lx.failure.None? && InfixParser(o.kind).Some? && WellFormed(l) && WellFormed(r)
    requires wl == Width(l) && wr == Width(r)
    requires j == i + 1 && m == i + 1 + wl && s == i + 2 + wl && c == i + 2 + wl + wr
    requires TokenAt(lx, i) == Ok(OpenParen) && Reads(lx, j, l) && TokenAt(lx, m) == Ok(o)
    requires Reads(lx, s, r) && TokenAt(lx, c) == Ok(CloseParen)
    ensures Tok(lx, i) == OpenParen
    ensures ApplyPrefix(lx, i, GroupRule) == Ok(Parsed(Combine(o, l, r), c))
    decreases wl + wr + 3, 2
  {
    var a, b := m - 1, c - 1;
    assert Tok(lx, m) == o;
    Operand(lx, j, l, wl, a, Lowest);
    assert Precedence(Tok(lx, c).kind) == Lowest;
    Whole(lx, s, r, wr, b, c, RightPrecedence(o.kind));
    InfixBinds(o.kind);
    LoopStep(lx, l, a, m, s, Lowest, r, b);
    GroupStep(lx, i, j, Combine(o, l, r), b, c);
  }

  /** Parsing at `e`'s rendering builds `e`, up to `k`, and then runs the operator loop
      after it. */
  lemma {:induction false} Operand(lx: Lexed, i: nat, e: Expr, w: nat, k: nat, precedence: nat)
    requires lx.failure.None? && WellFormed(e) && Reads(lx, i, e) && w == Width(e) && k == i + w - 1
    ensures PrefixParser(Tok(lx, i).kind).Some?
    ensures ParseExpression(lx, i, precedence) == InfixLoop(lx, e, k, precedence)
    decreases w, 5
  {
    Primary(lx, i, e, w, k);
    ExpressionStep(lx, i, precedence, e, k);
  }

  /** Followed at `c` by a token that binds no tighter than `precedence`, the rendering of
      `e` parses to `e` alone. */
  lemma {:induction false} Whole(lx: Lexed, i: nat, e: Expr, w: nat, k: nat, c: nat, precedence: nat)
    requires lx.failure.None? && WellFormed(e) && Reads(lx, i, e) && w == Width(e) && k == i + w - 1
    requires c == k + 1 && Precedence(Tok(lx, c).kind) <= precedence
    ensures PrefixParser(Tok(lx, i).kind).Some?
    ensures ParseExpression(lx, i, precedence) == Ok(Parsed(e, k))
    decreases w, 6
  {
    Operand(lx, i, e, w, k, precedence);
    LoopEnds(lx, e, k, c, precedence);
  }

  /** The stream of `e`'s rendering followed by EOF reads `e`, and EOF follows it. */
  lemma RenderingReads(e: Expr)
    ensures var lx := Lexed(ExprTokens(e) + [EofToken], None);
      Reads(lx, 0, e) && |ExprTokens(e)| == Width(e) && Tok(lx, |ExprTokens(e)|).kind == Eof
  {
    var ts := ExprTokens(e);
    var lx := Lexed(ts + [EofToken], None);
    forall k | 0 <= k < |ts| ensures TokenAt(lx, k) == Ok(ts[k]) {
      assert lx.tokens[k] == ts[k];
    }
    SpellsReads(lx, 0, e);
    assert TokenAt(lx, |ts|) == Ok(EofToken);
  }

  /** The parser reads the tokens of every well-formed expression's rendering back as that
      expression: `parseExpression` inverts `toString`. */
  lemma ExpressionRoundTrip(e: Expr)
    requires WellFormed(e)
    ensures var lx := Lexed(ExprTokens(e) + [EofToken], None);
      ParseExpression(lx, 0, Lowest) == Ok(Parsed(e, |ExprTokens(e)| - 1))
  {
    var w := |ExprTokens(e)|;
    var lx := Lexed(ExprTokens(e) + [EofToken], None);
    RenderingReads(e);
    assert Precedence(Tok(lx, w).kind) == Lowest;
    Whole(lx, 0, e, w, w - 1, w, Lowest);
  }
}
