/** What the statement parser of src/parser/parser.js does with the tokens of rendered
    statements: `parseProgram` reads the tokens of a program's statements back as those
    statements. */
module StatementFacts {
  import opened Wrappers
  import opened Token
  import opened Scanning
  import opened Ast
  import opened Grammar
  import opened RenderedTokens
  import opened GrammarFacts

  // ---------------------------------------------------------------------------
  // Renderings spelled out in a stream
  // ---------------------------------------------------------------------------

  /** A stream that spells `s`'s tokens reads `s`, and the rendering is `StmtWidth(s)`
      long. */
  lemma {:induction false} SpellsReadsStmt(lx: Lexed, i: nat, s: Stmt)
    requires Spells(lx, i, StmtTokens(s))
    ensures ReadsStmt(lx, i, s) && |StmtTokens(s)| == StmtWidth(s)
    decreases s, 2
  {
    match s
    case LetStatement(name, value) => SpellsReadsLet(lx, i, name, value);
    case ReturnStatement(e) => SpellsReadsReturn(lx, i, e);
    case ExpressionStatement(e) => SpellsReadsExpression(lx, i, e);
    case BlockStatement(statements) => SpellsReadsBlock(lx, i, statements);
    case IfStatement(condition, thenArm, elseArm) => SpellsReadsIf(lx, i, condition, thenArm, elseArm);
  }

  /** `SpellsReadsStmt` for a `return`. */
  lemma SpellsReadsReturn(lx: Lexed, i: nat, e: Expr)
    requires Spells(lx, i, StmtTokens(ReturnStatement(e)))
    ensures ReadsStmt(lx, i, ReturnStatement(e))
    ensures |StmtTokens(ReturnStatement(e))| == StmtWidth(ReturnStatement(e))
  {
    Enclosed(lx, i, Token(Return, "return"), ExprTokens(e), SemicolonToken);
    SpellsReads(lx, i + 1, e);
  }

  /** `SpellsReadsStmt` for an expression statement. */
  lemma SpellsReadsExpression(lx: Lexed, i: nat, e: Expr)
    requires Spells(lx, i, StmtTokens(ExpressionStatement(e)))
    ensures ReadsStmt(lx, i, ExpressionStatement(e))
    ensures |StmtTokens(ExpressionStatement(e))| == StmtWidth(ExpressionStatement(e))
  {
    SpellsConcat(lx, i, ExprTokens(e), [SemicolonToken]);
    assert TokenAt(lx, i + |ExprTokens(e)| + 0) == Ok([SemicolonToken][0]);
    SpellsReads(lx, i, e);
  }

  /** `SpellsReadsStmt` for a block. */
  lemma {:induction false} SpellsReadsBlock(lx: Lexed, i: nat, statements: seq<Stmt>)
    requires Spells(lx, i, StmtTokens(BlockStatement(statements)))
    ensures ReadsStmt(lx, i, BlockStatement(statements))
    ensures |StmtTokens(BlockStatement(statements))| == StmtWidth(BlockStatement(statements))
    decreases BlockStatement(statements), 1
  {
    Enclosed(lx, i, Token(LeftBrace, "{"), StmtsTokens(statements), Token(RightBrace, "}"));
    SpellsReadsStmts(lx, i + 1, statements);
  }

  /** `SpellsReadsStmt` for an `if`. */
  lemma {:induction false} SpellsReadsIf(lx: Lexed, i: nat, condition: Expr, thenArm: Stmt, elseArm: Option<Stmt>)
    requires Spells(lx, i, StmtTokens(IfStatement(condition, thenArm, elseArm)))
    ensures ReadsStmt(lx, i, IfStatement(condition, thenArm, elseArm))
    ensures |StmtTokens(IfStatement(condition, thenArm, elseArm))| == StmtWidth(IfStatement(condition, thenArm, elseArm))
    decreases IfStatement(condition, thenArm, elseArm), 1
  {
    IfSpelledParts(lx, i, condition, thenArm, elseArm, ExprTokens(condition), StmtTokens(thenArm));
    IfArmsRead(lx, i, condition, thenArm, elseArm);
    IfWidth(condition, thenArm, elseArm);
  }

  /** `SpellsReadsStmt` for a `let`. */
  lemma SpellsReadsLet(lx: Lexed, i: nat, name: string, value: Option<Expr>)
    requires Spells(lx, i, StmtTokens(LetStatement(name, value)))
    ensures ReadsStmt(lx, i, LetStatement(name, value))
    ensures |StmtTokens(LetStatement(name, value))| == StmtWidth(LetStatement(name, value))
  {
    var ts := StmtTokens(LetStatement(name, value));
    assert ts[0] == Token(Let, "let") && ts[1] == Token(TokenType.Identifier, name);
    if value.Some? {
      var v := ExprTokens(value.value);
      assert ts == [Token(Let, "let"), Token(TokenType.Identifier, name), Token(Equal, "=")] + v + [SemicolonToken];
      forall k | 0 <= k < |v| ensures TokenAt(lx, i + 3 + k) == Ok(v[k]) {
        assert ts[3 + k] == v[k];
      }
      SpellsReads(lx, i + 3, value.value);
      assert ts[2] == Token(Equal, "=") && ts[3 + |v|] == SemicolonToken;
    } else {
      assert ts[2] == SemicolonToken;
    }
  }

  /** `SpellsReadsStmt` for an `if`, from the parts its tokens spell. */
  lemma {:induction false} IfArmsRead(lx: Lexed, i: nat, condition: Expr, thenArm: Stmt, elseArm: Option<Stmt>)
    requires TokenAt(lx, i) == Ok(Token(If, "if")) && TokenAt(lx, i + 1) == Ok(OpenParen)
    requires Spells(lx, i + 2, ExprTokens(condition))
    requires TokenAt(lx, i + 2 + |ExprTokens(condition)|) == Ok(CloseParen)
    requires Spells(lx, i + 3 + |ExprTokens(condition)|, StmtTokens(thenArm))
    requires elseArm.Some? ==>
      && TokenAt(lx, i + 3 + |ExprTokens(condition)| + |StmtTokens(thenArm)|) == Ok(Token(Else, "else"))
      && Spells(lx, i + 4 + |ExprTokens(condition)| + |StmtTokens(thenArm)|, StmtTokens(elseArm.value))
    ensures ReadsStmt(lx, i, IfStatement(condition, thenArm, elseArm))
    ensures |ExprTokens(condition)| == Width(condition) && |StmtTokens(thenArm)| == StmtWidth(thenArm)
    ensures elseArm.Some? ==> |StmtTokens(elseArm.value)| == StmtWidth(elseArm.value)
    decreases IfStatement(condition, thenArm, elseArm), 0
  {
    SpellsReads(lx, i + 2, condition);
    SpellsReadsStmt(lx, i + 3 + |ExprTokens(condition)|, thenArm);
    ElseSpellsReads(lx, i + 4 + |ExprTokens(condition)| + |StmtTokens(thenArm)|, elseArm);
    IfReads(lx, i, condition, thenArm, elseArm);
  }

  /** An else arm, when there is one, that a stream spells is read from it. */
  lemma {:induction false} ElseSpellsReads(lx: Lexed, k: nat, elseArm: Option<Stmt>)
    requires elseArm.Some? ==> Spells(lx, k, StmtTokens(elseArm.value))
    ensures elseArm.Some? ==> ReadsStmt(lx, k, elseArm.value) && |StmtTokens(elseArm.value)| == StmtWidth(elseArm.value)
    decreases elseArm, 0
  {
    if elseArm.Some? {
      SpellsReadsStmt(lx, k, elseArm.value);
    }
  }

  /** The parts of an `if` a stream spells. */
  lemma IfSpelledParts(lx: Lexed, i: nat, condition: Expr, thenArm: Stmt, elseArm: Option<Stmt>, c: seq<Token>, t: seq<Token>)
    requires c == ExprTokens(condition) && t == StmtTokens(thenArm)
    requires Spells(lx, i, StmtTokens(IfStatement(condition, thenArm, elseArm)))
    ensures TokenAt(lx, i) == Ok(Token(If, "if")) && TokenAt(lx, i + 1) == Ok(OpenParen)
    ensures Spells(lx, i + 2, c) && TokenAt(lx, i + 2 + |c|) == Ok(CloseParen)
    ensures Spells(lx, i + 3 + |c|, t)
    ensures elseArm.Some? ==>
      && TokenAt(lx, i + 3 + |c| + |t|) == Ok(Token(Else, "else"))
      && Spells(lx, i + 4 + |c| + |t|, StmtTokens(elseArm.value))
  {
    var rest := if elseArm.Some? then [Token(Else, "else")] + StmtTokens(elseArm.value) else [];
    IfTokens(condition, thenArm, elseArm, c, t, rest);
    IfRestSpelled(lx, i, StmtTokens(IfStatement(condition, thenArm, elseArm)), c, t, rest, elseArm.Some?);
  }

  /** A stream spelling `if (c) t rest`, where `rest` starts with `else` when there is
      one, spells each part at its place. */
  lemma IfRestSpelled(lx: Lexed, i: nat, ts: seq<Token>, c: seq<Token>, t: seq<Token>, rest: seq<Token>, hasElse: bool)
    requires ts == [Token(If, "if"), OpenParen] + c + [CloseParen] + t + rest && Spells(lx, i, ts)
    requires hasElse ==> |rest| > 0 && rest[0] == Token(Else, "else")
    ensures TokenAt(lx, i) == Ok(Token(If, "if")) && TokenAt(lx, i + 1) == Ok(OpenParen)
    ensures Spells(lx, i + 2, c) && TokenAt(lx, i + 2 + |c|) == Ok(CloseParen)
    ensures Spells(lx, i + 3 + |c|, t)
    ensures hasElse ==> TokenAt(lx, i + 3 + |c| + |t|) == Ok(Token(Else, "else")) && Spells(lx, i + 4 + |c| + |t|, rest[1..])
  {
    IfPartsSpelled(lx, i, c, t, rest);
    if hasElse {
      ElseSpelled(lx, i + 3 + |c| + |t|, rest[1..]);
    }
  }

  /** An `if` whose parts are as long as their widths is as long as its width. */
  lemma IfWidth(condition: Expr, thenArm: Stmt, elseArm: Option<Stmt>)
    requires |ExprTokens(condition)| == Width(condition) && |StmtTokens(thenArm)| == StmtWidth(thenArm)
    requires elseArm.Some? ==> |StmtTokens(elseArm.value)| == StmtWidth(elseArm.value)
    ensures |StmtTokens(IfStatement(condition, thenArm, elseArm))| == StmtWidth(IfStatement(condition, thenArm, elseArm))
  {
    var c, t := ExprTokens(condition), StmtTokens(thenArm);
    var rest := if elseArm.Some? then [Token(Else, "else")] + StmtTokens(elseArm.value) else [];
    IfTokens(condition, thenArm, elseArm, c, t, rest);
  }

  /** An `if` is read from its parts, each at its place. */
  lemma IfReads(lx: Lexed, i: nat, condition: Expr, thenArm: Stmt, elseArm: Option<Stmt>)
    requires TokenAt(lx, i) == Ok(Token(If, "if")) && TokenAt(lx, i + 1) == Ok(OpenParen)
    requires Reads(lx, i + 2, condition) && TokenAt(lx, i + 2 + Width(condition)) == Ok(CloseParen)
    requires ReadsStmt(lx, i + 3 + Width(condition), thenArm)
    requires elseArm.Some? ==>
      && TokenAt(lx, i + 3 + Width(condition) + StmtWidth(thenArm)) == Ok(Token(Else, "else"))
      && ReadsStmt(lx, i + 4 + Width(condition) + StmtWidth(thenArm), elseArm.value)
    ensures ReadsStmt(lx, i, IfStatement(condition, thenArm, elseArm))
  {
    assert ReadsStmtShape(lx, i, IfStatement(condition, thenArm, elseArm));
  }

  /** The tokens of an `if`, part by part. */
  lemma IfTokens(condition: Expr, thenArm: Stmt, elseArm: Option<Stmt>, c: seq<Token>, t: seq<Token>, rest: seq<Token>)
    requires c == ExprTokens(condition) && t == StmtTokens(thenArm)
    requires rest == if elseArm.Some? then [Token(Else, "else")] + StmtTokens(elseArm.value) else []
    ensures StmtTokens(IfStatement(condition, thenArm, elseArm)) == [Token(If, "if"), OpenParen] + c + [CloseParen] + t + rest
  {
  }

  /** A stream spelling `if (c) t` and then `rest` spells each part at its place. */
  lemma IfPartsSpelled(lx: Lexed, i: nat, c: seq<Token>, t: seq<Token>, rest: seq<Token>)
    requires Spells(lx, i, [Token(If, "if"), OpenParen] + c + [CloseParen] + t + rest)
    ensures TokenAt(lx, i) == Ok(Token(If, "if")) && TokenAt(lx, i + 1) == Ok(OpenParen)
    ensures Spells(lx, i + 2, c) && TokenAt(lx, i + 2 + |c|) == Ok(CloseParen)
    ensures Spells(lx, i + 3 + |c|, t) && Spells(lx, i + 3 + |c| + |t|, rest)
  {
    var head := [Token(If, "if"), OpenParen] + c + [CloseParen];
    assert |head| == 3 + |c| && |head + t| == 3 + |c| + |t|;
    SpellsConcat(lx, i, head + t, rest);
    SpellsConcat(lx, i, head, t);
    HeadSpelled(lx, i, c);
  }

  /** The `if (condition)` an `if` starts with. */
  lemma HeadSpelled(lx: Lexed, i: nat, c: seq<Token>)
    requires Spells(lx, i, [Token(If, "if"), OpenParen] + c + [CloseParen])
    ensures TokenAt(lx, i) == Ok(Token(If, "if")) && TokenAt(lx, i + 1) == Ok(OpenParen)
    ensures Spells(lx, i + 2, c) && TokenAt(lx, i + 2 + |c|) == Ok(CloseParen)
  {
    var opening := [Token(If, "if"), OpenParen];
    SpellsConcat(lx, i, opening + c, [CloseParen]);
    SpellsConcat(lx, i, opening, c);
    assert TokenAt(lx, i + 0) == Ok(opening[0]) && TokenAt(lx, i + 1) == Ok(opening[1]);
    assert TokenAt(lx, i + 2 + |c| + 0) == Ok([CloseParen][0]);
  }

  /** The `else` arm an `if` ends with. */
  lemma ElseSpelled(lx: Lexed, j: nat, f: seq<Token>)
    requires Spells(lx, j, [Token(Else, "else")] + f)
    ensures TokenAt(lx, j) == Ok(Token(Else, "else")) && Spells(lx, j + 1, f)
  {
    SpellsConcat(lx, j, [Token(Else, "else")], f);
    assert TokenAt(lx, j + 0) == Ok([Token(Else, "else")][0]);
  }

  /** A stream that spells the tokens of `ss` reads `ss`, `StmtsWidth(ss)` tokens long. */
  lemma {:induction false} SpellsReadsStmts(lx: Lexed, i: nat, ss: seq<Stmt>)
    requires Spells(lx, i, StmtsTokens(ss))
    ensures ReadsStmts(lx, i, ss) && |StmtsTokens(ss)| == StmtsWidth(ss)
    decreases ss
  {
    if ss != [] {
      var ts := StmtsTokens(ss);
      var h := StmtTokens(ss[0]);
      var t := StmtsTokens(ss[1..]);
      forall k | 0 <= k < |h| ensures TokenAt(lx, i + k) == Ok(h[k]) {
        assert ts[k] == h[k];
      }
      SpellsReadsStmt(lx, i, ss[0]);
      forall k | 0 <= k < |t| ensures TokenAt(lx, i + |h| + k) == Ok(t[k]) {
        assert ts[|h| + k] == t[k];
      }
      SpellsReadsStmts(lx, i + |h|, ss[1..]);
    }
  }

  // ---------------------------------------------------------------------------
  // Statements read back
  // ---------------------------------------------------------------------------

  /** The kinds of token a rendered statement starts with: none is `else`, `}` or EOF, and
      none binds as an operator. */
  predicate Opens(kind: TokenType) {
    kind != Else && kind != RightBrace && kind != Eof && Precedence(kind) == Lowest
  }

  lemma StatementOpens(lx: Lexed, i: nat, s: Stmt)
    requires lx.failure.None? && ReadsStmt(lx, i, s)
    ensures Opens(Tok(lx, i).kind)
  {
    assert ReadsStmtShape(lx, i, s);
    match s
    case ExpressionStatement(e) => FirstRead(lx, i, e);
    case _ =>
  }

  /** After a statement of a block or a program comes another statement or the end. */
  lemma ListOpens(lx: Lexed, p: nat, ss: seq<Stmt>, q: nat, end: TokenType)
    requires lx.failure.None? && ReadsStmts(lx, p, ss) && q == p + StmtsWidth(ss)
    requires (end == Eof || end == RightBrace) && Tok(lx, q).kind == end
    ensures Tok(lx, p).kind != Else
    ensures Tok(lx, p).kind == end <==> ss == []
  {
    if ss != [] {
      StatementOpens(lx, p, ss[0]);
    }
  }

  // The case lemmas take the widths of a statement's parts and the positions they
  // relate as parameters, as the expression lemmas do.

  /** `let name;` at `i`. */
  lemma LetCase(lx: Lexed, i: nat, name: string, n: nat)
    requires lx.failure.None? && n == i + 3
    requires Tok(lx, i).kind == Let && Tok(lx, i + 1).literal == name && Tok(lx, i + 2).kind == Semicolon
    ensures ParseStatement(lx, i) == Ok(Parsed(LetStatement(name, None), n))
  {
    LetWithoutValue(lx, i, name);
  }

  /** `let name = value;` at `i`. */
  lemma LetValueCase(lx: Lexed, i: nat, name: string, value: Expr, w: nat, n: nat)
    requires lx.failure.None? && WellFormed(value) && w == Width(value) && n == i + w + 4
    requires Tok(lx, i).kind == Let && Tok(lx, i + 1).literal == name && Tok(lx, i + 2).kind == Equal
    requires Reads(lx, i + 3, value) && Tok(lx, i + 3 + w).kind == Semicolon
    ensures ParseStatement(lx, i) == Ok(Parsed(LetStatement(name, Some(value)), n))
  {
    LetValueParsed(lx, i, name, value, w, n);
    DispatchLet(lx, i);
  }

  lemma LetValueParsed(lx: Lexed, i: nat, name: string, value: Expr, w: nat, n: nat)
    requires lx.failure.None? && WellFormed(value) && w == Width(value) && n == i + w + 4
    requires Tok(lx, i + 1).literal == name && Tok(lx, i + 2).kind == Equal
    requires Reads(lx, i + 3, value) && Tok(lx, i + 3 + w).kind == Semicolon
    ensures ParseLetStatement(lx, i) == Ok(Parsed(LetStatement(name, Some(value)), n))
  {
    var b, c := i + 3 + w - 1, i + 3 + w;
    Whole(lx, i + 3, value, w, b, c, Lowest);
    assert ParseLetValue(lx, i + 1) == Ok(Parsed(Some(value), b));
    SemicolonStep(lx, b, n);
  }

  /** A `;` after the token at `b` is stepped over. */
  lemma SemicolonStep(lx: Lexed, b: nat, n: nat)
    requires lx.failure.None? && n == b + 2 && Tok(lx, b + 1).kind == Semicolon
    ensures StepOver(lx, b, Semicolon) == Ok(n)
  {
  }

  /** `return value;` at `i`. */
  lemma ReturnCase(lx: Lexed, i: nat, value: Expr, w: nat, n: nat)
    requires lx.failure.None? && WellFormed(value) && w == Width(value) && n == i + w + 2
    requires Tok(lx, i).kind == Return && Reads(lx, i + 1, value) && Tok(lx, i + 1 + w).kind == Semicolon
    ensures ParseStatement(lx, i) == Ok(Parsed(ReturnStatement(value), n))
  {
    ReturnParsed(lx, i, value, w, n);
    DispatchReturn(lx, i);
  }

  lemma ReturnParsed(lx: Lexed, i: nat, value: Expr, w: nat, n: nat)
    requires lx.failure.None? && WellFormed(value) && w == Width(value) && n == i + w + 2
    requires Reads(lx, i + 1, value) && Tok(lx, i + 1 + w).kind == Semicolon
    ensures ParseReturnStatement(lx, i) == Ok(Parsed(ReturnStatement(value), n))
  {
    var b, c := i + 1 + w - 1, i + 1 + w;
    Whole(lx, i + 1, value, w, b, c, Lowest);
    SemicolonStep(lx, b, n);
  }

  /** `value;` at `i`. */
  lemma ExpressionCase(lx: Lexed, i: nat, value: Expr, w: nat, n: nat)
    requires lx.failure.None? && WellFormed(value) && w == Width(value) && n == i + w + 1
    requires Reads(lx, i, value) && Tok(lx, i + w).kind == Semicolon
    ensures ParseStatement(lx, i) == Ok(Parsed(ExpressionStatement(value), n))
  {
    ExpressionOptionalParsed(lx, i, value, w, i + w);
    DispatchExpression(lx, i);
  }

  /** The `;` that ends an expression statement is optional: the statement ends after the
      expression, and after the `;` when one follows. */
  lemma ExpressionSemicolonOptional(lx: Lexed, i: nat, value: Expr, w: nat, c: nat)
    requires lx.failure.None? && WellFormed(value) && w == Width(value) && c == i + w
    requires Reads(lx, i, value) && Precedence(Tok(lx, c).kind) == Lowest
    ensures ParseStatement(lx, i)
         == Ok(Parsed(ExpressionStatement(value), if Tok(lx, c).kind == Semicolon then c + 1 else c))
  {
    ExpressionOptionalParsed(lx, i, value, w, c);
    DispatchExpression(lx, i);
  }

  lemma ExpressionOptionalParsed(lx: Lexed, i: nat, value: Expr, w: nat, c: nat)
    requires lx.failure.None? && WellFormed(value) && w == Width(value) && c == i + w
    requires Reads(lx, i, value) && Precedence(Tok(lx, c).kind) == Lowest
    ensures PrefixParser(Tok(lx, i).kind).Some?
    ensures ParseExpressionStatement(lx, i)
         == Ok(Parsed(ExpressionStatement(value), if Tok(lx, c).kind == Semicolon then c + 1 else c))
  {
    var b := c - 1;
    Whole(lx, i, value, w, b, c, Lowest);
    assert NextToken(lx, b) == Ok(c);
  }

  /** `let name` with no `= value` has no value, and the `;` after it is optional. */
  lemma LetWithoutValue(lx: Lexed, i: nat, name: string)
    requires lx.failure.None? && Tok(lx, i).kind == Let && Tok(lx, i + 1).literal == name
    requires Tok(lx, i + 2).kind != Equal
    ensures ParseStatement(lx, i)
         == Ok(Parsed(LetStatement(name, None), if Tok(lx, i + 2).kind == Semicolon then i + 3 else i + 2))
  {
    assert ParseLetStatement(lx, i)
        == Ok(Parsed(LetStatement(name, None), if Tok(lx, i + 2).kind == Semicolon then i + 3 else i + 2));
    DispatchLet(lx, i);
  }

  /** `{ statements }` at `i`, the statements ending before the `}` at `q`. */
  lemma BlockCase(lx: Lexed, i: nat, statements: seq<Stmt>, q: nat, n: nat)
    requires lx.failure.None? && n == q + 1
    requires Tok(lx, i).kind == LeftBrace && BlockLoop(lx, i + 1) == Ok(Parsed(statements, q))
    ensures ParseStatement(lx, i) == Ok(Parsed(BlockStatement(statements), n))
  {
    BlockParsed(lx, i, statements, q, n);
    DispatchBlock(lx, i);
  }

  lemma BlockParsed(lx: Lexed, i: nat, statements: seq<Stmt>, q: nat, n: nat)
    requires lx.failure.None? && n == q + 1 && BlockLoop(lx, i + 1) == Ok(Parsed(statements, q))
    ensures ParseBlockStatement(lx, i) == Ok(Parsed(BlockStatement(statements), n))
  {
    assert NextToken(lx, i) == Ok(i + 1) && NextToken(lx, q) == Ok(n);
  }

  /** The `(condition)` of an `if` at `i`: the parser reads it as a group, which consumes
      the `)`, and the operator loop stops before the then arm starting at `t`. */
  lemma ConditionCase(lx: Lexed, i: nat, condition: Expr, w: nat, c: nat, t: nat)
    requires lx.failure.None? && WellFormed(condition) && w == Width(condition)
    requires c == i + 2 + w && t == c + 1
    requires Tok(lx, i + 1).kind == LeftParen && Reads(lx, i + 2, condition)
    requires Tok(lx, c).kind == RightParen && Opens(Tok(lx, t).kind)
    ensures ParseExpression(lx, i + 1, Lowest) == Ok(Parsed(condition, c))
  {
    var b := i + 2 + w - 1;
    Operand(lx, i + 2, condition, w, b, Lowest);
    GroupStep(lx, i + 1, i + 2, condition, b, c);
    GroupExpression(lx, i + 1, condition, c);
    LoopEnds(lx, condition, c, t, Lowest);
  }

  /** An expression that starts with `(` is the group, then the operator loop after it. */
  lemma GroupExpression(lx: Lexed, j: nat, e: Expr, c: nat)
    requires lx.failure.None? && Tok(lx, j).kind == LeftParen
    requires ApplyPrefix(lx, j, GroupRule) == Ok(Parsed(e, c))
    ensures ParseExpression(lx, j, Lowest) == InfixLoop(lx, e, c, Lowest)
  {
    assert PrefixParser(LeftParen) == Some(GroupRule);
    ExpressionStep(lx, j, Lowest, e, c);
  }

  /** What follows the then arm of an `if`, ending at `e`: an `else` and the else arm
      parsed from `f` on, or no `else`. */
  lemma ElseCase(lx: Lexed, condition: Expr, thenArm: Stmt, elseArm: Option<Stmt>, e: nat, f: nat, n: nat)
    requires lx.failure.None?
    requires elseArm.Some? ==>
      f == e + 1 && Tok(lx, e).kind == Else && ParseStatement(lx, f) == Ok(Parsed(elseArm.value, n))
    requires elseArm.None? ==> n == e && Tok(lx, e).kind != Else
    ensures ElseArm(lx, condition, thenArm, e) == Ok(Parsed(IfStatement(condition, thenArm, elseArm), n))
  {
  }

  /** An `if` at `i` whose condition ends at `c` gives what follows the condition gives. */
  lemma IfStep(lx: Lexed, i: nat, condition: Expr, c: nat, r: Result<Parsed<Stmt>>)
    requires lx.failure.None? && Tok(lx, i).kind == If
    requires ParseExpression(lx, i + 1, Lowest) == Ok(Parsed(condition, c)) && IfThen(lx, condition, c) == r
    ensures ParseStatement(lx, i) == r
  {
    assert NextToken(lx, i) == Ok(i + 1);
    assert ParseIfStatement(lx, i) == r;
    DispatchIf(lx, i);
  }

  /** The then arm after a `)` that ends at `c`. */
  lemma ThenCase(lx: Lexed, condition: Expr, thenArm: Stmt, c: nat, t: nat, e: nat)
    requires lx.failure.None? && TokenAt(lx, c).Ok? && Tok(lx, c).kind == RightParen
    requires t == c + 1 && ParseStatement(lx, t) == Ok(Parsed(thenArm, e))
    ensures IfThen(lx, condition, c) == ElseArm(lx, condition, thenArm, e)
  {
    assert (if Tok(lx, c).kind == RightParen then NextToken(lx, c) else Ok(c)) == Ok(t);
  }

  /** `parseStatement` hands a statement starting with `if` to `parseIfStatement`. */
  lemma DispatchIf(lx: Lexed, i: nat)
    requires At(lx, i) && Tok(lx, i).kind == If
    ensures ParseStatement(lx, i) == ParseIfStatement(lx, i)
  {
  }

  /** `parseStatement` hands a statement starting with `let` to `parseLetStatement`. */
  lemma DispatchLet(lx: Lexed, i: nat)
    requires At(lx, i) && Tok(lx, i).kind == Let
    ensures ParseStatement(lx, i) == ParseLetStatement(lx, i)
  {
  }

  /** `parseStatement` hands a statement starting with `return` to `parseReturnStatement`. */
  lemma DispatchReturn(lx: Lexed, i: nat)
    requires At(lx, i) && Tok(lx, i).kind == Return
    ensures ParseStatement(lx, i) == ParseReturnStatement(lx, i)
  {
  }

  /** `parseStatement` hands a statement starting with `{` to `parseBlockStatement`. */
  lemma DispatchBlock(lx: Lexed, i: nat)
    requires At(lx, i) && Tok(lx, i).kind == LeftBrace
    ensures ParseStatement(lx, i) == ParseBlockStatement(lx, i)
  {
  }

  /** `parseStatement` hands any other statement to `parseExpressionStatement`; a token
      that starts an expression is one. */
  lemma DispatchExpression(lx: Lexed, i: nat)
    requires At(lx, i) && PrefixParser(Tok(lx, i).kind).Some?
    ensures ParseStatement(lx, i) == ParseExpressionStatement(lx, i)
  {
    assert Tok(lx, i).kind !in {If, Let, Return, LeftBrace};
  }

  /** The parser reads the rendering of a well-formed statement at `i` back as that
      statement and stops right after it, unless an `else` follows a statement whose last
      `if` has none (the parser would take that `else` as the `if`'s). */
  lemma {:induction false} Statement(lx: Lexed, i: nat, s: Stmt, n: nat)
    requires lx.failure.None? && WellFormedStmt(s) && ReadsStmt(lx, i, s) && n == i + StmtWidth(s)
    requires OpenIf(s) ==> Tok(lx, n).kind != Else
    ensures ParseStatement(lx, i) == Ok(Parsed(s, n))
    decreases s, 3
  {
    match s
    case LetStatement(name, value) => SimpleStatement(lx, i, s, n);
    case ReturnStatement(e) => SimpleStatement(lx, i, s, n);
    case ExpressionStatement(e) => SimpleStatement(lx, i, s, n);
    case BlockStatement(statements) => BlockRead(lx, i, statements, n);
    case IfStatement(condition, thenArm, elseArm) => IfRead(lx, i, condition, thenArm, elseArm, n);
  }

  /** `Statement` for `let`, `return` and expression statements. */
  lemma SimpleStatement(lx: Lexed, i: nat, s: Stmt, n: nat)
    requires s.LetStatement? || s.ReturnStatement? || s.ExpressionStatement?
    requires lx.failure.None? && WellFormedStmt(s) && ReadsStmt(lx, i, s) && n == i + StmtWidth(s)
    ensures ParseStatement(lx, i) == Ok(Parsed(s, n))
  {
    assert ReadsStmtShape(lx, i, s);
    match s
    case LetStatement(name, value) =>
      if value.Some? {
        LetValueCase(lx, i, name, value.value, Width(value.value), n);
      } else {
        LetCase(lx, i, name, n);
      }
    case ReturnStatement(e) => ReturnCase(lx, i, e, Width(e), n);
    case ExpressionStatement(e) => ExpressionCase(lx, i, e, Width(e), n);
  }

  /** `Statement` for a block. */
  lemma {:induction false} BlockRead(lx: Lexed, i: nat, statements: seq<Stmt>, n: nat)
    requires lx.failure.None? && WellFormedStmts(statements) && ReadsStmt(lx, i, BlockStatement(statements))
    requires n == i + StmtsWidth(statements) + 2
    ensures ParseStatement(lx, i) == Ok(Parsed(BlockStatement(statements), n))
    decreases BlockStatement(statements), 2
  {
    assert ReadsStmtShape(lx, i, BlockStatement(statements));
    var q := i + 1 + StmtsWidth(statements);
    BlockStatements(lx, i + 1, statements, q);
    BlockCase(lx, i, statements, q, n);
  }

  /** `Statement` for an `if`. */
  lemma {:induction false} IfRead(lx: Lexed, i: nat, condition: Expr, thenArm: Stmt, elseArm: Option<Stmt>, n: nat)
    requires lx.failure.None? && WellFormedStmt(IfStatement(condition, thenArm, elseArm))
    requires ReadsStmt(lx, i, IfStatement(condition, thenArm, elseArm))
    requires n == i + StmtWidth(IfStatement(condition, thenArm, elseArm))
    requires OpenIf(IfStatement(condition, thenArm, elseArm)) ==> Tok(lx, n).kind != Else
    ensures ParseStatement(lx, i) == Ok(Parsed(IfStatement(condition, thenArm, elseArm), n))
    decreases IfStatement(condition, thenArm, elseArm), 2
  {
    assert ReadsStmtShape(lx, i, IfStatement(condition, thenArm, elseArm));
    var wc, wt := Width(condition), StmtWidth(thenArm);
    IfParts(lx, i, condition, thenArm, elseArm, wc, wt, i + 2 + wc, i + 3 + wc, i + 3 + wc + wt, i + 4 + wc + wt, n);
  }

  /** `IfRead` with the widths of the condition and the then arm as parameters. */
  lemma {:induction false} IfParts(lx: Lexed, i: nat, condition: Expr, thenArm: Stmt, elseArm: Option<Stmt>,
                                   wc: nat, wt: nat, c: nat, t: nat, e: nat, f: nat, n: nat)
    requires lx.failure.None? && WellFormedStmt(IfStatement(condition, thenArm, elseArm))
    requires wc == Width(condition) && wt == StmtWidth(thenArm)
    requires c == i + 2 + wc && t == c + 1 && e == t + wt && f == e + 1
    requires n == e + (if elseArm.Some? then 1 + StmtWidth(elseArm.value) else 0)
    requires TokenAt(lx, i) == Ok(Token(If, "if")) && TokenAt(lx, i + 1) == Ok(OpenParen)
    requires Reads(lx, i + 2, condition) && TokenAt(lx, c) == Ok(CloseParen) && ReadsStmt(lx, t, thenArm)
    requires elseArm.Some? ==> TokenAt(lx, e) == Ok(Token(Else, "else")) && ReadsStmt(lx, f, elseArm.value)
    requires OpenIf(IfStatement(condition, thenArm, elseArm)) ==> Tok(lx, n).kind != Else
    ensures ParseStatement(lx, i) == Ok(Parsed(IfStatement(condition, thenArm, elseArm), n))
    decreases IfStatement(condition, thenArm, elseArm), 1
  {
    StatementOpens(lx, t, thenArm);
    ConditionCase(lx, i, condition, wc, c, t);
    Statement(lx, t, thenArm, e);
    if elseArm.Some? {
      Statement(lx, f, elseArm.value, n);
    }
    ElseCase(lx, condition, thenArm, elseArm, e, f, n);
    ThenCase(lx, condition, thenArm, c, t, e);
    IfStep(lx, i, condition, c, Ok(Parsed(IfStatement(condition, thenArm, elseArm), n)));
  }

  /** The stream holds the well-formed statements `ss` from `p` on, up to `q`. */
  predicate Holds(lx: Lexed, p: nat, ss: seq<Stmt>, q: nat) {
    lx.failure.None? && WellFormedStmts(ss) && ReadsStmts(lx, p, ss) && q == p + StmtsWidth(ss)
  }

  /** Splits `Holds` at the first statement: the statement itself ends at `n`, and the rest
      begin there and are not preceded by an `else`. */
  lemma HoldsFirst(lx: Lexed, p: nat, ss: seq<Stmt>, q: nat, end: TokenType) returns (n: nat)
    requires Holds(lx, p, ss, q) && ss != [] && (end == Eof || end == RightBrace) && Tok(lx, q).kind == end
    ensures n == p + StmtWidth(ss[0]) && Holds(lx, n, ss[1..], q)
    ensures ParseStatement(lx, p) == Ok(Parsed(ss[0], n)) && Tok(lx, p).kind != end
    decreases ss, 0
  {
    n := p + StmtWidth(ss[0]);
    ListOpens(lx, p, ss, q, end);
    ListOpens(lx, n, ss[1..], q, end);
    Statement(lx, p, ss[0], n);
  }

  /** The statements of a block, up to the `}` at `q`, read back by `BlockLoop`. */
  lemma {:induction false} BlockStatements(lx: Lexed, p: nat, ss: seq<Stmt>, q: nat)
    requires Holds(lx, p, ss, q) && Tok(lx, q).kind == RightBrace
    ensures BlockLoop(lx, p) == Ok(Parsed(ss, q))
    decreases ss, 1
  {
    if ss == [] {
      assert p == q;
    } else {
      var n := HoldsFirst(lx, p, ss, q, RightBrace);
      BlockStatements(lx, n, ss[1..], q);
      assert [ss[0]] + ss[1..] == ss;
    }
  }

  /** The statements of a program, up to EOF at `q`, read back by `ProgramLoop`. */
  lemma {:induction false} ProgramStatements(lx: Lexed, p: nat, ss: seq<Stmt>, q: nat)
    requires Holds(lx, p, ss, q) && Tok(lx, q).kind == Eof
    ensures ProgramLoop(lx, p) == Ok(ss)
    decreases ss
  {
    if ss == [] {
      assert p == q;
    } else {
      var n := HoldsFirst(lx, p, ss, q, Eof);
      ProgramStatements(lx, n, ss[1..], q);
      assert [ss[0]] + ss[1..] == ss;
    }
  }

  /** `parseProgram` inverts the rendering of a program's statements: the tokens of a
      well-formed statement list, followed by EOF, parse back to that list. */
  lemma ProgramRoundTrip(ss: seq<Stmt>)
    requires WellFormedStmts(ss)
    ensures ParseProgram(Lexed(StmtsTokens(ss) + [EofToken], None), 0) == Ok(Program(ss))
  {
    var ts := StmtsTokens(ss);
    var lx := Lexed(ts + [EofToken], None);
    forall k | 0 <= k < |ts| ensures TokenAt(lx, k) == Ok(ts[k]) {
      assert lx.tokens[k] == ts[k];
    }
    SpellsReadsStmts(lx, 0, ss);
    assert TokenAt(lx, |ts|) == Ok(EofToken);
    ProgramStatements(lx, 0, ss, |ts|);
  }
}
