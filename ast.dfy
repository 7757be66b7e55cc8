/** The syntax tree the parser of src/parser/parser.js builds, and the `toString` every node
    carries: a canonical, fully parenthesised rendering. */
module Ast {
  import opened Wrappers
  import opened Strings

  /** Expression nodes. Literal nodes keep the token's literal text; an identifier node
      keeps its name. */
  datatype Expr =
    | Identifier(name: string)
    | NumberLiteral(literal: string)
    | StringLiteral(value: string)
    | BooleanLiteral(literal: string)
    | NullLiteral(literal: string)
    | PrefixExpression(op: string, right: Expr)
    | InfixExpression(op: string, left: Expr, right: Expr)
    | AssignmentExpression(op: string, left: Expr, right: Expr)

  /** Statement nodes. A `let` without `= value` has no value. */
  datatype Stmt =
    | LetStatement(name: string, value: Option<Expr>)
    | ReturnStatement(expression: Expr)
    | ExpressionStatement(expression: Expr)
    | BlockStatement(statements: seq<Stmt>)
    | IfStatement(condition: Expr, thenArm: Stmt, elseArm: Option<Stmt>)

  /** The `Function` node of `parseFunction`: its parameter names and its block. */
  datatype FunctionNode = FunctionNode(params: seq<string>, body: Stmt)

  datatype Program = Program(statements: seq<Stmt>)

  function RenderExpr(e: Expr): string {
    match e
    case Identifier(name) => name
    case NumberLiteral(literal) => literal
    case StringLiteral(value) => "'" + value + "'"
    case BooleanLiteral(literal) => literal
    case NullLiteral(literal) => literal
    case PrefixExpression(op, right) => "(" + op + RenderExpr(right) + ")"
    case InfixExpression(op, left, right) => "(" + RenderExpr(left) + " " + op + " " + RenderExpr(right) + ")"
    case AssignmentExpression(op, left, right) => "(" + RenderExpr(left) + " " + op + " " + RenderExpr(right) + ")"
  }

  /** An operator node renders inside one pair of parentheses, a string literal inside
      quotes, and no node renders as nothing but a name or literal that is itself empty. */
  lemma OperatorsParenthesised(e: Expr)
    ensures var r := RenderExpr(e);
      && (e.PrefixExpression? || e.InfixExpression? || e.AssignmentExpression? ==>
            |r| >= 2 && r[0] == '(' && r[|r| - 1] == ')')
      && (e.StringLiteral? ==> |r| >= 2 && r[0] == '\'' && r[|r| - 1] == '\'')
  {
  }

  function RenderStmt(s: Stmt): (r: string)
    ensures r != ""
    ensures s.LetStatement? || s.ReturnStatement? || s.ExpressionStatement? ==> r[|r| - 1] == ';'
    ensures s.BlockStatement? ==> r[0] == '{' && r[|r| - 1] == '}'
  {
    match s
    case LetStatement(name, value) =>
      "let " + name + (if value.Some? then " = " + RenderExpr(value.value) else "") + ";"
    case ReturnStatement(e) => "return " + RenderExpr(e) + ";"
    case ExpressionStatement(e) => RenderExpr(e) + ";"
    case BlockStatement(statements) => "{ " + RenderStmts(statements) + " }"
    case IfStatement(condition, thenArm, elseArm) =>
      "if (" + RenderExpr(condition) + ") " + RenderStmt(thenArm)
        + (if elseArm.Some? then " else " + RenderStmt(elseArm.value) else "")
  }

  /** The statements of a block, rendered and joined with no separator. */
  function RenderStmts(ss: seq<Stmt>): (r: string)
    ensures r == "" <==> ss == []
  {
    if ss == [] then "" else RenderStmt(ss[0]) + RenderStmts(ss[1..])
  }

  /** The `Parameters` node: its identifiers joined by ", " inside parentheses. */
  function RenderParams(params: seq<string>): (r: string)
    ensures |r| >= 2 && r[0] == '(' && r[|r| - 1] == ')'
    ensures params == [] ==> r == "()"
  {
    "(" + Join(params, ", ") + ")"
  }

  function RenderFunction(f: FunctionNode): (r: string)
    ensures |r| > 4 && r[..3] == "fn("
    ensures f.body.BlockStatement? ==> r[|r| - 1] == '}'
  {
    "fn" + RenderParams(f.params) + " " + RenderStmt(f.body)
  }
}
