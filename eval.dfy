/** The tree-walking evaluator of src/eval/eval.js.

    `Eval` turns a node into an `Obj`, a pair of a type name and a host value. It
    evaluates programs, expression statements, prefix expressions and number, string
    and boolean literals; every other node evaluates to the Null object. Some results
    are not objects at all: a prefix operator other than `!` and `-` gives the host
    `null`, and an empty program gives `undefined`. Applying `!` or `-` to such a result
    makes the host throw a TypeError, which ends the evaluation. */
module Evaluator {
  import opened Wrappers
  import opened Numbers
  import opened Runtime
  import opened Ast

  /** The objects `Eval` builds. */
  datatype Obj = NullObj | BooleanObj(b: bool) | NumberObj(n: Num) | StringObj(s: string) {
    /** The object's `type`. */
    function Type(): string {
      match this
      case NullObj => "Null"
      case BooleanObj(_) => "Boolean"
      case NumberObj(_) => "Number"
      case StringObj(_) => "String"
    }

    /** The object's `value`. */
    function Value(): Host {
      match this
      case NullObj => HostNull
      case BooleanObj(b) => HostBool(b)
      case NumberObj(n) => HostNumber(n)
      case StringObj(s) => HostString(s)
    }
  }

  /** What evaluating a node gives: an object, the host `null`, `undefined`, or a thrown
      TypeError. */
  datatype Outcome = Produced(obj: Obj) | HostNullResult | Undefined | Threw

  /** `Obj.inspect`: the text of the value; reading it from the Null object's `null`
      throws. */
  function ObjInspect(o: Obj): (r: Result<string>)
    ensures o.StringObj? ==> r == Ok(o.s)
    ensures r.Ok? && r.value == "" ==> o == StringObj("")
  {
    if o.Value() == HostNull then Err("TypeError") else Ok(HostText(o.Value()))
  }

  /** `evalBangPrefix`: compares the operand's value with `true`, `false` and `null`
      by strict equality; anything else gives `false`. */
  function Bang(o: Obj): (r: Obj)
    ensures r.BooleanObj? || r == NullObj
    ensures r == NullObj <==> o == NullObj
  {
    match o.Value()
    case HostBool(true) => BooleanObj(false)
    case HostBool(false) => BooleanObj(true)
    case HostNull => NullObj
    case _ => BooleanObj(false)
  }

  /** `evalMinusPrefix`: negates a Number and gives Null for any other type. */
  function Minus(o: Obj): (r: Obj)
    ensures r.NumberObj? <==> o.NumberObj?
    ensures r.NumberObj? ==> r.n.Decimal? == o.n.Decimal?
  {
    if o.Type() != "Number" then NullObj else NumberObj(Negate(o.n))
  }

  /** `evalPrefixExpression` applied to the already evaluated operand. The operand
      handlers read the operand's fields, which throws when it is not an object. */
  function PrefixOutcome(op: string, right: Outcome): (r: Outcome)
    ensures !r.Undefined?
    ensures r.Produced? <==> right.Produced? && (op == "!" || op == "-")
  {
    if right.Threw? then Threw
    else if op == "!" then (if right.Produced? then Produced(Bang(right.obj)) else Threw)
    else if op == "-" then (if right.Produced? then Produced(Minus(right.obj)) else Threw)
    else HostNullResult
  }

  /** `Eval` on an expression node. */
  function EvalExpr(e: Expr): (r: Outcome)
    ensures !r.Undefined?
    ensures !e.PrefixExpression? ==> r.Produced?
  {
    match e
    case PrefixExpression(op, right) => PrefixOutcome(op, EvalExpr(right))
    case NumberLiteral(literal) => Produced(NumberObj(ParseFloat(literal)))
    case StringLiteral(value) => Produced(StringObj(value))
    case BooleanLiteral(literal) => Produced(BooleanObj(literal == "true"))
    case _ => Produced(NullObj)
  }

  /** `Eval` on a statement node: an expression statement gives its expression's outcome,
      every other statement the Null object. */
  function EvalStmt(s: Stmt): (r: Outcome)
    ensures !r.Undefined?
    ensures !s.ExpressionStatement? ==> r == Produced(NullObj)
  {
    match s
    case ExpressionStatement(e) => EvalExpr(e)
    case _ => Produced(NullObj)
  }

  /** Whether the statement at `k` throws. */
  predicate ThrowsAt(statements: seq<Stmt>, k: int)
    requires 0 <= k < |statements|
  {
    EvalStmt(statements[k]).Threw?
  }

  /** What `evalStatements` gives: a TypeError if any statement throws; otherwise the
      outcome of the last statement, or `undefined` when there is none. */
  function StatementsOutcome(statements: seq<Stmt>): (r: Outcome)
    ensures r.Undefined? <==> statements == []
  {
    if exists k | 0 <= k < |statements| :: ThrowsAt(statements, k) then Threw
    else if statements == [] then Undefined
    else EvalStmt(statements[|statements| - 1])
  }

  /** `evalStatements`: evaluates each statement in turn and keeps the last result. */
  method EvalStatements(statements: seq<Stmt>) returns (result: Outcome)
    ensures result == StatementsOutcome(statements)
  {
    result := Undefined;
    var i := 0;
    while i < |statements|
      invariant 0 <= i <= |statements|
      invariant forall k | 0 <= k < i :: !ThrowsAt(statements, k)
      invariant result == if i == 0 then Undefined else EvalStmt(statements[i - 1])
    {
      result := EvalStmt(statements[i]);
      if result.Threw? {
        assert ThrowsAt(statements, i);
        return;
      }
      i := i + 1;
    }
  }

  /** `Eval` on a program node. */
  method EvalProgram(program: Program) returns (result: Outcome)
    ensures result == StatementsOutcome(program.statements)
  {
    result := EvalStatements(program.statements);
  }

  // ---------------------------------------------------------------------------
  // Properties
  // ---------------------------------------------------------------------------

  /** Which expressions throw: a `!` or `-` applied directly to a prefix expression with
      another operator, anywhere along the chain of prefix operators. */
  predicate Throws(e: Expr) {
    e.PrefixExpression?
    && (Throws(e.right)
        || ((e.op == "!" || e.op == "-") && e.right.PrefixExpression? && e.right.op != "!" && e.right.op != "-"))
  }

  /** An expression throws exactly where `Throws` says; otherwise it gives the host `null`
      exactly when its outermost operator is neither `!` nor `-`, and an object in every
      other case. */
  lemma {:induction false} EvalExprOutcome(e: Expr)
    ensures EvalExpr(e).Threw? <==> Throws(e)
    ensures EvalExpr(e) == HostNullResult
        <==> !Throws(e) && e.PrefixExpression? && e.op != "!" && e.op != "-"
    ensures EvalExpr(e).Produced?
        <==> !Throws(e) && !(e.PrefixExpression? && e.op != "!" && e.op != "-")
    ensures !EvalExpr(e).Undefined?
  {
    if e.PrefixExpression? {
      EvalExprOutcome(e.right);
    }
  }

  /** A program throws exactly when one of its statements does; otherwise it gives its
      last statement's outcome, and `undefined` when it is empty. */
  lemma ProgramOutcome(statements: seq<Stmt>)
    ensures StatementsOutcome(statements).Threw?
        <==> exists k | 0 <= k < |statements| :: EvalStmt(statements[k]).Threw?
    ensures StatementsOutcome(statements) == Undefined <==> statements == []
    ensures statements != [] && !StatementsOutcome(statements).Threw?
        ==> StatementsOutcome(statements) == EvalStmt(statements[|statements| - 1])
  {
    forall k | 0 <= k < |statements| ensures ThrowsAt(statements, k) == EvalStmt(statements[k]).Threw? {
    }
    if statements != [] {
      var last := statements[|statements| - 1];
      if last.ExpressionStatement? {
        EvalExprOutcome(last.expression);
      }
    }
  }

  /** `!` turns `true` and `false` into each other and keeps Null; on any other object,
      zero and the empty string included, it gives `false`. So `!!` keeps a boolean, keeps
      Null and turns every other object into `true`. */
  lemma DoubleBang(o: Obj)
    ensures Bang(o) == if o.BooleanObj? then BooleanObj(!o.b) else if o == NullObj then NullObj else BooleanObj(false)
    ensures Bang(Bang(o)) == if o.BooleanObj? || o == NullObj then o else BooleanObj(true)
  {
  }

  /** `-` negates a number, so `-` twice gives it back; it turns anything else into Null. */
  lemma DoubleMinus(o: Obj)
    ensures o.NumberObj? ==> Minus(o).NumberObj? && Minus(o).n.Decimal? == o.n.Decimal?
    ensures o.NumberObj? && o.n.Decimal? ==> Val(Minus(o).n) == -Val(o.n)
    ensures Minus(Minus(o)) == if o.NumberObj? then o else NullObj
  {
    if o.NumberObj? {
      NegateTwice(o.n);
    }
  }

  /** `Obj.inspect` fails on the Null object and nowhere else. */
  lemma InspectFailsOnNull(o: Obj)
    ensures ObjInspect(o).Err? <==> o == NullObj
  {
  }

  /** A string or boolean literal's text comes back from inspecting what it evaluates
      to. */
  lemma LiteralsInspectAsWritten(s: string, b: bool)
    ensures ObjInspect(EvalExpr(StringLiteral(s)).obj) == Ok(s)
    ensures var text := if b then "true" else "false";
            ObjInspect(EvalExpr(BooleanLiteral(text)).obj) == Ok(text)
  {
  }

  /** The canonical text of any non-negative number evaluates to that number, and
      inspecting it gives the text back. */
  lemma NumberLiteralRoundTrip(n: Num)
    requires n.Decimal? && !n.negative && Canonical(n)
    ensures EvalExpr(NumberLiteral(NumberText(n))) == Produced(NumberObj(n))
    ensures ObjInspect(NumberObj(n)) == Ok(NumberText(n))
  {
    NumberTextParses(n);
  }

  /** The evaluator's own example of a number with decimal places. */
  lemma DecimalExample()
    ensures EvalExpr(NumberLiteral("1.234")) == Produced(NumberObj(Decimal(false, 1234, 3)))
  {
    PointParses("1", "234");
    assert "1" + "." + "234" == "1.234";
    assert "1" + "234" == "1234";
    assert DigitsValue("1234") == 1234 by {
      assert "1234"[..3] == "123" && "123"[..2] == "12" && "12"[..1] == "1" && "1"[..0] == "";
    }
  }

  /** The evaluator's own examples of `-`, on the trees the parser builds for them. */
  lemma MinusExamples()
    ensures EvalExpr(NumberLiteral("10")) == Produced(NumberObj(Decimal(false, 10, 0)))
    ensures EvalExpr(PrefixExpression("-", NumberLiteral("10"))) == Produced(NumberObj(Decimal(true, 10, 0)))
  {
    DigitsParse("10");
    assert DigitsValue("10") == 10 by {
      assert "10"[..1] == "1" && "1"[..0] == "";
    }
  }

  /** The evaluator's own examples of literals and of `!`. */
  lemma LiteralAndBangExamples()
    ensures EvalExpr(StringLiteral("hello, world")) == Produced(StringObj("hello, world"))
    ensures EvalExpr(BooleanLiteral("false")) == Produced(BooleanObj(false))
    ensures EvalExpr(NullLiteral("null")) == Produced(NullObj)
    ensures EvalExpr(PrefixExpression("!", NumberLiteral("2"))) == Produced(BooleanObj(false))
    ensures EvalExpr(PrefixExpression("!", PrefixExpression("!", NumberLiteral("2")))) == Produced(BooleanObj(true))
    ensures EvalExpr(PrefixExpression("!", PrefixExpression("!", BooleanLiteral("false")))) == Produced(BooleanObj(false))
  {
    DigitsParse("2");
  }

  /** A prefix operator other than `!` and `-` gives the host `null`, which `!` and `-`
      then cannot read: `!+1` throws. */
  lemma OtherPrefixThrows()
    ensures EvalExpr(PrefixExpression("+", NumberLiteral("1"))) == HostNullResult
    ensures EvalExpr(PrefixExpression("!", PrefixExpression("+", NumberLiteral("1")))) == Threw
    ensures EvalExpr(PrefixExpression("-", PrefixExpression("+", NumberLiteral("1")))) == Threw
  {
  }
}
