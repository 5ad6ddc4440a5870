/** The tree ParserASA.py builds (the dataclasses of AST.py), with names held
    as strings, and the values the evaluator computes. */
module Ast {

  /** A literal's payload and a run-time value: float, str or None. */
  datatype Value = Num(n: real) | Str(s: string) | Nil

  datatype Expr =
    | Literal(val: Value)
    | Variable(name: string)
    | Assign(name: string, value: Expr)
    | Unary(op: string, right: Expr)
    | Binary(left: Expr, op: string, right: Expr)
    | Grouping(expr: Expr)
    | Call(callee: string, args: seq<Expr>)

  /** `ExprStmt(expr, print_result)` */
  datatype Stmt = ExprStmt(expr: Expr, printResult: bool)

  /** Does `e` contain an assignment anywhere? */
  predicate HasAssign(e: Expr)
  {
    match e
    case Literal(_) => false
    case Variable(_) => false
    case Assign(_, _) => true
    case Unary(_, r) => HasAssign(r)
    case Binary(l, _, r) => HasAssign(l) || HasAssign(r)
    case Grouping(g) => HasAssign(g)
    case Call(_, args) => exists i | 0 <= i < |args| :: HasAssign(args[i])
  }

  /** Does `e` contain a call anywhere? */
  predicate HasCall(e: Expr)
  {
    match e
    case Literal(_) => false
    case Variable(_) => false
    case Assign(_, v) => HasCall(v)
    case Unary(_, r) => HasCall(r)
    case Binary(l, _, r) => HasCall(l) || HasCall(r)
    case Grouping(g) => HasCall(g)
    case Call(_, _) => true
  }

  // The shapes the grammar levels produce.  Each level admits the one below it
  // and its own operators, with the operands the grammar puts on each side:
  // these predicates encode precedence and associativity.

  predicate IsExpression(e: Expr)
    decreases e, 6
  {
    if e.Assign? then IsExpression(e.value) else IsTerm(e)
  }

  /** `+`/`-` chains lean left: the right operand is a factor. */
  predicate IsTerm(e: Expr)
    decreases e, 5
  {
    if e.Binary? && e.op in {"+", "-"} then IsTerm(e.left) && IsFactor(e.right) else IsFactor(e)
  }

  /** `*`/`/`/`%` chains lean left: the right operand is a unary. */
  predicate IsFactor(e: Expr)
    decreases e, 4
  {
    if e.Binary? && e.op in {"*", "/", "%"} then IsFactor(e.left) && IsUnary(e.right) else IsUnary(e)
  }

  predicate IsUnary(e: Expr)
    decreases e, 3
  {
    if e.Unary? then e.op == "-" && IsUnary(e.right) else IsCall(e)
  }

  /** A primary, or one call of a name. */
  predicate IsCall(e: Expr)
    decreases e, 2
  {
    if e.Call? then forall i | 0 <= i < |e.args| :: IsExpression(e.args[i]) else IsPrimary(e)
  }

  predicate IsPrimary(e: Expr)
    decreases e, 1
  {
    e.Literal? || e.Variable? || (e.Grouping? && IsExpression(e.expr))
  }

  /** Each grammar level includes the one below it. */
  lemma ShapeLevels(e: Expr)
    ensures IsPrimary(e) ==> IsCall(e)
    ensures IsCall(e) ==> IsUnary(e)
    ensures IsUnary(e) ==> IsFactor(e)
    ensures IsFactor(e) ==> IsTerm(e)
    ensures IsTerm(e) ==> IsExpression(e)
  {
    if e.Assign? || e.Unary? || e.Binary? {
      assert !IsPrimary(e) && !IsCall(e);
      if !e.Unary? {
        assert !IsUnary(e);
        if e.Assign? {
          assert !IsFactor(e) && !IsTerm(e);
        }
      }
    }
  }
}
