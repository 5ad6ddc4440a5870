/** What Evaluador.py promises about evaluation: the type rules and zero
    checks of the operators, the built-in table and its argument checks, the
    order in which operands and arguments are evaluated, and what an
    evaluation can do to the variable table and the draw count. */
module EvaluatorProps {
  import opened Support
  import opened Ast
  import opened Host
  import opened EvaluatorSpec

  // ---------------------------------------------------------------------
  // Operators

  predicate Numbers(l: Value, r: Value)
  {
    l.Num? && r.Num?
  }

  /** When `visit_binaria` does not raise, stated independently of the
      order of its checks. */
  predicate BinaryDefined(op: string, l: Value, r: Value)
  {
    && (op == "+" ==> Numbers(l, r) || (l.Str? && r.Str?))
    && (op == "-" || op == "*" ==> Numbers(l, r))
    && (op == "/" || op == "%" ==> Numbers(l, r) && r.n != 0.0)
  }

  /** `+` adds two numbers or joins two strings; `-`, `*`, `/`, `%` need two
      numbers; `/` and `%` refuse a zero divisor with their own message and
      every other refusal names both operand types; any other operator
      gives None. */
  lemma BinaryRules(host: Host, op: string, l: Value, r: Value)
    ensures ApplyBinary(host, op, l, r).Success? <==> BinaryDefined(op, l, r)
    ensures ApplyBinary(host, op, l, r).Failure? ==>
              ApplyBinary(host, op, l, r).error ==
                if (op == "/" || op == "%") && Numbers(l, r) then
                  (if op == "/" then DivisionByZero else ModuloByZero)
                else Incompatible(op, l, r)
    ensures op == "+" && Numbers(l, r) ==> ApplyBinary(host, op, l, r) == Success(Num(l.n + r.n))
    ensures op == "+" && l.Str? && r.Str? ==> ApplyBinary(host, op, l, r) == Success(Str(l.s + r.s))
    ensures op == "-" && Numbers(l, r) ==> ApplyBinary(host, op, l, r) == Success(Num(l.n - r.n))
    ensures op == "*" && Numbers(l, r) ==> ApplyBinary(host, op, l, r) == Success(Num(l.n * r.n))
    ensures op == "/" && Numbers(l, r) && r.n != 0.0 ==>
              ApplyBinary(host, op, l, r).value.Num? && ApplyBinary(host, op, l, r).value.n * r.n == l.n
    ensures op == "%" && Numbers(l, r) && r.n != 0.0 ==> ApplyBinary(host, op, l, r) == Success(Num(host.mod(l.n, r.n)))
    ensures op !in {"+", "-", "*", "/", "%"} ==> ApplyBinary(host, op, l, r) == Success(Nil)
  {
  }

  /** Unary `-` negates a number and refuses anything else; negating twice
      gives the number back. */
  lemma UnaryRules(op: string, v: Value)
    ensures ApplyUnary(op, v).Success? <==> op != "-" || v.Num?
    ensures op == "-" && v.Num? ==> ApplyUnary(op, v) == Success(Num(-v.n))
    ensures op == "-" && !v.Num? ==> ApplyUnary(op, v) == Failure(NonNumericNegation(v))
    ensures op == "-" && v.Num? ==> ApplyUnary(op, ApplyUnary(op, v).value) == Success(v)
    ensures op != "-" ==> ApplyUnary(op, v) == Success(Nil)
  {
  }

  // ---------------------------------------------------------------------
  // Built-in functions

  /** `funciones` holds exactly rand/0, sin/1, cos/1, sqrt/1 and pow/2. */
  lemma FunctionTable()
    ensures Functions.Keys == {"rand", "sin", "cos", "sqrt", "pow"}
    ensures Arity(Functions["rand"]) == 0 && Arity(Functions["sin"]) == 1 && Arity(Functions["cos"]) == 1
    ensures Arity(Functions["sqrt"]) == 1 && Arity(Functions["pow"]) == 2
  {
  }

  /** A built-in raises exactly for a non-numeric argument or the square
      root of a negative number; only `rand` draws, and every result is a
      number. */
  lemma BuiltinChecks(host: Host, b: Builtin, args: seq<Value>, draws: nat)
    requires |args| == Arity(b)
    ensures Invoke(host, b, args, draws).0.Failure? <==>
              || ((b == Sin || b == Cos || b == Sqrt) && !args[0].Num?)
              || (b == Sqrt && args[0].Num? && args[0].n < 0.0)
              || (b == Pow && !Numbers(args[0], args[1]))
    ensures Invoke(host, b, args, draws).0.Success? ==> Invoke(host, b, args, draws).0.value.Num?
    ensures Invoke(host, b, args, draws).1 == if b == Rand then draws + 1 else draws
    ensures b == Pow && !args[0].Num? ==>
              Invoke(host, b, args, draws).0 == Failure(NonNumericPowArgument("primer", args[0]))
    ensures b == Sqrt && args[0].Num? && args[0].n < 0.0 ==>
              Invoke(host, b, args, draws).0 == Failure(NegativeRoot(host, args[0].n))
  {
  }

  // ---------------------------------------------------------------------
  // Order of evaluation

  /** When the left operand raises, the right one is never evaluated: its
      assignments and draws do not happen. */
  lemma LeftOperandFirst(host: Host, l: Expr, op: string, r: Expr, env: Env, draws: nat)
    requires Eval(host, l, env, draws).result.Failure?
    ensures Eval(host, Binary(l, op, r), env, draws) == Eval(host, l, env, draws)
  {
  }

  /** Both operands are evaluated before the operator's check: a right
      operand that raises wins over operands of the wrong type. */
  lemma OperandsBeforeCheck(host: Host, l: Expr, op: string, r: Expr, env: Env, draws: nat)
    requires Eval(host, l, env, draws).result.Success?
    requires Eval(host, r, Eval(host, l, env, draws).env, Eval(host, l, env, draws).draws).result.Failure?
    ensures Eval(host, Binary(l, op, r), env, draws) ==
              Eval(host, r, Eval(host, l, env, draws).env, Eval(host, l, env, draws).draws)
  {
  }

  /** `x + (x = 1)` with no `x` defined raises for the read of `x`, and the
      assignment on the right never happens. */
  lemma ReadBeforeAssignment(host: Host)
    ensures Eval(host, Binary(Variable("x"), "+", Assign("x", Literal(Num(1.0)))), map[], 0)
              == Evaluated(Failure(UndefinedVariable("x")), map[], 0)
  {
  }

  /** `(x = 2) * x`: the right operand sees the left one's assignment. */
  lemma RightSeesLeft(host: Host)
    ensures Eval(host, Binary(Grouping(Assign("x", Literal(Num(2.0)))), "*", Variable("x")), map[], 0)
              == Evaluated(Success(Num(4.0)), map["x" := Num(2.0)], 0)
  {
    var l := Grouping(Assign("x", Literal(Num(2.0))));
    assert Eval(host, l, map[], 0) == Evaluated(Success(Num(2.0)), map["x" := Num(2.0)], 0);
  }

  /** `"a" - y` with `y` undefined reports the undefined name, not the
      operand types. */
  lemma UndefinedBeforeTypes(host: Host)
    ensures Eval(host, Binary(Literal(Str("a")), "-", Variable("y")), map[], 0).result
              == Failure(UndefinedVariable("y"))
  {
  }

  // ---------------------------------------------------------------------
  // Arguments

  /** The argument loop in its own order: the first argument first, then the
      rest from the state it left. */
  function EvalArgsInOrder(host: Host, args: seq<Expr>, env: Env, draws: nat): ArgsEvaluated
    decreases |args|
  {
    if |args| == 0 then ArgsEvaluated(Success([]), env, draws)
    else
      var v := Eval(host, args[0], env, draws);
      if v.result.Failure? then ArgsEvaluated(Failure(v.result.error), v.env, v.draws)
      else
        var rest := EvalArgsInOrder(host, args[1..], v.env, v.draws);
        if rest.result.Failure? then rest
        else ArgsEvaluated(Success([v.result.value] + rest.result.value), rest.env, rest.draws)
  }

  /** Evaluating one list after another: the second runs from the state the
      first left, and only if the first did not raise. */
  function Chain(p: ArgsEvaluated, q: ArgsEvaluated): ArgsEvaluated
  {
    if p.result.Failure? then p
    else if q.result.Failure? then q
    else ArgsEvaluated(Success(p.result.value + q.result.value), q.env, q.draws)
  }

  /** Evaluating `a + b` is evaluating `a`, then `b` from where `a` left off. */
  lemma {:induction false} EvalArgsAppend(host: Host, a: seq<Expr>, b: seq<Expr>, env: Env, draws: nat)
    ensures EvalArgs(host, a + b, env, draws) ==
              Chain(EvalArgs(host, a, env, draws),
                    EvalArgs(host, b, EvalArgs(host, a, env, draws).env, EvalArgs(host, a, env, draws).draws))
    decreases |b|
  {
    var p := EvalArgs(host, a, env, draws);
    if |b| == 0 {
      assert a + b == a;
      if p.result.Success? {
        assert p.result.value + [] == p.result.value;
      }
    } else {
      var b0 := b[..|b| - 1];
      var x := b[|b| - 1];
      assert (a + b)[..|a + b| - 1] == a + b0;
      assert (a + b)[|a + b| - 1] == x;
      EvalArgsAppend(host, a, b0, env, draws);
      if p.result.Success? {
        var q0 := EvalArgs(host, b0, p.env, p.draws);
        if q0.result.Success? {
          var v := Eval(host, x, q0.env, q0.draws);
          if v.result.Success? {
            assert p.result.value + (q0.result.value + [v.result.value])
                == (p.result.value + q0.result.value) + [v.result.value];
          }
        }
      }
    }
  }

  /** `for arg in llamada.argumentos`: the arguments are evaluated left to
      right, each from the state the previous one left. */
  lemma {:induction false} ArgumentsLeftToRight(host: Host, args: seq<Expr>, env: Env, draws: nat)
    ensures EvalArgs(host, args, env, draws) == EvalArgsInOrder(host, args, env, draws)
    decreases |args|
  {
    if |args| > 0 {
      var rest := args[1..];
      assert args == [args[0]] + rest;
      assert [args[0]][..0] == [];
      EvalArgsAppend(host, [args[0]], rest, env, draws);
      var v := Eval(host, args[0], env, draws);
      var first := EvalArgs(host, [args[0]], env, draws);
      assert first.env == v.env && first.draws == v.draws;
      assert first.result == if v.result.Failure? then Failure(v.result.error) else Success([] + [v.result.value]);
      ArgumentsLeftToRight(host, rest, v.env, v.draws);
      if v.result.Success? {
        var q := EvalArgs(host, rest, v.env, v.draws);
        if q.result.Success? {
          assert ([] + [v.result.value]) + q.result.value == [v.result.value] + q.result.value;
        }
      }
    }
  }

  /** An unknown function name raises before any argument is evaluated,
      whatever the arguments would do. */
  lemma UnknownFunctionFirst(host: Host, callee: string, args: seq<Expr>, env: Env, draws: nat)
    requires callee !in Functions
    ensures Eval(host, Call(callee, args), env, draws) == Evaluated(Failure(UndefinedFunction(callee)), env, draws)
  {
  }

  /** A wrong argument count raises only after every argument has been
      evaluated, and their assignments stand. */
  lemma ArityAfterArguments(host: Host, callee: string, args: seq<Expr>, env: Env, draws: nat)
    requires callee in Functions && |args| != Arity(Functions[callee])
    requires EvalArgs(host, args, env, draws).result.Success?
    ensures Eval(host, Call(callee, args), env, draws) ==
              Evaluated(Failure(ArityMismatch(callee, Arity(Functions[callee]), |args|)),
                        EvalArgs(host, args, env, draws).env, EvalArgs(host, args, env, draws).draws)
  {
  }

  // ---------------------------------------------------------------------
  // Effects on the state

  /** `visit_asignacion` stores the value it evaluated and returns it; when
      the value raises, nothing is stored under the name. */
  lemma AssignmentStores(host: Host, name: string, value: Expr, env: Env, draws: nat)
    ensures Eval(host, Assign(name, value), env, draws).result == Eval(host, value, env, draws).result
    ensures Eval(host, value, env, draws).result.Success? ==>
              Eval(host, Assign(name, value), env, draws).env ==
                Eval(host, value, env, draws).env[name := Eval(host, value, env, draws).result.value]
    ensures Eval(host, value, env, draws).result.Failure? ==>
              Eval(host, Assign(name, value), env, draws).env == Eval(host, value, env, draws).env
  {
  }

  /** An expression without assignments leaves `entorno` as it was. */
  lemma {:induction false} PureKeepsTable(host: Host, e: Expr, env: Env, draws: nat)
    requires !HasAssign(e)
    ensures Eval(host, e, env, draws).env == env
    decreases e
  {
    match e
    case Literal(_) =>
    case Variable(_) =>
    case Unary(_, r) => PureKeepsTable(host, r, env, draws);
    case Binary(l, _, r) =>
      PureKeepsTable(host, l, env, draws);
      var lv := Eval(host, l, env, draws);
      PureKeepsTable(host, r, lv.env, lv.draws);
    case Grouping(g) => PureKeepsTable(host, g, env, draws);
    case Call(c, args) =>
      if c in Functions {
        PureArgsKeepTable(host, args, env, draws);
      }
  }

  lemma {:induction false} PureArgsKeepTable(host: Host, args: seq<Expr>, env: Env, draws: nat)
    requires forall i | 0 <= i < |args| :: !HasAssign(args[i])
    ensures EvalArgs(host, args, env, draws).env == env
    decreases args
  {
    if |args| > 0 {
      var init := args[..|args| - 1];
      PureArgsKeepTable(host, init, env, draws);
      var p := EvalArgs(host, init, env, draws);
      if p.result.Success? {
        PureKeepsTable(host, args[|args| - 1], p.env, p.draws);
      }
    }
  }

  /** If the value of an assignment raises and has no assignment of its own,
      `entorno` is unchanged. */
  lemma FailedAssignmentKeepsTable(host: Host, name: string, value: Expr, env: Env, draws: nat)
    requires !HasAssign(value) && Eval(host, value, env, draws).result.Failure?
    ensures Eval(host, Assign(name, value), env, draws).result == Eval(host, value, env, draws).result
    ensures Eval(host, Assign(name, value), env, draws).env == env
  {
    PureKeepsTable(host, value, env, draws);
  }

  /** Evaluation never removes a name from `entorno` and never takes back a
      draw; a successful assignment leaves its name defined. */
  lemma {:induction false} TableGrows(host: Host, e: Expr, env: Env, draws: nat)
    ensures env.Keys <= Eval(host, e, env, draws).env.Keys
    ensures draws <= Eval(host, e, env, draws).draws
    ensures e.Assign? && Eval(host, e, env, draws).result.Success? ==>
              Eval(host, e, env, draws).env[e.name] == Eval(host, e, env, draws).result.value
    decreases e
  {
    match e
    case Literal(_) =>
    case Variable(_) =>
    case Assign(_, v) => TableGrows(host, v, env, draws);
    case Unary(_, r) => TableGrows(host, r, env, draws);
    case Binary(l, _, r) =>
      TableGrows(host, l, env, draws);
      var lv := Eval(host, l, env, draws);
      TableGrows(host, r, lv.env, lv.draws);
    case Grouping(g) => TableGrows(host, g, env, draws);
    case Call(c, args) =>
      if c in Functions {
        ArgsTableGrows(host, args, env, draws);
      }
  }

  lemma {:induction false} ArgsTableGrows(host: Host, args: seq<Expr>, env: Env, draws: nat)
    ensures env.Keys <= EvalArgs(host, args, env, draws).env.Keys
    ensures draws <= EvalArgs(host, args, env, draws).draws
    decreases args
  {
    if |args| > 0 {
      var init := args[..|args| - 1];
      ArgsTableGrows(host, init, env, draws);
      var p := EvalArgs(host, init, env, draws);
      if p.result.Success? {
        TableGrows(host, args[|args| - 1], p.env, p.draws);
      }
    }
  }

  /** Only a call of `rand` draws: an expression without calls leaves the
      count as it was. */
  lemma {:induction false} NoCallNoDraws(host: Host, e: Expr, env: Env, draws: nat)
    requires !HasCall(e)
    ensures Eval(host, e, env, draws).draws == draws
    decreases e
  {
    match e
    case Literal(_) =>
    case Variable(_) =>
    case Assign(_, v) => NoCallNoDraws(host, v, env, draws);
    case Unary(_, r) => NoCallNoDraws(host, r, env, draws);
    case Binary(l, _, r) =>
      NoCallNoDraws(host, l, env, draws);
      var lv := Eval(host, l, env, draws);
      NoCallNoDraws(host, r, lv.env, lv.draws);
    case Grouping(g) => NoCallNoDraws(host, g, env, draws);
  }

  // ---------------------------------------------------------------------
  // Statements

  /** `visit_sentencia` returns the expression's value with the print flag
      of the statement, and raises exactly when the expression does. */
  lemma StatementResult(host: Host, s: Stmt, env: Env, draws: nat)
    ensures EvalStatement(host, s, env, draws).result.Success? <==> Eval(host, s.expr, env, draws).result.Success?
    ensures EvalStatement(host, s, env, draws).result.Success? ==>
              EvalStatement(host, s, env, draws).result.value ==
                (Eval(host, s.expr, env, draws).result.value, s.printResult)
    ensures EvalStatement(host, s, env, draws).result.Failure? ==>
              EvalStatement(host, s, env, draws).result.error == Eval(host, s.expr, env, draws).result.error
    ensures EvalStatement(host, s, env, draws).env == Eval(host, s.expr, env, draws).env
  {
  }
}
