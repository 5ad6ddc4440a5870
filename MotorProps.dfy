/** What Motor.py promises: its natives table, its operator rules, that
    assignment defines, the order of a call's checks, that `interpret` runs
    statements in order and stops at the first exception, and what
    `stringify` prints.  Then the two evaluators side by side: wherever
    Evaluador.py evaluates a call-free expression without raising, Motor.py
    computes the same value and the same variables. */
module MotorProps {
  import opened Support
  import opened Tokens
  import opened Host
  import opened MotorSpec
  import Ast
  import E = EvaluatorSpec

  /** After `__init__` the environment holds exactly the six natives, with
      arities clock/0, sin/1, cos/1, sqrt/1, pow/2, rand/0. */
  lemma NativesTable()
    ensures Natives.Keys == {"clock", "sin", "cos", "sqrt", "pow", "rand"}
    ensures forall k | k in Natives :: Natives[k].MNative?
    ensures NativeArity(Natives["clock"].f) == 0 && NativeArity(Natives["sin"].f) == 1
    ensures NativeArity(Natives["cos"].f) == 1 && NativeArity(Natives["sqrt"].f) == 1
    ensures NativeArity(Natives["pow"].f) == 2 && NativeArity(Natives["rand"].f) == 0
  {
  }

  /** `+` adds two numbers, joins two strings and raises its own message for
      anything else. */
  lemma SumRule(host: Host, l: MValue, r: MValue)
    ensures MotorBinary(host, Plus, l, r).Success? <==> (l.MNum? && r.MNum?) || (l.MStr? && r.MStr?)
    ensures MotorBinary(host, Plus, l, r).Failure? ==> MotorBinary(host, Plus, l, r).error == Raised(IncompatibleSum)
    ensures l.MNum? && r.MNum? ==> MotorBinary(host, Plus, l, r) == Success(MNum(l.n + r.n))
    ensures l.MStr? && r.MStr? ==> MotorBinary(host, Plus, l, r) == Success(MStr(l.s + r.s))
  {
  }

  /** `/` checks for a zero divisor with its own message; `%` does not, and
      a zero divisor reaches Python's own ZeroDivisionError. */
  lemma DivisorRules(host: Host, l: MValue)
    ensures MotorBinary(host, Slash, l, MNum(0.0)) == Failure(Raised(DivisionByZero))
    ensures ToFloat(host, l).Success? ==> MotorBinary(host, Mod, l, MNum(0.0)) == Failure(ZeroDivisionError)
  {
  }

  /** `-`, `*`, `/` and `%` convert with `float()`, the left operand first:
      the left operand's conversion error is the one raised. */
  lemma ConversionOrder(host: Host, op: TokenKind, l: MValue, r: MValue)
    requires op in {Minus, Star, Mod} || (op == Slash && r != MNum(0.0))
    ensures ToFloat(host, l).Failure? ==> MotorBinary(host, op, l, r) == Failure(ToFloat(host, l).error)
    ensures ToFloat(host, l).Success? && ToFloat(host, r).Failure? ==>
              MotorBinary(host, op, l, r) == Failure(ToFloat(host, r).error)
    ensures l.MNum? && r.MNum? && (op == Minus || op == Star) ==>
              MotorBinary(host, op, l, r) == Success(MNum(if op == Minus then l.n - r.n else l.n * r.n))
  {
    if l.MNum? && r.MNum? {
      if op == Minus {
        assert MotorBinary(host, Minus, l, r) == Success(MNum(l.n - r.n));
      } else if op == Star {
        assert ToFloat(host, l) == Success(l.n) && ToFloat(host, r) == Success(r.n);
        assert Arith(host, Star, l, r).Success? && Arith(host, Star, l, r).value.MNum?;
        assert Arith(host, Star, l, r).value.n == l.n * r.n;
      }
    }
  }

  /** Assignment uses `define`: the target is created if it was not there,
      and the assigned value is returned. */
  lemma AssignmentDefines(host: Host, name: string, value: MExpr, env: MEnv, draws: nat)
    requires MEval(host, value, env, draws).result.Success?
    ensures MEval(host, Asignacion(name, value), env, draws).result == MEval(host, value, env, draws).result
    ensures name in MEval(host, Asignacion(name, value), env, draws).env
    ensures MEval(host, Asignacion(name, value), env, draws).env[name] == MEval(host, value, env, draws).result.value
  {
  }

  /** A call evaluates the callee and every argument before it checks that
      the callee is callable: a non-callable callee is reported only once
      the arguments have run, and their assignments stand. */
  lemma CallableCheckAfterArguments(host: Host, callee: MExpr, args: seq<MExpr>, env: MEnv, draws: nat)
    requires MEval(host, callee, env, draws).result.Success?
    requires !MEval(host, callee, env, draws).result.value.MNative?
    ensures MEval(host, Llamada(callee, args), env, draws) ==
              var a := MEvalArgs(host, args, MEval(host, callee, env, draws).env, MEval(host, callee, env, draws).draws);
              MEvaluated(if a.result.Failure? then Failure(a.result.error) else Failure(Raised(NotCallable)), a.env, a.draws)
  {
  }

  /** A wrong argument count raises before the native runs: no draw is made. */
  lemma ArityBeforeCall(host: Host, f: Native, args: seq<MExpr>, env: MEnv, draws: nat)
    requires MEvalArgs(host, args, env, draws).result.Success? && |args| != NativeArity(f)
    ensures MEval(host, Llamada(Literal(MNative(f)), args), env, draws) ==
              MEvaluated(Failure(Raised(WrongArgumentCount(NativeArity(f)))),
                         MEvalArgs(host, args, env, draws).env, MEvalArgs(host, args, env, draws).draws)
  {
  }

  /** `interpret(None)` does nothing. */
  lemma InterpretNone(host: Host, objectText: Native -> string, env: MEnv, draws: nat)
    ensures Interpret(host, objectText, None, env, draws) == Executed(Pass, env, draws, [])
  {
  }

  /** Running `a + b` is running `a`, then `b` from where `a` left off,
      unless `a` raised; what they print comes out in that order. */
  lemma {:induction false} RunAppend(host: Host, objectText: Native -> string, a: seq<MStmt>, b: seq<MStmt>, env: MEnv, draws: nat)
    ensures Run(host, objectText, a + b, env, draws) ==
              if Run(host, objectText, a, env, draws).outcome.Fail? then Run(host, objectText, a, env, draws)
              else
                Executed(Run(host, objectText, b, Run(host, objectText, a, env, draws).env, Run(host, objectText, a, env, draws).draws).outcome,
                         Run(host, objectText, b, Run(host, objectText, a, env, draws).env, Run(host, objectText, a, env, draws).draws).env,
                         Run(host, objectText, b, Run(host, objectText, a, env, draws).env, Run(host, objectText, a, env, draws).draws).draws,
                         Run(host, objectText, a, env, draws).printed
                           + Run(host, objectText, b, Run(host, objectText, a, env, draws).env, Run(host, objectText, a, env, draws).draws).printed)
    decreases |b|
  {
    var p := Run(host, objectText, a, env, draws);
    if |b| == 0 {
      assert a + b == a;
      assert p.printed + [] == p.printed;
    } else {
      var b0 := b[..|b| - 1];
      assert (a + b)[..|a + b| - 1] == a + b0;
      assert (a + b)[|a + b| - 1] == b[|b| - 1];
      RunAppend(host, objectText, a, b0, env, draws);
      if p.outcome.Pass? {
        var q0 := Run(host, objectText, b0, p.env, p.draws);
        if q0.outcome.Pass? {
          var x := Execute(host, objectText, b[|b| - 1], q0.env, q0.draws);
          assert p.printed + (q0.printed + x.printed) == (p.printed + q0.printed) + x.printed;
        }
      }
    }
  }

  /** The first statement runs first; the rest run only if it did not raise. */
  lemma FirstStatementFirst(host: Host, objectText: Native -> string, s: MStmt, rest: seq<MStmt>, env: MEnv, draws: nat)
    ensures Run(host, objectText, [s] + rest, env, draws) ==
              if Execute(host, objectText, s, env, draws).outcome.Fail? then Execute(host, objectText, s, env, draws)
              else
                Executed(Run(host, objectText, rest, Execute(host, objectText, s, env, draws).env, Execute(host, objectText, s, env, draws).draws).outcome,
                         Run(host, objectText, rest, Execute(host, objectText, s, env, draws).env, Execute(host, objectText, s, env, draws).draws).env,
                         Run(host, objectText, rest, Execute(host, objectText, s, env, draws).env, Execute(host, objectText, s, env, draws).draws).draws,
                         Execute(host, objectText, s, env, draws).printed
                           + Run(host, objectText, rest, Execute(host, objectText, s, env, draws).env, Execute(host, objectText, s, env, draws).draws).printed)
  {
    RunAppend(host, objectText, [s], rest, env, draws);
    assert [s][..0] == [];
    var x := Execute(host, objectText, s, env, draws);
    assert Run(host, objectText, [s], env, draws) == Executed(x.outcome, x.env, x.draws, [] + x.printed);
    assert [] + x.printed == x.printed;
  }

  /** `stringify`: None is "null", a string is itself, and a float is its
      text without a trailing ".0". */
  lemma StringifyCases(host: Host, objectText: Native -> string, v: MValue)
    ensures v.MNil? ==> Stringify(host, objectText, v) == "null"
    ensures v.MStr? ==> Stringify(host, objectText, v) == v.s
    ensures v.MNum? ==>
              Stringify(host, objectText, v) + (if EndsWithPointZero(host.floatText(v.n)) then ".0" else "")
                == host.floatText(v.n)
  {
    if v.MNum? {
      var text := host.floatText(v.n);
      if EndsWithPointZero(text) {
        assert text[..|text| - 2] + ".0" == text;
      }
    }
  }

  // ---------------------------------------------------------------------
  // Evaluador.py and Motor.py side by side

  function LiftValue(v: Ast.Value): MValue
  {
    match v
    case Num(n) => MNum(n)
    case Str(s) => MStr(s)
    case Nil => MNil
  }

  /** The token kind Motor.py compares with, for an operator Evaluador.py
      compares with; an operator of neither kind maps to one that neither
      evaluator acts on. */
  function OpKind(op: string): TokenKind
  {
    if op == "+" then Plus
    else if op == "-" then Minus
    else if op == "*" then Star
    else if op == "/" then Slash
    else if op == "%" then Mod
    else Eof
  }

  /** An AST.py tree as the Expr.py nodes Motor.py walks; a call's name
      becomes a variable read. */
  function Translate(e: Ast.Expr): MExpr
    decreases e, 1
  {
    match e
    case Literal(v) => Literal(LiftValue(v))
    case Variable(name) => Variable(name)
    case Assign(name, value) => Asignacion(name, Translate(value))
    case Unary(op, right) => Unaria(OpKind(op), Translate(right))
    case Binary(left, op, right) => Binaria(Translate(left), OpKind(op), Translate(right))
    case Grouping(inner) => Agrupacion(Translate(inner))
    case Call(callee, args) => Llamada(Variable(callee), TranslateArgs(args))
  }

  function TranslateArgs(args: seq<Ast.Expr>): seq<MExpr>
    decreases args, 0
  {
    if |args| == 0 then [] else [Translate(args[0])] + TranslateArgs(args[1..])
  }

  /** Motor.py's environment holds every variable of Evaluador.py's table,
      with the same value. */
  predicate Related(env: E.Env, m: MEnv)
  {
    forall k | k in env :: k in m && m[k] == LiftValue(env[k])
  }

  /** On an operation Evaluador.py accepts, Motor.py computes the same value. */
  lemma BinaryAgrees(host: Host, op: string, l: Ast.Value, r: Ast.Value)
    requires E.ApplyBinary(host, op, l, r).Success?
    ensures MotorBinary(host, OpKind(op), LiftValue(l), LiftValue(r)) == Success(LiftValue(E.ApplyBinary(host, op, l, r).value))
  {
    if l.Num? && r.Num? && op == "*" {
      var ml, mr := LiftValue(l), LiftValue(r);
      assert ToFloat(host, ml) == Success(l.n) && ToFloat(host, mr) == Success(r.n);
      assert Arith(host, Star, ml, mr).Success? && Arith(host, Star, ml, mr).value.MNum?;
      assert Arith(host, Star, ml, mr).value.n == l.n * r.n;
    }
  }

  lemma UnaryAgrees(host: Host, op: string, v: Ast.Value)
    requires E.ApplyUnary(op, v).Success?
    ensures MotorUnary(host, OpKind(op), LiftValue(v)) == Success(LiftValue(E.ApplyUnary(op, v).value))
  {
  }

  /** Wherever Evaluador.py evaluates a call-free expression without raising,
      Motor.py evaluates its translation to the same value, keeps the tables
      related, and neither makes a draw. */
  lemma {:induction false} EvaluatorsAgree(host: Host, e: Ast.Expr, env: E.Env, m: MEnv, draws: nat)
    requires !Ast.HasCall(e) && Related(env, m)
    requires E.Eval(host, e, env, draws).result.Success?
    ensures MEval(host, Translate(e), m, draws).result == Success(LiftValue(E.Eval(host, e, env, draws).result.value))
    ensures Related(E.Eval(host, e, env, draws).env, MEval(host, Translate(e), m, draws).env)
    ensures E.Eval(host, e, env, draws).draws == draws && MEval(host, Translate(e), m, draws).draws == draws
    decreases e
  {
    match e
    case Literal(_) =>
    case Variable(_) =>
    case Assign(name, value) =>
      EvaluatorsAgree(host, value, env, m, draws);
    case Unary(op, right) =>
      EvaluatorsAgree(host, right, env, m, draws);
      UnaryAgrees(host, op, E.Eval(host, right, env, draws).result.value);
    case Binary(left, op, right) =>
      EvaluatorsAgree(host, left, env, m, draws);
      var l := E.Eval(host, left, env, draws);
      var ml := MEval(host, Translate(left), m, draws);
      EvaluatorsAgree(host, right, l.env, ml.env, draws);
      BinaryAgrees(host, op, l.result.value, E.Eval(host, right, l.env, draws).result.value);
    case Grouping(inner) =>
      EvaluatorsAgree(host, inner, env, m, draws);
  }
}
