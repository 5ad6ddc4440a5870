/** The class `Motor` of Motor.py: an `Environment` object it fills with the
    natives and that assignments update, the count of external draws, and
    the lines `print` wrote.  Every method is proved to compute what
    MotorSpec says, from the state it started in. */
module Interpreting {
  import opened Support
  import opened Tokens
  import opened Host
  import opened MotorSpec
  import opened Environments

  class Motor {
    const host: Host
    /** `str(obj)` of a native function object */
    const objectText: Native -> string
    const environment: Environment<MValue>
    var draws: nat
    var output: seq<string>

    /** `__init__`: the six natives, each under its name. */
    constructor (host: Host, objectText: Native -> string)
      ensures this.host == host && this.objectText == objectText
      ensures fresh(environment) && environment.values == Natives
      ensures draws == 0 && output == []
    {
      var env := new Environment<MValue>();
      env.Define("clock", MNative(NativeClock));
      env.Define("sin", MNative(NativeSin));
      env.Define("cos", MNative(NativeCos));
      env.Define("sqrt", MNative(NativeSqrt));
      env.Define("pow", MNative(NativePow));
      env.Define("rand", MNative(NativeRand));
      this.host := host;
      this.objectText := objectText;
      environment := env;
      draws := 0;
      output := [];
    }

    /** `interpret(statements)`: the statements in list order until one
        raises. */
    method Interpret(statements: Option<seq<MStmt>>) returns (r: Outcome<MotorError>)
      modifies this, environment
      ensures |old(output)| <= |output| && output[..|old(output)|] == old(output)
      ensures Executed(r, environment.values, draws, output[|old(output)|..])
                == MotorSpec.Interpret(host, objectText, statements, old(environment.values), old(draws))
    {
      if statements.None? {
        assert output[|old(output)|..] == [];
        return Pass;
      }
      var stmts := statements.value;
      var i := 0;
      while i < |stmts|
        invariant 0 <= i <= |stmts|
        invariant |old(output)| <= |output| && output[..|old(output)|] == old(output)
        invariant Executed(Pass, environment.values, draws, output[|old(output)|..])
                    == Run(host, objectText, stmts[..i], old(environment.values), old(draws))
      {
        assert stmts[..i + 1][..i] == stmts[..i];
        ghost var before := output;
        var x := Execute(stmts[i]);
        assert output[|old(output)|..] == before[|old(output)|..] + output[|before|..];
        if x.Fail? {
          RunStops(host, objectText, stmts, i + 1, old(environment.values), old(draws));
          return x;
        }
        i := i + 1;
      }
      assert stmts[..i] == stmts;
      return Pass;
    }

    /** `execute(stmt)`, with `visit_expression_stmt` and
        `visit_print_stmt`. */
    method Execute(stmt: MStmt) returns (r: Outcome<MotorError>)
      modifies this, environment
      ensures |old(output)| <= |output| && output[..|old(output)|] == old(output)
      ensures Executed(r, environment.values, draws, output[|old(output)|..])
                == MotorSpec.Execute(host, objectText, stmt, old(environment.values), old(draws))
    {
      var valor := Evaluate(stmt.expression);
      if valor.Failure? {
        assert output[|old(output)|..] == [];
        return Fail(valor.error);
      }
      if stmt.Print? {
        output := output + [Stringify(host, objectText, valor.value)];
      }
      assert output[|old(output)|..] == if stmt.Print? then [Stringify(host, objectText, valor.value)] else [];
      return Pass;
    }

    /** `evaluate(expr)`: dispatches on the node. */
    method Evaluate(e: MExpr) returns (r: Result<MValue, MotorError>)
      modifies this, environment
      ensures output == old(output)
      ensures MEvaluated(r, environment.values, draws) == MEval(host, e, old(environment.values), old(draws))
      decreases e, 1
    {
      match e
      case Literal(v) => r := Success(v);
      case Agrupacion(inner) => r := Evaluate(inner);
      case Variable(name) => r := VisitVariable(name);
      case Asignacion(_, _) => r := VisitAssignment(e);
      case Unaria(_, _) => r := VisitUnary(e);
      case Binaria(_, _, _) => r := VisitBinary(e);
      case Llamada(_, _) => r := VisitCall(e);
    }

    /** `visit_variable_expr`: `environment.get`. */
    method VisitVariable(nombre: string) returns (r: Result<MValue, MotorError>)
      ensures r == MEval(host, Variable(nombre), environment.values, draws).result
    {
      var v := environment.Get(nombre);
      if v.Failure? {
        return Failure(Raised(v.error));
      }
      return Success(v.value);
    }

    /** `visit_asignacion_expr`: the value, then `environment.define`. */
    method VisitAssignment(e: MExpr) returns (r: Result<MValue, MotorError>)
      requires e.Asignacion?
      modifies this, environment
      ensures output == old(output)
      ensures MEvaluated(r, environment.values, draws) == MEval(host, e, old(environment.values), old(draws))
      decreases e, 0
    {
      var valor := Evaluate(e.valor);
      if valor.Failure? {
        return valor;
      }
      environment.Define(e.nombre, valor.value);
      return valor;
    }

    method VisitUnary(e: MExpr) returns (r: Result<MValue, MotorError>)
      requires e.Unaria?
      modifies this, environment
      ensures output == old(output)
      ensures MEvaluated(r, environment.values, draws) == MEval(host, e, old(environment.values), old(draws))
      decreases e, 0
    {
      var derecha := Evaluate(e.derecha);
      if derecha.Failure? {
        return derecha;
      }
      r := MotorUnary(host, e.operador, derecha.value);
    }

    method VisitBinary(e: MExpr) returns (r: Result<MValue, MotorError>)
      requires e.Binaria?
      modifies this, environment
      ensures output == old(output)
      ensures MEvaluated(r, environment.values, draws) == MEval(host, e, old(environment.values), old(draws))
      decreases e, 0
    {
      var izq := Evaluate(e.izquierda);
      if izq.Failure? {
        return izq;
      }
      var der := Evaluate(e.derecha);
      if der.Failure? {
        return der;
      }
      r := MotorBinary(host, e.operador, izq.value, der.value);
    }

    /** `visit_llamada_expr`: the callee and every argument first, then the
        callable check, the arity check and the call. */
    method VisitCall(e: MExpr) returns (r: Result<MValue, MotorError>)
      requires e.Llamada?
      modifies this, environment
      ensures output == old(output)
      ensures MEvaluated(r, environment.values, draws) == MEval(host, e, old(environment.values), old(draws))
      decreases e, 0
    {
      var callee := Evaluate(e.callee);
      if callee.Failure? {
        return callee;
      }
      ghost var env0 := environment.values;
      ghost var draws0 := draws;
      var argumentos: seq<MValue> := [];
      var i := 0;
      while i < |e.argumentos|
        invariant 0 <= i <= |e.argumentos|
        invariant output == old(output)
        invariant MArgsEvaluated(Success(argumentos), environment.values, draws)
                    == MEvalArgs(host, e.argumentos[..i], env0, draws0)
      {
        assert e.argumentos[..i + 1][..i] == e.argumentos[..i];
        var valor := Evaluate(e.argumentos[i]);
        if valor.Failure? {
          MEvalArgsStops(host, e.argumentos, i + 1, env0, draws0);
          return Failure(valor.error);
        }
        argumentos := argumentos + [valor.value];
        i := i + 1;
      }
      assert e.argumentos[..i] == e.argumentos;
      if !callee.value.MNative? {
        return Failure(Raised(NotCallable));
      }
      var f := callee.value.f;
      if |argumentos| != NativeArity(f) {
        return Failure(Raised(WrongArgumentCount(NativeArity(f))));
      }
      var (result, d) := CallNative(host, f, argumentos, draws);
      r := result;
      draws := d;
    }
  }

  /** Once a prefix of the arguments raises, the rest are not evaluated. */
  lemma {:induction false} MEvalArgsStops(host: Host, args: seq<MExpr>, k: nat, env: MEnv, draws: nat)
    requires k <= |args|
    requires MEvalArgs(host, args[..k], env, draws).result.Failure?
    ensures MEvalArgs(host, args, env, draws) == MEvalArgs(host, args[..k], env, draws)
    decreases |args|
  {
    if k < |args| {
      var init := args[..|args| - 1];
      assert init[..k] == args[..k];
      MEvalArgsStops(host, init, k, env, draws);
    } else {
      assert args[..k] == args;
    }
  }

  /** Once a statement raises, the ones after it do not run. */
  lemma {:induction false} RunStops(host: Host, objectText: Native -> string, stmts: seq<MStmt>, k: nat, env: MEnv, draws: nat)
    requires k <= |stmts|
    requires Run(host, objectText, stmts[..k], env, draws).outcome.Fail?
    ensures Run(host, objectText, stmts, env, draws) == Run(host, objectText, stmts[..k], env, draws)
    decreases |stmts|
  {
    if k < |stmts| {
      var init := stmts[..|stmts| - 1];
      assert init[..k] == stmts[..k];
      RunStops(host, objectText, init, k, env, draws);
    } else {
      assert stmts[..k] == stmts;
    }
  }
}
