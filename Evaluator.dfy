/** The class `Evaluador` of Evaluador.py: the variable table `entorno`,
    which assignments update in place, the fixed table `funciones`, and the
    count of external draws.  Every visitor is proved to compute what
    EvaluatorSpec says, from the state it started in. */
module Evaluation {
  import opened Support
  import opened Ast
  import opened Host
  import opened EvaluatorSpec

  class Evaluator {
    const host: Host
    const funciones: map<string, Builtin>
    var entorno: Env
    var draws: nat

    ghost predicate Valid()
      reads this
    {
      funciones == Functions
    }

    constructor (host: Host)
      ensures Valid() && this.host == host && entorno == map[] && draws == 0
    {
      this.host := host;
      funciones := Functions;
      entorno := map[];
      draws := 0;
    }

    /** `visit_sentencia` */
    method VisitStatement(s: Stmt) returns (r: Result<(Value, bool), string>)
      requires Valid()
      modifies this
      ensures StmtEvaluated(r, entorno, draws) == EvalStatement(host, s, old(entorno), old(draws))
    {
      var valor := Evaluate(s.expr);
      if valor.Failure? {
        return Failure(valor.error);
      }
      var debeImprimir := s.printResult;
      return Success((valor.value, debeImprimir));
    }

    /** `evaluar(nodo)`: dispatches on the node. */
    method Evaluate(e: Expr) returns (r: Result<Value, string>)
      requires Valid()
      modifies this
      ensures Evaluated(r, entorno, draws) == Eval(host, e, old(entorno), old(draws))
      decreases e, 1
    {
      match e
      case Literal(v) => r := Success(v);
      case Variable(name) => r := VisitVariable(name);
      case Assign(_, _) => r := VisitAssignment(e);
      case Unary(_, _) => r := VisitUnary(e);
      case Binary(_, _, _) => r := VisitBinary(e);
      case Grouping(inner) => r := Evaluate(inner);
      case Call(_, _) => r := VisitCall(e);
    }

    method VisitBinary(e: Expr) returns (r: Result<Value, string>)
      requires Valid() && e.Binary?
      modifies this
      ensures Evaluated(r, entorno, draws) == Eval(host, e, old(entorno), old(draws))
      decreases e, 0
    {
      var izquierda := Evaluate(e.left);
      if izquierda.Failure? {
        return izquierda;
      }
      var derecha := Evaluate(e.right);
      if derecha.Failure? {
        return derecha;
      }
      r := ApplyBinary(host, e.op, izquierda.value, derecha.value);
    }

    method VisitUnary(e: Expr) returns (r: Result<Value, string>)
      requires Valid() && e.Unary?
      modifies this
      ensures Evaluated(r, entorno, draws) == Eval(host, e, old(entorno), old(draws))
      decreases e, 0
    {
      var expresion := Evaluate(e.right);
      if expresion.Failure? {
        return expresion;
      }
      r := ApplyUnary(e.op, expresion.value);
    }

    /** `visit_variable`: reading never changes the table. */
    method VisitVariable(nombre: string) returns (r: Result<Value, string>)
      requires Valid()
      ensures r == Eval(host, Variable(nombre), entorno, draws).result
      ensures r.Success? <==> nombre in entorno
      ensures r.Success? ==> r.value == entorno[nombre]
    {
      if nombre in entorno {
        return Success(entorno[nombre]);
      }
      return Failure(UndefinedVariable(nombre));
    }

    /** `visit_asignacion`: the value first, then the store. */
    method VisitAssignment(e: Expr) returns (r: Result<Value, string>)
      requires Valid() && e.Assign?
      modifies this
      ensures Evaluated(r, entorno, draws) == Eval(host, e, old(entorno), old(draws))
      decreases e, 0
    {
      var valor := Evaluate(e.value);
      if valor.Failure? {
        return valor;
      }
      entorno := entorno[e.name := valor.value];
      return valor;
    }

    /** `visit_llamada`: the name is looked up before any argument is
        evaluated; the arguments are evaluated in order; then the arity is
        checked and the function called. */
    method VisitCall(e: Expr) returns (r: Result<Value, string>)
      requires Valid() && e.Call?
      modifies this
      ensures Evaluated(r, entorno, draws) == Eval(host, e, old(entorno), old(draws))
      decreases e, 0
    {
      if e.callee !in funciones {
        return Failure(UndefinedFunction(e.callee));
      }
      var funcion := funciones[e.callee];
      var argumentos: seq<Value> := [];
      var i := 0;
      while i < |e.args|
        invariant 0 <= i <= |e.args|
        invariant ArgsEvaluated(Success(argumentos), entorno, draws) == EvalArgs(host, e.args[..i], old(entorno), old(draws))
        invariant Valid()
      {
        assert e.args[..i + 1][..i] == e.args[..i];
        var valor := Evaluate(e.args[i]);
        if valor.Failure? {
          EvalArgsStops(host, e.args, i + 1, old(entorno), old(draws));
          return Failure(valor.error);
        }
        argumentos := argumentos + [valor.value];
        i := i + 1;
      }
      assert e.args[..i] == e.args;
      if |argumentos| != Arity(funcion) {
        return Failure(ArityMismatch(e.callee, Arity(funcion), |argumentos|));
      }
      var (result, d) := Invoke(host, funcion, argumentos, draws);
      r := result;
      draws := d;
    }
  }

  /** Once a prefix of the arguments raises, the rest are not evaluated. */
  lemma {:induction false} EvalArgsStops(host: Host, args: seq<Expr>, k: nat, env: Env, draws: nat)
    requires k <= |args|
    requires EvalArgs(host, args[..k], env, draws).result.Failure?
    ensures EvalArgs(host, args, env, draws) == EvalArgs(host, args[..k], env, draws)
    decreases |args|
  {
    if k < |args| {
      var init := args[..|args| - 1];
      assert init[..k] == args[..k];
      EvalArgsStops(host, init, k, env, draws);
    } else {
      assert args[..k] == args;
    }
  }
}
