/** What the tree-walking evaluator of Evaluador.py computes.  Evaluation
    runs against the variable table `entorno` and the count of external
    draws made so far; it returns the value or the ErrorSemantico message,
    together with the table and the count as the evaluation left them.  An
    exception does not undo assignments made before it, so the final state
    is reported on failure too. */
module EvaluatorSpec {
  import opened Support
  import opened Ast
  import opened Host

  type Env = map<string, Value>

  datatype Evaluated = Evaluated(result: Result<Value, string>, env: Env, draws: nat)

  datatype ArgsEvaluated = ArgsEvaluated(result: Result<seq<Value>, string>, env: Env, draws: nat)

  /** The built-in functions of the `funciones` table. */
  datatype Builtin = Rand | Sin | Cos | Sqrt | Pow

  function Arity(b: Builtin): nat
  {
    match b
    case Rand => 0
    case Sin => 1
    case Cos => 1
    case Sqrt => 1
    case Pow => 2
  }

  /** The table `Evaluador.__init__` builds. */
  const Functions: map<string, Builtin> :=
    map["rand" := Rand, "sin" := Sin, "cos" := Cos, "sqrt" := Sqrt, "pow" := Pow]

  /** `type(v).__name__`: numbers are floats throughout. */
  function TypeName(v: Value): string
  {
    match v
    case Num(_) => "float"
    case Str(_) => "str"
    case Nil => "NoneType"
  }

  function UndefinedVariable(name: string): string
  {
    "Variable no definida: '" + name + "'"
  }

  function UndefinedFunction(name: string): string
  {
    "Función no definida: '" + name + "'"
  }

  function ArityMismatch(name: string, arity: nat, given: nat): string
  {
    "La función '" + name + "' espera " + NatToString(arity) + " argumento(s), pero se recibieron "
      + NatToString(given)
  }

  function Incompatible(op: string, l: Value, r: Value): string
  {
    "Incompatibilidad de operandos para '" + op + "': " + TypeName(l) + " y " + TypeName(r)
  }

  const DivisionByZero := "División por cero"
  const ModuloByZero := "Módulo por cero"

  function NonNumericNegation(v: Value): string
  {
    "El operador unario '-' requiere un operando numérico, se recibió: " + TypeName(v)
  }

  function NonNumericArgument(name: string, v: Value): string
  {
    name + "() requiere un argumento numérico, se recibió: " + TypeName(v)
  }

  function NegativeRoot(host: Host, x: real): string
  {
    "sqrt() no puede calcular la raíz cuadrada de un número negativo: " + host.floatText(x)
  }

  function NonNumericPowArgument(which: string, v: Value): string
  {
    "pow() requiere argumentos numéricos, el " + which + " argumento es: " + TypeName(v)
  }

  /** The operator step of `visit_binaria`, on operands already evaluated.
      An operator outside the five gives None. */
  function ApplyBinary(host: Host, op: string, l: Value, r: Value): Result<Value, string>
  {
    if op == "+" then
      if l.Num? && r.Num? then Success(Num(l.n + r.n))
      else if l.Str? && r.Str? then Success(Str(l.s + r.s))
      else Failure(Incompatible(op, l, r))
    else if op == "-" then
      if l.Num? && r.Num? then Success(Num(l.n - r.n)) else Failure(Incompatible(op, l, r))
    else if op == "*" then
      if l.Num? && r.Num? then Success(Num(l.n * r.n)) else Failure(Incompatible(op, l, r))
    else if op == "/" then
      if l.Num? && r.Num? then
        if r.n == 0.0 then Failure(DivisionByZero) else Success(Num(l.n / r.n))
      else Failure(Incompatible(op, l, r))
    else if op == "%" then
      if l.Num? && r.Num? then
        if r.n == 0.0 then Failure(ModuloByZero) else Success(Num(host.mod(l.n, r.n)))
      else Failure(Incompatible(op, l, r))
    else Success(Nil)
  }

  /** The operator step of `visit_unaria`. */
  function ApplyUnary(op: string, v: Value): Result<Value, string>
  {
    if op == "-" then
      if v.Num? then Success(Num(-v.n)) else Failure(NonNumericNegation(v))
    else Success(Nil)
  }

  /** `funcion.llamar(self, argumentos)`, once the arity has been checked;
      `rand` makes one external draw. */
  function Invoke(host: Host, b: Builtin, args: seq<Value>, draws: nat): (Result<Value, string>, nat)
    requires |args| == Arity(b)
  {
    match b
    case Rand => (Success(Num(host.random(draws))), draws + 1)
    case Sin =>
      (if args[0].Num? then Success(Num(host.sin(args[0].n))) else Failure(NonNumericArgument("sin", args[0])), draws)
    case Cos =>
      (if args[0].Num? then Success(Num(host.cos(args[0].n))) else Failure(NonNumericArgument("cos", args[0])), draws)
    case Sqrt =>
      (if !args[0].Num? then Failure(NonNumericArgument("sqrt", args[0]))
       else if args[0].n < 0.0 then Failure(NegativeRoot(host, args[0].n))
       else Success(Num(host.sqrt(args[0].n))), draws)
    case Pow =>
      (if !args[0].Num? then Failure(NonNumericPowArgument("primer", args[0]))
       else if !args[1].Num? then Failure(NonNumericPowArgument("segundo", args[1]))
       else Success(Num(host.pow(args[0].n, args[1].n))), draws)
  }

  /** `evaluar(nodo)`: each case is the `visit_*` method of its node. */
  function Eval(host: Host, e: Expr, env: Env, draws: nat): Evaluated
    decreases e
  {
    match e
    case Literal(v) => Evaluated(Success(v), env, draws)
    case Variable(name) =>
      if name in env then Evaluated(Success(env[name]), env, draws)
      else Evaluated(Failure(UndefinedVariable(name)), env, draws)
    case Assign(name, value) =>
      var v := Eval(host, value, env, draws);
      if v.result.Failure? then v
      else Evaluated(v.result, v.env[name := v.result.value], v.draws)
    case Unary(op, right) =>
      var v := Eval(host, right, env, draws);
      if v.result.Failure? then v
      else Evaluated(ApplyUnary(op, v.result.value), v.env, v.draws)
    case Binary(left, op, right) =>
      var l := Eval(host, left, env, draws);
      if l.result.Failure? then l
      else
        var r := Eval(host, right, l.env, l.draws);
        if r.result.Failure? then r
        else Evaluated(ApplyBinary(host, op, l.result.value, r.result.value), r.env, r.draws)
    case Grouping(inner) => Eval(host, inner, env, draws)
    case Call(callee, args) =>
      if callee !in Functions then Evaluated(Failure(UndefinedFunction(callee)), env, draws)
      else
        var a := EvalArgs(host, args, env, draws);
        if a.result.Failure? then Evaluated(Failure(a.result.error), a.env, a.draws)
        else if |a.result.value| != Arity(Functions[callee]) then
          Evaluated(Failure(ArityMismatch(callee, Arity(Functions[callee]), |a.result.value|)), a.env, a.draws)
        else
          var (result, d) := Invoke(host, Functions[callee], a.result.value, a.draws);
          Evaluated(result, a.env, d)
  }

  /** The argument loop of `visit_llamada`: every argument before the last is
      evaluated first, in order; the first one that raises stops the loop. */
  function EvalArgs(host: Host, args: seq<Expr>, env: Env, draws: nat): (r: ArgsEvaluated)
    ensures r.result.Success? ==> |r.result.value| == |args|
    decreases args
  {
    if |args| == 0 then ArgsEvaluated(Success([]), env, draws)
    else
      var p := EvalArgs(host, args[..|args| - 1], env, draws);
      if p.result.Failure? then p
      else
        var v := Eval(host, args[|args| - 1], p.env, p.draws);
        if v.result.Failure? then ArgsEvaluated(Failure(v.result.error), v.env, v.draws)
        else ArgsEvaluated(Success(p.result.value + [v.result.value]), v.env, v.draws)
  }

  datatype StmtEvaluated = StmtEvaluated(result: Result<(Value, bool), string>, env: Env, draws: nat)

  /** `visit_sentencia`: the value and whether the REPL prints it. */
  function EvalStatement(host: Host, s: Stmt, env: Env, draws: nat): StmtEvaluated
  {
    var v := Eval(host, s.expr, env, draws);
    StmtEvaluated(if v.result.Failure? then Failure(v.result.error) else Success((v.result.value, s.printResult)),
                  v.env, v.draws)
  }
}
