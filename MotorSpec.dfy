/** The older evaluator of Motor.py over the nodes of Expr.py and Stmt.py,
    as functions.  Its values include the native functions the environment
    holds; its operators coerce with `float()`; the errors it raises are its
    own messages or the exceptions the Python runtime raises (those are
    named by their class, without their text). */
module MotorSpec {
  import opened Support
  import opened Tokens
  import opened Host

  /** The classes `NativeClock` … `NativeRand`. */
  datatype Native = NativeClock | NativeSin | NativeCos | NativeSqrt | NativePow | NativeRand

  function NativeArity(f: Native): nat
  {
    match f
    case NativeClock => 0
    case NativeSin => 1
    case NativeCos => 1
    case NativeSqrt => 1
    case NativePow => 2
    case NativeRand => 0
  }

  /** A value of the older evaluator: a float, a str, None, or a native
      function object. */
  datatype MValue = MNum(n: real) | MStr(s: string) | MNil | MNative(f: Native)

  /** The nodes of Expr.py, with names held as strings and operators as
      token kinds. */
  datatype MExpr =
    | Binaria(izquierda: MExpr, operador: TokenKind, derecha: MExpr)
    | Unaria(operador: TokenKind, derecha: MExpr)
    | Literal(literal: MValue)
    | Agrupacion(expresion: MExpr)
    | Variable(nombre: string)
    | Asignacion(nombre: string, valor: MExpr)
    | Llamada(callee: MExpr, argumentos: seq<MExpr>)

  /** The nodes of Stmt.py. */
  datatype MStmt = Expression(expression: MExpr) | Print(expression: MExpr)

  /** What a statement raises: a message of Motor.py or Environment.py, or
      an exception of the Python runtime. */
  datatype MotorError = Raised(message: string) | TypeError | ValueError | ZeroDivisionError

  type MEnv = map<string, MValue>

  /** The environment `Motor.__init__` sets up. */
  const Natives: MEnv :=
    map["clock" := MNative(NativeClock), "sin" := MNative(NativeSin), "cos" := MNative(NativeCos),
        "sqrt" := MNative(NativeSqrt), "pow" := MNative(NativePow), "rand" := MNative(NativeRand)]

  const IncompatibleSum := "Operandos incompatibles para suma."
  const DivisionByZero := "División por cero"
  const NotCallable := "Solo se pueden llamar funciones."

  function UndefinedName(name: string): string
  {
    "Variable no definida: '" + name + "'."
  }

  function WrongArgumentCount(arity: nat): string
  {
    "Se esperaban " + NatToString(arity) + " argumentos."
  }

  /** `float(v)` */
  function ToFloat(host: Host, v: MValue): Result<real, MotorError>
  {
    match v
    case MNum(n) => Success(n)
    case MStr(s) => if host.parseFloat(s).Some? then Success(host.parseFloat(s).value) else Failure(ValueError)
    case MNil => Failure(TypeError)
    case MNative(_) => Failure(TypeError)
  }

  /** `float(izq) op float(der)`: the left operand is converted first. */
  function Arith(host: Host, op: TokenKind, l: MValue, r: MValue): Result<MValue, MotorError>
    requires op in {Minus, Star, Slash, Mod}
  {
    var a := ToFloat(host, l);
    if a.Failure? then Failure(a.error)
    else
      var b := ToFloat(host, r);
      if b.Failure? then Failure(b.error)
      else if op == Minus then Success(MNum(a.value - b.value))
      else if op == Star then Success(MNum(a.value * b.value))
      else if b.value == 0.0 then Failure(ZeroDivisionError)
      else if op == Slash then Success(MNum(a.value / b.value))
      else Success(MNum(host.mod(a.value, b.value)))
  }

  /** The operator step of `visit_binaria_expr`. */
  function MotorBinary(host: Host, op: TokenKind, l: MValue, r: MValue): Result<MValue, MotorError>
  {
    if op == Plus then
      if l.MNum? && r.MNum? then Success(MNum(l.n + r.n))
      else if l.MStr? && r.MStr? then Success(MStr(l.s + r.s))
      else Failure(Raised(IncompatibleSum))
    else if op == Minus || op == Star then Arith(host, op, l, r)
    else if op == Slash then
      if r == MNum(0.0) then Failure(Raised(DivisionByZero)) else Arith(host, op, l, r)
    else if op == Mod then Arith(host, op, l, r)
    else Success(MNil)
  }

  /** The operator step of `visit_unaria_expr`: `-float(derecha)`. */
  function MotorUnary(host: Host, op: TokenKind, v: MValue): Result<MValue, MotorError>
  {
    if op == Minus then
      var x := ToFloat(host, v);
      if x.Failure? then Failure(x.error) else Success(MNum(-x.value))
    else Success(MNil)
  }

  /** `callee.call(self, arguments)`: the `math` functions refuse what is
      not a number; `rand` and `clock` make one external draw. */
  function CallNative(host: Host, f: Native, args: seq<MValue>, draws: nat): (Result<MValue, MotorError>, nat)
    requires |args| == NativeArity(f)
  {
    match f
    case NativeClock => (Success(MNum(host.clock(draws))), draws + 1)
    case NativeRand => (Success(MNum(host.random(draws))), draws + 1)
    case NativeSin => (if args[0].MNum? then Success(MNum(host.sin(args[0].n))) else Failure(TypeError), draws)
    case NativeCos => (if args[0].MNum? then Success(MNum(host.cos(args[0].n))) else Failure(TypeError), draws)
    case NativeSqrt =>
      (if !args[0].MNum? then Failure(TypeError)
       else if args[0].n < 0.0 then Failure(ValueError)
       else Success(MNum(host.sqrt(args[0].n))), draws)
    case NativePow =>
      (if args[0].MNum? && args[1].MNum? then Success(MNum(host.pow(args[0].n, args[1].n))) else Failure(TypeError), draws)
  }

  datatype MEvaluated = MEvaluated(result: Result<MValue, MotorError>, env: MEnv, draws: nat)

  datatype MArgsEvaluated = MArgsEvaluated(result: Result<seq<MValue>, MotorError>, env: MEnv, draws: nat)

  /** `evaluate(expr)`: each case is the `visit_*_expr` method of its node. */
  function MEval(host: Host, e: MExpr, env: MEnv, draws: nat): MEvaluated
    decreases e
  {
    match e
    case Literal(v) => MEvaluated(Success(v), env, draws)
    case Agrupacion(inner) => MEval(host, inner, env, draws)
    case Variable(name) =>
      if name in env then MEvaluated(Success(env[name]), env, draws)
      else MEvaluated(Failure(Raised(UndefinedName(name))), env, draws)
    case Asignacion(name, value) =>
      var v := MEval(host, value, env, draws);
      if v.result.Failure? then v
      else MEvaluated(v.result, v.env[name := v.result.value], v.draws)
    case Unaria(op, right) =>
      var v := MEval(host, right, env, draws);
      if v.result.Failure? then v
      else MEvaluated(MotorUnary(host, op, v.result.value), v.env, v.draws)
    case Binaria(left, op, right) =>
      var l := MEval(host, left, env, draws);
      if l.result.Failure? then l
      else
        var r := MEval(host, right, l.env, l.draws);
        if r.result.Failure? then r
        else MEvaluated(MotorBinary(host, op, l.result.value, r.result.value), r.env, r.draws)
    case Llamada(callee, args) =>
      var c := MEval(host, callee, env, draws);
      if c.result.Failure? then c
      else
        var a := MEvalArgs(host, args, c.env, c.draws);
        if a.result.Failure? then MEvaluated(Failure(a.result.error), a.env, a.draws)
        else if !c.result.value.MNative? then MEvaluated(Failure(Raised(NotCallable)), a.env, a.draws)
        else if |a.result.value| != NativeArity(c.result.value.f) then
          MEvaluated(Failure(Raised(WrongArgumentCount(NativeArity(c.result.value.f)))), a.env, a.draws)
        else
          var (result, d) := CallNative(host, c.result.value.f, a.result.value, a.draws);
          MEvaluated(result, a.env, d)
  }

  /** `[self.evaluate(arg) for arg in expr.argumentos]`, in order, stopping at
      the first argument that raises. */
  function MEvalArgs(host: Host, args: seq<MExpr>, env: MEnv, draws: nat): (r: MArgsEvaluated)
    ensures r.result.Success? ==> |r.result.value| == |args|
    decreases args
  {
    if |args| == 0 then MArgsEvaluated(Success([]), env, draws)
    else
      var p := MEvalArgs(host, args[..|args| - 1], env, draws);
      if p.result.Failure? then p
      else
        var v := MEval(host, args[|args| - 1], p.env, p.draws);
        if v.result.Failure? then MArgsEvaluated(Failure(v.result.error), v.env, v.draws)
        else MArgsEvaluated(Success(p.result.value + [v.result.value]), v.env, v.draws)
  }

  predicate EndsWithPointZero(text: string)
  {
    |text| >= 2 && text[|text| - 2..] == ".0"
  }

  /** `stringify(obj)`: None is "null", a float loses a trailing ".0", a
      string is itself, and a native function object prints as Python
      prints an object. */
  function Stringify(host: Host, objectText: Native -> string, v: MValue): string
  {
    match v
    case MNil => "null"
    case MNum(n) =>
      var text := host.floatText(n);
      if EndsWithPointZero(text) then text[..|text| - 2] else text
    case MStr(s) => s
    case MNative(f) => objectText(f)
  }

  datatype Executed = Executed(outcome: Outcome<MotorError>, env: MEnv, draws: nat, printed: seq<string>)

  /** `execute(stmt)`: an expression statement only evaluates; a print
      statement also prints the value's text. */
  function Execute(host: Host, objectText: Native -> string, s: MStmt, env: MEnv, draws: nat): Executed
  {
    var v := MEval(host, s.expression, env, draws);
    if v.result.Failure? then Executed(Fail(v.result.error), v.env, v.draws, [])
    else if s.Print? then Executed(Pass, v.env, v.draws, [Stringify(host, objectText, v.result.value)])
    else Executed(Pass, v.env, v.draws, [])
  }

  /** The loop of `interpret`: every statement before the last runs first, in
      order; an exception stops the loop. */
  function Run(host: Host, objectText: Native -> string, stmts: seq<MStmt>, env: MEnv, draws: nat): Executed
    decreases |stmts|
  {
    if |stmts| == 0 then Executed(Pass, env, draws, [])
    else
      var p := Run(host, objectText, stmts[..|stmts| - 1], env, draws);
      if p.outcome.Fail? then p
      else
        var x := Execute(host, objectText, stmts[|stmts| - 1], p.env, p.draws);
        Executed(x.outcome, x.env, x.draws, p.printed + x.printed)
  }

  /** `interpret(statements)`: None runs nothing. */
  function Interpret(host: Host, objectText: Native -> string, statements: Option<seq<MStmt>>, env: MEnv, draws: nat): Executed
  {
    if statements.None? then Executed(Pass, env, draws, [])
    else Run(host, objectText, statements.value, env, draws)
  }
}
