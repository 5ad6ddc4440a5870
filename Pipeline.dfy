/** One input line through the three stages the REPL of InterpreteASA.py
    chains: the scanner's tokens (its error list is not consulted), the
    tree-building parser, and the evaluator's `visit_sentencia`. */
module Pipeline {
  import opened Support
  import opened Tokens
  import opened Ast
  import opened Host
  import opened ScannerSpec
  import opened ParserAsaSpec
  import opened EvaluatorSpec
  import ScannerProps
  import EvaluatorProps
  import AsaRender
  import ParserAsaStatement

  /** What one line produces: a ParseError, an ErrorSemantico, or the value
      with the print flag. */
  datatype Reply = SyntaxFailure(message: string) | SemanticFailure(message: string) | Done(value: Value, shown: bool)

  datatype Answer = Answer(reply: Reply, env: Env, draws: nat)

  /** The parser and the evaluator on a token list. */
  function RunTokens(host: Host, toks: seq<Token>, env: Env, draws: nat): Answer
    requires WellEnded(toks)
  {
    match Parse(toks, 0)
    case Failure(m) => Answer(SyntaxFailure(m), env, draws)
    case Success(stmt) =>
      var s := EvalStatement(host, stmt, env, draws);
      Answer(if s.result.Failure? then SemanticFailure(s.result.error) else Done(s.result.value.0, s.result.value.1),
             s.env, s.draws)
  }

  /** The whole line. */
  function RunLine(host: Host, src: string, env: Env, draws: nat): Answer
  {
    ScannerProps.TokenizeEndsWithEof(src);
    RunTokens(host, Tokenize(src).tokens, env, draws)
  }

  /** A line that does not parse evaluates nothing: the variables and the
      draw count stay as they were. */
  lemma SyntaxErrorChangesNothing(host: Host, src: string, env: Env, draws: nat)
    ensures RunLine(host, src, env, draws).reply.SyntaxFailure? ==>
              RunLine(host, src, env, draws).env == env && RunLine(host, src, env, draws).draws == draws
    ensures RunLine(host, src, env, draws).reply.SyntaxFailure? <==>
              (ScannerProps.TokenizeEndsWithEof(src); Parse(Tokenize(src).tokens, 0).Failure?)
  {
    ScannerProps.TokenizeEndsWithEof(src);
  }

  /** What a line can do to the session: it never removes a variable; a
      statement without an assignment leaves the variables as they were, and
      one without a call makes no draw. */
  lemma LineEffects(host: Host, src: string, env: Env, draws: nat)
    ensures env.Keys <= RunLine(host, src, env, draws).env.Keys && draws <= RunLine(host, src, env, draws).draws
    ensures (ScannerProps.TokenizeEndsWithEof(src);
             var p := Parse(Tokenize(src).tokens, 0);
             p.Success? && !HasAssign(p.value.expr) ==> RunLine(host, src, env, draws).env == env)
    ensures (ScannerProps.TokenizeEndsWithEof(src);
             var p := Parse(Tokenize(src).tokens, 0);
             p.Success? && !HasCall(p.value.expr) ==> RunLine(host, src, env, draws).draws == draws)
  {
    ScannerProps.TokenizeEndsWithEof(src);
    var p := Parse(Tokenize(src).tokens, 0);
    if p.Success? {
      var e := p.value.expr;
      EvaluatorProps.TableGrows(host, e, env, draws);
      if !HasAssign(e) {
        EvaluatorProps.PureKeepsTable(host, e, env, draws);
      }
      if !HasCall(e) {
        EvaluatorProps.NoCallNoDraws(host, e, env, draws);
      }
    }
  }

  /** Tokens of a statement in the grammar's shape run as that statement:
      the expression is evaluated, and the result is printed exactly when
      no `;` ends the line. */
  lemma StatementRuns(host: Host, e: Expr, printResult: bool, env: Env, draws: nat)
    requires IsExpression(e)
    ensures WellEnded(AsaRender.Render(e) + ParserAsaStatement.Ending(printResult))
    ensures RunTokens(host, AsaRender.Render(e) + ParserAsaStatement.Ending(printResult), env, draws) ==
              Answer(if Eval(host, e, env, draws).result.Failure? then SemanticFailure(Eval(host, e, env, draws).result.error)
                     else Done(Eval(host, e, env, draws).result.value, printResult),
                     Eval(host, e, env, draws).env, Eval(host, e, env, draws).draws)
  {
    ParserAsaStatement.ParseRoundTrip(e, printResult);
  }
}
