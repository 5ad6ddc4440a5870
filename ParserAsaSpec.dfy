/** What the tree-building parser of ParserASA.py computes, as functions of
    the token list and a cursor.  A raised ParseError is a `PErr` carrying
    its message; a successful parse also reports where the cursor stopped. */
module ParserAsaSpec {
  import opened Support
  import opened Tokens
  import opened Ast

  /** Token lists as the scanner produces them: at least one token, EOF last.
      `peek()` indexes the list unguarded, so the parser relies on this. */
  predicate WellEnded(toks: seq<Token>)
  {
    |toks| > 0 && toks[|toks| - 1].kind == Eof
  }

  predicate Cursor(toks: seq<Token>, pos: nat)
  {
    WellEnded(toks) && pos < |toks|
  }

  datatype Parsed<T> = POk(value: T, pos: nat) | PErr(message: string)

  /** `is_at_end()` */
  predicate AtEof(toks: seq<Token>, pos: nat)
    requires pos < |toks|
  {
    toks[pos].kind == Eof
  }

  /** `check(tipo)`: never true at EOF. */
  predicate IsKind(toks: seq<Token>, pos: nat, kind: TokenKind)
    requires pos < |toks|
  {
    !AtEof(toks, pos) && toks[pos].kind == kind
  }

  /** `advance()`: never moves past the EOF token. */
  function Next(toks: seq<Token>, pos: nat): (p: nat)
    requires Cursor(toks, pos)
    ensures Cursor(toks, p)
    ensures p == if AtEof(toks, pos) then pos else pos + 1
  {
    if AtEof(toks, pos) then pos else pos + 1
  }

  /** The message `error(mensaje)` raises, naming the current token. */
  function SyntaxError(toks: seq<Token>, pos: nat, message: string): string
    requires pos < |toks|
  {
    "[Token: " + toks[pos].lexeme + "] Error sintáctico: " + message
  }

  const InvalidAssignment := "Asignación inválida: se esperaba un identificador del lado izquierdo (ej: x = 12 - 3)."
  const InvalidCall := "Llamada a función inválida: el nombre de la función debe ser un identificador (ej: sin(1))."
  const MissingArgsParen := "Se esperaba ')' después de los argumentos"
  const MissingGroupParen := "Se esperaba ')' después de la expresión"
  const TrailingInput := "Se esperaba fin de cadena después de la sentencia"

  function ExpectedExpression(lexeme: string): string
  {
    "Expresión esperada, se encontró: '" + lexeme + "'"
  }

  /** The value a NUMBER or STRING token carries. */
  function LiteralValue(lit: TokenLiteral): Value
  {
    match lit
    case NoLiteral => Nil
    case NumberLiteral(n) => Num(n)
    case StringLiteral(s) => Str(s)
  }

  function ParseExpression(toks: seq<Token>, pos: nat): (r: Parsed<Expr>)
    requires Cursor(toks, pos)
    ensures r.POk? ==> pos < r.pos < |toks|
    decreases |toks| - pos, 9
  {
    ParseAssignment(toks, pos)
  }

  /** A term, then optionally `=` and a whole expression; only a Variable can
      be assigned to, and that is checked after the right side is parsed. */
  function ParseAssignment(toks: seq<Token>, pos: nat): (r: Parsed<Expr>)
    requires Cursor(toks, pos)
    ensures r.POk? ==> pos < r.pos < |toks|
    decreases |toks| - pos, 8
  {
    match ParseTerm(toks, pos)
    case PErr(m) => PErr(m)
    case POk(target, p) =>
      if IsKind(toks, p, Equal) then
        match ParseExpression(toks, p + 1)
        case PErr(m) => PErr(m)
        case POk(value, q) =>
          if target.Variable? then POk(Assign(target.name, value), q) else PErr(InvalidAssignment)
      else POk(target, p)
  }

  function ParseTerm(toks: seq<Token>, pos: nat): (r: Parsed<Expr>)
    requires Cursor(toks, pos)
    ensures r.POk? ==> pos < r.pos < |toks|
    decreases |toks| - pos, 7
  {
    match ParseFactor(toks, pos)
    case PErr(m) => PErr(m)
    case POk(left, p) => ParseTermRest(toks, left, p)
  }

  /** The `while True` loop of `term()` with `expr == left`. */
  function ParseTermRest(toks: seq<Token>, left: Expr, pos: nat): (r: Parsed<Expr>)
    requires Cursor(toks, pos)
    ensures r.POk? ==> pos <= r.pos < |toks|
    decreases |toks| - pos, 6
  {
    if IsKind(toks, pos, Plus) || IsKind(toks, pos, Minus) then
      var op := if IsKind(toks, pos, Plus) then "+" else "-";
      match ParseFactor(toks, pos + 1)
      case PErr(m) => PErr(m)
      case POk(right, p) => ParseTermRest(toks, Binary(left, op, right), p)
    else POk(left, pos)
  }

  function ParseFactor(toks: seq<Token>, pos: nat): (r: Parsed<Expr>)
    requires Cursor(toks, pos)
    ensures r.POk? ==> pos < r.pos < |toks|
    decreases |toks| - pos, 5
  {
    match ParseUnary(toks, pos)
    case PErr(m) => PErr(m)
    case POk(left, p) => ParseFactorRest(toks, left, p)
  }

  /** The `while True` loop of `factor()` with `expr == left`. */
  function ParseFactorRest(toks: seq<Token>, left: Expr, pos: nat): (r: Parsed<Expr>)
    requires Cursor(toks, pos)
    ensures r.POk? ==> pos <= r.pos < |toks|
    decreases |toks| - pos, 4
  {
    if IsKind(toks, pos, Star) || IsKind(toks, pos, Slash) || IsKind(toks, pos, Mod) then
      var op := if IsKind(toks, pos, Star) then "*" else if IsKind(toks, pos, Slash) then "/" else "%";
      match ParseUnary(toks, pos + 1)
      case PErr(m) => PErr(m)
      case POk(right, p) => ParseFactorRest(toks, Binary(left, op, right), p)
    else POk(left, pos)
  }

  function ParseUnary(toks: seq<Token>, pos: nat): (r: Parsed<Expr>)
    requires Cursor(toks, pos)
    ensures r.POk? ==> pos < r.pos < |toks|
    decreases |toks| - pos, 3
  {
    if IsKind(toks, pos, Minus) then
      match ParseUnary(toks, pos + 1)
      case PErr(m) => PErr(m)
      case POk(right, p) => POk(Unary("-", right), p)
    else ParseCall(toks, pos)
  }

  /** A primary and at most one argument list; only a Variable may be called. */
  function ParseCall(toks: seq<Token>, pos: nat): (r: Parsed<Expr>)
    requires Cursor(toks, pos)
    ensures r.POk? ==> pos < r.pos < |toks|
    decreases |toks| - pos, 2
  {
    match ParsePrimary(toks, pos)
    case PErr(m) => PErr(m)
    case POk(callee, p) =>
      if !IsKind(toks, p, LeftParen) then POk(callee, p)
      else if !callee.Variable? then PErr(InvalidCall)
      else
        match ParseArguments(toks, p + 1)
        case PErr(m) => PErr(m)
        case POk(args, q) =>
          if IsKind(toks, q, RightParen) then POk(Call(callee.name, args), q + 1)
          else PErr(SyntaxError(toks, q, MissingArgsParen))
  }

  /** The argument list after `(`: empty when `)` is next. */
  function ParseArguments(toks: seq<Token>, pos: nat): (r: Parsed<seq<Expr>>)
    requires Cursor(toks, pos)
    ensures r.POk? ==> pos <= r.pos < |toks|
    decreases |toks| - pos, 11
  {
    if IsKind(toks, pos, RightParen) then POk([], pos)
    else
      match ParseExpression(toks, pos)
      case PErr(m) => PErr(m)
      case POk(first, p) => ParseArgumentsRest(toks, [first], p)
  }

  /** The `while self.match(COMMA)` loop with `args == acc`. */
  function ParseArgumentsRest(toks: seq<Token>, acc: seq<Expr>, pos: nat): (r: Parsed<seq<Expr>>)
    requires Cursor(toks, pos)
    ensures r.POk? ==> pos <= r.pos < |toks|
    decreases |toks| - pos, 10
  {
    if IsKind(toks, pos, Comma) then
      match ParseExpression(toks, pos + 1)
      case PErr(m) => PErr(m)
      case POk(e, p) => ParseArgumentsRest(toks, acc + [e], p)
    else POk(acc, pos)
  }

  function ParsePrimary(toks: seq<Token>, pos: nat): (r: Parsed<Expr>)
    requires Cursor(toks, pos)
    ensures r.POk? ==> pos < r.pos < |toks|
    decreases |toks| - pos, 1
  {
    if IsKind(toks, pos, Null) then POk(Literal(Nil), pos + 1)
    else if IsKind(toks, pos, Number) || IsKind(toks, pos, String) then
      POk(Literal(LiteralValue(toks[pos].literal)), pos + 1)
    else if IsKind(toks, pos, Identifier) then POk(Variable(toks[pos].lexeme), pos + 1)
    else if IsKind(toks, pos, LeftParen) then
      match ParseExpression(toks, pos + 1)
      case PErr(m) => PErr(m)
      case POk(e, p) =>
        if IsKind(toks, p, RightParen) then POk(Grouping(e), p + 1)
        else PErr(SyntaxError(toks, p, MissingGroupParen))
    else PErr(SyntaxError(toks, pos, ExpectedExpression(toks[pos].lexeme)))
  }

  /** An expression and an optional `;`, which switches printing off. */
  function ParseStatement(toks: seq<Token>, pos: nat): (r: Parsed<Stmt>)
    requires Cursor(toks, pos)
    ensures r.POk? ==> pos < r.pos < |toks|
    decreases |toks| - pos, 12
  {
    match ParseExpression(toks, pos)
    case PErr(m) => PErr(m)
    case POk(e, p) =>
      if IsKind(toks, p, Semicolon) then POk(ExprStmt(e, false), p + 1) else POk(ExprStmt(e, true), p)
  }

  /** `Parser(tokens).parse()` with the cursor at `pos`: the statement must be
      followed by EOF. */
  function Parse(toks: seq<Token>, pos: nat): (r: Result<Stmt, string>)
    requires Cursor(toks, pos)
  {
    match ParseStatement(toks, pos)
    case PErr(m) => Failure(m)
    case POk(s, p) => if AtEof(toks, p) then Success(s) else Failure(SyntaxError(toks, p, TrailingInput))
  }
}
