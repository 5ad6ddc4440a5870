/** What the predictive recogniser of Parser.py computes: the same cursor
    helpers as ParserASA.py, a right-recursive grammar, no tree and no check
    on assignment targets or callees.  Each rule either reaches a cursor
    position or stops with the one message `error` raises. */
module RecogniserSpec {
  import opened Support
  import opened Tokens
  import opened ParserAsaSpec

  datatype Recognised = ROk(pos: nat) | RErr(message: string)

  /** EXPRESSION -> ASSIGNMENT */
  function RecExpression(toks: seq<Token>, pos: nat): (r: Recognised)
    requires Cursor(toks, pos)
    ensures r.ROk? ==> pos < r.pos < |toks|
    decreases |toks| - pos, 10
  {
    RecAssignment(toks, pos)
  }

  /** ASSIGNMENT -> TERM ASSIGNMENT_OPC,  ASSIGNMENT_OPC -> = EXPRESSION | Ɛ */
  function RecAssignment(toks: seq<Token>, pos: nat): (r: Recognised)
    requires Cursor(toks, pos)
    ensures r.ROk? ==> pos < r.pos < |toks|
    decreases |toks| - pos, 9
  {
    match RecTerm(toks, pos)
    case RErr(m) => RErr(m)
    case ROk(p) => if IsKind(toks, p, Equal) then RecExpression(toks, p + 1) else ROk(p)
  }

  /** TERM -> FACTOR TERM' */
  function RecTerm(toks: seq<Token>, pos: nat): (r: Recognised)
    requires Cursor(toks, pos)
    ensures r.ROk? ==> pos < r.pos < |toks|
    decreases |toks| - pos, 8
  {
    match RecFactor(toks, pos)
    case RErr(m) => RErr(m)
    case ROk(p) => RecTermPrime(toks, p)
  }

  /** TERM' -> - TERM | + TERM | Ɛ */
  function RecTermPrime(toks: seq<Token>, pos: nat): (r: Recognised)
    requires Cursor(toks, pos)
    ensures r.ROk? ==> pos <= r.pos < |toks|
    decreases |toks| - pos, 7
  {
    if IsKind(toks, pos, Minus) || IsKind(toks, pos, Plus) then RecTerm(toks, pos + 1) else ROk(pos)
  }

  /** FACTOR -> UNARY FACTOR' */
  function RecFactor(toks: seq<Token>, pos: nat): (r: Recognised)
    requires Cursor(toks, pos)
    ensures r.ROk? ==> pos < r.pos < |toks|
    decreases |toks| - pos, 6
  {
    match RecUnary(toks, pos)
    case RErr(m) => RErr(m)
    case ROk(p) => RecFactorPrime(toks, p)
  }

  /** FACTOR' -> / FACTOR | * FACTOR | % FACTOR | Ɛ */
  function RecFactorPrime(toks: seq<Token>, pos: nat): (r: Recognised)
    requires Cursor(toks, pos)
    ensures r.ROk? ==> pos <= r.pos < |toks|
    decreases |toks| - pos, 5
  {
    if IsKind(toks, pos, Slash) || IsKind(toks, pos, Star) || IsKind(toks, pos, Mod) then RecFactor(toks, pos + 1)
    else ROk(pos)
  }

  /** UNARY -> - UNARY | CALL */
  function RecUnary(toks: seq<Token>, pos: nat): (r: Recognised)
    requires Cursor(toks, pos)
    ensures r.ROk? ==> pos < r.pos < |toks|
    decreases |toks| - pos, 4
  {
    if IsKind(toks, pos, Minus) then RecUnary(toks, pos + 1) else RecCall(toks, pos)
  }

  /** CALL -> PRIMARY CALL' */
  function RecCall(toks: seq<Token>, pos: nat): (r: Recognised)
    requires Cursor(toks, pos)
    ensures r.ROk? ==> pos < r.pos < |toks|
    decreases |toks| - pos, 3
  {
    match RecPrimary(toks, pos)
    case RErr(m) => RErr(m)
    case ROk(p) => RecCallPrime(toks, p)
  }

  /** CALL' -> ( ARGUMENTS ) | Ɛ */
  function RecCallPrime(toks: seq<Token>, pos: nat): (r: Recognised)
    requires Cursor(toks, pos)
    ensures r.ROk? ==> pos <= r.pos < |toks|
    decreases |toks| - pos, 2
  {
    if IsKind(toks, pos, LeftParen) then
      match RecArguments(toks, pos + 1)
      case RErr(m) => RErr(m)
      case ROk(q) =>
        if IsKind(toks, q, RightParen) then ROk(q + 1) else RErr(SyntaxError(toks, q, MissingArgsParen))
    else ROk(pos)
  }

  /** PRIMARY -> null | number | string | id | ( EXPRESSION ) */
  function RecPrimary(toks: seq<Token>, pos: nat): (r: Recognised)
    requires Cursor(toks, pos)
    ensures r.ROk? ==> pos < r.pos < |toks|
    decreases |toks| - pos, 1
  {
    if IsKind(toks, pos, Null) || IsKind(toks, pos, Number) || IsKind(toks, pos, String)
       || IsKind(toks, pos, Identifier) then ROk(pos + 1)
    else if IsKind(toks, pos, LeftParen) then
      match RecExpression(toks, pos + 1)
      case RErr(m) => RErr(m)
      case ROk(p) => if IsKind(toks, p, RightParen) then ROk(p + 1) else RErr(SyntaxError(toks, p, MissingGroupParen))
    else RErr(SyntaxError(toks, pos, ExpectedExpression(toks[pos].lexeme)))
  }

  /** ARGUMENTS -> EXPRESSION ARGUMENTS' | Ɛ, the empty case when `)` is next */
  function RecArguments(toks: seq<Token>, pos: nat): (r: Recognised)
    requires Cursor(toks, pos)
    ensures r.ROk? ==> pos <= r.pos < |toks|
    decreases |toks| - pos, 12
  {
    if IsKind(toks, pos, RightParen) then ROk(pos)
    else
      match RecExpression(toks, pos)
      case RErr(m) => RErr(m)
      case ROk(p) => RecArgumentsPrime(toks, p)
  }

  /** ARGUMENTS' -> , EXPRESSION ARGUMENTS' | Ɛ */
  function RecArgumentsPrime(toks: seq<Token>, pos: nat): (r: Recognised)
    requires Cursor(toks, pos)
    ensures r.ROk? ==> pos <= r.pos < |toks|
    decreases |toks| - pos, 11
  {
    if IsKind(toks, pos, Comma) then
      match RecExpression(toks, pos + 1)
      case RErr(m) => RErr(m)
      case ROk(p) => RecArgumentsPrime(toks, p)
    else ROk(pos)
  }

  /** STATEMENT -> EXPRESSION SEMICOLON_OPC, then the cursor must be on EOF. */
  function RecStatement(toks: seq<Token>, pos: nat): (r: Recognised)
    requires Cursor(toks, pos)
    ensures r.ROk? ==> pos < r.pos < |toks|
    decreases |toks| - pos, 13
  {
    match RecExpression(toks, pos)
    case RErr(m) => RErr(m)
    case ROk(p) =>
      var q := if IsKind(toks, p, Semicolon) then p + 1 else p;
      if AtEof(toks, q) then ROk(q) else RErr(SyntaxError(toks, q, TrailingInput))
  }

  /** The token lists `Parser(tokens).parse()` returns True for. */
  predicate Accepts(toks: seq<Token>)
    requires WellEnded(toks)
  {
    RecStatement(toks, 0).ROk?
  }
}
