/** Writing a tree back out as tokens, and where the pieces of a rendered tree
    sit inside a token list.  Used by ParserAsaProps to state that the parser
    of ParserASA.py inverts this rendering. */
module AsaRender {
  import opened Tokens
  import opened Ast

  function Sym(kind: TokenKind, lexeme: string): Token
  {
    Token(kind, lexeme, NoLiteral, 1)
  }

  function LiteralToken(v: Value): Token
  {
    match v
    case Nil => Sym(Null, "null")
    case Num(n) => Token(Number, "", NumberLiteral(n), 1)
    case Str(s) => Token(String, "", StringLiteral(s), 1)
  }

  function OperatorToken(op: string): Token
  {
    if op == "+" then Sym(Plus, "+")
    else if op == "-" then Sym(Minus, "-")
    else if op == "*" then Sym(Star, "*")
    else if op == "/" then Sym(Slash, "/")
    else Sym(Mod, "%")
  }

  /** The tokens of a tree, with brackets only where a Grouping is. */
  function Render(e: Expr): seq<Token>
    decreases e, 1
  {
    match e
    case Literal(v) => [LiteralToken(v)]
    case Variable(n) => [Sym(Identifier, n)]
    case Assign(n, v) => [Sym(Identifier, n), Sym(Equal, "=")] + Render(v)
    case Unary(_, r) => [Sym(Minus, "-")] + Render(r)
    case Binary(l, op, r) => Render(l) + [OperatorToken(op)] + Render(r)
    case Grouping(g) => [Sym(LeftParen, "(")] + Render(g) + [Sym(RightParen, ")")]
    case Call(n, args) => [Sym(Identifier, n), Sym(LeftParen, "(")] + RenderArgs(args) + [Sym(RightParen, ")")]
  }

  /** Arguments separated by commas. */
  function RenderArgs(args: seq<Expr>): seq<Token>
    decreases args, 2
  {
    if |args| == 0 then [] else Render(args[0]) + RenderMoreArgs(args[1..])
  }

  /** Each further argument preceded by a comma. */
  function RenderMoreArgs(args: seq<Expr>): seq<Token>
    decreases args, 0
  {
    if |args| == 0 then [] else [Sym(Comma, ",")] + Render(args[0]) + RenderMoreArgs(args[1..])
  }

  /** `toks` holds `r` from `pos` and one more token after it. */
  predicate Holds(toks: seq<Token>, pos: nat, r: seq<Token>)
    decreases |r|
  {
    pos + |r| < |toks| && (|r| == 0 || (toks[pos] == r[0] && Holds(toks, pos + 1, r[1..])))
  }

  /** The token right after the rendered text. */
  function After(toks: seq<Token>, pos: nat, r: seq<Token>): TokenKind
    requires pos + |r| < |toks|
  {
    toks[pos + |r|].kind
  }

  /** The slice form of `Holds`. */
  lemma {:induction false} HoldsSlice(toks: seq<Token>, pos: nat, r: seq<Token>)
    requires pos + |r| < |toks| && toks[pos..pos + |r|] == r
    ensures Holds(toks, pos, r)
    decreases |r|
  {
    if |r| > 0 {
      assert toks[pos + 1..pos + 1 + |r[1..]|] == r[1..];
      HoldsSlice(toks, pos + 1, r[1..]);
    }
  }

  lemma {:induction false} HoldsSplit(toks: seq<Token>, pos: nat, a: seq<Token>, b: seq<Token>)
    requires Holds(toks, pos, a + b)
    ensures Holds(toks, pos, a) && Holds(toks, pos + |a|, b)
    decreases |a|
  {
    if |a| == 0 {
      assert a + b == b;
    } else {
      assert (a + b)[0] == a[0];
      assert (a + b)[1..] == a[1..] + b;
      HoldsSplit(toks, pos + 1, a[1..], b);
    }
  }

  lemma HoldsSplit3(toks: seq<Token>, pos: nat, a: seq<Token>, b: seq<Token>, c: seq<Token>)
    requires Holds(toks, pos, a + b + c)
    ensures Holds(toks, pos, a) && Holds(toks, pos + |a|, b) && Holds(toks, pos + |a| + |b|, c)
  {
    HoldsSplit(toks, pos, a + b, c);
    HoldsSplit(toks, pos, a, b);
  }

  lemma HoldsHead(toks: seq<Token>, pos: nat, r: seq<Token>)
    requires Holds(toks, pos, r) && |r| > 0
    ensures toks[pos] == r[0]
  {
  }

  /** `a`, one token, then `c`. */
  lemma HoldsMiddle(toks: seq<Token>, pos: nat, a: seq<Token>, t: Token, c: seq<Token>)
    requires Holds(toks, pos, a + [t] + c)
    ensures Holds(toks, pos, a) && toks[pos + |a|] == t && Holds(toks, pos + |a| + 1, c)
    ensures |a + [t] + c| == |a| + 1 + |c|
  {
    HoldsSplit3(toks, pos, a, [t], c);
    HoldsHead(toks, pos + |a|, [t]);
  }

  /** Two tokens, then `c`. */
  lemma HoldsTwoThen(toks: seq<Token>, pos: nat, t: Token, u: Token, c: seq<Token>)
    requires Holds(toks, pos, [t, u] + c)
    ensures toks[pos] == t && toks[pos + 1] == u && Holds(toks, pos + 2, c)
  {
    assert ([t, u] + c)[1..] == [u] + c;
    assert ([u] + c)[1..] == c;
  }

  /** `[t]`, `b`, then `[u]`. */
  lemma HoldsBracketed(toks: seq<Token>, pos: nat, t: Token, b: seq<Token>, u: Token)
    requires Holds(toks, pos, [t] + b + [u])
    ensures toks[pos] == t && Holds(toks, pos + 1, b) && toks[pos + 1 + |b|] == u
    ensures |[t] + b + [u]| == |b| + 2
  {
    HoldsSplit3(toks, pos, [t], b, [u]);
    HoldsHead(toks, pos, [t]);
    HoldsHead(toks, pos + 1 + |b|, [u]);
  }

  lemma OperatorKind(op: string)
    ensures op == "*" ==> OperatorToken(op).kind == Star
    ensures op == "/" ==> OperatorToken(op).kind == Slash
    ensures op == "%" ==> OperatorToken(op).kind == Mod
    ensures op == "+" ==> OperatorToken(op).kind == Plus
    ensures op == "-" ==> OperatorToken(op).kind == Minus
  {
  }

  /** No rendered tree is empty, and none starts with `)`, `,`, `=` or an operator other than `-`. */
  lemma {:induction false} RenderStart(e: Expr)
    ensures |Render(e)| > 0
    ensures Render(e)[0].kind in {Null, Number, String, Identifier, LeftParen, Minus}
  {
    if e.Binary? {
      RenderStart(e.left);
      assert Render(e) == Render(e.left) + [OperatorToken(e.op)] + Render(e.right);
    }
  }

  /** A call-level tree does not start with `-`. */
  lemma CallStart(e: Expr)
    requires IsCall(e)
    ensures |Render(e)| > 0 && Render(e)[0].kind in {Null, Number, String, Identifier, LeftParen}
  {
  }

  lemma BinaryLayout(toks: seq<Token>, pos: nat, l: Expr, op: string, r: Expr)
    requires Holds(toks, pos, Render(Binary(l, op, r)))
    ensures |Render(Binary(l, op, r))| == |Render(l)| + 1 + |Render(r)|
    ensures Holds(toks, pos, Render(l)) && toks[pos + |Render(l)|] == OperatorToken(op)
    ensures After(toks, pos, Render(l)) == OperatorToken(op).kind
    ensures Holds(toks, pos + |Render(l)| + 1, Render(r))
    ensures After(toks, pos + |Render(l)| + 1, Render(r)) == After(toks, pos, Render(Binary(l, op, r)))
  {
    assert Render(Binary(l, op, r)) == Render(l) + [OperatorToken(op)] + Render(r);
    HoldsMiddle(toks, pos, Render(l), OperatorToken(op), Render(r));
  }

  lemma UnaryLayout(toks: seq<Token>, pos: nat, op: string, r: Expr)
    requires Holds(toks, pos, Render(Unary(op, r)))
    ensures |Render(Unary(op, r))| == 1 + |Render(r)|
    ensures toks[pos].kind == Minus && Holds(toks, pos + 1, Render(r))
    ensures After(toks, pos + 1, Render(r)) == After(toks, pos, Render(Unary(op, r)))
  {
    assert Render(Unary(op, r)) == [Sym(Minus, "-")] + Render(r);
    HoldsSplit(toks, pos, [Sym(Minus, "-")], Render(r));
    HoldsHead(toks, pos, [Sym(Minus, "-")]);
  }

  lemma AssignLayout(toks: seq<Token>, pos: nat, n: string, v: Expr)
    requires Holds(toks, pos, Render(Assign(n, v)))
    ensures |Render(Assign(n, v))| == 2 + |Render(v)|
    ensures toks[pos] == Sym(Identifier, n) && toks[pos + 1].kind == Equal
    ensures Holds(toks, pos + 2, Render(v))
    ensures After(toks, pos + 2, Render(v)) == After(toks, pos, Render(Assign(n, v)))
  {
    HoldsTwoThen(toks, pos, Sym(Identifier, n), Sym(Equal, "="), Render(v));
  }

  lemma GroupingLayout(toks: seq<Token>, pos: nat, g: Expr)
    requires Holds(toks, pos, Render(Grouping(g)))
    ensures |Render(Grouping(g))| == |Render(g)| + 2
    ensures toks[pos].kind == LeftParen && Holds(toks, pos + 1, Render(g))
    ensures After(toks, pos + 1, Render(g)) == RightParen
  {
    HoldsBracketed(toks, pos, Sym(LeftParen, "("), Render(g), Sym(RightParen, ")"));
  }

  lemma CallLayout(toks: seq<Token>, pos: nat, n: string, args: seq<Expr>)
    requires Holds(toks, pos, Render(Call(n, args)))
    ensures |Render(Call(n, args))| == |RenderArgs(args)| + 3
    ensures toks[pos] == Sym(Identifier, n) && toks[pos + 1].kind == LeftParen
    ensures Holds(toks, pos + 2, RenderArgs(args)) && After(toks, pos + 2, RenderArgs(args)) == RightParen
  {
    var name, open, close := Sym(Identifier, n), Sym(LeftParen, "("), Sym(RightParen, ")");
    assert Render(Call(n, args)) == [name] + ([open] + RenderArgs(args) + [close]);
    HoldsSplit(toks, pos, [name], [open] + RenderArgs(args) + [close]);
    HoldsHead(toks, pos, [name]);
    HoldsBracketed(toks, pos + 1, open, RenderArgs(args), close);
  }

  lemma ArgsLayout(toks: seq<Token>, pos: nat, args: seq<Expr>)
    requires |args| > 0 && Holds(toks, pos, RenderArgs(args))
    ensures |RenderArgs(args)| == |Render(args[0])| + |RenderMoreArgs(args[1..])|
    ensures Holds(toks, pos, Render(args[0]))
    ensures Holds(toks, pos + |Render(args[0])|, RenderMoreArgs(args[1..]))
    ensures After(toks, pos, Render(args[0]))
            == if |args| > 1 then Comma else After(toks, pos, RenderArgs(args))
  {
    var first, more := Render(args[0]), RenderMoreArgs(args[1..]);
    assert RenderArgs(args) == first + more;
    HoldsSplit(toks, pos, first, more);
    if |args| > 1 {
      MoreArgsStart(args[1..]);
      HoldsHead(toks, pos + |first|, more);
    }
  }

  lemma MoreArgsLayout(toks: seq<Token>, pos: nat, args: seq<Expr>)
    requires |args| > 0 && Holds(toks, pos, RenderMoreArgs(args))
    ensures |RenderMoreArgs(args)| == 1 + |Render(args[0])| + |RenderMoreArgs(args[1..])|
    ensures toks[pos].kind == Comma
    ensures Holds(toks, pos + 1, Render(args[0]))
    ensures Holds(toks, pos + 1 + |Render(args[0])|, RenderMoreArgs(args[1..]))
    ensures After(toks, pos + 1, Render(args[0]))
            == if |args| > 1 then Comma else After(toks, pos, RenderMoreArgs(args))
  {
    var comma, first, more := Sym(Comma, ","), Render(args[0]), RenderMoreArgs(args[1..]);
    assert RenderMoreArgs(args) == [comma] + (first + more);
    HoldsSplit(toks, pos, [comma], first + more);
    HoldsHead(toks, pos, [comma]);
    HoldsSplit(toks, pos + 1, first, more);
    if |args| > 1 {
      MoreArgsStart(args[1..]);
      HoldsHead(toks, pos + 1 + |first|, more);
    }
  }

  lemma MoreArgsStart(args: seq<Expr>)
    requires |args| > 0
    ensures |RenderMoreArgs(args)| > 0 && RenderMoreArgs(args)[0].kind == Comma
  {
    assert RenderMoreArgs(args) == [Sym(Comma, ",")] + Render(args[0]) + RenderMoreArgs(args[1..]);
  }
}
