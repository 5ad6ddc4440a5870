/** What ParserASA.py promises about the trees it builds, proved of the
    functions in ParserAsaSpec: the parse of a rendered tree is that tree (so
    precedence, associativity and call shapes are exactly the grammar's), and
    the error paths the source documents. */
module ParserAsaProps {
  import opened Support
  import opened Tokens
  import opened Ast
  import opened ParserAsaSpec
  import opened AsaRender

  // One unfolding of each rule: the small steps the round trip is built from.

  lemma LiteralRoundTrip(toks: seq<Token>, pos: nat, v: Value)
    requires WellEnded(toks) && pos + 1 < |toks| && toks[pos] == LiteralToken(v)
    ensures ParsePrimary(toks, pos) == POk(Literal(v), pos + 1)
  {
  }

  lemma VariableRoundTrip(toks: seq<Token>, pos: nat, n: string)
    requires WellEnded(toks) && pos + 1 < |toks| && toks[pos] == Sym(Identifier, n)
    ensures ParsePrimary(toks, pos) == POk(Variable(n), pos + 1)
  {
  }

  lemma GroupingStep(toks: seq<Token>, pos: nat, g: Expr, q: nat)
    requires WellEnded(toks) && pos + 1 < |toks| && toks[pos].kind == LeftParen
    requires ParseExpression(toks, pos + 1) == POk(g, q) && toks[q].kind == RightParen
    ensures ParsePrimary(toks, pos) == POk(Grouping(g), q + 1)
  {
  }

  lemma CallPlain(toks: seq<Token>, pos: nat, e: Expr, p: nat)
    requires Cursor(toks, pos) && ParsePrimary(toks, pos) == POk(e, p) && toks[p].kind != LeftParen
    ensures ParseCall(toks, pos) == POk(e, p)
  {
  }

  lemma CallArgs(toks: seq<Token>, pos: nat, n: string, args: seq<Expr>, q: nat)
    requires Cursor(toks, pos) && ParsePrimary(toks, pos) == POk(Variable(n), pos + 1)
    requires pos + 2 < |toks| && toks[pos + 1].kind == LeftParen
    requires ParseArguments(toks, pos + 2) == POk(args, q) && toks[q].kind == RightParen
    ensures ParseCall(toks, pos) == POk(Call(n, args), q + 1)
  {
  }

  lemma UnaryMinusStep(toks: seq<Token>, pos: nat, r: Expr, p: nat)
    requires WellEnded(toks) && pos + 1 < |toks| && toks[pos].kind == Minus
    requires ParseUnary(toks, pos + 1) == POk(r, p)
    ensures ParseUnary(toks, pos) == POk(Unary("-", r), p)
  {
  }

  lemma UnaryFromCall(toks: seq<Token>, pos: nat, e: Expr, p: nat)
    requires Cursor(toks, pos) && toks[pos].kind != Minus && ParseCall(toks, pos) == POk(e, p)
    ensures ParseUnary(toks, pos) == POk(e, p)
  {
  }

  /** `factor()` starts its loop with the unary it has parsed. */
  lemma FactorFromUnary(toks: seq<Token>, pos: nat, e: Expr, p: nat)
    requires Cursor(toks, pos) && ParseUnary(toks, pos) == POk(e, p)
    ensures Cursor(toks, p)
    ensures ParseFactor(toks, pos) == ParseFactorRest(toks, e, p)
  {
  }

  /** One turn of the loop in `factor()`. */
  lemma FactorStep(toks: seq<Token>, pl: nat, l: Expr, op: string, r: Expr, q: nat)
    requires Cursor(toks, pl) && op in {"*", "/", "%"}
    requires toks[pl] == OperatorToken(op) && pl + 1 < |toks|
    requires ParseUnary(toks, pl + 1) == POk(r, q)
    ensures ParseFactorRest(toks, l, pl) == ParseFactorRest(toks, Binary(l, op, r), q)
  {
    OperatorKind(op);
  }

  /** The loop of `factor()` stops at a token that is not `*`, `/` or `%`. */
  lemma FactorRestStops(toks: seq<Token>, e: Expr, p: nat)
    requires Cursor(toks, p) && toks[p].kind !in {Star, Slash, Mod}
    ensures ParseFactorRest(toks, e, p) == POk(e, p)
  {
  }

  /** `term()` starts its loop with the factor it has parsed. */
  lemma TermFromFactor(toks: seq<Token>, pos: nat, e: Expr, p: nat)
    requires Cursor(toks, pos) && ParseFactor(toks, pos) == POk(e, p)
    ensures Cursor(toks, p)
    ensures ParseTerm(toks, pos) == ParseTermRest(toks, e, p)
  {
  }

  /** One turn of the loop in `term()`. */
  lemma TermStep(toks: seq<Token>, pl: nat, l: Expr, op: string, r: Expr, q: nat)
    requires Cursor(toks, pl) && op in {"+", "-"}
    requires toks[pl] == OperatorToken(op) && pl + 1 < |toks|
    requires ParseFactor(toks, pl + 1) == POk(r, q)
    ensures ParseTermRest(toks, l, pl) == ParseTermRest(toks, Binary(l, op, r), q)
  {
    OperatorKind(op);
  }

  /** The loop of `term()` stops at a token that is not `+` or `-`. */
  lemma TermRestStops(toks: seq<Token>, e: Expr, p: nat)
    requires Cursor(toks, p) && toks[p].kind !in {Plus, Minus}
    ensures ParseTermRest(toks, e, p) == POk(e, p)
  {
  }

  lemma ExpressionFromTerm(toks: seq<Token>, pos: nat, e: Expr, p: nat)
    requires Cursor(toks, pos) && ParseTerm(toks, pos) == POk(e, p) && toks[p].kind != Equal
    ensures ParseExpression(toks, pos) == POk(e, p)
  {
  }

  lemma AssignStep(toks: seq<Token>, pos: nat, n: string, v: Expr, q: nat)
    requires Cursor(toks, pos) && ParseTerm(toks, pos) == POk(Variable(n), pos + 1)
    requires pos + 2 < |toks| && toks[pos + 1].kind == Equal
    requires ParseExpression(toks, pos + 2) == POk(v, q)
    ensures ParseExpression(toks, pos) == POk(Assign(n, v), q)
  {
  }

  /** An identifier followed by `=` is a whole term. */
  lemma AssignTargetTerm(toks: seq<Token>, pos: nat, n: string)
    requires WellEnded(toks) && pos + 1 < |toks| && toks[pos] == Sym(Identifier, n)
    requires toks[pos + 1].kind == Equal
    ensures ParseTerm(toks, pos) == POk(Variable(n), pos + 1)
  {
    VariableRoundTrip(toks, pos, n);
    CallPlain(toks, pos, Variable(n), pos + 1);
    UnaryFromCall(toks, pos, Variable(n), pos + 1);
    FactorFromUnary(toks, pos, Variable(n), pos + 1);
    FactorRestStops(toks, Variable(n), pos + 1);
    TermFromFactor(toks, pos, Variable(n), pos + 1);
    TermRestStops(toks, Variable(n), pos + 1);
  }

  lemma ArgumentsEmpty(toks: seq<Token>, pos: nat)
    requires Cursor(toks, pos) && toks[pos].kind == RightParen
    ensures ParseArguments(toks, pos) == POk([], pos)
  {
  }

  lemma ArgumentsFirst(toks: seq<Token>, pos: nat, a: Expr, p: nat)
    requires Cursor(toks, pos) && toks[pos].kind != RightParen
    requires ParseExpression(toks, pos) == POk(a, p)
    ensures ParseArguments(toks, pos) == ParseArgumentsRest(toks, [a], p)
  {
  }

  /** One turn of the `while self.match(COMMA)` loop. */
  lemma ArgumentsStep(toks: seq<Token>, pos: nat, acc: seq<Expr>, a: Expr, p: nat)
    requires Cursor(toks, pos)
    requires toks[pos].kind == Comma && pos + 1 < |toks|
    requires ParseExpression(toks, pos + 1) == POk(a, p)
    ensures ParseArgumentsRest(toks, acc, pos) == ParseArgumentsRest(toks, acc + [a], p)
  {
  }

  lemma ArgumentsRestStops(toks: seq<Token>, acc: seq<Expr>, p: nat)
    requires Cursor(toks, p)
    requires toks[p].kind != Comma
    ensures ParseArgumentsRest(toks, acc, p) == POk(acc, p)
  {
  }

  lemma ConsAppend(acc: seq<Expr>, args: seq<Expr>)
    requires |args| > 0
    ensures acc + [args[0]] + args[1..] == acc + args
  {
  }

  // The round trip, rule by rule.  Each lemma takes a tree of the rule's
  // shape, rendered at `pos` and followed by a token that cannot continue it.

  lemma {:induction false} PrimaryRoundTrip(toks: seq<Token>, pos: nat, e: Expr)
    requires WellEnded(toks) && IsPrimary(e) && Holds(toks, pos, Render(e))
    ensures ParsePrimary(toks, pos) == POk(e, pos + |Render(e)|)
    decreases e, 1
  {
    HoldsHead(toks, pos, Render(e));
    match e
    case Literal(v) => LiteralRoundTrip(toks, pos, v);
    case Variable(n) => VariableRoundTrip(toks, pos, n);
    case Grouping(g) => GroupingRoundTrip(toks, pos, g);
  }

  lemma {:induction false} GroupingRoundTrip(toks: seq<Token>, pos: nat, g: Expr)
    requires WellEnded(toks) && IsExpression(g) && Holds(toks, pos, Render(Grouping(g)))
    ensures ParsePrimary(toks, pos) == POk(Grouping(g), pos + |Render(Grouping(g))|)
    decreases Grouping(g), 0
  {
    GroupingLayout(toks, pos, g);
    ExpressionRoundTrip(toks, pos + 1, g);
    GroupingStep(toks, pos, g, pos + 1 + |Render(g)|);
  }

  lemma {:induction false} CallRoundTrip(toks: seq<Token>, pos: nat, e: Expr)
    requires WellEnded(toks) && IsCall(e) && Holds(toks, pos, Render(e))
    requires After(toks, pos, Render(e)) != LeftParen
    ensures ParseCall(toks, pos) == POk(e, pos + |Render(e)|)
    decreases e, 2
  {
    if e.Call? {
      CallNodeRoundTrip(toks, pos, e.callee, e.args);
    } else {
      PrimaryRoundTrip(toks, pos, e);
      CallPlain(toks, pos, e, pos + |Render(e)|);
    }
  }

  lemma {:induction false} CallNodeRoundTrip(toks: seq<Token>, pos: nat, n: string, args: seq<Expr>)
    requires WellEnded(toks) && forall i | 0 <= i < |args| :: IsExpression(args[i])
    requires Holds(toks, pos, Render(Call(n, args)))
    ensures ParseCall(toks, pos) == POk(Call(n, args), pos + |Render(Call(n, args))|)
    decreases Call(n, args), 1
  {
    CallLayout(toks, pos, n, args);
    VariableRoundTrip(toks, pos, n);
    ArgumentsRoundTrip(toks, pos + 2, args);
    CallArgs(toks, pos, n, args, pos + 2 + |RenderArgs(args)|);
  }

  lemma {:induction false} UnaryRoundTrip(toks: seq<Token>, pos: nat, e: Expr)
    requires WellEnded(toks) && IsUnary(e) && Holds(toks, pos, Render(e))
    requires After(toks, pos, Render(e)) != LeftParen
    ensures ParseUnary(toks, pos) == POk(e, pos + |Render(e)|)
    decreases e, 3
  {
    if e.Unary? {
      UnaryLayout(toks, pos, e.op, e.right);
      UnaryRoundTrip(toks, pos + 1, e.right);
      UnaryMinusStep(toks, pos, e.right, pos + |Render(e)|);
    } else {
      CallStart(e);
      HoldsHead(toks, pos, Render(e));
      CallRoundTrip(toks, pos, e);
      UnaryFromCall(toks, pos, e, pos + |Render(e)|);
    }
  }

  /** A factor-level tree parses as itself; the loop of `factor()` then
      carries on from the token after it. */
  lemma {:induction false} FactorRoundTrip(toks: seq<Token>, pos: nat, e: Expr)
    requires WellEnded(toks) && IsFactor(e) && Holds(toks, pos, Render(e))
    requires After(toks, pos, Render(e)) != LeftParen
    ensures ParseFactor(toks, pos) == ParseFactorRest(toks, e, pos + |Render(e)|)
    decreases e, 4
  {
    if e.Binary? && e.op in {"*", "/", "%"} {
      FactorBinaryRoundTrip(toks, pos, e.left, e.op, e.right);
    } else {
      UnaryRoundTrip(toks, pos, e);
      FactorFromUnary(toks, pos, e, pos + |Render(e)|);
    }
  }

  lemma {:induction false} FactorBinaryRoundTrip(toks: seq<Token>, pos: nat, l: Expr, op: string, r: Expr)
    requires WellEnded(toks) && IsFactor(l) && op in {"*", "/", "%"} && IsUnary(r)
    requires Holds(toks, pos, Render(Binary(l, op, r)))
    requires After(toks, pos, Render(Binary(l, op, r))) != LeftParen
    ensures ParseFactor(toks, pos) == ParseFactorRest(toks, Binary(l, op, r), pos + |Render(Binary(l, op, r))|)
    decreases Binary(l, op, r), 3
  {
    BinaryLayout(toks, pos, l, op, r);
    OperatorKind(op);
    var pl := pos + |Render(l)|;
    UnaryRoundTrip(toks, pl + 1, r);
    FactorRoundTrip(toks, pos, l);
    FactorStep(toks, pl, l, op, r, pl + 1 + |Render(r)|);
  }

  /** A factor-level tree followed by a token that is not `*`, `/`, `%` or `(`
      is exactly what `factor()` returns. */
  lemma {:induction false} FactorWholeRoundTrip(toks: seq<Token>, pos: nat, e: Expr)
    requires WellEnded(toks) && IsFactor(e) && Holds(toks, pos, Render(e))
    requires After(toks, pos, Render(e)) !in {LeftParen, Star, Slash, Mod}
    ensures ParseFactor(toks, pos) == POk(e, pos + |Render(e)|)
    decreases e, 5
  {
    FactorRoundTrip(toks, pos, e);
    FactorRestStops(toks, e, pos + |Render(e)|);
  }

  /** A term-level tree parses as itself; the loop of `term()` then carries on
      from the token after it. */
  lemma {:induction false} TermRoundTrip(toks: seq<Token>, pos: nat, e: Expr)
    requires WellEnded(toks) && IsTerm(e) && Holds(toks, pos, Render(e))
    requires After(toks, pos, Render(e)) !in {LeftParen, Star, Slash, Mod}
    ensures ParseTerm(toks, pos) == ParseTermRest(toks, e, pos + |Render(e)|)
    decreases e, 6
  {
    if e.Binary? && e.op in {"+", "-"} {
      TermBinaryRoundTrip(toks, pos, e.left, e.op, e.right);
    } else {
      FactorWholeRoundTrip(toks, pos, e);
      TermFromFactor(toks, pos, e, pos + |Render(e)|);
    }
  }

  lemma {:induction false} TermBinaryRoundTrip(toks: seq<Token>, pos: nat, l: Expr, op: string, r: Expr)
    requires WellEnded(toks) && IsTerm(l) && op in {"+", "-"} && IsFactor(r)
    requires Holds(toks, pos, Render(Binary(l, op, r)))
    requires After(toks, pos, Render(Binary(l, op, r))) !in {LeftParen, Star, Slash, Mod}
    ensures ParseTerm(toks, pos) == ParseTermRest(toks, Binary(l, op, r), pos + |Render(Binary(l, op, r))|)
    decreases Binary(l, op, r), 5
  {
    BinaryLayout(toks, pos, l, op, r);
    OperatorKind(op);
    var pl := pos + |Render(l)|;
    FactorWholeRoundTrip(toks, pl + 1, r);
    TermRoundTrip(toks, pos, l);
    TermStep(toks, pl, l, op, r, pl + 1 + |Render(r)|);
  }

  /** Tokens that end an expression: none of them continues or extends it. */
  predicate EndsExpression(k: TokenKind)
  {
    k !in {LeftParen, Plus, Minus, Star, Slash, Mod, Equal}
  }

  /** Every well-shaped tree, rendered and followed by a token that cannot
      extend it, parses back to itself and stops right after its tokens. */
  lemma {:induction false} ExpressionRoundTrip(toks: seq<Token>, pos: nat, e: Expr)
    requires WellEnded(toks) && IsExpression(e) && Holds(toks, pos, Render(e))
    requires EndsExpression(After(toks, pos, Render(e)))
    ensures ParseExpression(toks, pos) == POk(e, pos + |Render(e)|)
    decreases e, 7
  {
    if IsTerm(e) {
      var end := pos + |Render(e)|;
      TermRoundTrip(toks, pos, e);
      TermRestStops(toks, e, end);
      ExpressionFromTerm(toks, pos, e, end);
    } else {
      AssignRoundTrip(toks, pos, e.name, e.value);
    }
  }

  lemma {:induction false} AssignRoundTrip(toks: seq<Token>, pos: nat, n: string, v: Expr)
    requires WellEnded(toks) && IsExpression(v) && Holds(toks, pos, Render(Assign(n, v)))
    requires EndsExpression(After(toks, pos, Render(Assign(n, v))))
    ensures ParseExpression(toks, pos) == POk(Assign(n, v), pos + |Render(Assign(n, v))|)
    decreases Assign(n, v), 6
  {
    AssignLayout(toks, pos, n, v);
    AssignTargetTerm(toks, pos, n);
    ExpressionRoundTrip(toks, pos + 2, v);
    AssignStep(toks, pos, n, v, pos + 2 + |Render(v)|);
  }

  lemma {:induction false} ArgumentsRoundTrip(toks: seq<Token>, pos: nat, args: seq<Expr>)
    requires WellEnded(toks) && forall i | 0 <= i < |args| :: IsExpression(args[i])
    requires Holds(toks, pos, RenderArgs(args)) && After(toks, pos, RenderArgs(args)) == RightParen
    ensures ParseArguments(toks, pos) == POk(args, pos + |RenderArgs(args)|)
    decreases args, 2
  {
    if |args| == 0 {
      ArgumentsEmpty(toks, pos);
    } else {
      SomeArgumentsRoundTrip(toks, pos, args);
    }
  }

  /** The non-empty case of ArgumentsRoundTrip: the first argument, then the
      rest, up to any token that can neither extend the last argument nor be
      a comma. */
  lemma {:induction false} SomeArgumentsRoundTrip(toks: seq<Token>, pos: nat, args: seq<Expr>)
    requires WellEnded(toks) && |args| > 0 && forall i | 0 <= i < |args| :: IsExpression(args[i])
    requires Holds(toks, pos, RenderArgs(args))
    requires EndsExpression(After(toks, pos, RenderArgs(args))) && After(toks, pos, RenderArgs(args)) != Comma
    ensures ParseArguments(toks, pos) == POk(args, pos + |RenderArgs(args)|)
    decreases args, 1
  {
    ArgsLayout(toks, pos, args);
    RenderStart(args[0]);
    HoldsHead(toks, pos, Render(args[0]));
    var p := pos + |Render(args[0])|;
    ExpressionRoundTrip(toks, pos, args[0]);
    ArgumentsFirst(toks, pos, args[0], p);
    MoreArgumentsRoundTrip(toks, p, [args[0]], args[1..]);
    assert [args[0]] + args[1..] == args;
  }

  lemma {:induction false} MoreArgumentsRoundTrip(toks: seq<Token>, pos: nat, acc: seq<Expr>, args: seq<Expr>)
    requires WellEnded(toks)
    requires forall i | 0 <= i < |args| :: IsExpression(args[i])
    requires Holds(toks, pos, RenderMoreArgs(args))
    requires EndsExpression(After(toks, pos, RenderMoreArgs(args))) && After(toks, pos, RenderMoreArgs(args)) != Comma
    ensures ParseArgumentsRest(toks, acc, pos) == POk(acc + args, pos + |RenderMoreArgs(args)|)
    decreases args, 0
  {
    if |args| == 0 {
      ArgumentsRestStops(toks, acc, pos);
      assert acc + args == acc;
    } else {
      MoreArgsLayout(toks, pos, args);
      var p := pos + 1 + |Render(args[0])|;
      ExpressionRoundTrip(toks, pos + 1, args[0]);
      ArgumentsStep(toks, pos, acc, args[0], p);
      MoreArgumentsRoundTrip(toks, p, acc + [args[0]], args[1..]);
      ConsAppend(acc, args);
    }
  }
}
