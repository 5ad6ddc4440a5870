/** `parse()` of ParserASA.py on whole token lists: every well-shaped tree
    comes back from its own tokens, with `;` switching printing off; the
    documented examples of precedence and associativity; and the errors it
    raises for a bad assignment target, a bad callee, a missing expression or
    `)`, and input left over after the statement. */
module ParserAsaStatement {
  import opened Support
  import opened Tokens
  import opened Ast
  import opened ParserAsaSpec
  import opened AsaRender
  import opened ParserAsaProps

  const EndToken := Sym(Eof, "")

  /** How a statement ends: EOF alone prints the result, `;` then EOF does not. */
  function Ending(printResult: bool): seq<Token>
  {
    if printResult then [EndToken] else [Sym(Semicolon, ";"), EndToken]
  }

  lemma ParseRoundTrip(e: Expr, printResult: bool)
    requires IsExpression(e)
    ensures Parse(Render(e) + Ending(printResult), 0) == Success(ExprStmt(e, printResult))
  {
    var toks := Render(e) + Ending(printResult);
    assert toks[0..|Render(e)|] == Render(e);
    HoldsSlice(toks, 0, Render(e));
    assert toks[|Render(e)|] == Ending(printResult)[0];
    ExpressionRoundTrip(toks, 0, e);
  }

  // Examples: the tokens of the source text in the comment, then EOF.

  /** `a - b - c` groups as `(a - b) - c`. */
  lemma SubtractionLeansLeft()
    ensures Parse([Sym(Identifier, "a"), Sym(Minus, "-"), Sym(Identifier, "b"), Sym(Minus, "-"),
                   Sym(Identifier, "c"), EndToken], 0)
         == Success(ExprStmt(Binary(Binary(Variable("a"), "-", Variable("b")), "-", Variable("c")), true))
  {
    var e := Binary(Binary(Variable("a"), "-", Variable("b")), "-", Variable("c"));
    assert Render(e) == [Sym(Identifier, "a"), Sym(Minus, "-"), Sym(Identifier, "b"), Sym(Minus, "-"),
                         Sym(Identifier, "c")];
    assert Render(e) + Ending(true) == [Sym(Identifier, "a"), Sym(Minus, "-"), Sym(Identifier, "b"), Sym(Minus, "-"),
                   Sym(Identifier, "c"), EndToken];
    ParseRoundTrip(e, true);
  }

  /** `2 + 3 * 4` groups as `2 + (3 * 4)`. */
  lemma ProductBindsTighter()
    ensures Parse([LiteralToken(Num(2.0)), Sym(Plus, "+"), LiteralToken(Num(3.0)), Sym(Star, "*"),
                   LiteralToken(Num(4.0)), EndToken], 0)
         == Success(ExprStmt(Binary(Literal(Num(2.0)), "+", Binary(Literal(Num(3.0)), "*", Literal(Num(4.0)))), true))
  {
    var e := Binary(Literal(Num(2.0)), "+", Binary(Literal(Num(3.0)), "*", Literal(Num(4.0))));
    assert Render(e) == [LiteralToken(Num(2.0)), Sym(Plus, "+"), LiteralToken(Num(3.0)), Sym(Star, "*"),
                         LiteralToken(Num(4.0))];
    assert Render(e) + Ending(true) == [LiteralToken(Num(2.0)), Sym(Plus, "+"), LiteralToken(Num(3.0)), Sym(Star, "*"),
                   LiteralToken(Num(4.0)), EndToken];
    ParseRoundTrip(e, true);
  }

  /** `--10;` is a negation of a negation, not printed. */
  lemma DoubleNegation()
    ensures Parse([Sym(Minus, "-"), Sym(Minus, "-"), LiteralToken(Num(10.0)), Sym(Semicolon, ";"), EndToken], 0)
         == Success(ExprStmt(Unary("-", Unary("-", Literal(Num(10.0)))), false))
  {
    var e := Unary("-", Unary("-", Literal(Num(10.0))));
    assert Render(e) == [Sym(Minus, "-"), Sym(Minus, "-"), LiteralToken(Num(10.0))];
    assert Render(e) + Ending(false) == [Sym(Minus, "-"), Sym(Minus, "-"), LiteralToken(Num(10.0)), Sym(Semicolon, ";"), EndToken];
    ParseRoundTrip(e, false);
  }

  /** `a = b = 5` assigns right to left. */
  lemma AssignmentLeansRight()
    ensures Parse([Sym(Identifier, "a"), Sym(Equal, "="), Sym(Identifier, "b"), Sym(Equal, "="),
                   LiteralToken(Num(5.0)), EndToken], 0)
         == Success(ExprStmt(Assign("a", Assign("b", Literal(Num(5.0)))), true))
  {
    var e := Assign("a", Assign("b", Literal(Num(5.0))));
    assert Render(e) == [Sym(Identifier, "a"), Sym(Equal, "="), Sym(Identifier, "b"), Sym(Equal, "="),
                         LiteralToken(Num(5.0))];
    assert Render(e) + Ending(true) == [Sym(Identifier, "a"), Sym(Equal, "="), Sym(Identifier, "b"), Sym(Equal, "="),
                   LiteralToken(Num(5.0)), EndToken];
    ParseRoundTrip(e, true);
  }

  /** `max(1, x)` is one call with two arguments. */
  lemma CallWithArguments()
    ensures Parse([Sym(Identifier, "max"), Sym(LeftParen, "("), LiteralToken(Num(1.0)), Sym(Comma, ","),
                   Sym(Identifier, "x"), Sym(RightParen, ")"), EndToken], 0)
         == Success(ExprStmt(Call("max", [Literal(Num(1.0)), Variable("x")]), true))
  {
    var e := Call("max", [Literal(Num(1.0)), Variable("x")]);
    assert RenderArgs([Literal(Num(1.0)), Variable("x")])
        == [LiteralToken(Num(1.0)), Sym(Comma, ","), Sym(Identifier, "x")];
    assert Render(e) == [Sym(Identifier, "max"), Sym(LeftParen, "("), LiteralToken(Num(1.0)), Sym(Comma, ","),
                         Sym(Identifier, "x"), Sym(RightParen, ")")];
    assert Render(e) + Ending(true) == [Sym(Identifier, "max"), Sym(LeftParen, "("), LiteralToken(Num(1.0)), Sym(Comma, ","),
                   Sym(Identifier, "x"), Sym(RightParen, ")"), EndToken];
    ParseRoundTrip(e, true);
  }

  // Errors.  An error raised at the primary or call level reaches `parse()`
  // unchanged when no `-` is in front.

  lemma CallErrorSurfaces(toks: seq<Token>, pos: nat, m: string)
    requires Cursor(toks, pos) && !IsKind(toks, pos, Minus) && ParseCall(toks, pos) == PErr(m)
    ensures Parse(toks, pos) == Failure(m)
  {
    assert ParseUnary(toks, pos) == PErr(m);
    assert ParseFactor(toks, pos) == PErr(m);
    assert ParseTerm(toks, pos) == PErr(m);
    assert ParseAssignment(toks, pos) == PErr(m);
    assert ParseStatement(toks, pos) == PErr(m);
  }

  lemma PrimaryErrorSurfaces(toks: seq<Token>, pos: nat, m: string)
    requires Cursor(toks, pos) && !IsKind(toks, pos, Minus) && ParsePrimary(toks, pos) == PErr(m)
    ensures Parse(toks, pos) == Failure(m)
  {
    assert ParseCall(toks, pos) == PErr(m);
    CallErrorSurfaces(toks, pos, m);
  }

  /** A token that cannot start an expression (`true`, `false`, `)`, `,`,
      `;`, `=`, `+`, an operator, or EOF) is reported as such. */
  lemma ExpressionExpected(toks: seq<Token>, pos: nat)
    requires Cursor(toks, pos) && toks[pos].kind !in {Null, Number, String, Identifier, LeftParen, Minus}
    ensures Parse(toks, pos) == Failure(SyntaxError(toks, pos, ExpectedExpression(toks[pos].lexeme)))
  {
    PrimaryErrorSurfaces(toks, pos, SyntaxError(toks, pos, ExpectedExpression(toks[pos].lexeme)));
  }

  /** Empty input: the EOF token itself is not an expression. */
  lemma EmptyInputRejected()
    ensures Parse([EndToken], 0) == Failure(SyntaxError([EndToken], 0, ExpectedExpression("")))
  {
    ExpressionExpected([EndToken], 0);
  }

  /** `(g` followed by anything but `)`. */
  lemma UnclosedGroup(toks: seq<Token>, pos: nat, g: Expr)
    requires WellEnded(toks) && IsExpression(g) && Holds(toks, pos, [Sym(LeftParen, "(")] + Render(g))
    requires EndsExpression(After(toks, pos, [Sym(LeftParen, "(")] + Render(g)))
    requires After(toks, pos, [Sym(LeftParen, "(")] + Render(g)) != RightParen
    ensures Parse(toks, pos) == Failure(SyntaxError(toks, pos + 1 + |Render(g)|, MissingGroupParen))
  {
    HoldsSplit(toks, pos, [Sym(LeftParen, "(")], Render(g));
    ExpressionRoundTrip(toks, pos + 1, g);
    GroupNotClosed(toks, pos, g, pos + 1 + |Render(g)|);
  }

  lemma GroupNotClosed(toks: seq<Token>, pos: nat, g: Expr, q: nat)
    requires Cursor(toks, pos) && toks[pos].kind == LeftParen
    requires ParseExpression(toks, pos + 1) == POk(g, q) && toks[q].kind != RightParen
    ensures Parse(toks, pos) == Failure(SyntaxError(toks, q, MissingGroupParen))
  {
    PrimaryErrorSurfaces(toks, pos, SyntaxError(toks, q, MissingGroupParen));
  }

  /** `n(a, ..., z` followed by anything but `)`: the missing `)` is reported
      at the token where the arguments stop. */
  lemma UnclosedArgs(toks: seq<Token>, pos: nat, n: string, args: seq<Expr>)
    requires WellEnded(toks) && |args| > 0 && forall i | 0 <= i < |args| :: IsExpression(args[i])
    requires Holds(toks, pos, [Sym(Identifier, n), Sym(LeftParen, "(")] + RenderArgs(args))
    requires EndsExpression(After(toks, pos, [Sym(Identifier, n), Sym(LeftParen, "(")] + RenderArgs(args)))
    requires After(toks, pos, [Sym(Identifier, n), Sym(LeftParen, "(")] + RenderArgs(args)) !in {Comma, RightParen}
    ensures Parse(toks, pos) == Failure(SyntaxError(toks, pos + 2 + |RenderArgs(args)|, MissingArgsParen))
  {
    HoldsTwoThen(toks, pos, Sym(Identifier, n), Sym(LeftParen, "("), RenderArgs(args));
    SomeArgumentsRoundTrip(toks, pos + 2, args);
    ArgsNotClosed(toks, pos, args, pos + 2 + |RenderArgs(args)|);
  }

  lemma ArgsNotClosed(toks: seq<Token>, pos: nat, args: seq<Expr>, q: nat)
    requires Cursor(toks, pos + 2) && toks[pos].kind == Identifier && toks[pos + 1].kind == LeftParen
    requires ParseArguments(toks, pos + 2) == POk(args, q) && toks[q].kind != RightParen
    ensures Parse(toks, pos) == Failure(SyntaxError(toks, q, MissingArgsParen))
  {
    assert ParsePrimary(toks, pos) == POk(Variable(toks[pos].lexeme), pos + 1);
    CallErrorSurfaces(toks, pos, SyntaxError(toks, q, MissingArgsParen));
  }

  /** `f()(1)`: a call is never called again; the second `(` is left over. */
  lemma CallNotChained()
    ensures var toks := [Sym(Identifier, "f"), Sym(LeftParen, "("), Sym(RightParen, ")"), Sym(LeftParen, "("),
                         LiteralToken(Num(1.0)), Sym(RightParen, ")"), EndToken];
            Parse(toks, 0) == Failure(SyntaxError(toks, 3, TrailingInput))
  {
    var toks := [Sym(Identifier, "f"), Sym(LeftParen, "("), Sym(RightParen, ")"), Sym(LeftParen, "("),
                 LiteralToken(Num(1.0)), Sym(RightParen, ")"), EndToken];
    var call := Call("f", []);
    assert toks[0..3] == Render(call);
    HoldsSlice(toks, 0, toks[0..3]);
    CallNodeRoundTrip(toks, 0, "f", []);
    UnaryFromCall(toks, 0, call, 3);
    FactorFromUnary(toks, 0, call, 3);
    FactorRestStops(toks, call, 3);
    TermFromFactor(toks, 0, call, 3);
    TermRestStops(toks, call, 3);
    ExpressionFromTerm(toks, 0, call, 3);
  }

  /** Only a name can be called: a literal or a parenthesised expression
      followed by `(` is rejected. */
  lemma CalleeMustBeName(toks: seq<Token>, pos: nat, e: Expr)
    requires WellEnded(toks) && IsPrimary(e) && !e.Variable? && Holds(toks, pos, Render(e))
    requires After(toks, pos, Render(e)) == LeftParen
    ensures Parse(toks, pos) == Failure(InvalidCall)
  {
    HoldsHead(toks, pos, Render(e));
    PrimaryRoundTrip(toks, pos, e);
    CallErrorSurfaces(toks, pos, InvalidCall);
  }

  /** Only a name can be assigned to: `t = v` with any other term `t` is
      rejected once `v` has been parsed. */
  lemma TargetMustBeName(toks: seq<Token>, pos: nat, t: Expr, v: Expr)
    requires WellEnded(toks) && IsTerm(t) && !t.Variable? && IsExpression(v)
    requires Holds(toks, pos, Render(t) + [Sym(Equal, "=")] + Render(v))
    requires EndsExpression(After(toks, pos, Render(t) + [Sym(Equal, "=")] + Render(v)))
    ensures ParseExpression(toks, pos) == PErr(InvalidAssignment)
  {
    HoldsMiddle(toks, pos, Render(t), Sym(Equal, "="), Render(v));
    var p := pos + |Render(t)|;
    TermWholeRoundTrip(toks, pos, t);
    ExpressionRoundTrip(toks, p + 1, v);
    AssignmentRejected(toks, pos, t, p, v, p + 1 + |Render(v)|);
  }

  lemma TermWholeRoundTrip(toks: seq<Token>, pos: nat, t: Expr)
    requires WellEnded(toks) && IsTerm(t) && Holds(toks, pos, Render(t))
    requires After(toks, pos, Render(t)) !in {LeftParen, Star, Slash, Mod, Plus, Minus}
    ensures ParseTerm(toks, pos) == POk(t, pos + |Render(t)|)
  {
    TermRoundTrip(toks, pos, t);
    TermRestStops(toks, t, pos + |Render(t)|);
  }

  lemma AssignmentRejected(toks: seq<Token>, pos: nat, t: Expr, p: nat, v: Expr, q: nat)
    requires Cursor(toks, pos) && ParseTerm(toks, pos) == POk(t, p) && !t.Variable?
    requires toks[p].kind == Equal && ParseExpression(toks, p + 1) == POk(v, q)
    ensures ParseExpression(toks, pos) == PErr(InvalidAssignment)
  {
  }

  /** `1 = 2` */
  lemma LiteralTargetRejected()
    ensures Parse([LiteralToken(Num(1.0)), Sym(Equal, "="), LiteralToken(Num(2.0)), EndToken], 0)
         == Failure(InvalidAssignment)
  {
    var toks := [LiteralToken(Num(1.0)), Sym(Equal, "="), LiteralToken(Num(2.0)), EndToken];
    assert toks[0..3] == Render(Literal(Num(1.0))) + [Sym(Equal, "=")] + Render(Literal(Num(2.0)));
    HoldsSlice(toks, 0, toks[0..3]);
    TargetMustBeName(toks, 0, Literal(Num(1.0)), Literal(Num(2.0)));
  }

  /** A whole expression followed by a token other than `;` or EOF, or by `;`
      and then anything but EOF, is input left over. */
  lemma TrailingInputRejected(toks: seq<Token>, pos: nat, e: Expr)
    requires WellEnded(toks) && IsExpression(e) && Holds(toks, pos, Render(e))
    requires EndsExpression(After(toks, pos, Render(e))) && After(toks, pos, Render(e)) != Eof
    requires After(toks, pos, Render(e)) == Semicolon ==> toks[pos + |Render(e)| + 1].kind != Eof
    ensures After(toks, pos, Render(e)) != Semicolon ==>
              Parse(toks, pos) == Failure(SyntaxError(toks, pos + |Render(e)|, TrailingInput))
    ensures After(toks, pos, Render(e)) == Semicolon ==>
              Parse(toks, pos) == Failure(SyntaxError(toks, pos + |Render(e)| + 1, TrailingInput))
  {
    ExpressionRoundTrip(toks, pos, e);
  }
}
