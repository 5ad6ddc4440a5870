/** Parser.py and ParserASA.py side by side on a few token lists: where the
    recogniser is more permissive, and the errors both report.  The token
    lists are those AsaRender writes for the trees named in each comment. */
module RecogniserExamples {
  import opened Support
  import opened Tokens
  import opened Ast
  import opened ParserAsaSpec
  import opened AsaRender
  import opened ParserAsaProps
  import opened ParserAsaStatement
  import opened RecogniserSpec
  import opened RecogniserProps

  /** `5 + a = 3`: Parser.py accepts it, having no target check; ParserASA.py
      rejects the assignment to a sum. */
  lemma SumAsTarget()
    ensures RecStatement([LiteralToken(Num(5.0)), Sym(Plus, "+"), Sym(Identifier, "a"), Sym(Equal, "="),
                          LiteralToken(Num(3.0)), EndToken], 0) == ROk(5)
    ensures Parse([LiteralToken(Num(5.0)), Sym(Plus, "+"), Sym(Identifier, "a"), Sym(Equal, "="),
                   LiteralToken(Num(3.0)), EndToken], 0) == Failure(InvalidAssignment)
  {
    var toks := [LiteralToken(Num(5.0)), Sym(Plus, "+"), Sym(Identifier, "a"), Sym(Equal, "="),
                 LiteralToken(Num(3.0)), EndToken];
    var t := Binary(Literal(Num(5.0)), "+", Variable("a"));
    var v := Literal(Num(3.0));
    assert toks[0..5] == Render(t) + [Sym(Equal, "=")] + Render(v);
    assert toks[0..3] == Render(t) && toks[4..5] == Render(v);
    HoldsSlice(toks, 0, toks[0..5]);
    HoldsSlice(toks, 0, Render(t));
    HoldsSlice(toks, 4, Render(v));
    TermWholeRoundTrip(toks, 0, t);
    TermAgrees(toks, 0);
    ExpressionRoundTrip(toks, 4, v);
    ExpressionAgrees(toks, 4);
    assert RecAssignment(toks, 0) == ROk(5);
    TargetMustBeName(toks, 0, t, v);
  }

  /** `4(5, 2)` */
  const NumberCall := [LiteralToken(Num(4.0)), Sym(LeftParen, "("), LiteralToken(Num(5.0)), Sym(Comma, ","),
                       LiteralToken(Num(2.0)), Sym(RightParen, ")"), EndToken]

  /** Parser.py accepts a call of any primary. */
  lemma NumberCallAccepted()
    ensures RecStatement(NumberCall, 0) == ROk(6)
  {
    var args := [Literal(Num(5.0)), Literal(Num(2.0))];
    assert RenderArgs(args) == [LiteralToken(Num(5.0)), Sym(Comma, ","), LiteralToken(Num(2.0))];
    assert NumberCall[2..5] == RenderArgs(args);
    HoldsSlice(NumberCall, 2, RenderArgs(args));
    ArgumentsRoundTrip(NumberCall, 2, args);
    ArgumentsAgrees(NumberCall, 2);
    RecCalledAtom(NumberCall, 0, 5);
  }

  /** An atom, `(`, arguments and `)` make a whole statement when EOF follows. */
  lemma RecCalledAtom(toks: seq<Token>, pos: nat, q: nat)
    requires Cursor(toks, pos) && toks[pos].kind in {Null, Number, String, Identifier}
    requires IsKind(toks, pos + 1, LeftParen) && RecArguments(toks, pos + 2) == ROk(q)
    requires IsKind(toks, q, RightParen) && toks[q + 1].kind == Eof
    ensures RecStatement(toks, pos) == ROk(q + 1)
  {
    assert RecPrimary(toks, pos) == ROk(pos + 1);
    assert RecCallPrime(toks, pos + 1) == ROk(q + 1);
    assert RecUnary(toks, pos) == ROk(q + 1);
    assert RecFactorPrime(toks, q + 1) == ROk(q + 1);
    assert RecFactor(toks, pos) == ROk(q + 1);
    assert RecTermPrime(toks, q + 1) == ROk(q + 1);
    assert RecTerm(toks, pos) == ROk(q + 1);
    assert RecExpression(toks, pos) == ROk(q + 1);
  }

  /** ParserASA.py rejects a call of a number. */
  lemma NumberCallRejected()
    ensures Parse(NumberCall, 0) == Failure(InvalidCall)
  {
    assert NumberCall[0..1] == Render(Literal(Num(4.0)));
    HoldsSlice(NumberCall, 0, Render(Literal(Num(4.0))));
    CalleeMustBeName(NumberCall, 0, Literal(Num(4.0)));
  }

  /** `2 + + 3` */
  const DoublePlus := [LiteralToken(Num(2.0)), Sym(Plus, "+"), Sym(Plus, "+"), LiteralToken(Num(3.0)), EndToken]

  /** After `+` a whole term must follow: Parser.py stops at the second `+`
      with "Expresión esperada". */
  lemma DoublePlusRecognised()
    ensures RecStatement(DoublePlus, 0) == RErr(SyntaxError(DoublePlus, 2, ExpectedExpression("+")))
  {
    assert DoublePlus[0..1] == Render(Literal(Num(2.0)));
    HoldsSlice(DoublePlus, 0, Render(Literal(Num(2.0))));
    FactorWholeRoundTrip(DoublePlus, 0, Literal(Num(2.0)));
    FactorAgrees(DoublePlus, 0);
    RecMissingOperand(DoublePlus, 0, 1);
  }

  /** ParserASA.py stops at the same token with the same message. */
  lemma DoublePlusParsed()
    ensures Parse(DoublePlus, 0) == Failure(SyntaxError(DoublePlus, 2, ExpectedExpression("+")))
  {
    assert DoublePlus[0..1] == Render(Literal(Num(2.0)));
    HoldsSlice(DoublePlus, 0, Render(Literal(Num(2.0))));
    FactorWholeRoundTrip(DoublePlus, 0, Literal(Num(2.0)));
    MissingOperand(DoublePlus, 0, Literal(Num(2.0)), 1);
  }

  /** A `+` with no operand after a factor: the recogniser's error. */
  lemma RecMissingOperand(toks: seq<Token>, pos: nat, p: nat)
    requires Cursor(toks, pos) && RecFactor(toks, pos) == ROk(p) && IsKind(toks, p, Plus)
    requires toks[p + 1].kind !in {Null, Number, String, Identifier, LeftParen, Minus}
    ensures RecStatement(toks, pos) == RErr(SyntaxError(toks, p + 1, ExpectedExpression(toks[p + 1].lexeme)))
  {
    RecNoOperand(toks, p + 1);
    var m := SyntaxError(toks, p + 1, ExpectedExpression(toks[p + 1].lexeme));
    assert RecTermPrime(toks, p) == RErr(m);
    assert RecTerm(toks, pos) == RErr(m);
    assert RecAssignment(toks, pos) == RErr(m);
    assert RecExpression(toks, pos) == RErr(m);
  }

  /** The same for ParserASA.py. */
  lemma MissingOperand(toks: seq<Token>, pos: nat, l: Expr, p: nat)
    requires Cursor(toks, pos) && ParseFactor(toks, pos) == POk(l, p) && IsKind(toks, p, Plus)
    requires toks[p + 1].kind !in {Null, Number, String, Identifier, LeftParen, Minus}
    ensures Parse(toks, pos) == Failure(SyntaxError(toks, p + 1, ExpectedExpression(toks[p + 1].lexeme)))
  {
    NoOperand(toks, p + 1);
    var m := SyntaxError(toks, p + 1, ExpectedExpression(toks[p + 1].lexeme));
    assert ParseTermRest(toks, l, p) == PErr(m);
    assert ParseTerm(toks, pos) == PErr(m);
    assert ParseAssignment(toks, pos) == PErr(m);
    assert ParseExpression(toks, pos) == PErr(m);
    assert ParseStatement(toks, pos) == PErr(m);
  }

  lemma NoOperand(toks: seq<Token>, q: nat)
    requires Cursor(toks, q) && toks[q].kind !in {Null, Number, String, Identifier, LeftParen, Minus}
    ensures ParseFactor(toks, q) == PErr(SyntaxError(toks, q, ExpectedExpression(toks[q].lexeme)))
  {
    assert ParseCall(toks, q) == ParseUnary(toks, q);
  }

  /** `1; 2`: after `;` only EOF may follow. */
  lemma InputAfterSemicolon()
    ensures RecStatement([LiteralToken(Num(1.0)), Sym(Semicolon, ";"), LiteralToken(Num(2.0)), EndToken], 0)
         == RErr(SyntaxError([LiteralToken(Num(1.0)), Sym(Semicolon, ";"), LiteralToken(Num(2.0)), EndToken],
                             2, TrailingInput))
    ensures Parse([LiteralToken(Num(1.0)), Sym(Semicolon, ";"), LiteralToken(Num(2.0)), EndToken], 0)
         == Failure(SyntaxError([LiteralToken(Num(1.0)), Sym(Semicolon, ";"), LiteralToken(Num(2.0)), EndToken],
                                2, TrailingInput))
  {
    var toks := [LiteralToken(Num(1.0)), Sym(Semicolon, ";"), LiteralToken(Num(2.0)), EndToken];
    assert toks[0..1] == Render(Literal(Num(1.0)));
    HoldsSlice(toks, 0, Render(Literal(Num(1.0))));
    ExpressionRoundTrip(toks, 0, Literal(Num(1.0)));
    ExpressionAgrees(toks, 0);
    TrailingInputRejected(toks, 0, Literal(Num(1.0)));
  }

  /** `f()`: the empty argument list, accepted by both. */
  lemma EmptyArgumentList()
    ensures RecStatement([Sym(Identifier, "f"), Sym(LeftParen, "("), Sym(RightParen, ")"), EndToken], 0).ROk?
    ensures Parse([Sym(Identifier, "f"), Sym(LeftParen, "("), Sym(RightParen, ")"), EndToken], 0)
         == Success(ExprStmt(Call("f", []), true))
  {
    var toks := [Sym(Identifier, "f"), Sym(LeftParen, "("), Sym(RightParen, ")"), EndToken];
    assert Render(Call("f", [])) + Ending(true) == toks;
    ParseRoundTrip(Call("f", []), true);
    ParsersAgree(toks);
  }
}
