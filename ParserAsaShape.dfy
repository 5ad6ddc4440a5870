/** Every tree the parser of ParserASA.py builds has the shape of its grammar
    level: sums and products lean left, the right operand of `+`/`-` is a
    factor, that of `*`/`/`/`%` a unary, only names are called, and only names
    are assigned to.  Each lemma follows the function it is about, call by
    call, so the induction is on the same measure. */
module ParserAsaShape {
  import opened Support
  import opened Tokens
  import opened Ast
  import opened ParserAsaSpec

  lemma {:induction false} ExpressionShape(toks: seq<Token>, pos: nat)
    requires Cursor(toks, pos)
    ensures ParseExpression(toks, pos).POk? ==> IsExpression(ParseExpression(toks, pos).value)
    decreases |toks| - pos, 9
  {
    AssignmentShape(toks, pos);
  }

  lemma {:induction false} AssignmentShape(toks: seq<Token>, pos: nat)
    requires Cursor(toks, pos)
    ensures ParseAssignment(toks, pos).POk? ==> IsExpression(ParseAssignment(toks, pos).value)
    decreases |toks| - pos, 8
  {
    TermShape(toks, pos);
    var t := ParseTerm(toks, pos);
    if t.POk? {
      ShapeLevels(t.value);
      if IsKind(toks, t.pos, Equal) {
        ExpressionShape(toks, t.pos + 1);
      }
    }
  }

  lemma {:induction false} TermShape(toks: seq<Token>, pos: nat)
    requires Cursor(toks, pos)
    ensures ParseTerm(toks, pos).POk? ==> IsTerm(ParseTerm(toks, pos).value)
    decreases |toks| - pos, 7
  {
    FactorShape(toks, pos);
    var f := ParseFactor(toks, pos);
    if f.POk? {
      ShapeLevels(f.value);
      TermRestShape(toks, f.value, f.pos);
    }
  }

  lemma {:induction false} TermRestShape(toks: seq<Token>, left: Expr, pos: nat)
    requires Cursor(toks, pos) && IsTerm(left)
    ensures ParseTermRest(toks, left, pos).POk? ==> IsTerm(ParseTermRest(toks, left, pos).value)
    decreases |toks| - pos, 6
  {
    if IsKind(toks, pos, Plus) || IsKind(toks, pos, Minus) {
      var op := if IsKind(toks, pos, Plus) then "+" else "-";
      FactorShape(toks, pos + 1);
      var f := ParseFactor(toks, pos + 1);
      if f.POk? {
        assert IsTerm(Binary(left, op, f.value));
        TermRestShape(toks, Binary(left, op, f.value), f.pos);
      }
    }
  }

  lemma {:induction false} FactorShape(toks: seq<Token>, pos: nat)
    requires Cursor(toks, pos)
    ensures ParseFactor(toks, pos).POk? ==> IsFactor(ParseFactor(toks, pos).value)
    decreases |toks| - pos, 5
  {
    UnaryShape(toks, pos);
    var u := ParseUnary(toks, pos);
    if u.POk? {
      ShapeLevels(u.value);
      FactorRestShape(toks, u.value, u.pos);
    }
  }

  lemma {:induction false} FactorRestShape(toks: seq<Token>, left: Expr, pos: nat)
    requires Cursor(toks, pos) && IsFactor(left)
    ensures ParseFactorRest(toks, left, pos).POk? ==> IsFactor(ParseFactorRest(toks, left, pos).value)
    decreases |toks| - pos, 4
  {
    if IsKind(toks, pos, Star) || IsKind(toks, pos, Slash) || IsKind(toks, pos, Mod) {
      var op := if IsKind(toks, pos, Star) then "*" else if IsKind(toks, pos, Slash) then "/" else "%";
      UnaryShape(toks, pos + 1);
      var u := ParseUnary(toks, pos + 1);
      if u.POk? {
        assert IsFactor(Binary(left, op, u.value));
        FactorRestShape(toks, Binary(left, op, u.value), u.pos);
      }
    }
  }

  lemma {:induction false} UnaryShape(toks: seq<Token>, pos: nat)
    requires Cursor(toks, pos)
    ensures ParseUnary(toks, pos).POk? ==> IsUnary(ParseUnary(toks, pos).value)
    decreases |toks| - pos, 3
  {
    if IsKind(toks, pos, Minus) {
      UnaryShape(toks, pos + 1);
    } else {
      CallShape(toks, pos);
      if ParseCall(toks, pos).POk? {
        ShapeLevels(ParseCall(toks, pos).value);
      }
    }
  }

  lemma {:induction false} CallShape(toks: seq<Token>, pos: nat)
    requires Cursor(toks, pos)
    ensures ParseCall(toks, pos).POk? ==> IsCall(ParseCall(toks, pos).value)
    decreases |toks| - pos, 2
  {
    PrimaryShape(toks, pos);
    var p := ParsePrimary(toks, pos);
    if p.POk? {
      ShapeLevels(p.value);
      if IsKind(toks, p.pos, LeftParen) && p.value.Variable? {
        ArgumentsShape(toks, p.pos + 1);
      }
    }
  }

  lemma {:induction false} ArgumentsShape(toks: seq<Token>, pos: nat)
    requires Cursor(toks, pos)
    ensures ParseArguments(toks, pos).POk? ==>
              forall i | 0 <= i < |ParseArguments(toks, pos).value| :: IsExpression(ParseArguments(toks, pos).value[i])
    decreases |toks| - pos, 11
  {
    if !IsKind(toks, pos, RightParen) {
      ExpressionShape(toks, pos);
      var e := ParseExpression(toks, pos);
      if e.POk? {
        ArgumentsRestShape(toks, [e.value], e.pos);
      }
    }
  }

  lemma {:induction false} ArgumentsRestShape(toks: seq<Token>, acc: seq<Expr>, pos: nat)
    requires Cursor(toks, pos) && forall i | 0 <= i < |acc| :: IsExpression(acc[i])
    ensures ParseArgumentsRest(toks, acc, pos).POk? ==>
              forall i | 0 <= i < |ParseArgumentsRest(toks, acc, pos).value| ::
                IsExpression(ParseArgumentsRest(toks, acc, pos).value[i])
    decreases |toks| - pos, 10
  {
    if IsKind(toks, pos, Comma) {
      ExpressionShape(toks, pos + 1);
      var e := ParseExpression(toks, pos + 1);
      if e.POk? {
        assert forall i | 0 <= i < |acc + [e.value]| :: IsExpression((acc + [e.value])[i]);
        ArgumentsRestShape(toks, acc + [e.value], e.pos);
      }
    }
  }

  lemma {:induction false} PrimaryShape(toks: seq<Token>, pos: nat)
    requires Cursor(toks, pos)
    ensures ParsePrimary(toks, pos).POk? ==> IsPrimary(ParsePrimary(toks, pos).value)
    decreases |toks| - pos, 1
  {
    if !IsKind(toks, pos, Null) && !IsKind(toks, pos, Number) && !IsKind(toks, pos, String)
       && !IsKind(toks, pos, Identifier) && IsKind(toks, pos, LeftParen) {
      ExpressionShape(toks, pos + 1);
    }
  }

  /** `parse()` succeeds only with a tree of the grammar's shape. */
  lemma ParseShape(toks: seq<Token>, pos: nat)
    requires Cursor(toks, pos)
    ensures Parse(toks, pos).Success? ==> IsExpression(Parse(toks, pos).value.expr)
  {
    ExpressionShape(toks, pos);
  }
}
