/** How the recogniser of Parser.py and the tree-building parser of
    ParserASA.py relate: rule by rule, whatever ParserASA.py parses the
    recogniser accepts, stopping at the same token; and whatever the
    recogniser accepts ParserASA.py either parses, stopping at the same
    token, or rejects with one of its two target checks (an assignment to
    something that is not a name, a call of something that is not a name).
    Then the recogniser's own documented behaviour on concrete inputs. */
module RecogniserProps {
  import opened Support
  import opened Tokens
  import opened Ast
  import opened ParserAsaSpec
  import opened RecogniserSpec

  /** The two errors ParserASA.py raises that Parser.py has no counterpart for. */
  predicate TargetError(m: string)
  {
    m == InvalidAssignment || m == InvalidCall
  }

  predicate Agree<T>(p: Parsed<T>, r: Recognised)
  {
    && (p.POk? ==> r == ROk(p.pos))
    && (r.ROk? ==> (p.POk? && p.pos == r.pos) || (p.PErr? && TargetError(p.message)))
  }

  lemma {:induction false} ExpressionAgrees(toks: seq<Token>, pos: nat)
    requires Cursor(toks, pos)
    ensures Agree(ParseExpression(toks, pos), RecExpression(toks, pos))
    decreases |toks| - pos, 10
  {
    AssignmentAgrees(toks, pos);
  }

  lemma {:induction false} AssignmentAgrees(toks: seq<Token>, pos: nat)
    requires Cursor(toks, pos)
    ensures Agree(ParseAssignment(toks, pos), RecAssignment(toks, pos))
    decreases |toks| - pos, 9
  {
    TermAgrees(toks, pos);
    var t := ParseTerm(toks, pos);
    var r := RecTerm(toks, pos);
    if t.POk? && IsKind(toks, t.pos, Equal) {
      ExpressionAgrees(toks, t.pos + 1);
    } else if r.ROk? && IsKind(toks, r.pos, Equal) {
      ExpressionAgrees(toks, r.pos + 1);
    }
  }

  lemma {:induction false} TermAgrees(toks: seq<Token>, pos: nat)
    requires Cursor(toks, pos)
    ensures Agree(ParseTerm(toks, pos), RecTerm(toks, pos))
    decreases |toks| - pos, 8
  {
    FactorAgrees(toks, pos);
    var f := ParseFactor(toks, pos);
    if f.POk? {
      TermRestAgrees(toks, f.value, f.pos);
    }
  }

  /** The left-leaning loop of `term()` and the right-recursive TERM' accept
      the same operator-operand sequences. */
  lemma {:induction false} TermRestAgrees(toks: seq<Token>, left: Expr, pos: nat)
    requires Cursor(toks, pos)
    ensures Agree(ParseTermRest(toks, left, pos), RecTermPrime(toks, pos))
    decreases |toks| - pos, 7
  {
    if IsKind(toks, pos, Plus) || IsKind(toks, pos, Minus) {
      var op := if IsKind(toks, pos, Plus) then "+" else "-";
      FactorAgrees(toks, pos + 1);
      assert RecTermPrime(toks, pos) == RecTerm(toks, pos + 1);
      var f := ParseFactor(toks, pos + 1);
      if f.POk? {
        TermRestAgrees(toks, Binary(left, op, f.value), f.pos);
      }
    }
  }

  lemma {:induction false} FactorAgrees(toks: seq<Token>, pos: nat)
    requires Cursor(toks, pos)
    ensures Agree(ParseFactor(toks, pos), RecFactor(toks, pos))
    decreases |toks| - pos, 6
  {
    UnaryAgrees(toks, pos);
    var u := ParseUnary(toks, pos);
    if u.POk? {
      FactorRestAgrees(toks, u.value, u.pos);
    }
  }

  lemma {:induction false} FactorRestAgrees(toks: seq<Token>, left: Expr, pos: nat)
    requires Cursor(toks, pos)
    ensures Agree(ParseFactorRest(toks, left, pos), RecFactorPrime(toks, pos))
    decreases |toks| - pos, 5
  {
    if IsKind(toks, pos, Star) || IsKind(toks, pos, Slash) || IsKind(toks, pos, Mod) {
      var op := if IsKind(toks, pos, Star) then "*" else if IsKind(toks, pos, Slash) then "/" else "%";
      UnaryAgrees(toks, pos + 1);
      assert RecFactorPrime(toks, pos) == RecFactor(toks, pos + 1);
      var u := ParseUnary(toks, pos + 1);
      if u.POk? {
        FactorRestAgrees(toks, Binary(left, op, u.value), u.pos);
      }
    }
  }

  lemma {:induction false} UnaryAgrees(toks: seq<Token>, pos: nat)
    requires Cursor(toks, pos)
    ensures Agree(ParseUnary(toks, pos), RecUnary(toks, pos))
    decreases |toks| - pos, 4
  {
    if IsKind(toks, pos, Minus) {
      UnaryAgrees(toks, pos + 1);
    } else {
      CallAgrees(toks, pos);
    }
  }

  lemma {:induction false} CallAgrees(toks: seq<Token>, pos: nat)
    requires Cursor(toks, pos)
    ensures Agree(ParseCall(toks, pos), RecCall(toks, pos))
    decreases |toks| - pos, 3
  {
    PrimaryAgrees(toks, pos);
    var p := ParsePrimary(toks, pos);
    if p.POk? && IsKind(toks, p.pos, LeftParen) {
      ArgumentsAgrees(toks, p.pos + 1);
    }
  }

  lemma {:induction false} PrimaryAgrees(toks: seq<Token>, pos: nat)
    requires Cursor(toks, pos)
    ensures Agree(ParsePrimary(toks, pos), RecPrimary(toks, pos))
    decreases |toks| - pos, 1
  {
    if IsKind(toks, pos, LeftParen) {
      ExpressionAgrees(toks, pos + 1);
    }
  }

  lemma {:induction false} ArgumentsAgrees(toks: seq<Token>, pos: nat)
    requires Cursor(toks, pos)
    ensures Agree(ParseArguments(toks, pos), RecArguments(toks, pos))
    decreases |toks| - pos, 12
  {
    if !IsKind(toks, pos, RightParen) {
      ExpressionAgrees(toks, pos);
      var e := ParseExpression(toks, pos);
      if e.POk? {
        ArgumentsRestAgrees(toks, [e.value], e.pos);
      }
    }
  }

  lemma {:induction false} ArgumentsRestAgrees(toks: seq<Token>, acc: seq<Expr>, pos: nat)
    requires Cursor(toks, pos)
    ensures Agree(ParseArgumentsRest(toks, acc, pos), RecArgumentsPrime(toks, pos))
    decreases |toks| - pos, 11
  {
    if IsKind(toks, pos, Comma) {
      ExpressionAgrees(toks, pos + 1);
      var e := ParseExpression(toks, pos + 1);
      if e.POk? {
        ArgumentsRestAgrees(toks, acc + [e.value], e.pos);
      }
    }
  }

  /** Every token list ParserASA.py's `parse()` accepts, Parser.py's
      `parse()` accepts too; and what Parser.py accepts, ParserASA.py either
      accepts or rejects with a target error. */
  lemma ParsersAgree(toks: seq<Token>)
    requires WellEnded(toks)
    ensures Parse(toks, 0).Success? ==> Accepts(toks)
    ensures Accepts(toks) ==> Parse(toks, 0).Success? || TargetError(Parse(toks, 0).error)
  {
    ExpressionAgrees(toks, 0);
  }

  /** A token that cannot start an expression makes TERM fail in `primary`. */
  lemma RecNoOperand(toks: seq<Token>, q: nat)
    requires Cursor(toks, q) && toks[q].kind !in {Null, Number, String, Identifier, LeftParen, Minus}
    ensures RecTerm(toks, q) == RErr(SyntaxError(toks, q, ExpectedExpression(toks[q].lexeme)))
  {
    assert RecUnary(toks, q) == RecCall(toks, q);
  }

  /** `primary` accepts only NULL, NUMBER, STRING, IDENTIFIER and `(`; a
      statement that starts with any other token (EOF, `true`, `)`, ...)
      other than `-` fails there. */
  lemma RecExpressionExpected(toks: seq<Token>, pos: nat)
    requires Cursor(toks, pos) && toks[pos].kind !in {Null, Number, String, Identifier, LeftParen, Minus}
    ensures RecStatement(toks, pos) == RErr(SyntaxError(toks, pos, ExpectedExpression(toks[pos].lexeme)))
  {
    RecNoOperand(toks, pos);
    var m := SyntaxError(toks, pos, ExpectedExpression(toks[pos].lexeme));
    assert RecAssignment(toks, pos) == RErr(m);
    assert RecExpression(toks, pos) == RErr(m);
  }
}
