/** The recursive-descent parser of ParserASA.py: a token list and a cursor
    `actual` that `match`/`advance` move forward.  Each method is proved to
    compute what the function of the same rule in ParserAsaSpec computes from
    the cursor it started at; a raised ParseError is a returned `PErr`. */
module ParsingAsa {
  import opened Support
  import opened Tokens
  import opened Ast
  import opened ParserAsaSpec

  class Parser {
    const tokens: seq<Token>
    var actual: nat

    ghost predicate Valid()
      reads this
    {
      Cursor(tokens, actual)
    }

    constructor (tokens: seq<Token>)
      requires WellEnded(tokens)
      ensures Valid() && this.tokens == tokens && actual == 0
    {
      this.tokens := tokens;
      actual := 0;
    }

    method Parse() returns (r: Result<Stmt, string>)
      requires Valid()
      modifies this
      ensures Valid()
      ensures r == ParserAsaSpec.Parse(tokens, old(actual))
    {
      var stmt := Statement();
      if stmt.PErr? {
        return Failure(stmt.message);
      }
      if !IsAtEnd() {
        return Failure(Error(TrailingInput));
      }
      return Success(stmt.value);
    }

    method Statement() returns (r: Parsed<Stmt>)
      requires Valid()
      modifies this
      ensures Valid()
      ensures r == ParseStatement(tokens, old(actual)) && (r.POk? ==> actual == r.pos)
      decreases |tokens| - actual, 12
    {
      var expr := Expression();
      if expr.PErr? {
        return PErr(expr.message);
      }
      var hasSemicolon := Match(Semicolon);
      var printResult := !hasSemicolon;
      return POk(ExprStmt(expr.value, printResult), actual);
    }

    method Expression() returns (r: Parsed<Expr>)
      requires Valid()
      modifies this
      ensures Valid()
      ensures r == ParseExpression(tokens, old(actual)) && (r.POk? ==> actual == r.pos)
      decreases |tokens| - actual, 9
    {
      r := Assignment();
    }

    method Assignment() returns (r: Parsed<Expr>)
      requires Valid()
      modifies this
      ensures Valid()
      ensures r == ParseAssignment(tokens, old(actual)) && (r.POk? ==> actual == r.pos)
      decreases |tokens| - actual, 8
    {
      var expr := Term();
      if expr.PErr? {
        return PErr(expr.message);
      }
      var equal := Match(Equal);
      if equal {
        var value := Expression();
        if value.PErr? {
          return PErr(value.message);
        }
        if expr.value.Variable? {
          return POk(Assign(expr.value.name, value.value), actual);
        }
        return PErr(InvalidAssignment);
      }
      return POk(expr.value, actual);
    }

    method Term() returns (r: Parsed<Expr>)
      requires Valid()
      modifies this
      ensures Valid()
      ensures r == ParseTerm(tokens, old(actual)) && (r.POk? ==> actual == r.pos)
      decreases |tokens| - actual, 7
    {
      var first := Factor();
      if first.PErr? {
        return PErr(first.message);
      }
      var expr := first.value;
      while true
        invariant Valid() && old(actual) < actual
        invariant ParseTermRest(tokens, expr, actual) == ParseTerm(tokens, old(actual))
        decreases |tokens| - actual
      {
        var plus := Match(Plus);
        if plus {
          var right := Factor();
          if right.PErr? {
            return PErr(right.message);
          }
          expr := Binary(expr, "+", right.value);
        } else {
          var minus := Match(Minus);
          if minus {
            var right := Factor();
            if right.PErr? {
              return PErr(right.message);
            }
            expr := Binary(expr, "-", right.value);
          } else {
            break;
          }
        }
      }
      return POk(expr, actual);
    }

    method Factor() returns (r: Parsed<Expr>)
      requires Valid()
      modifies this
      ensures Valid()
      ensures r == ParseFactor(tokens, old(actual)) && (r.POk? ==> actual == r.pos)
      decreases |tokens| - actual, 5
    {
      var first := Unary();
      if first.PErr? {
        return PErr(first.message);
      }
      var expr := first.value;
      while true
        invariant Valid() && old(actual) < actual
        invariant ParseFactorRest(tokens, expr, actual) == ParseFactor(tokens, old(actual))
        decreases |tokens| - actual
      {
        var op: string;
        var star := Match(Star);
        if star {
          op := "*";
        } else {
          var slash := Match(Slash);
          if slash {
            op := "/";
          } else {
            var mod := Match(Mod);
            if mod {
              op := "%";
            } else {
              break;
            }
          }
        }
        var right := Unary();
        if right.PErr? {
          return PErr(right.message);
        }
        expr := Binary(expr, op, right.value);
      }
      return POk(expr, actual);
    }

    method Unary() returns (r: Parsed<Expr>)
      requires Valid()
      modifies this
      ensures Valid()
      ensures r == ParseUnary(tokens, old(actual)) && (r.POk? ==> actual == r.pos)
      decreases |tokens| - actual, 3
    {
      var minus := Match(Minus);
      if minus {
        var right := Unary();
        if right.PErr? {
          return PErr(right.message);
        }
        return POk(Expr.Unary("-", right.value), actual);
      }
      r := Call();
    }

    method Call() returns (r: Parsed<Expr>)
      requires Valid()
      modifies this
      ensures Valid()
      ensures r == ParseCall(tokens, old(actual)) && (r.POk? ==> actual == r.pos)
      decreases |tokens| - actual, 2
    {
      var expr := Primary();
      if expr.PErr? {
        return PErr(expr.message);
      }
      var paren := Match(LeftParen);
      if !paren {
        return POk(expr.value, actual);
      }
      if !expr.value.Variable? {
        return PErr(InvalidCall);
      }
      ghost var start := actual;
      var args: seq<Expr> := [];
      if !Check(RightParen) {
        var first := Expression();
        if first.PErr? {
          return PErr(first.message);
        }
        args := [first.value];
        while true
          invariant Valid() && start < actual
          invariant ParseArgumentsRest(tokens, args, actual) == ParseArguments(tokens, start)
          decreases |tokens| - actual
        {
          var comma := Match(Comma);
          if !comma {
            break;
          }
          var next := Expression();
          if next.PErr? {
            return PErr(next.message);
          }
          args := args + [next.value];
        }
      }
      var close := Match(RightParen);
      if !close {
        return PErr(Error(MissingArgsParen));
      }
      return POk(Expr.Call(expr.value.name, args), actual);
    }

    method Primary() returns (r: Parsed<Expr>)
      requires Valid()
      modifies this
      ensures Valid()
      ensures r == ParsePrimary(tokens, old(actual)) && (r.POk? ==> actual == r.pos)
      decreases |tokens| - actual, 1
    {
      var m := Match(Null);
      if m {
        return POk(Literal(Nil), actual);
      }
      m := Match(Number);
      if m {
        return POk(Literal(LiteralValue(Previous().literal)), actual);
      }
      m := Match(String);
      if m {
        return POk(Literal(LiteralValue(Previous().literal)), actual);
      }
      m := Match(Identifier);
      if m {
        return POk(Variable(Previous().lexeme), actual);
      }
      m := Match(LeftParen);
      if m {
        var expr := Expression();
        if expr.PErr? {
          return PErr(expr.message);
        }
        var close := Match(RightParen);
        if !close {
          return PErr(Error(MissingGroupParen));
        }
        return POk(Grouping(expr.value), actual);
      }
      var current := Peek();
      return PErr(Error(ExpectedExpression(current.lexeme)));
    }

    /** `match(tipo)`: consumes the current token only if it has that kind. */
    method Match(tipo: TokenKind) returns (b: bool)
      requires Valid()
      modifies this
      ensures Valid()
      ensures b == IsKind(tokens, old(actual), tipo)
      ensures actual == if b then old(actual) + 1 else old(actual)
    {
      if Check(tipo) {
        var _ := Advance();
        return true;
      }
      return false;
    }

    predicate Check(tipo: TokenKind)
      requires Valid()
      reads this
    {
      !IsAtEnd() && Peek().kind == tipo
    }

    /** `advance()`: stays on EOF, and returns the token before the cursor. */
    method Advance() returns (t: Token)
      requires Valid()
      modifies this
      ensures Valid() && actual == Next(tokens, old(actual)) && t == Previous()
    {
      if !IsAtEnd() {
        actual := actual + 1;
      }
      t := Previous();
    }

    predicate IsAtEnd()
      requires Valid()
      reads this
    {
      Peek().kind == Eof
    }

    function Peek(): (t: Token)
      requires Valid()
      reads this
      ensures t == tokens[actual]
    {
      tokens[actual]
    }

    /** `tokens[actual - 1]`; with the cursor at 0 Python's index -1 is the last token. */
    function Previous(): (t: Token)
      requires Valid()
      reads this
    {
      if actual == 0 then tokens[|tokens| - 1] else tokens[actual - 1]
    }

    /** The message `error(mensaje)` raises. */
    function Error(mensaje: string): (m: string)
      requires Valid()
      reads this
      ensures m == SyntaxError(tokens, actual, mensaje)
    {
      "[Token: " + Peek().lexeme + "] Error sintáctico: " + mensaje
    }
  }
}
