/** The predictive recogniser of Parser.py: a token list, a cursor `actual`
    and the list `errores`.  A rule that raises has appended exactly its
    message to `errores` and returns false; callers stop at once, as the
    exception would.  Each method is proved to agree with the rule of the
    same name in RecogniserSpec from the cursor it started at. */
module Recognising {
  import opened Support
  import opened Tokens
  import opened ParserAsaSpec
  import opened RecogniserSpec

  /** How a rule's method finished relative to what the rule computes: on
      success the cursor is where the rule stops and nothing was recorded; on
      failure the rule's message is the one new entry of `errores`. */
  predicate Reports(r: Recognised, ok: bool, pos: nat, errors: seq<string>, before: seq<string>)
  {
    && ok == r.ROk?
    && (ok ==> pos == r.pos && errors == before)
    && (!ok ==> errors == before + [r.message])
  }

  class Parser {
    const tokens: seq<Token>
    var actual: nat
    var errores: seq<string>

    ghost predicate Valid()
      reads this
    {
      Cursor(tokens, actual)
    }

    constructor (tokens: seq<Token>)
      requires WellEnded(tokens)
      ensures Valid() && this.tokens == tokens && actual == 0 && errores == []
    {
      this.tokens := tokens;
      actual := 0;
      errores := [];
    }

    /** `parse()`: True, or an exception whose text is the recorded errors;
        from a fresh parser that is exactly one message. */
    method Parse() returns (r: Result<bool, string>)
      requires Valid()
      modifies this
      ensures Valid()
      ensures errores == old(errores) + (if RecStatement(tokens, old(actual)).ROk? then []
                                          else [RecStatement(tokens, old(actual)).message])
      ensures r == if errores == [] then Success(true) else Failure(JoinLines(errores))
      ensures old(errores) == [] && RecStatement(tokens, old(actual)).ROk? ==> r == Success(true)
      ensures old(errores) == [] && RecStatement(tokens, old(actual)).RErr? ==>
                |errores| == 1 && r == Failure(RecStatement(tokens, old(actual)).message)
    {
      var ok := Statement();
      if errores != [] {
        return Failure(JoinLines(errores));
      }
      return Success(true);
    }

    method Statement() returns (ok: bool)
      requires Valid()
      modifies this
      ensures Valid()
      ensures Reports(RecStatement(tokens, old(actual)), ok, actual, errores, old(errores))
      decreases |tokens| - actual, 13
    {
      ok := Expression();
      if !ok {
        return;
      }
      SemicolonOpc();
      if !IsAtEnd() {
        Error(TrailingInput);
        return false;
      }
    }

    /** SEMICOLON_OPC: consumes a `;` if there is one. */
    method SemicolonOpc()
      requires Valid()
      modifies this`actual
      ensures Valid()
      ensures actual == if IsKind(tokens, old(actual), Semicolon) then old(actual) + 1 else old(actual)
    {
      var _ := Match(Semicolon);
    }

    method Expression() returns (ok: bool)
      requires Valid()
      modifies this
      ensures Valid()
      ensures Reports(RecExpression(tokens, old(actual)), ok, actual, errores, old(errores))
      decreases |tokens| - actual, 10
    {
      ok := Assignment();
    }

    method Assignment() returns (ok: bool)
      requires Valid()
      modifies this
      ensures Valid()
      ensures Reports(RecAssignment(tokens, old(actual)), ok, actual, errores, old(errores))
      decreases |tokens| - actual, 9
    {
      ok := Term();
      if ok {
        ok := AssignmentOpc();
      }
    }

    /** ASSIGNMENT_OPC: with no check on what was to the left of `=`. */
    method AssignmentOpc() returns (ok: bool)
      requires Valid()
      modifies this
      ensures Valid()
      ensures Reports(if IsKind(tokens, old(actual), Equal) then RecExpression(tokens, old(actual) + 1)
                      else ROk(old(actual)), ok, actual, errores, old(errores))
      decreases |tokens| - actual, 9
    {
      var equal := Match(Equal);
      ok := true;
      if equal {
        ok := Expression();
      }
    }

    method Term() returns (ok: bool)
      requires Valid()
      modifies this
      ensures Valid()
      ensures Reports(RecTerm(tokens, old(actual)), ok, actual, errores, old(errores))
      decreases |tokens| - actual, 8
    {
      ok := Factor();
      if ok {
        ok := TermPrime();
      }
    }

    method TermPrime() returns (ok: bool)
      requires Valid()
      modifies this
      ensures Valid()
      ensures Reports(RecTermPrime(tokens, old(actual)), ok, actual, errores, old(errores))
      decreases |tokens| - actual, 7
    {
      var minus := Match(Minus);
      if minus {
        ok := Term();
        return;
      }
      var plus := Match(Plus);
      if plus {
        ok := Term();
        return;
      }
      ok := true;
    }

    method Factor() returns (ok: bool)
      requires Valid()
      modifies this
      ensures Valid()
      ensures Reports(RecFactor(tokens, old(actual)), ok, actual, errores, old(errores))
      decreases |tokens| - actual, 6
    {
      ok := Unary();
      if ok {
        ok := FactorPrime();
      }
    }

    method FactorPrime() returns (ok: bool)
      requires Valid()
      modifies this
      ensures Valid()
      ensures Reports(RecFactorPrime(tokens, old(actual)), ok, actual, errores, old(errores))
      decreases |tokens| - actual, 5
    {
      var m := Match(Slash);
      if m {
        ok := Factor();
        return;
      }
      m := Match(Star);
      if m {
        ok := Factor();
        return;
      }
      m := Match(Mod);
      if m {
        ok := Factor();
        return;
      }
      ok := true;
    }

    method Unary() returns (ok: bool)
      requires Valid()
      modifies this
      ensures Valid()
      ensures Reports(RecUnary(tokens, old(actual)), ok, actual, errores, old(errores))
      decreases |tokens| - actual, 4
    {
      var minus := Match(Minus);
      if minus {
        ok := Unary();
      } else {
        ok := Call();
      }
    }

    method Call() returns (ok: bool)
      requires Valid()
      modifies this
      ensures Valid()
      ensures Reports(RecCall(tokens, old(actual)), ok, actual, errores, old(errores))
      decreases |tokens| - actual, 3
    {
      ok := Primary();
      if ok {
        ok := CallPrime();
      }
    }

    /** CALL': `(` is accepted after any primary. */
    method CallPrime() returns (ok: bool)
      requires Valid()
      modifies this
      ensures Valid()
      ensures Reports(RecCallPrime(tokens, old(actual)), ok, actual, errores, old(errores))
      decreases |tokens| - actual, 2
    {
      var paren := Match(LeftParen);
      ok := true;
      if paren {
        ok := Arguments();
        if !ok {
          return;
        }
        var close := Match(RightParen);
        if !close {
          Error(MissingArgsParen);
          ok := false;
        }
      }
    }

    method Primary() returns (ok: bool)
      requires Valid()
      modifies this
      ensures Valid()
      ensures Reports(RecPrimary(tokens, old(actual)), ok, actual, errores, old(errores))
      decreases |tokens| - actual, 1
    {
      var m := Match(Null);
      if m {
        return true;
      }
      m := Match(Number);
      if m {
        return true;
      }
      m := Match(String);
      if m {
        return true;
      }
      m := Match(Identifier);
      if m {
        return true;
      }
      m := Match(LeftParen);
      if m {
        ok := Expression();
        if !ok {
          return;
        }
        var close := Match(RightParen);
        if !close {
          Error(MissingGroupParen);
          return false;
        }
        return true;
      }
      var current := Peek();
      Error(ExpectedExpression(current.lexeme));
      return false;
    }

    method Arguments() returns (ok: bool)
      requires Valid()
      modifies this
      ensures Valid()
      ensures Reports(RecArguments(tokens, old(actual)), ok, actual, errores, old(errores))
      decreases |tokens| - actual, 12
    {
      if Check(RightParen) {
        return true;
      }
      ok := Expression();
      if ok {
        ok := ArgumentsPrime();
      }
    }

    method ArgumentsPrime() returns (ok: bool)
      requires Valid()
      modifies this
      ensures Valid()
      ensures Reports(RecArgumentsPrime(tokens, old(actual)), ok, actual, errores, old(errores))
      decreases |tokens| - actual, 11
    {
      var comma := Match(Comma);
      ok := true;
      if comma {
        ok := Expression();
        if ok {
          ok := ArgumentsPrime();
        }
      }
    }

    /** `match(tipo)`: consumes the current token only if it has that kind. */
    method Match(tipo: TokenKind) returns (b: bool)
      requires Valid()
      modifies this`actual
      ensures Valid()
      ensures b == IsKind(tokens, old(actual), tipo)
      ensures actual == if b then old(actual) + 1 else old(actual)
    {
      if Check(tipo) {
        Advance();
        return true;
      }
      return false;
    }

    /** `check(tipo)`: false at EOF whatever `tipo` is. */
    predicate Check(tipo: TokenKind)
      requires Valid()
      reads this
    {
      !IsAtEnd() && Peek().kind == tipo
    }

    /** `advance()`: never moves past the EOF token. */
    method Advance()
      requires Valid()
      modifies this`actual
      ensures Valid() && actual == Next(tokens, old(actual))
    {
      if !IsAtEnd() {
        actual := actual + 1;
      }
    }

    predicate IsAtEnd()
      requires Valid()
      reads this
    {
      Peek().kind == Eof
    }

    function Peek(): Token
      requires Valid()
      reads this
    {
      tokens[actual]
    }

    /** `error(mensaje)`: records the message naming the current token; the
        caller then stops, as the exception it raises would make it. */
    method Error(mensaje: string)
      requires Valid()
      modifies this`errores
      ensures errores == old(errores) + [SyntaxError(tokens, actual, mensaje)]
    {
      var token := Peek();
      var errorMsg := "[Token: " + token.lexeme + "] Error sintáctico: " + mensaje;
      errores := errores + [errorMsg];
    }
  }
}
