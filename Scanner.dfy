/** The cursor-driven scanner of Scanner.py.  Its fields advance step by step
    exactly as in the source; every method is proved against ScannerSpec. */
module Lexing {
  import opened Support
  import opened Tokens
  import opened ScannerSpec

  lemma NewlinesSnoc(s: string, a: nat, b: nat)
    requires a <= b < |s|
    ensures Newlines(s[a..b + 1]) == Newlines(s[a..b]) + (if s[b] == '\n' then 1 else 0)
  {
    assert s[a..b + 1][..b - a] == s[a..b];
  }

  /** A cursor inside a run that has reached a non-digit is at the run's end. */
  lemma DigitsEndAt(src: string, i: nat, j: nat)
    requires i <= |src| && i <= j <= DigitsEnd(src, i) && !IsDigit(CharAt(src, j))
    ensures j == DigitsEnd(src, i)
  {
  }

  lemma StringEndAt(src: string, i: nat, j: nat)
    requires i <= |src| && i <= j <= StringEnd(src, i) && (j == |src| || src[j] == '"')
    ensures j == StringEnd(src, i)
  {
  }

  lemma IdentEndAt(src: string, i: nat, j: nat)
    requires i <= |src| && i <= j <= IdentEnd(src, i) && !IsAlphaNumeric(CharAt(src, j))
    ensures j == IdentEnd(src, i)
  {
  }

  /** `number()` stops at `j` when the integer digits end at `d` and the
      fraction, if any, ends at `j`. */
  lemma NumberStepAt(src: string, pos: nat, line: nat, d: nat, dotted: bool, j: nat)
    requires pos < |src| && pos + 1 <= j <= |src|
    requires d == DigitsEnd(src, pos + 1)
    requires dotted == (CharAt(src, d) == '.' && IsDigit(CharAt(src, d + 1)))
    requires j == if dotted then DigitsEnd(src, d + 1) else d
    ensures NumberStep(src, pos, line)
            == Step(j, line, [Token(Number, src[pos..j], NumberLiteral(NumberValue(src[pos..j])), line)], [])
  {
  }

  /** `string()` with the closing quote searched up to `j`, counting lines up to `l`. */
  lemma StringStepAt(src: string, pos: nat, line: nat, j: nat, l: nat)
    requires pos < |src| && j == StringEnd(src, pos + 1) && l == line + Newlines(src[pos + 1..j])
    ensures j == |src| ==> StringStep(src, pos, line) == Step(j, l, [], [ErrorMessage(l, "Cadena sin cerrar")])
    ensures j < |src| ==> StringStep(src, pos, line)
                          == Step(j + 1, l, [Token(String, src[pos..j + 1], StringLiteral(src[pos + 1..j]), l)], [])
  {
  }

  /** After one call of `scan_token()` from `(pos, line)`, what is still to be
      scanned is the rest of the same scan. */
  lemma ScanFromAdvance(src: string, pos: nat, line: nat, t: seq<Token>, e: seq<string>,
                        pos': nat, line': nat, t': seq<Token>, e': seq<string>)
    requires pos < |src|
    requires ScanStep(src, pos, line).next == pos' && ScanStep(src, pos, line).line == line'
    requires t' == t + ScanStep(src, pos, line).tokens && e' == e + ScanStep(src, pos, line).errors
    ensures pos' <= |src|
    ensures t + ScanFrom(src, pos, line).tokens == t' + ScanFrom(src, pos', line').tokens
    ensures e + ScanFrom(src, pos, line).errors == e' + ScanFrom(src, pos', line').errors
    ensures ScanFrom(src, pos, line).line == ScanFrom(src, pos', line').line
  {
    var s := ScanStep(src, pos, line);
    var rest := ScanFrom(src, pos', line');
    assert t + (s.tokens + rest.tokens) == t' + rest.tokens;
    assert e + (s.errors + rest.errors) == e' + rest.errors;
  }

  class Scanner {
    const source: string
    /** tokens produced so far */
    var tokens: seq<Token>
    /** start of the lexeme being scanned */
    var inicio: nat
    /** cursor */
    var actual: nat
    /** current line, for tokens and error messages */
    var linea: nat
    /** recorded error messages; scanning never raises */
    var errores: seq<string>

    ghost predicate Valid()
      reads this
    {
      inicio <= actual <= |source|
    }

    constructor (source: string)
      ensures Valid() && this.source == source
      ensures tokens == [] && errores == [] && inicio == 0 && actual == 0 && linea == 1
    {
      this.source := source;
      tokens := [];
      inicio := 0;
      actual := 0;
      linea := 1;
      errores := [];
    }

    /** Scans the rest of the source, then appends EOF; returns the token list. */
    method Scan() returns (r: seq<Token>)
      requires Valid()
      modifies this
      ensures Valid() && actual == |source| && r == tokens
      ensures var rest := ScanFrom(source, old(actual), old(linea));
              && tokens == old(tokens) + rest.tokens + [Token(Eof, "", NoLiteral, rest.line)]
              && errores == old(errores) + rest.errors
              && linea == rest.line
    {
      while !IsAtEnd()
        invariant Valid()
        invariant old(tokens) + ScanFrom(source, old(actual), old(linea)).tokens
                  == tokens + ScanFrom(source, actual, linea).tokens
        invariant old(errores) + ScanFrom(source, old(actual), old(linea)).errors
                  == errores + ScanFrom(source, actual, linea).errors
        invariant ScanFrom(source, old(actual), old(linea)).line == ScanFrom(source, actual, linea).line
        decreases |source| - actual
      {
        inicio := actual;
        ghost var a, l, t, e := actual, linea, tokens, errores;
        ScanToken();
        ScanFromAdvance(source, a, l, t, e, actual, linea, tokens, errores);
      }
      tokens := tokens + [Token(Eof, "", NoLiteral, linea)];
      r := tokens;
    }

    /** Reads one character and emits whatever it starts. */
    method ScanToken()
      requires Valid() && inicio == actual < |source|
      modifies this
      ensures Valid() && inicio == old(inicio)
      ensures var s := ScanStep(source, old(actual), old(linea));
              && actual == s.next && linea == s.line
              && tokens == old(tokens) + s.tokens && errores == old(errores) + s.errors
    {
      var c := Advance();
      if c == ' ' || c == '\r' || c == '\t' {
        return;
      }
      if c == '\n' {
        linea := linea + 1;
        return;
      }
      if c == '(' { AddToken(LeftParen, NoLiteral); }
      else if c == ')' { AddToken(RightParen, NoLiteral); }
      else if c == ',' { AddToken(Comma, NoLiteral); }
      else if c == ';' { AddToken(Semicolon, NoLiteral); }
      else if c == '-' { AddToken(Minus, NoLiteral); }
      else if c == '+' { AddToken(Plus, NoLiteral); }
      else if c == '/' { AddToken(Slash, NoLiteral); }
      else if c == '*' { AddToken(Star, NoLiteral); }
      else if c == '%' { AddToken(Mod, NoLiteral); }
      else if c == '=' {
        var double := Match('=');
        AddToken(if double then EqualEqual else Equal, NoLiteral);
      }
      else if c == '"' { ScanString(); }
      else if IsDigit(c) { ScanNumber(); }
      else if IsAlpha(c) { ScanIdentifier(); }
      else { Error("Caracter inesperado: '" + [c] + "'"); }
    }

    /** `string()`: the opening quote has been consumed. */
    method ScanString()
      requires Valid() && inicio + 1 == actual && source[inicio] == '"'
      modifies this
      ensures Valid() && inicio == old(inicio)
      ensures var s := StringStep(source, inicio, old(linea));
              && actual == s.next && linea == s.line
              && tokens == old(tokens) + s.tokens && errores == old(errores) + s.errors
    {
      SkipStringBody();
      StringStepAt(source, inicio, old(linea), actual, linea);
      if IsAtEnd() {
        Error("Cadena sin cerrar");
        return;
      }
      var _ := Advance();
      var valor := source[inicio + 1..actual - 1];
      AddToken(String, StringLiteral(valor));
    }

    /** `number()`: the leading digit has been consumed. */
    method ScanNumber()
      requires Valid() && inicio + 1 == actual && IsDigit(source[inicio])
      modifies this
      ensures Valid() && inicio == old(inicio)
      ensures var s := NumberStep(source, inicio, old(linea));
              && actual == s.next && linea == s.line
              && tokens == old(tokens) + s.tokens && errores == old(errores) + s.errors
    {
      SkipDigits();
      ghost var digits := actual;
      ghost var dotted := CharAt(source, digits) == '.' && IsDigit(CharAt(source, digits + 1));
      if Peek() == '.' && IsDigit(PeekNext()) {
        var _ := Advance();
        SkipDigits();
      }
      NumberStepAt(source, inicio, linea, digits, dotted, actual);
      var valor := NumberValue(source[inicio..actual]);
      AddToken(Number, NumberLiteral(valor));
    }

    /** `identifier()`: the leading letter or '_' has been consumed. */
    method ScanIdentifier()
      requires Valid() && inicio + 1 == actual && IsAlpha(source[inicio])
      modifies this
      ensures Valid() && inicio == old(inicio)
      ensures var s := IdentifierStep(source, inicio, old(linea));
              && actual == s.next && linea == s.line
              && tokens == old(tokens) + s.tokens && errores == old(errores) + s.errors
    {
      SkipIdentifier();
      var text := source[inicio..actual];
      if text == "null" {
        AddToken(Null, NoLiteral);
      } else if text == "false" {
        AddToken(False, NoLiteral);
      } else if text == "true" {
        AddToken(True, NoLiteral);
      } else {
        AddToken(Identifier, NoLiteral);
      }
    }

    /** The `while peek() != '"' and not is_at_end()` loop of `string()`,
        counting the line feeds inside the literal. */
    method SkipStringBody()
      requires actual <= |source|
      modifies this`actual, this`linea
      ensures actual == StringEnd(source, old(actual))
      ensures linea == old(linea) + Newlines(source[old(actual)..actual])
    {
      while Peek() != '"' && !IsAtEnd()
        invariant old(actual) <= actual <= StringEnd(source, old(actual))
        invariant linea == old(linea) + Newlines(source[old(actual)..actual])
        decreases |source| - actual
      {
        if Peek() == '\n' {
          linea := linea + 1;
        }
        NewlinesSnoc(source, old(actual), actual);
        var _ := Advance();
      }
      StringEndAt(source, old(actual), actual);
    }

    /** The `while peek().isdigit()` loops of `number()`. */
    method SkipDigits()
      requires actual <= |source|
      modifies this`actual
      ensures actual == DigitsEnd(source, old(actual))
    {
      while IsDigit(Peek())
        invariant old(actual) <= actual <= DigitsEnd(source, old(actual))
        decreases |source| - actual
      {
        var _ := Advance();
      }
      DigitsEndAt(source, old(actual), actual);
    }

    /** The `while is_alpha_numeric(peek())` loop of `identifier()`. */
    method SkipIdentifier()
      requires actual <= |source|
      modifies this`actual
      ensures actual == IdentEnd(source, old(actual))
    {
      while IsAlphaNumeric(Peek())
        invariant old(actual) <= actual <= IdentEnd(source, old(actual))
        decreases |source| - actual
      {
        var _ := Advance();
      }
      IdentEndAt(source, old(actual), actual);
    }

    /** Appends a token whose lexeme is the text between `inicio` and `actual`. */
    method AddToken(tipo: TokenKind, literal: TokenLiteral)
      requires Valid()
      modifies this`tokens
      ensures tokens == old(tokens) + [Token(tipo, source[inicio..actual], literal, linea)]
    {
      var text := source[inicio..actual];
      tokens := tokens + [Token(tipo, text, literal, linea)];
    }

    /** Consumes one character and returns it. */
    method Advance() returns (c: char)
      requires actual < |source|
      modifies this`actual
      ensures actual == old(actual) + 1 && c == source[old(actual)]
    {
      actual := actual + 1;
      c := source[actual - 1];
    }

    /** Consumes the next character only if it is `expected`. */
    method Match(expected: char) returns (b: bool)
      modifies this`actual
      ensures b == (old(actual) < |source| && source[old(actual)] == expected)
      ensures actual == if b then old(actual) + 1 else old(actual)
    {
      if IsAtEnd() {
        return false;
      }
      if source[actual] != expected {
        return false;
      }
      actual := actual + 1;
      return true;
    }

    function Peek(): (c: char)
      reads this
      ensures c == CharAt(source, actual)
    {
      if IsAtEnd() then '\0' else source[actual]
    }

    function PeekNext(): (c: char)
      reads this
      ensures c == CharAt(source, actual + 1)
    {
      if actual + 1 >= |source| then '\0' else source[actual + 1]
    }

    predicate IsAtEnd()
      reads this
    {
      actual >= |source|
    }

    /** Records an error at the current line; scanning carries on. */
    method Error(mensaje: string)
      modifies this`errores
      ensures errores == old(errores) + [ErrorMessage(linea, mensaje)]
    {
      errores := errores + [ErrorMessage(linea, mensaje)];
    }
  }
}
