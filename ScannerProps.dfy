/** What Scanner.py promises about the tokens it produces, proved of the
    functions in ScannerSpec (and so, through Lexing.Scanner.Scan, of the class). */
module ScannerProps {
  import opened Support
  import opened Tokens
  import opened ScannerSpec

  /** `starts[i]` is the offset token `i` was scanned from: its lexeme is the
      non-empty source text there, inside `from..to`, and it ends no later
      than the next token starts. */
  ghost predicate LaidOut(src: string, toks: seq<Token>, starts: seq<nat>, from: nat, to: nat)
  {
    && to <= |src| && |starts| == |toks|
    && (forall i | 0 <= i < |toks| ::
          && from <= starts[i] < starts[i] + |toks[i].lexeme| <= to
          && toks[i].lexeme == src[starts[i]..starts[i] + |toks[i].lexeme|])
    && (forall i | 0 <= i < |toks| - 1 :: starts[i] + |toks[i].lexeme| <= starts[i + 1])
  }

  ghost predicate LinesSorted(toks: seq<Token>)
  {
    forall i, j | 0 <= i <= j < |toks| :: toks[i].line <= toks[j].line
  }

  predicate AllDigits(s: string)
  {
    forall k | 0 <= k < |s| :: IsDigit(s[k])
  }

  /** digits, optionally followed by '.' and at least one more digit */
  ghost predicate IsNumberLexeme(s: string)
  {
    || (|s| > 0 && AllDigits(s))
    || exists k | 0 < k < |s| - 1 :: AllDigits(s[..k]) && s[k] == '.' && AllDigits(s[k + 1..])
  }

  lemma {:induction false} NewlinesAppend(a: string, b: string)
    ensures Newlines(a + b) == Newlines(a) + Newlines(b)
    decreases |b|
  {
    if |b| == 0 {
      assert a + b == a;
    } else {
      var b' := b[..|b| - 1];
      assert (a + b)[..|a + b| - 1] == a + b';
      NewlinesAppend(a, b');
    }
  }

  lemma {:induction false} NoNewlines(s: string)
    requires forall k | 0 <= k < |s| :: s[k] != '\n'
    ensures Newlines(s) == 0
    decreases |s|
  {
    if |s| > 0 {
      NoNewlines(s[..|s| - 1]);
    }
  }

  /** Facts shared by every step whose tokens (at most one) all have the
      consumed text as lexeme and the step's final line. */
  ghost predicate StepShape(src: string, pos: nat, line: nat, s: Step)
    requires pos < s.next <= |src|
  {
    && s.line == line + Newlines(src[pos..s.next])
    && |s.tokens| <= 1
    && (|s.tokens| == 1 ==> s.tokens[0].kind != Eof && s.tokens[0].line == s.line && s.tokens[0].lexeme == src[pos..s.next])
  }

  lemma StringStepShape(src: string, pos: nat, line: nat)
    requires pos < |src| && src[pos] == '"'
    ensures StepShape(src, pos, line, StringStep(src, pos, line))
  {
    var c := src[pos];
    var j := StringEnd(src, pos + 1);
    NewlinesAppend([c], src[pos + 1..j]);
    if j < |src| {
      assert src[pos..j + 1] == [c] + src[pos + 1..j] + [src[j]];
      NewlinesAppend([c] + src[pos + 1..j], [src[j]]);
    } else {
      assert src[pos..j] == [c] + src[pos + 1..j];
    }
  }

  /** The rest of a number lexeme is digits and at most one dot. */
  lemma NumberEndChars(src: string, i: nat)
    requires i <= |src|
    ensures forall k | i <= k < NumberEnd(src, i) :: IsDigit(src[k]) || src[k] == '.'
  {
  }

  lemma NumberStepShape(src: string, pos: nat, line: nat)
    requires pos < |src| && IsDigit(src[pos])
    ensures StepShape(src, pos, line, NumberStep(src, pos, line))
  {
    NumberEndChars(src, pos + 1);
    NoNewlines(src[pos..NumberStep(src, pos, line).next]);
  }

  lemma IdentifierStepShape(src: string, pos: nat, line: nat)
    requires pos < |src| && IsAlpha(src[pos])
    ensures StepShape(src, pos, line, IdentifierStep(src, pos, line))
  {
    NoNewlines(src[pos..IdentifierStep(src, pos, line).next]);
  }

  /** One `scan_token()` call: the line grows by the line feeds it consumed, and
      the token it emits (at most one) has exactly the consumed text as lexeme. */
  lemma StepFacts(src: string, pos: nat, line: nat)
    requires pos < |src|
    ensures var s := ScanStep(src, pos, line);
            && s.line == line + Newlines(src[pos..s.next])
            && |s.tokens| <= 1
            && (|s.tokens| == 1 ==> s.tokens[0].kind != Eof && s.tokens[0].line == s.line && s.tokens[0].lexeme == src[pos..s.next])
  {
    var c := src[pos];
    if c == ' ' || c == '\r' || c == '\t' || c == '\n' || SingleCharKind(c).Some? {
    } else if c == '=' {
      NoNewlines(src[pos..ScanStep(src, pos, line).next]);
    } else if c == '"' {
      StringStepShape(src, pos, line);
    } else if IsDigit(c) {
      NumberStepShape(src, pos, line);
    } else if IsAlpha(c) {
      IdentifierStepShape(src, pos, line);
    }
  }

  /** Scanning from `pos` to the end counts every line feed left in the source. */
  lemma {:induction false} ScanFromLine(src: string, pos: nat, line: nat)
    requires pos <= |src|
    ensures ScanFrom(src, pos, line).line == line + Newlines(src[pos..])
    decreases |src| - pos
  {
    if pos < |src| {
      var s := ScanStep(src, pos, line);
      StepFacts(src, pos, line);
      ScanFromLine(src, s.next, s.line);
      assert src[pos..] == src[pos..s.next] + src[s.next..];
      NewlinesAppend(src[pos..s.next], src[s.next..]);
    }
  }

  ghost predicate TokenFacts(src: string, first: nat, last: nat, t: Token)
  {
    t.kind != Eof && first <= t.line <= last
  }

  /** No token scanned before the end is EOF, and every line lies between the
      starting and the final line. */
  lemma {:induction false} ScanFromTokens(src: string, pos: nat, line: nat)
    requires pos <= |src|
    ensures forall i | 0 <= i < |ScanFrom(src, pos, line).tokens| ::
              TokenFacts(src, line, ScanFrom(src, pos, line).line, ScanFrom(src, pos, line).tokens[i])
    decreases |src| - pos
  {
    if pos < |src| {
      var s := ScanStep(src, pos, line);
      StepTokenFacts(src, pos, line);
      ScanFromLine(src, s.next, s.line);
      ScanFromTokens(src, s.next, s.line);
      AppendTokenFacts(src, line, s.line, ScanFrom(src, s.next, s.line).line, s.tokens, ScanFrom(src, s.next, s.line).tokens);
    }
  }

  lemma StepTokenFacts(src: string, pos: nat, line: nat)
    requires pos < |src|
    ensures var s := ScanStep(src, pos, line);
            line <= s.line && |s.tokens| <= 1 && forall t | t in s.tokens :: TokenFacts(src, line, s.line, t)
  {
    StepFacts(src, pos, line);
  }

  lemma AppendTokenFacts(src: string, first: nat, mid: nat, last: nat, a: seq<Token>, b: seq<Token>)
    requires first <= mid <= last
    requires forall t | t in a :: TokenFacts(src, first, mid, t)
    requires forall i | 0 <= i < |b| :: TokenFacts(src, mid, last, b[i])
    ensures forall i | 0 <= i < |a + b| :: TokenFacts(src, first, last, (a + b)[i])
  {
    forall i | 0 <= i < |a + b|
      ensures TokenFacts(src, first, last, (a + b)[i])
    {
      if i < |a| {
        assert (a + b)[i] == a[i] && a[i] in a;
      } else {
        assert (a + b)[i] == b[i - |a|];
      }
    }
  }

  /** Line numbers never decrease along the tokens scanned from `pos`. */
  lemma {:induction false} ScanFromSorted(src: string, pos: nat, line: nat)
    requires pos <= |src|
    ensures LinesSorted(ScanFrom(src, pos, line).tokens)
    decreases |src| - pos
  {
    if pos < |src| {
      var s := ScanStep(src, pos, line);
      StepFacts(src, pos, line);
      ScanFromTokens(src, s.next, s.line);
      ScanFromSorted(src, s.next, s.line);
      AppendSorted(s.tokens, ScanFrom(src, s.next, s.line).tokens, s.line);
    }
  }

  /** At most one token on line `mid`, then a sorted list starting no earlier. */
  lemma AppendSorted(a: seq<Token>, b: seq<Token>, mid: nat)
    requires |a| <= 1 && (|a| == 1 ==> a[0].line <= mid)
    requires forall i | 0 <= i < |b| :: mid <= b[i].line
    requires LinesSorted(b)
    ensures LinesSorted(a + b)
  {
    var all := a + b;
    forall i, j | 0 <= i <= j < |all|
      ensures all[i].line <= all[j].line
    {
      if i < |a| && |a| <= j {
        assert all[i] == a[0] && all[j] == b[j - |a|];
      } else if |a| <= i {
        assert all[i] == b[i - |a|] && all[j] == b[j - |a|];
      }
    }
  }

  /** The token list always ends with exactly one EOF token, with an empty
      lexeme, no literal and the final line number (one plus the line feeds). */
  lemma TokenizeEndsWithEof(src: string)
    ensures var t := Tokenize(src).tokens;
            && |t| >= 1
            && t[|t| - 1] == Token(Eof, "", NoLiteral, 1 + Newlines(src))
            && forall i | 0 <= i < |t| - 1 :: t[i].kind != Eof
  {
    var r := ScanFrom(src, 0, 1);
    ScanFromLine(src, 0, 1);
    ScanFromTokens(src, 0, 1);
    assert src[0..] == src;
    var t := Tokenize(src).tokens;
    forall i | 0 <= i < |t| - 1
      ensures t[i].kind != Eof
    {
      assert t[i] == r.tokens[i];
      assert TokenFacts(src, 1, r.line, r.tokens[i]);
    }
  }

  /** A token whose lexeme is the text from `pos` to `next`, in front of tokens
      laid out from `next` on. */
  lemma LaidOutCons(src: string, t: Token, rest: seq<Token>, starts: seq<nat>, pos: nat, next: nat)
    requires pos < next <= |src| && t.lexeme == src[pos..next]
    requires LaidOut(src, rest, starts, next, |src|)
    ensures LaidOut(src, [t] + rest, [pos] + starts, pos, |src|)
  {
    var all, at := [t] + rest, [pos] + starts;
    forall i | 0 <= i < |all| - 1
      ensures at[i] + |all[i].lexeme| <= at[i + 1]
    {
      if i > 0 {
        assert all[i] == rest[i - 1] && at[i] == starts[i - 1] && at[i + 1] == starts[i];
      } else {
        assert at[1] == starts[0] && all[1] == rest[0];
      }
    }
    forall i | 0 <= i < |all|
      ensures && pos <= at[i] < at[i] + |all[i].lexeme| <= |src|
              && all[i].lexeme == src[at[i]..at[i] + |all[i].lexeme|]
    {
      if i > 0 {
        assert all[i] == rest[i - 1] && at[i] == starts[i - 1];
      } else {
        assert all[0] == t && at[0] == pos;
      }
    }
  }

  /** At most one token holding the text from `pos` to `next`, in front of
      tokens laid out from `next` on. */
  lemma StepLayout(src: string, toks: seq<Token>, rest: seq<Token>, pos: nat, next: nat)
    requires pos < next <= |src| && |toks| <= 1 && (|toks| == 1 ==> toks[0].lexeme == src[pos..next])
    requires exists starts :: LaidOut(src, rest, starts, next, |src|)
    ensures exists starts :: LaidOut(src, toks + rest, starts, pos, |src|)
  {
    var starts :| LaidOut(src, rest, starts, next, |src|);
    if |toks| == 0 {
      assert toks + rest == rest;
      assert LaidOut(src, rest, starts, pos, |src|);
    } else {
      assert toks == [toks[0]];
      LaidOutCons(src, toks[0], rest, starts, pos, next);
    }
  }

  /** Scanning from `pos` lays every token out at the offset it was scanned
      from, in order. */
  lemma {:induction false} ScanFromLayout(src: string, pos: nat, line: nat)
    requires pos <= |src|
    ensures exists starts :: LaidOut(src, ScanFrom(src, pos, line).tokens, starts, pos, |src|)
    decreases |src| - pos
  {
    if pos == |src| {
      var none: seq<nat> := [];
      assert LaidOut(src, ScanFrom(src, pos, line).tokens, none, pos, |src|);
    } else {
      var s := ScanStep(src, pos, line);
      StepFacts(src, pos, line);
      ScanFromLayout(src, s.next, s.line);
      StepLayout(src, s.tokens, ScanFrom(src, s.next, s.line).tokens, pos, s.next);
      assert ScanFrom(src, pos, line).tokens == s.tokens + ScanFrom(src, s.next, s.line).tokens;
    }
  }

  /** The token list without its final (EOF) token. */
  function BeforeEof(toks: seq<Token>): seq<Token>
  {
    if toks == [] then [] else toks[..|toks| - 1]
  }

  /** `add_token` takes the lexeme as `source[inicio:actual]`: the tokens before
      EOF are the source texts they were scanned from, non-empty, in source
      order and without overlap. */
  lemma TokenLexemesAreSlices(src: string)
    ensures exists starts :: LaidOut(src, BeforeEof(Tokenize(src).tokens), starts, 0, |src|)
  {
    ScanFromLayout(src, 0, 1);
    assert BeforeEof(Tokenize(src).tokens) == ScanFrom(src, 0, 1).tokens;
  }

  /** Line numbers start at 1 and never decrease along the token list. */
  lemma TokenLinesNondecreasing(src: string)
    ensures var t := Tokenize(src).tokens;
            forall i, j | 0 <= i <= j < |t| :: 1 <= t[i].line <= t[j].line
  {
    var r := ScanFrom(src, 0, 1);
    ScanFromLine(src, 0, 1);
    ScanFromTokens(src, 0, 1);
    ScanFromSorted(src, 0, 1);
    var t := Tokenize(src).tokens;
    assert t == r.tokens + [Token(Eof, "", NoLiteral, r.line)];
    forall i, j | 0 <= i <= j < |t|
      ensures 1 <= t[i].line <= t[j].line
    {
      if j < |r.tokens| {
        assert t[i] == r.tokens[i] && t[j] == r.tokens[j];
        assert TokenFacts(src, 1, r.line, r.tokens[i]);
      } else if i < |r.tokens| {
        assert t[i] == r.tokens[i];
        assert TokenFacts(src, 1, r.line, r.tokens[i]);
      }
    }
  }

  /** Space, '\r' and '\t' emit nothing; '\n' emits nothing and counts a line. */
  lemma BlankScanning(src: string, pos: nat, line: nat)
    requires pos < |src| && src[pos] in {' ', '\r', '\t', '\n'}
    ensures var s := ScanStep(src, pos, line);
            && s.tokens == [] && s.errors == [] && s.next == pos + 1
            && s.line == line + (if src[pos] == '\n' then 1 else 0)
  {
  }

  /** '=' directly followed by '=' is one EQUAL_EQUAL token; otherwise EQUAL. */
  lemma EqualScanning(src: string, pos: nat, line: nat)
    requires pos < |src| && src[pos] == '='
    ensures var s := ScanStep(src, pos, line);
            && s.errors == [] && s.line == line
            && if pos + 1 < |src| && src[pos + 1] == '=' then
                 s.next == pos + 2 && s.tokens == [Token(EqualEqual, "==", NoLiteral, line)]
               else
                 s.next == pos + 1 && s.tokens == [Token(Equal, "=", NoLiteral, line)]
  {
    if pos + 1 < |src| && src[pos + 1] == '=' {
      assert src[pos..pos + 2] == "==";
    } else {
      assert src[pos..pos + 1] == "=";
    }
  }

  /** A string literal's value is the text strictly between the quotes and its
      line feeds count; without a closing quote there is no STRING token, only
      the error "Cadena sin cerrar", and the cursor reaches the end. */
  lemma StringScanning(src: string, pos: nat, line: nat)
    requires pos < |src| && src[pos] == '"'
    ensures var s := ScanStep(src, pos, line);
            if s.tokens == [] then
              && s.next == |src|
              && (forall k | pos < k < |src| :: src[k] != '"')
              && s.line == line + Newlines(src[pos + 1..])
              && s.errors == [ErrorMessage(s.line, "Cadena sin cerrar")]
            else
              && s.errors == [] && pos + 2 <= s.next && src[s.next - 1] == '"'
              && (forall k | pos < k < s.next - 1 :: src[k] != '"')
              && s.line == line + Newlines(src[pos + 1..s.next - 1])
              && s.tokens == [Token(String, src[pos..s.next], StringLiteral(src[pos + 1..s.next - 1]), s.line)]
  {
    var j := StringEnd(src, pos + 1);
    if j == |src| {
      assert src[pos + 1..j] == src[pos + 1..];
    }
  }

  /** A number lexeme is digits, then ".digits" only when a digit follows the dot:
      the lexeme is maximal, and a trailing '.' is left in the source. */
  lemma NumberScanning(src: string, pos: nat, line: nat)
    requires pos < |src| && IsDigit(src[pos])
    ensures ScanStep(src, pos, line).errors == [] && ScanStep(src, pos, line).line == line
    ensures ScanStep(src, pos, line).tokens
         == [Token(Number, src[pos..ScanStep(src, pos, line).next],
                   NumberLiteral(NumberValue(src[pos..ScanStep(src, pos, line).next])), line)]
    ensures IsNumberLexeme(src[pos..ScanStep(src, pos, line).next])
    ensures !IsDigit(CharAt(src, ScanStep(src, pos, line).next))
    ensures DotIndex(src[pos..ScanStep(src, pos, line).next]) == |src[pos..ScanStep(src, pos, line).next]| ==>
              !(CharAt(src, ScanStep(src, pos, line).next) == '.' && IsDigit(CharAt(src, ScanStep(src, pos, line).next + 1)))
  {
    assert ScanStep(src, pos, line) == NumberStep(src, pos, line);
    NumberLexemeForm(src, pos);
  }

  lemma NumberLexemeForm(src: string, pos: nat)
    requires pos < |src| && IsDigit(src[pos])
    ensures IsNumberLexeme(src[pos..NumberEnd(src, pos + 1)])
    ensures !IsDigit(CharAt(src, NumberEnd(src, pos + 1)))
    ensures DotIndex(src[pos..NumberEnd(src, pos + 1)]) == |src[pos..NumberEnd(src, pos + 1)]| ==>
              !(CharAt(src, NumberEnd(src, pos + 1)) == '.' && IsDigit(CharAt(src, NumberEnd(src, pos + 1) + 1)))
  {
    var j := NumberEnd(src, pos + 1);
    var lexeme := src[pos..j];
    var d := DigitsEnd(src, pos + 1);
    if CharAt(src, d) == '.' && IsDigit(CharAt(src, d + 1)) {
      var k := d - pos;
      assert lexeme[..k] == src[pos..d];
      assert lexeme[k + 1..] == src[d + 1..j];
      assert AllDigits(lexeme[..k]) && lexeme[k] == '.' && AllDigits(lexeme[k + 1..]);
    } else {
      assert AllDigits(lexeme);
    }
  }

  /** An identifier is a maximal run of letters, digits and '_' starting with a
      letter or '_'; exactly "null", "true" and "false" are keywords. */
  lemma IdentifierScanning(src: string, pos: nat, line: nat)
    requires pos < |src| && IsAlpha(src[pos])
    ensures var s := ScanStep(src, pos, line);
            var text := src[pos..s.next];
            && s.errors == [] && s.line == line && |s.tokens| == 1
            && s.tokens[0].lexeme == text && s.tokens[0].literal == NoLiteral && s.tokens[0].line == line
            && (forall k | 0 <= k < |text| :: IsAlphaNumeric(text[k]))
            && !IsAlphaNumeric(CharAt(src, s.next))
            && (s.tokens[0].kind == Null <==> text == "null")
            && (s.tokens[0].kind == True <==> text == "true")
            && (s.tokens[0].kind == False <==> text == "false")
            && (s.tokens[0].kind == Identifier <==> text != "null" && text != "true" && text != "false")
  {
  }

  /** Any other character records "[línea N] Error: Caracter inesperado: 'c'"
      and scanning goes on with the next character. */
  lemma UnexpectedCharacter(src: string, pos: nat, line: nat)
    requires pos < |src|
    requires src[pos] !in {' ', '\r', '\t', '\n', '=', '"'}
    requires SingleCharKind(src[pos]).None? && !IsAlphaNumeric(src[pos])
    ensures var s := ScanStep(src, pos, line);
            && s.tokens == [] && s.next == pos + 1 && s.line == line
            && s.errors == [ErrorMessage(line, "Caracter inesperado: '" + [src[pos]] + "'")]
  {
  }
}
