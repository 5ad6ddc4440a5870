/** What the scanner of Scanner.py computes, as functions of the source text
    and a cursor position.  The class in Scanner.dfy is proved to follow these
    definitions step by step; ScannerProps.dfy proves the promises made about
    the resulting token list. */
module ScannerSpec {
  import opened Support
  import opened Tokens

  predicate IsDigit(c: char) { '0' <= c <= '9' }

  predicate IsAlpha(c: char) { ('a' <= c <= 'z') || ('A' <= c <= 'Z') || c == '_' }

  predicate IsAlphaNumeric(c: char) { IsAlpha(c) || IsDigit(c) }

  /** `peek()` at position `i`: the character there, or '\0' past the end. */
  function CharAt(src: string, i: nat): char
  {
    if i < |src| then src[i] else '\0'
  }

  /** Number of line feeds in `s`. */
  function Newlines(s: string): nat
  {
    if |s| == 0 then 0 else Newlines(s[..|s| - 1]) + (if s[|s| - 1] == '\n' then 1 else 0)
  }

  /** End of the maximal run of digits that starts at `i`. */
  function DigitsEnd(src: string, i: nat): (j: nat)
    requires i <= |src|
    ensures i <= j <= |src|
    ensures forall k | i <= k < j :: IsDigit(src[k])
    ensures !IsDigit(CharAt(src, j))
    decreases |src| - i
  {
    if i < |src| && IsDigit(src[i]) then DigitsEnd(src, i + 1) else i
  }

  /** End of the maximal run of identifier characters that starts at `i`. */
  function IdentEnd(src: string, i: nat): (j: nat)
    requires i <= |src|
    ensures i <= j <= |src|
    ensures forall k | i <= k < j :: IsAlphaNumeric(src[k])
    ensures !IsAlphaNumeric(CharAt(src, j))
    decreases |src| - i
  {
    if i < |src| && IsAlphaNumeric(src[i]) then IdentEnd(src, i + 1) else i
  }

  /** Position of the first '"' at or after `i`, or the end of the text. */
  function StringEnd(src: string, i: nat): (j: nat)
    requires i <= |src|
    ensures i <= j <= |src|
    ensures forall k | i <= k < j :: src[k] != '"'
    ensures j == |src| || src[j] == '"'
    decreases |src| - i
  {
    if i < |src| && src[i] != '"' then StringEnd(src, i + 1) else i
  }

  /** Where `number()` stops when the leading digit ends just before `i`:
      the rest of the digits, then ".digits" only if a digit follows the dot. */
  function NumberEnd(src: string, i: nat): (j: nat)
    requires i <= |src|
    ensures i <= j <= |src|
  {
    var d := DigitsEnd(src, i);
    if CharAt(src, d) == '.' && IsDigit(CharAt(src, d + 1)) then DigitsEnd(src, d + 1) else d
  }

  /** Reserved words are compared case-sensitively after the identifier is scanned. */
  function Keyword(text: string): TokenKind
  {
    if text == "null" then Null
    else if text == "false" then False
    else if text == "true" then True
    else Identifier
  }

  /** The nine operators and separators that are a token on their own. */
  function SingleCharKind(c: char): Option<TokenKind>
  {
    match c
    case '(' => Some(LeftParen)
    case ')' => Some(RightParen)
    case ',' => Some(Comma)
    case ';' => Some(Semicolon)
    case '-' => Some(Minus)
    case '+' => Some(Plus)
    case '/' => Some(Slash)
    case '*' => Some(Star)
    case '%' => Some(Mod)
    case _ => None
  }

  /** `error(mensaje)`: the text appended to `errores`. */
  function ErrorMessage(line: nat, message: string): string
  {
    "[línea " + NatToString(line) + "] Error: " + message
  }

  function DigitValue(c: char): nat
  {
    if IsDigit(c) then (c as int) - ('0' as int) else 0
  }

  /** Value of a run of decimal digits. */
  function DigitsValue(s: string): nat
  {
    if |s| == 0 then 0 else DigitsValue(s[..|s| - 1]) * 10 + DigitValue(s[|s| - 1])
  }

  function Pow10(n: nat): (p: nat)
    ensures p >= 1
  {
    if n == 0 then 1 else 10 * Pow10(n - 1)
  }

  /** Index of the first '.' in `s`, or |s|. */
  function DotIndex(s: string): (k: nat)
    ensures k <= |s|
    ensures forall i | 0 <= i < k :: s[i] != '.'
    ensures k < |s| ==> s[k] == '.'
  {
    if |s| == 0 then 0 else if s[0] == '.' then 0 else 1 + DotIndex(s[1..])
  }

  /** The exact decimal value of a number lexeme: `float(lexema)` without rounding. */
  function NumberValue(lexeme: string): real
  {
    var k := DotIndex(lexeme);
    if k == |lexeme| then DigitsValue(lexeme) as real
    else DigitsValue(lexeme[..k]) as real
         + (DigitsValue(lexeme[k + 1..]) as real) / (Pow10(|lexeme| - k - 1) as real)
  }

  /** What one call of `scan_token()` does when the cursor is at `pos`:
      where the cursor ends, the new line number, and what it appended. */
  datatype Step = Step(next: nat, line: nat, tokens: seq<Token>, errors: seq<string>)

  /** `string()` after the opening quote at `pos`. */
  function StringStep(src: string, pos: nat, line: nat): (s: Step)
    requires pos < |src|
    ensures pos < s.next <= |src|
  {
    var j := StringEnd(src, pos + 1);
    var l := line + Newlines(src[pos + 1..j]);
    if j == |src| then Step(j, l, [], [ErrorMessage(l, "Cadena sin cerrar")])
    else Step(j + 1, l, [Token(String, src[pos..j + 1], StringLiteral(src[pos + 1..j]), l)], [])
  }

  /** `number()` after the leading digit at `pos`. */
  function NumberStep(src: string, pos: nat, line: nat): (s: Step)
    requires pos < |src|
    ensures pos < s.next <= |src|
  {
    var j := NumberEnd(src, pos + 1);
    Step(j, line, [Token(Number, src[pos..j], NumberLiteral(NumberValue(src[pos..j])), line)], [])
  }

  /** `identifier()` after the leading letter or '_' at `pos`. */
  function IdentifierStep(src: string, pos: nat, line: nat): (s: Step)
    requires pos < |src|
    ensures pos < s.next <= |src|
  {
    var j := IdentEnd(src, pos + 1);
    Step(j, line, [Token(Keyword(src[pos..j]), src[pos..j], NoLiteral, line)], [])
  }

  /** `scan_token()` with the cursor at `pos`. */
  function ScanStep(src: string, pos: nat, line: nat): (s: Step)
    requires pos < |src|
    ensures pos < s.next <= |src|
  {
    var c := src[pos];
    if c == ' ' || c == '\r' || c == '\t' then Step(pos + 1, line, [], [])
    else if c == '\n' then Step(pos + 1, line + 1, [], [])
    else if SingleCharKind(c).Some? then
      Step(pos + 1, line, [Token(SingleCharKind(c).value, src[pos..pos + 1], NoLiteral, line)], [])
    else if c == '=' then
      if pos + 1 < |src| && src[pos + 1] == '=' then
        Step(pos + 2, line, [Token(EqualEqual, src[pos..pos + 2], NoLiteral, line)], [])
      else
        Step(pos + 1, line, [Token(Equal, src[pos..pos + 1], NoLiteral, line)], [])
    else if c == '"' then StringStep(src, pos, line)
    else if IsDigit(c) then NumberStep(src, pos, line)
    else if IsAlpha(c) then IdentifierStep(src, pos, line)
    else
      Step(pos + 1, line, [], [ErrorMessage(line, "Caracter inesperado: '" + [c] + "'")])
  }

  /** The tokens and errors of scanning from `pos` to the end, and the final line. */
  datatype Scanned = Scanned(tokens: seq<Token>, errors: seq<string>, line: nat)

  function ScanFrom(src: string, pos: nat, line: nat): Scanned
    requires pos <= |src|
    decreases |src| - pos
  {
    if pos == |src| then Scanned([], [], line)
    else
      var s := ScanStep(src, pos, line);
      var rest := ScanFrom(src, s.next, s.line);
      Scanned(s.tokens + rest.tokens, s.errors + rest.errors, rest.line)
  }

  /** `Scanner(source).scan()`: every token, then EOF; the recorded errors. */
  function Tokenize(src: string): Scanned
  {
    var r := ScanFrom(src, 0, 1);
    Scanned(r.tokens + [Token(Eof, "", NoLiteral, r.line)], r.errors, r.line)
  }
}
