# A small calculator language: scanner, parsers and evaluators

The repository is a course project: an interactive calculator for a tiny
expression language. The language has numbers, strings, `null`, variables,
assignment, `+ - * / %`, unary minus, parentheses and calls of built-in
functions. This project models its core in Dafny:

- **Scanner** (`Scanner.py`). A cursor-driven lexer. It turns a source text into
  tokens ending with one EOF token, counts lines, and records errors without
  stopping. Modelled as the class `Lexing.Scanner`. The class is proved equal
  to the functions of `ScannerSpec`, and the token-list properties are proved
  of those functions in `ScannerProps`.
- **Tree-building parser** (`ParserASA.py`), a recursive-descent parser that
  builds the nodes of `AST.py`:
  - It refuses an assignment to anything but a name, and a call of anything
    but a name.
  - A missing `;` means "print the result".
  - Modelled as the class `ParsingAsa.Parser`, which is proved equal to the
    functions of `ParserAsaSpec`.
  - Every tree it builds has the grammar's shape (`ParserAsaShape`).
  - Every well-shaped tree, rendered back to tokens, parses to itself
    (`ParserAsaProps`, `ParserAsaStatement`).
- **Recogniser** (`Parser.py`), a predictive right-recursive recogniser for
  the same grammar. It only answers "accepted" or raises the recorded
  errors. Modelled as the class `Recognising.Parser`, which is proved equal
  to `RecogniserSpec`. `RecogniserProps` proves two directions. It accepts
  every token list the tree-building parser accepts. And whatever it
  accepts, the tree-building parser accepts too, or rejects with a bad
  assignment target or a bad callee. Not every list rejected for those two
  reasons is accepted here: `4 ( +` and `1 = 2 3` are rejected by both.
- **Evaluator** (`Evaluador.py`). It walks the tree with:
  - a variable table `entorno` that assignments update in place;
  - a fixed table of five built-ins;
  - Spanish error messages.
  
  Modelled as the class `Evaluation.Evaluator`, which is proved equal to
  `EvaluatorSpec.Eval`. `EvaluatorProps` proves the type rules, the order of
  evaluation and the effect on the table.
- **Older engine** (`Motor.py` with `Environment.py`). A second interpreter
  over the nodes of `Expr.py`/`Stmt.py`:
  - Its environment object holds six native function objects next to the
    variables.
  - Its operators coerce with `float()`.
  - It prints with `stringify`.
  
  Modelled as the class `Interpreting.Motor`, which is proved equal to the
  functions of `MotorSpec`, and the class `Environments.Environment`, whose
  methods are specified by what they do to its map of variables.
  `MotorProps` proves its rules. It also proves that on every call-free
  expression that `Evaluador.py` evaluates without raising, the older
  engine computes the same value. Where the evaluator raises, the two may
  differ: `"3" - 1` is an error there, while here `float()` converts the string first.
- **Pipeline** (`InterpreteASA.py`, `ejecutar`): one line through the
  scanner, the tree-building parser and the evaluator.

Things the programs take from their host become parameters: floating-point
`%`, `sin`, `cos`, `sqrt`, `pow`, the text of a float, `float()` of a
string, `random.random()` and `time.time()`. They are fields of a
`Host.Host` record. Random and clock values are read at a draw counter that
every draw advances. Numbers are modelled as `real`.

## Model

| member | source | states |
|---|---|---|
| Lexing.Scanner.constructor | Scanner.py:9-21 | A new scanner starts at position 0, line 1, with no tokens and no errors. |
| Lexing.Scanner.Scan | Scanner.py:23-41 | Scanning appends the tokens and errors of the rest of the source, then one EOF token with an empty lexeme on the final line; it returns the token list. |
| Lexing.Scanner.ScanToken | Scanner.py:43-81 | One `scan_token` call does what `ScanStep` says: new cursor, new line, tokens and errors appended. |
| Lexing.Scanner.ScanString | Scanner.py:83-98 | The string branch agrees with `StringStep`. |
| Lexing.Scanner.ScanNumber | Scanner.py:100-112 | The number branch agrees with `NumberStep`. |
| Lexing.Scanner.ScanIdentifier | Scanner.py:114-130 | The identifier and keyword branch agrees with `IdentifierStep`. |
| Lexing.Scanner.SkipStringBody | Scanner.py:85-88 | The cursor stops at the first `"` or the end; the line grows by the line feeds skipped. |
| Lexing.Scanner.SkipDigits | Scanner.py:102-103 | The cursor stops at the end of the run of digits. |
| Lexing.Scanner.SkipIdentifier | Scanner.py:116-117 | The cursor stops at the end of the run of letters, digits and `_`. |
| Lexing.Scanner.AddToken | Scanner.py:134-139 | Appends exactly one token, whose lexeme is the text from `inicio` to the cursor, on the current line. |
| Lexing.Scanner.Advance | Scanner.py:141-144 | Returns the character under the cursor and moves one step. |
| Lexing.Scanner.Match | Scanner.py:146-151 | Consumes the next character exactly when it is the expected one. |
| Lexing.Scanner.Peek | Scanner.py:153-156 | The character under the cursor, or `'\0'` at the end. |
| Lexing.Scanner.PeekNext | Scanner.py:158-161 | The character after the cursor, or `'\0'` past the end. |
| Lexing.Scanner.Error | Scanner.py:179-180 | Records `[línea N] Error: …` and does not stop scanning. |
| ScannerSpec.DigitsEnd | Scanner.py:102-103 | The end of the maximal run of digits: all digits before it, and no digit at it. |
| ScannerSpec.IdentEnd | Scanner.py:116-117 | The end of the maximal run of identifier characters. |
| ScannerSpec.StringEnd | Scanner.py:85-88 | The first `"` at or after the start, or the end of the text. |
| ScannerSpec.ScanStep | Scanner.py:43-81 | Every `scan_token` call consumes at least one character and stays within the source. |
| ScannerProps.TokenizeEndsWithEof | Scanner.py:26-32 | The token list ends with exactly one EOF token. It has an empty lexeme, no literal, and line 1 plus the number of line feeds in the source. No earlier token is EOF. |
| ScannerProps.TokenLexemesAreSlices | Scanner.py:134-139 | The tokens before EOF can be given start offsets in the source. The offsets increase, the tokens do not overlap, and each lexeme is the non-empty source text `source[inicio:actual]` at its offset. |
| ScannerProps.ScanFromLayout | Scanner.py:26-28 | Scanning from any offset lays out its tokens in that way, all at or after that offset. |
| ScannerProps.TokenLinesNondecreasing | Scanner.py:52-54 | Line numbers start at 1 and never decrease along the token list. |
| ScannerProps.ScanFromLine | Scanner.py:52-54 | The final line is the start line plus the line feeds left in the source, including those inside strings. |
| ScannerProps.BlankScanning | Scanner.py:48-54 | Space, `\r` and `\t` emit nothing. `\n` emits nothing and adds one to the line. |
| ScannerProps.EqualScanning | Scanner.py:66-69 | `==` is one EQUAL_EQUAL token; a `=` not followed by `=` is EQUAL. |
| ScannerProps.StringScanning | Scanner.py:83-98 | A closed string is one STRING token. Its value is the text strictly between the quotes and its lexeme includes them. An unclosed string records "Cadena sin cerrar" and emits no token. |
| ScannerProps.NumberScanning | Scanner.py:100-112 | A number lexeme is digits, then `.` and digits only when a digit follows the dot. Its literal is the exact decimal value of the lexeme. |
| ScannerProps.NumberLexemeForm | Scanner.py:100-110 | The number lexeme is maximal: no digit follows it. |
| ScannerProps.IdentifierScanning | Scanner.py:114-130 | An identifier is a maximal run starting with a letter or `_`. `null`, `true` and `false` are keywords; any other text is IDENTIFIER. |
| ScannerProps.UnexpectedCharacter | Scanner.py:79-81 | Any other character records "Caracter inesperado" naming it, and emits no token. |
| ParsingAsa.Parser.constructor | ParserASA.py:31-33 | The parser starts at the first token of a list that ends with EOF. |
| ParsingAsa.Parser.Parse | ParserASA.py:39-43 | The result is `ParserAsaSpec.Parse` of the tokens: a statement, or the ParseError message. |
| ParsingAsa.Parser.Statement | ParserASA.py:49-54 | An expression, then an optional `;`. The statement is printed exactly when there is no `;`. |
| ParsingAsa.Parser.Expression | ParserASA.py:60-61 | Agrees with `ParseExpression`, and the cursor ends where the expression does. |
| ParsingAsa.Parser.Assignment | ParserASA.py:63-75 | Agrees with `ParseAssignment`, including the invalid-target error. |
| ParsingAsa.Parser.Term | ParserASA.py:81-92 | Agrees with `ParseTerm`: a left-leaning chain of `+` and `-`. |
| ParsingAsa.Parser.Factor | ParserASA.py:94-108 | Agrees with `ParseFactor`: a left-leaning chain of `*`, `/` and `%`. |
| ParsingAsa.Parser.Unary | ParserASA.py:110-114 | Agrees with `ParseUnary`. |
| ParsingAsa.Parser.Call | ParserASA.py:120-141 | Agrees with `ParseCall`, including the invalid-callee error and the missing `)` error. |
| ParsingAsa.Parser.Primary | ParserASA.py:147-169 | Agrees with `ParsePrimary`, including the "expression expected" error naming the current token. |
| ParsingAsa.Parser.Match | ParserASA.py:175-180 | Consumes the current token exactly when it has the kind and is not EOF. |
| ParsingAsa.Parser.Advance | ParserASA.py:187-190 | Never moves past EOF, and returns the token before the cursor. |
| ParsingAsa.Parser.Peek | ParserASA.py:195-196 | The token under the cursor. |
| ParsingAsa.Parser.Error | ParserASA.py:201-203 | The message names the current token's lexeme. |
| ParserAsaSpec.Next | ParserASA.py:187-193 | Moving the cursor stays on EOF at EOF, and otherwise goes one step. |
| ParserAsaSpec.ParseExpression | ParserASA.py:60-75 | A successful parse consumes at least one token and stops before the end of the list. |
| ParserAsaShape.ParseShape | ParserASA.py:49-169 | Every statement `parse` returns has the grammar's shape. Assignment targets and callees are names. The operands of `*`, `/` and `%` are unaries or calls, and those of `+` and `-` are factors. |
| ParserAsaShape.ExpressionShape | ParserASA.py:60-75 | Same as `ParseShape`, for `expression`. |
| ParserAsaStatement.ParseRoundTrip | ParserASA.py:39-169 | A well-shaped tree, rendered as tokens and followed by `;` or nothing, parses back to that exact tree with the matching print flag. |
| ParserAsaProps.ExpressionRoundTrip | ParserASA.py:60-169 | Same as `ParseRoundTrip`, for `expression`, at any position of a longer list. |
| ParserAsaStatement.SubtractionLeansLeft | ParserASA.py:81-92 | `a - b - c` parses as `(a - b) - c`. |
| ParserAsaStatement.ProductBindsTighter | ParserASA.py:81-108 | `2 + 3 * 4` parses as `2 + (3 * 4)`. |
| ParserAsaStatement.DoubleNegation | ParserASA.py:110-114 | `--10;` is a negation of a negation, not printed. |
| ParserAsaStatement.AssignmentLeansRight | ParserASA.py:63-71 | `a = b = 5` parses as `a = (b = 5)`. |
| ParserAsaStatement.CallWithArguments | ParserASA.py:120-139 | `max(1, x)` is one call with both arguments, in order. |
| ParserAsaStatement.ExpressionExpected | ParserASA.py:168-169 | A token that cannot start an expression fails with "Expresión esperada" naming it. |
| ParserAsaStatement.EmptyInputRejected | ParserASA.py:168-169 | An input of EOF alone is rejected. |
| ParserAsaStatement.UnclosedGroup | ParserASA.py:162-165 | `(` and an expression not followed by `)` fail at the token after the expression. |
| ParserAsaStatement.GroupNotClosed | ParserASA.py:162-165 | Same as `UnclosedGroup`, for any parsed inner expression. |
| ParserAsaStatement.UnclosedArgs | ParserASA.py:129-137 | A name, `(` and one or more comma-separated expressions, followed by a token that is neither `,` nor `)`, fail with "Se esperaba ')' después de los argumentos" at that token. |
| ParserAsaStatement.ArgsNotClosed | ParserASA.py:136-137 | Same as `UnclosedArgs`, for any parsed argument list. |
| ParserAsaStatement.CallNotChained | ParserASA.py:120-141 | `f()(1)` is rejected as input left over at the second `(`: a call result is never called again. |
| ParserAsaStatement.CalleeMustBeName | ParserASA.py:124-128 | A literal or parenthesised expression followed by `(` is rejected with the invalid-call message. |
| ParserAsaStatement.TargetMustBeName | ParserASA.py:66-73 | `t = v`, where `t` is any term other than a name, is rejected with the invalid-assignment message. |
| ParserAsaStatement.AssignmentRejected | ParserASA.py:63-73 | A parsed non-name term followed by `=` and an expression gives the invalid-assignment error. |
| ParserAsaStatement.LiteralTargetRejected | ParserASA.py:66-73 | `1 = 2` is rejected. |
| ParserAsaStatement.TrailingInputRejected | ParserASA.py:39-43 | A whole expression followed by anything but `;` or EOF, or by `;` and not EOF, fails with "Se esperaba fin de cadena". |
| ParserAsaStatement.CallErrorSurfaces | ParserASA.py:39-43 | An error inside the first call surfaces unchanged as the error of `parse`. |
| Recognising.Parser.constructor | Parser.py:27-36 | Starts at the first token with no errors. |
| Recognising.Parser.Parse | Parser.py:38-58 | `parse` returns True exactly when the statement is recognised and no error is recorded. Otherwise it raises the recorded errors joined by line feeds. |
| Recognising.Parser.Statement | Parser.py:60-67 | Agrees with `RecStatement`: the cursor moves as the grammar says, or the first error is appended. |
| Recognising.Parser.SemicolonOpc | Parser.py:69-71 | Consumes one `;` if there is one. |
| Recognising.Parser.Expression | Parser.py:73-75 | Agrees with `RecExpression`. |
| Recognising.Parser.Assignment | Parser.py:77-80 | Agrees with `RecAssignment`. |
| Recognising.Parser.AssignmentOpc | Parser.py:82-85 | After `=`, a whole expression; there is no check on the left side. |
| Recognising.Parser.Term | Parser.py:87-90 | Agrees with `RecTerm`. |
| Recognising.Parser.TermPrime | Parser.py:92-98 | Agrees with `RecTermPrime`. |
| Recognising.Parser.Factor | Parser.py:100-103 | Agrees with `RecFactor`. |
| Recognising.Parser.FactorPrime | Parser.py:105-113 | Agrees with `RecFactorPrime`. |
| Recognising.Parser.Unary | Parser.py:115-120 | Agrees with `RecUnary`. |
| Recognising.Parser.Call | Parser.py:122-125 | Agrees with `RecCall`. |
| Recognising.Parser.CallPrime | Parser.py:127-133 | Agrees with `RecCallPrime`: `(` is accepted after any primary. |
| Recognising.Parser.Primary | Parser.py:135-157 | Agrees with `RecPrimary`. |
| Recognising.Parser.Arguments | Parser.py:159-166 | Agrees with `RecArguments`: empty when `)` is next. |
| Recognising.Parser.ArgumentsPrime | Parser.py:168-173 | Agrees with `RecArgumentsPrime`. |
| Recognising.Parser.Match | Parser.py:175-190 | Consumes the current token exactly when it has the kind and is not EOF. |
| Recognising.Parser.Advance | Parser.py:206-215 | Never moves past EOF. |
| Recognising.Parser.Error | Parser.py:244-254 | Appends the message naming the current token. |
| RecogniserProps.ParsersAgree | Parser.py:38-173 | `ParserASA.py` accepting a token list implies that `Parser.py` accepts it. When `Parser.py` accepts a list, `ParserASA.py` accepts it too, or fails only with its invalid-assignment or invalid-call error. |
| RecogniserProps.TermRestAgrees | Parser.py:92-98 | The left-leaning loop of `term()` and the right-recursive TERM' stop at the same token and give the same error. |
| RecogniserProps.RecExpressionExpected | Parser.py:155-157 | A token that cannot start an expression makes the recogniser fail with "Expresión esperada" naming it. |
| RecogniserExamples.SumAsTarget | Parser.py:82-85 | `5 + a = 3` is accepted by `Parser.py` and rejected by `ParserASA.py`. |
| RecogniserExamples.NumberCallAccepted | Parser.py:122-133 | `4(5, 2)` is accepted by `Parser.py`. |
| RecogniserExamples.NumberCallRejected | ParserASA.py:124-128 | `4(5, 2)` is rejected by `ParserASA.py`. |
| RecogniserExamples.DoublePlusRecognised | Parser.py:92-98 | `2 + + 3` fails at the second `+` with "Expresión esperada". |
| RecogniserExamples.DoublePlusParsed | ParserASA.py:81-92 | `ParserASA.py` stops at the same `+` with the same message. |
| RecogniserExamples.InputAfterSemicolon | Parser.py:60-67 | `1; 2` is rejected by both parsers: only EOF may follow `;`. |
| RecogniserExamples.EmptyArgumentList | Parser.py:159-163 | `f()` is accepted by both, with no arguments. |
| Evaluation.Evaluator.constructor | Evaluador.py:120-129 | Empty `entorno`, the five built-ins, no draws. |
| Evaluation.Evaluator.VisitStatement | Evaluador.py:143-155 | The expression's value together with the print flag, or the first error. |
| Evaluation.Evaluator.Evaluate | Evaluador.py:131-141 | The new table, draw count and result are those of `EvaluatorSpec.Eval` from the old state. |
| Evaluation.Evaluator.VisitBinary | Evaluador.py:182-238 | Same as `Evaluate`, for a binary node: the left operand, then the right one, then the operator. |
| Evaluation.Evaluator.VisitUnary | Evaluador.py:253-265 | Same as `Evaluate`, for a unary node. |
| Evaluation.Evaluator.VisitVariable | Evaluador.py:292-296 | Succeeds exactly when the name is in `entorno`, with its value; it never changes the table. |
| Evaluation.Evaluator.VisitAssignment | Evaluador.py:308-311 | Same as `Evaluate`, for an assignment: the value, then the store. |
| Evaluation.Evaluator.VisitCall | Evaluador.py:340-367 | Same as `Evaluate`, for a call: the name check, the arguments left to right, the arity check, then the built-in. |
| Evaluation.EvalArgsStops | Evaluador.py:350-352 | Once an argument raises, no later argument is evaluated. |
| EvaluatorSpec.EvalArgs | Evaluador.py:350-352 | A successful argument list has one value per argument. |
| EvaluatorProps.BinaryRules | Evaluador.py:187-238 | An operator succeeds exactly when both operands are numbers, or both are strings for `+`, and the divisor of `/` and `%` is not 0. The failure messages are "Incompatibilidad de operandos para 'op': T1 y T2", "División por cero" and "Módulo por cero". The result of `/` times the divisor is the dividend. An unknown operator gives None. |
| EvaluatorProps.UnaryRules | Evaluador.py:253-265 | `-` negates a number and refuses any other value with its message. Negating twice gives the number back. |
| EvaluatorProps.FunctionTable | Evaluador.py:47-54 | The table holds exactly rand/0, sin/1, cos/1, sqrt/1 and pow/2. |
| EvaluatorProps.BuiltinChecks | Evaluador.py:57-111 | A built-in raises exactly for a non-numeric argument or for the square root of a negative number, with the messages of `sqrt` and of `pow`'s first argument. Every result is a number, and only `rand` makes a draw. |
| EvaluatorProps.LeftOperandFirst | Evaluador.py:182-183 | When the left operand raises, the right one is never evaluated. |
| EvaluatorProps.OperandsBeforeCheck | Evaluador.py:182-188 | Both operands are evaluated before the type check: an error of the right operand wins over an incompatibility. |
| EvaluatorProps.ReadBeforeAssignment | Evaluador.py:182-183 | In `x + (x = 1)`, the read of an undefined `x` fails before the assignment runs. |
| EvaluatorProps.RightSeesLeft | Evaluador.py:182-183 | `(x = 2) * x` gives 4: the right operand sees the left one's assignment. |
| EvaluatorProps.UndefinedBeforeTypes | Evaluador.py:292-296 | `"a" - y` with `y` undefined reports the undefined name. |
| EvaluatorProps.EvalArgsAppend | Evaluador.py:350-352 | Evaluating `a + b` is evaluating `a`, then `b` from the state `a` left. |
| EvaluatorProps.ArgumentsLeftToRight | Evaluador.py:350-352 | The argument loop equals the head-first reference: first argument first, each from the state the one before it left. |
| EvaluatorProps.UnknownFunctionFirst | Evaluador.py:343-345 | An unknown name raises "Función no definida" before any argument is evaluated, so the table and the draws stay unchanged. |
| EvaluatorProps.ArityAfterArguments | Evaluador.py:354-359 | A wrong count raises only after every argument ran; their assignments stand. |
| EvaluatorProps.AssignmentStores | Evaluador.py:308-311 | After an assignment, the name holds the value and the value is returned. |
| EvaluatorProps.PureKeepsTable | Evaluador.py:298-311 | An expression without assignments leaves `entorno` unchanged, whether it succeeds or raises. |
| EvaluatorProps.FailedAssignmentKeepsTable | Evaluador.py:308-311 | An assignment whose value raises and has no assignment inside leaves `entorno` unchanged and raises the value's error. |
| EvaluatorProps.TableGrows | Evaluador.py:298-311 | Evaluation never removes a name and never decreases the draw count. After a successful assignment, the name holds its value. |
| EvaluatorProps.NoCallNoDraws | Evaluador.py:47-54 | An expression without calls makes no draw. |
| EvaluatorProps.StatementResult | Evaluador.py:143-155 | `visit_sentencia` gives the expression's value with the statement's print flag, or the expression's error. |
| Environments.Environment.constructor | Environment.py:4-6 | The table starts empty. |
| Environments.Environment.Define | Environment.py:8-11 | Afterwards the name holds the value, whether or not it was there. The keys grow by that name only and no other entry changes. |
| Environments.Environment.Get | Environment.py:13-20 | Succeeds exactly when the name is present, with its value. Otherwise it raises "Variable no definida: 'n'.". The table is unchanged. |
| Environments.Environment.Assign | Environment.py:22-30 | Succeeds exactly when the name was present, and then overwrites it. Otherwise it raises and creates nothing. The keys never change. |
| Interpreting.Motor.constructor | Motor.py:44-54 | The environment holds exactly the six natives under their names. There are no draws and no output yet. |
| Interpreting.Motor.Interpret | Motor.py:57-61 | Earlier output is kept. The new lines, table, draws and outcome are those of `MotorSpec.Interpret`: None runs nothing, and the statements run in order until one raises. |
| Interpreting.Motor.Execute | Motor.py:63-64 | The statement runs as `MotorSpec.Execute` says; only a print statement writes, and exactly one line. |
| Interpreting.Motor.Evaluate | Motor.py:66-67 | The result, environment and draws are those of `MEval`; no output is written. |
| Interpreting.Motor.VisitVariable | Motor.py:89-90 | `environment.get`: the value, or the undefined-name error. |
| Interpreting.Motor.VisitAssignment | Motor.py:93-97 | Same as `Evaluate`, for an assignment: the value, then `define`. |
| Interpreting.Motor.VisitUnary | Motor.py:100-104 | Same as `Evaluate`, for a unary node. |
| Interpreting.Motor.VisitBinary | Motor.py:107-126 | Same as `Evaluate`, for a binary node: both operands are evaluated before the operator. |
| Interpreting.Motor.VisitCall | Motor.py:129-139 | Same as `Evaluate`, for a call: the callee, every argument, then the callable check, the arity check and the call. |
| Interpreting.MEvalArgsStops | Motor.py:131 | Once an argument raises, the rest are not evaluated. |
| Interpreting.RunStops | Motor.py:60-61 | Once a statement raises, the later ones do not run. |
| MotorSpec.MEvalArgs | Motor.py:131 | A successful argument list has one value per argument. |
| MotorProps.NativesTable | Motor.py:16-54 | The initial environment has exactly the keys clock, sin, cos, sqrt, pow and rand, all natives, with arities 0, 1, 1, 1, 2 and 0. |
| MotorProps.SumRule | Motor.py:112-117 | `+` succeeds exactly for two numbers or two strings, adds numbers, joins strings, and otherwise raises "Operandos incompatibles para suma.". |
| MotorProps.DivisorRules | Motor.py:121-124 | `/` by 0 raises "División por cero". `%` by 0 has no check of its own and reaches Python's ZeroDivisionError. |
| MotorProps.ConversionOrder | Motor.py:119-124 | `-`, `*`, `/` and `%` convert with `float()`, the left operand first, so the left operand's conversion error is the one raised. On numbers `-` and `*` compute the difference and the product. |
| MotorProps.AssignmentDefines | Motor.py:93-97 | Assignment creates the target if it was absent, stores the value and returns it. |
| MotorProps.CallableCheckAfterArguments | Motor.py:129-134 | A callee that is not callable is reported only after every argument ran; their effects stand. |
| MotorProps.ArityBeforeCall | Motor.py:136-139 | A wrong argument count raises "Se esperaban N argumentos." before the native runs, so no draw is made. |
| MotorProps.InterpretNone | Motor.py:59 | `interpret(None)` changes nothing and prints nothing. |
| MotorProps.RunAppend | Motor.py:60-61 | Running `a + b` is running `a`, then `b` from where `a` left off, unless `a` raised. The printed lines are concatenated. |
| MotorProps.FirstStatementFirst | Motor.py:60-61 | The first statement runs first; the rest run only if it did not raise. |
| MotorProps.StringifyCases | Motor.py:142-147 | None is "null" and a string is itself. A float is its text without a trailing ".0". |
| MotorProps.BinaryAgrees | Motor.py:107-126 | On any operation `Evaluador.py` accepts, `Motor.py` computes the same value. |
| MotorProps.UnaryAgrees | Motor.py:100-104 | On any negation `Evaluador.py` accepts, `Motor.py` computes the same value. |
| MotorProps.EvaluatorsAgree | Motor.py:81-126 | On a call-free expression that `Evaluador.py` evaluates without raising, `Motor.py` gives the same value from a related environment. It keeps the two tables related, and neither makes a draw. |
| Pipeline.SyntaxErrorChangesNothing | InterpreteASA.py:51-65 | A line fails as a syntax error exactly when the parser rejects its tokens. Then the variables and the draws stay as they were. |
| Pipeline.LineEffects | InterpreteASA.py:51-65 | No line removes a variable or takes back a draw. A parsed statement without an assignment leaves the variables unchanged, and one without a call makes no draw. |
| Pipeline.StatementRuns | InterpreteASA.py:51-61 | The tokens of a well-shaped statement run as that statement: its value, or its semantic error, and printing exactly when no `;` ends it. |

## Left out

- Console I/O and the REPL loops (`Interprete.py`, `InterpreteASA.py:main`, `Principal.py`, the demos and tests) are left out. `print` in `Motor.py` becomes a list of output lines. The scanner's printing of its error list is left out; the list itself is modelled.
- Floating point is left out: numbers are `real`. `%`, `math.sin`, `math.cos`, `math.sqrt`, `math.pow`, `str(float)` and `float(str)` are host functions, so rounding, overflow, `inf` and `nan` are not modelled.
- `random.random()` and `time.time()` are values the host supplies, read at a draw counter shared by both.
- Evaluation.Evaluator.VisitCall: the wrapping of a Python exception raised inside a built-in into "Error al ejecutar …" (`Evaluador.py:362-367`) is left out, because the host functions never raise; the domain and overflow errors of `math.pow` are not modelled.
- Evaluation.Evaluator.VisitCall: the branch for a callee that is not a `Variable` (`Evaluador.py:327-338`) is not modelled. The tree of `AST.py` holds a call's name as a string, and `ParserASA.py` rejects every other callee.
- Booleans are not modelled: `true`/`false` are scanned as keywords, but neither parser accepts them as a primary.
- The Python `isinstance(x, (int, float))` tests are modelled as "is a number", since no integer value can arise.
- Motor's runtime exceptions (`float()` of a non-number, `math` functions on a wrong operand, `%` by zero, `sqrt` of a negative) are named by their Python class (TypeError, ValueError, ZeroDivisionError), without their text.
- MotorSpec.Stringify: `str()` of a native function object is a host function `objectText`, since Python prints an object address.
- Parts of the wiring between files do not run as written:
  - `ParserASA.py:153,157` read `Token.opcional`, which `Token.py` does not define; the model reads the token's literal.
  - `Evaluador.py` visits the nodes of `ASA.py`, while `ParserASA.py` builds those of `AST.py`; the model evaluates the `AST.py` tree, with its `print_result` flag playing the part of `not tiene_semicolon`.
  - `InterpreteASA.py:59` calls `evaluator.ejecutar`, which `Evaluador.py` does not define; the pipeline uses `visit_sentencia`.
- `Motor.py` receives its statements from a parser that is not part of this repository's core; the model takes the `Expr.py`/`Stmt.py` trees as given.
- `InterpreteASA.py:formato` (printing `5.0` as `5`) is output formatting and is left out.
- The scanner's `float(texto)` of a number lexeme is modelled as the exact decimal value, without binary rounding.
