# eve interpreter front end and evaluator, in Dafny

This project models the core of the `eve` interpreter, a small JavaScript implementation of
a Monkey-like language, and proves properties of it. The model covers these parts:

- **The scanner** (`src/scanner/scanner.js`). It is the class `Scanning.Scanner`, with a
  mutable `current` and `start`. Each method is proved against functions that specify one
  `scanToken` call (`ScanFrom`), a whole `scanTokens` run (`ScanAll`) and the token
  stream a parser pulls on demand (`LexFrom`, `TokenAt`).
- **The token types** (`src/token/index.js`). They are the datatype `Token.TokenType`.
- **The Pratt parser** (`src/parser/parser.js`). It is the class `Parsing.Parser`, which
  holds the scanner and its `tok` and `peek` tokens. Each `parse...` method is proved
  equal to a function of module `Grammar`, which maps a position in the token stream to
  the node built and the position reached, or to the thrown message.
- **The node renderings** (`toString`). They are the functions of module `Ast`. Module
  `RenderedTokens` writes down, by hand, the token list each node's rendering spells
  (`ExprTokens`, `StmtTokens`). The parser is proved to read those lists back as the
  nodes they spell: for expressions, statement lists, whole programs and `fn` nodes.
  Running the scanner over the rendered text is not part of that proof. Further lemmas
  cover associativity, precedence, prefix nesting, grouping and the error at a token with
  no prefix handler.
- **The evaluator** (`src/eval/eval.js`). It is module `Evaluator`. `evalStatements` is a
  method with a loop, proved against a function that gives a program's outcome.
- **Numbers.** Module `Numbers` models the host's `parseFloat` on number literals and the
  host's number-to-text conversion as exact decimals. Reading back the text of a
  non-negative canonical number gives that number again. A negative number's text starts
  with `-`, and number literals carry no sign, so that round trip covers non-negative
  numbers only.
- **The runtime values** (`src/eval/runtime.js`) and their `inspect` text. They are
  module `Runtime`.
- **Name bindings** (`src/eval/environment.js`, `src/eval/closure.js`). They are the
  class `Environments.Environment`: a mutable store, an optional outer scope, and a
  look-up along the chain of scopes.

Exceptions become `Err` results, or the `Threw` outcome of the evaluator. The scanner's
and the parser's carry the message the source throws. The host's TypeError does not: a
fixed message stands for it (see "Left out").

In two places the repository's tests expect more than the code does. The model follows
the code in both:

- `src/parser/parser.spec.js:186` expects `a + b + c - d` to parse as a subtraction. The
  constructor registers `-` only as a prefix operator (`src/parser/parser.js:47`), so
  `parseExpression` stops before the `-`.
- Tests for `fn` in expression position (`src/parser/parser.spec.js:214` and `:290`) and
  for call, index and array expressions (`src/parser/parser.spec.js:227-296`) have no
  parser code behind them.

Two more places where the code departs from what its authors evidently meant are listed
under "Findings", one for the parameter list and one for scope look-up.

Where the code gives `!null` the Null object (`src/eval/eval.js:39-40`), the model gives
Null too.

## Model

| member | source | states |
|---|---|---|
| Scanning.IdentifierKind | src/scanner/scanner.js:169-181 | a lexeme is an IDENTIFIER exactly when it is not one of the nine reserved words; otherwise it gets that word's token type |
| Scanning.ScanWhile | src/scanner/scanner.js:153-158 | a scanning loop stops at the end of the longest run of characters it accepts |
| Scanning.ScanLexeme | src/scanner/scanner.js:64-139 | a character that starts a token is consumed; the token begins at `start` and is never EOF |
| Scanning.ScanLoop | src/scanner/scanner.js:57-144 | a scan moves forward unless the input is exhausted; EOF, with literal `\0`, comes only at the end of the input |
| Scanning.Scanner.constructor | src/scanner/scanner.js:32-35 | a new scanner reads the given input from position 0 |
| Scanning.Scanner.Peek | src/scanner/scanner.js:233-235 | gives the character at `current`, and nothing exactly when `current` is past the end |
| Scanning.Scanner.Consume | src/scanner/scanner.js:220-223 | advances `current` by one and returns the character it passed |
| Scanning.Scanner.Match | src/scanner/scanner.js:225-231 | consumes the next character exactly when it is the expected one, and says whether it did |
| Scanning.Scanner.AddToken | src/scanner/scanner.js:215-218 | the token's literal is the input from `start` to `current` |
| Scanning.Scanner.ScanNumber | src/scanner/scanner.js:153-158 | consumes the longest run of digits and dots and returns it as a NUMBER token |
| Scanning.Scanner.ScanIdentifier | src/scanner/scanner.js:169-181 | consumes the longest run of letters, digits and `_`, and types it by `IdentifierKind` |
| Scanning.Scanner.ScanString | src/scanner/scanner.js:193-207 | returns or throws what `ScanStringFrom` gives and stops where it says: the text between the quotes as a STRING token, or `unterminated string` when the input ends first |
| Scanning.Scanner.SkipComment | src/scanner/scanner.js:209-213 | stops at the next newline or at the end of the input |
| Scanning.Scanner.ScanLexemeAfter | src/scanner/scanner.js:64-139 | at a character that starts neither whitespace nor a comment, the cases of the `switch` return or throw what `ScanLexeme` gives for the lexeme starting there and stop where it ends |
| Scanning.TriviaScan | src/scanner/scanner.js:59-144 | the scan loop is the skipping of whitespace and `//` comments (`Trivia`: whitespace moves `start` past it, a comment leaves `start` alone) followed by one lexeme, or EOF at the end of the input |
| Scanning.Scanner.ScanToken | src/scanner/scanner.js:57-144 | returns or throws exactly what `ScanFrom` specifies and leaves `current` at that scan's end |
| Scanning.Scanner.ScanTokens | src/scanner/scanner.js:42-50 | returns the tokens of the whole input, or the first error, as `ScanAll` specifies |
| Scanning.ScanFrom | src/scanner/scanner.js:57-144 | one `scanToken` call from a position; `Scanning.Scanner.ScanToken` is proved to follow it, and the `ScannerFacts` lemmas state what it gives |
| Scanning.ScanStringFrom | src/scanner/scanner.js:193-207 | the scan fails exactly when no `'` follows; otherwise it gives a STRING token and ends just past the first `'`, with no `'` before it |
| Scanning.ScanAll | src/scanner/scanner.js:42-50 | `scanTokens` gives at most one token per character left |
| Scanning.LexFrom | src/parser/parser.js:414-417 | the tokens the parser pulls on demand, up to the first EOF or the first error; `ScannerFacts.StreamEndsInEof` and `ScannerFacts.ScanAllIsLex` state what it holds |
| Scanning.TokenAt | src/parser/parser.js:414-417 | the token of the k-th pull; `ScannerFacts.TokenAtScans` ties it to the scanner's position, and `ScannerFacts.EofForever` gives EOF past a clean end |
| ScannerFacts.StreamEndsInEof | src/scanner/scanner.js:141-144 | the on-demand stream holds EOF at most once, as its last token; a clean stream ends with EOF, and a failing one holds none |
| ScannerFacts.EofForever | src/parser/parser.js:414-417 | past the last token of a clean stream, every pull gives EOF |
| ScannerFacts.WhitespaceSkipped | src/scanner/scanner.js:118-123 | whitespace before a token changes nothing about the token scanned |
| ScannerFacts.CommentSkipped | src/scanner/scanner.js:125-128 | `//` skips up to the next newline, and a comment that runs to the end is followed by EOF |
| ScannerFacts.OperatorMerged | src/scanner/scanner.js:91-113 | `=`, `!`, `<` and `>` merge with a directly following `=` into one token, and stand alone otherwise |
| ScannerFacts.NumberScanned | src/scanner/scanner.js:153-158 | a digit starts a NUMBER token made of the longest run of digits and dots after it |
| ScannerFacts.IdentifierScanned | src/scanner/scanner.js:169-181 | a letter or `_` starts the longest run of identifier characters, which is an IDENTIFIER exactly when it is not reserved |
| ScannerFacts.StringScanned | src/scanner/scanner.js:193-207 | a string's literal is exactly the text between its quotes; a missing closing quote throws `unterminated string` |
| ScannerFacts.UnrecognizedFails | src/scanner/scanner.js:133-139 | a character no case accepts throws `Syntax error: unrecognized token "<ch>"` |
| ScannerFacts.ScanAtEnd | src/scanner/scanner.js:143 | at the end of the input a scan returns EOF with literal `\0` and does not move |
| ScannerFacts.EofSticky | src/scanner/scanner.js:143 | once a scan has returned EOF, every later scan returns EOF at the end of the input |
| ScannerFacts.TokenShape | src/scanner/scanner.js:205-218 | a token's literal is the input text it was scanned from; for a string, without the quotes |
| ScannerFacts.ScanAllIsLex | src/scanner/scanner.js:42-50 | `scanTokens` and on-demand scanning fail with the same message or give the same tokens, EOF aside |
| ScannerFacts.TokenAtScans | src/parser/parser.js:414-417 | the k-th token the parser pulls is what `scanToken` gives where the scanner stands after k calls |
| Grammar.Precedence | src/parser/parser.js:13-25 | the `precedences` table; `GrammarFacts.HandlerTables`, `GrammarFacts.InfixBinds` and `PrecedenceFacts.BelowPrefix` state how it relates to the handlers |
| Grammar.PrefixParser | src/parser/parser.js:38-49 | the `prefixParsers` the constructor registers; `GrammarFacts.HandlerTables` states which tokens have one |
| Grammar.InfixParser | src/parser/parser.js:45-59 | the `infixParsers` the constructor registers; `GrammarFacts.HandlerTables` states which tokens have one |
| Grammar.NextToken | src/parser/parser.js:414-417 | `tok` moves one token on, and the step fails exactly when scanning the new `peek` fails, with that message |
| Grammar.ParseExpression | src/parser/parser.js:228-246 | a token with no prefix handler throws `Syntax error: unexpected token <literal>`; a parse moves forward |
| Grammar.InfixLoop | src/parser/parser.js:237-245 | the loop returns the left operand unchanged when `peek` binds no tighter than the precedence or has no infix handler |
| Grammar.ApplyPrefix | src/parser/parser.js:38-49 | the prefix handler registered for `tok` never moves back and ends on a reachable token |
| Grammar.ParseGroupExpression | src/parser/parser.js:298-309 | a group moves past its `(` and ends on a reachable token |
| Grammar.CloseGroup | src/parser/parser.js:304-308 | the end of a group never moves back and ends on a reachable token |
| Grammar.ParsePrefixExpression | src/parser/parser.js:248-263 | a prefix expression moves past its operator and ends on a reachable token |
| Grammar.ApplyInfix | src/parser/parser.js:45-59 | the infix handler registered for `tok` ends after the operator, on a reachable token |
| Grammar.ParseInfixExpression | src/parser/parser.js:265-280 | an infix expression ends after its operator, on a reachable token |
| Grammar.ParseAssignmentExpression | src/parser/parser.js:282-296 | an assignment ends after its `=`, on a reachable token |
| Grammar.ParseStatement | src/parser/parser.js:92-105 | a statement moves forward, so a program or block loop makes progress |
| Grammar.ParseIfStatement | src/parser/parser.js:107-136 | an `if` statement moves forward |
| Grammar.IfThen | src/parser/parser.js:122-135 | what follows an `if` condition moves forward and ends on a reachable token |
| Grammar.ElseArm | src/parser/parser.js:129-135 | the end of an `if` never moves back and ends on a reachable token |
| Grammar.StepOver | src/parser/parser.js:184-187 | stepping over a statement's last token, and an optional `;`, moves forward |
| Grammar.ParseBlockStatement | src/parser/parser.js:138-159 | a block moves forward |
| Grammar.BlockLoop | src/parser/parser.js:150-153 | a block's statements end on its `}` |
| Grammar.ParseLetStatement | src/parser/parser.js:161-190 | a `let` statement moves forward |
| Grammar.ParseLetValue | src/parser/parser.js:175-182 | a `let` with `=` always has a value |
| Grammar.ParseReturnStatement | src/parser/parser.js:192-209 | a `return` statement moves forward |
| Grammar.ParseExpressionStatement | src/parser/parser.js:211-226 | an expression statement moves forward |
| Grammar.ParseParameterList | src/parser/parser.js:311-337 | a parameter list moves past its `(` and ends on a reachable token |
| Grammar.ParameterLoop | src/parser/parser.js:323-331 | the loop ends on a `)`, or on EOF where the source loops forever; it reads at most one name per token it passes |
| Grammar.ParseFunction | src/parser/parser.js:339-354 | a function moves past `fn` and ends on a reachable token |
| Grammar.ParseProgram | src/parser/parser.js:78-90 | a program holds at most one statement per token left in the stream, and a clean stream standing on EOF gives the empty program |
| Grammar.ProgramLoop | src/parser/parser.js:84-87 | the loop reads at most one statement per token left in the stream |
| FunctionFacts.ParameterNames | src/parser/parser.js:323-331 | by induction on the names: a stream spelling `a, b, …` before a `)` makes the loop return exactly those names, in order, and stop on the `)` |
| FunctionFacts.ParameterListRead | src/parser/parser.js:311-337 | a stream spelling `(`, the names separated by `,` and `)` is read by `parseParameterList` as those names, ending past the `)` |
| FunctionFacts.BodyRead | src/parser/parser.js:138-159 | the tokens of a block of well-formed statements are read by `parseBlockStatement` as that block, ending past the `}` |
| FunctionFacts.FunctionRead | src/parser/parser.js:339-354 | a stream spelling `fn`, a parameter list and a block is read by `parseFunction` as the function of those names and that block, ending past the `}` |
| FunctionFacts.FunctionRoundTrip | src/parser/parser.js:311-354 | for any parameter names and any block of well-formed statements, `parseFunction` on the function's tokens followed by EOF gives that function back |
| FunctionFacts.SquareText | src/parser/parser.js:318-347 | `fn(ps) { return x * x }` renders as `fn`, the rendered parameter list and ` { return (x * x); }` |
| FunctionFacts.OneParameter | src/parser/parser.spec.js:299-305 | the tokens of `fn(x) { return x * x }` parse to a function that renders as `fn(x) { return (x * x); }` |
| FunctionFacts.ThreeParameters | src/parser/parser.spec.js:307-313 | the tokens of `fn(x, y, z) { return x * x }` parse to a function that renders as `fn(x, y, z) { return (x * x); }` |
| ParameterListAsWritten.LoopAsWritten | src/parser/parser.js:323-331 | the loop as written, bounded by fuel, returns only on a `)` |
| ParameterListAsWritten.NeverEnds | src/parser/parser.js:323-331 | with no `)` left in a clean stream, the loop as written has not returned after any number of names |
| ParameterListAsWritten.AgreesWhenClosed | src/parser/parser.js:323-331 | where the corrected loop ends on a `)`, the loop as written gives the same result, given enough fuel |
| ParameterListAsWritten.UnclosedParameters | src/parser/parser.js:311-354 | on the tokens of `fn(x` the loop as written never returns, while the corrected loop reads `x` and stops on EOF, and `parseFunction` then throws `Syntax error: unexpected token` at EOF |
| Parsing.Open | src/parser/parser.js:28-33 | a parser is created exactly when the first two scans succeed; otherwise the first failing scan's message is thrown |
| Parsing.Parser.Init | src/parser/parser.js:28-33 | a new parser stands on the first two tokens of the stream |
| Parsing.Parser.NextToken | src/parser/parser.js:414-417 | steps as `Grammar.NextToken` does; when the scan fails, `tok` and `peek` both hold the old `peek` |
| Parsing.Parser.ParseExpression | src/parser/parser.js:228-246 | returns or throws what `Grammar.ParseExpression` gives and leaves `tok` where it says |
| Parsing.Parser.InfixTurn | src/parser/parser.js:238-242 | one turn of the infix loop (`nextToken`, then the operator's handler) moves `tok` forward and leaves what is left of `Grammar.InfixLoop` unchanged, or throws what that loop throws |
| Parsing.Parser.ApplyPrefix | src/parser/parser.js:38-49 | runs the prefix handler registered for `tok`, as `Grammar.ApplyPrefix` does |
| Parsing.Parser.ParseGroupExpression | src/parser/parser.js:298-309 | returns what `Grammar.ParseGroupExpression` gives |
| Parsing.Parser.CloseGroup | src/parser/parser.js:304-308 | returns what `Grammar.CloseGroup` gives |
| Parsing.Parser.ParsePrefixExpression | src/parser/parser.js:248-263 | returns what `Grammar.ParsePrefixExpression` gives |
| Parsing.Parser.ApplyInfix | src/parser/parser.js:45-59 | runs the infix handler registered for `tok`, as `Grammar.ApplyInfix` does |
| Parsing.Parser.ParseInfixExpression | src/parser/parser.js:265-280 | returns what `Grammar.ParseInfixExpression` gives |
| Parsing.Parser.ParseAssignmentExpression | src/parser/parser.js:282-296 | returns what `Grammar.ParseAssignmentExpression` gives |
| Parsing.Parser.ParseStatement | src/parser/parser.js:92-105 | returns what `Grammar.ParseStatement` gives |
| Parsing.Parser.ParseIfStatement | src/parser/parser.js:107-136 | returns what `Grammar.ParseIfStatement` gives |
| Parsing.Parser.ParseIfThen | src/parser/parser.js:122-135 | returns what `Grammar.IfThen` gives |
| Parsing.Parser.ParseElseArm | src/parser/parser.js:129-135 | returns what `Grammar.ElseArm` gives |
| Parsing.Parser.ParseBlockStatement | src/parser/parser.js:138-159 | returns what `Grammar.ParseBlockStatement` gives |
| Parsing.Parser.ParseBlockBody | src/parser/parser.js:150-153 | the loop returns what `Grammar.BlockLoop` gives |
| Parsing.Parser.ParseLetStatement | src/parser/parser.js:161-190 | returns what `Grammar.ParseLetStatement` gives |
| Parsing.Parser.ParseLetValue | src/parser/parser.js:175-182 | returns what `Grammar.ParseLetValue` gives |
| Parsing.Parser.StepOver | src/parser/parser.js:184-187 | steps over the last token, and over a `;` after it, as `Grammar.StepOver` does |
| Parsing.Parser.ParseReturnStatement | src/parser/parser.js:192-209 | returns what `Grammar.ParseReturnStatement` gives |
| Parsing.Parser.ParseExpressionStatement | src/parser/parser.js:211-226 | returns what `Grammar.ParseExpressionStatement` gives |
| Parsing.Parser.ParseProgram | src/parser/parser.js:78-90 | returns what `Grammar.ParseProgram` gives and, on success, stands on EOF |
| Parsing.Parser.ParseParameterList | src/parser/parser.js:311-337 | returns what `Grammar.ParseParameterList` gives |
| Parsing.Parser.ParseParameters | src/parser/parser.js:323-331 | the loop collects one name per step, in order, and returns what `Grammar.ParameterLoop` gives: the names and the position of the `)` (or EOF) |
| Parsing.Parser.ParameterTurn | src/parser/parser.js:324-330 | one turn of the parameter loop returns the name in `tok` and moves forward; `Grammar.ParameterLoop` from before it is that name followed by the loop after it, or the error the step throws |
| Parsing.Parser.ParseFunction | src/parser/parser.js:339-354 | returns what `Grammar.ParseFunction` gives |
| GrammarFacts.InfixBinds | src/parser/parser.js:13-25 | every operator with an infix handler binds tighter than LOWEST |
| GrammarFacts.HandlerTables | src/parser/parser.js:13-59 | every token with a precedence above LOWEST has an infix handler except `-`; only `=` is an assignment; `-`, `+` and `!` are the prefix operators, and only `+` has both kinds of handler |
| GrammarFacts.ExpressionRoundTrip | src/parser/parser.js:228-309 | parsing the tokens of any well-formed expression's `toString` gives that expression back |
| StatementFacts.Statement | src/parser/parser.js:92-226 | the rendering of a well-formed statement parses back to it, ending right after it |
| StatementFacts.BlockStatements | src/parser/parser.js:138-159 | the statements of a block, up to its `}`, parse back to the list they render |
| StatementFacts.ProgramRoundTrip | src/parser/parser.js:78-90 | `parseProgram` on the tokens of a well-formed statement list, followed by EOF, gives that list |
| StatementFacts.ExpressionSemicolonOptional | src/parser/parser.js:211-226 | an expression statement ends after its expression, and after a `;` only when one follows |
| StatementFacts.LetWithoutValue | src/parser/parser.js:161-190 | `let name` without `=` has no value, and the `;` after it is optional |
| StatementFacts.LetCase | src/parser/parser.js:161-190 | `let name;` parses to a `let` with no value and ends after the `;` |
| StatementFacts.LetValueCase | src/parser/parser.js:161-190 | `let name = value;` parses to a `let` with that value and ends after the `;` |
| StatementFacts.ReturnCase | src/parser/parser.js:192-209 | `return value;` parses to a `return` of that value and ends after the `;` |
| StatementFacts.ExpressionCase | src/parser/parser.js:211-226 | `value;` parses to an expression statement and ends after the `;` |
| StatementFacts.BlockCase | src/parser/parser.js:138-159 | `{`, the block's statements and `}` parse to a block and end after the `}` |
| StatementFacts.ConditionCase | src/parser/parser.js:113-125 | the parenthesized condition of an `if` is read as a group, which ends on the `)` |
| StatementFacts.ElseCase | src/parser/parser.js:129-135 | after the then arm, an `else` arm is read exactly when `else` follows |
| StatementFacts.ThenCase | src/parser/parser.js:122-127 | after a `)` the then arm is parsed from the next token, and what follows it is read from where it ends |
| StatementFacts.IfStep | src/parser/parser.js:107-136 | `parseStatement` on an `if` steps over `if`, parses the condition, and gives exactly what `Grammar.IfThen` gives from the condition's end |
| StatementFacts.ProgramStatements | src/parser/parser.js:78-90 | the program loop reads a statement list up to EOF back as that list |
| PrecedenceFacts.BelowPrefix | src/parser/parser.js:5-25 | no token binds as tightly as the operand of a prefix operator |
| PrecedenceFacts.GroupsLeft | src/parser/parser.js:237-280 | `a o1 b o2 c` parses to `((a o1 b) o2 c)` when `o1` binds at least as tightly as `o2` |
| PrecedenceFacts.GroupsRight | src/parser/parser.js:265-296 | `a o1 b o2 c` parses to `(a o1 (b o2 c))` when `o2` binds tighter, or when `o1` is `=` |
| PrecedenceFacts.MinusEndsExpression | src/parser/parser.js:47-59 | `a o b - c` parses to `(a o b)` and stops before the `-`, which has no infix handler |
| PrecedenceFacts.PrefixesNest | src/parser/parser.js:248-263 | a run of prefix operators nests, each one applying to everything after it |
| PrecedenceFacts.ParenthesesVanish | src/parser/parser.js:298-309 | a name or literal inside any number of parentheses parses to the bare leaf |
| PrecedenceFacts.UnclosedGroup | src/parser/parser.js:304-308 | a group without its `)` ends with the inner expression, and no error is reported |
| PrecedenceFacts.NoPrefixHandler | src/parser/parser.js:229-233 | at a token with no prefix handler, parsing throws `Syntax error: unexpected token <literal>` |
| PrecedenceFacts.SumsAssociateLeft | src/parser/parser.spec.js:185 | `a + b + c` renders as `((a + b) + c)` |
| PrecedenceFacts.MinusIsNotInfix | src/parser/parser.spec.js:186 | `a + b - c` yields only `(a + b)`, not the subtraction the test expects |
| PrecedenceFacts.ProductBindsTighterOnTheRight | src/parser/parser.spec.js:187 | `a + b * c` renders as `(a + (b * c))` |
| PrecedenceFacts.ProductBindsTighterOnTheLeft | src/parser/parser.js:237-243 | `a * b + c` renders as `((a * b) + c)` |
| PrecedenceFacts.ComparisonsParse | src/parser/parser.spec.js:192 | `a > b >= 0` parses to `>=` applied to `a > b` and `0` |
| PrecedenceFacts.TwoProductsParse | src/parser/parser.spec.js:189 | `a * b + c / d` parses to `+` applied to the two products |
| PrecedenceFacts.PrefixesParse | src/parser/parser.spec.js:166-170 | `---a` parses to three nested `-` nodes |
| PrecedenceFacts.TwoProductsSummed | src/parser/parser.spec.js:189 | `a * b + c / d` renders as `((a * b) + (c / d))` |
| PrecedenceFacts.ComparisonsAssociateLeft | src/parser/parser.spec.js:192 | `a > b >= 0` renders as `((a > b) >= 0)` |
| PrecedenceFacts.AssignmentAssociatesRight | src/parser/parser.spec.js:212 | `a = b = c` renders as `(a = (b = c))` |
| PrecedenceFacts.PrefixesRender | src/parser/parser.spec.js:166-170 | `---a` renders as `(-(-(-a)))` |
| PrecedenceFacts.ParenthesesRender | src/parser/parser.spec.js:246 | `(((a)))` renders as `a`, and `(a` is read as `a` |
| ReservedWordLookup.LookupAsWritten | src/scanner/scanner.js:175-180 | the plain-object look-up finds the lexeme's own entry exactly when it is reserved, and an inherited member only for an inherited name |
| ReservedWordLookup.KindAsWritten | src/scanner/scanner.js:175-180 | the lexeme gets no token type exactly when it is an inherited member name, and a type other than IDENTIFIER only when it is reserved |
| ReservedWordLookup.AgreesAwayFromInherited | src/scanner/scanner.js:175-180 | the look-up as written agrees with `IdentifierKind` exactly on the lexemes that are not inherited object member names |
| ReservedWordLookup.ConstructorIsNotAnIdentifier | src/scanner/scanner.js:175-180 | `constructor` scans as one lexeme and is meant to be an IDENTIFIER, but as written it gets no token type |
| Ast.RenderExpr | src/parser/parser.js:252-288 | an expression's `toString`; what it shows is stated by `Ast.OperatorsParenthesised`, and the parser reads its tokens back (`GrammarFacts.ExpressionRoundTrip`) |
| Ast.OperatorsParenthesised | src/parser/parser.js:252-288 | every prefix, infix and assignment node renders inside one pair of parentheses, and a string literal inside quotes |
| Ast.RenderStmt | src/parser/parser.js:114-216 | a statement never renders empty; `let`, `return` and expression statements end in `;`, and a block is enclosed in `{` and `}` |
| Ast.RenderStmts | src/parser/parser.js:145-146 | a list of statements renders empty exactly when it is empty |
| Ast.RenderParams | src/parser/parser.js:318-319 | a parameter list renders inside parentheses, and `()` when there are no parameters |
| Ast.RenderFunction | src/parser/parser.js:346-347 | a function renders starting `fn(`, and ends in `}` when its body is a block |
| Numbers.Normalize | src/eval/eval.js:67 | the canonical decimal it gives has the requested sign and the value mantissa / 10^scale |
| Numbers.ParseFloat | src/eval/eval.js:67 | `parseFloat` gives NaN exactly when the text starts with neither a digit nor a point followed by a digit; otherwise a non-negative canonical decimal |
| Numbers.DigitsParse | src/eval/eval.js:67 | `parseFloat` reads a run of digits as its value |
| Numbers.PointParses | src/eval/eval.js:67 | `parseFloat` reads `digits.digits` as all the digits' value over ten to the number of decimals |
| Numbers.PlaceParses | src/eval/eval.js:67 | `parseFloat` reads digits with a point placed `scale` digits from the right as their value over ten to `scale` |
| Numbers.NormalizeCanonical | src/eval/eval.js:67 | normalizing a canonical decimal gives it back |
| Numbers.NumberTextParses | src/eval/eval.js:67 | `parseFloat` reads the text of any non-negative number back as that number |
| Numbers.Negate | src/eval/eval.js:51 | unary `-` negates the value, keeps NaN, and flips the sign of zero |
| Numbers.NegateTwice | src/eval/eval.js:51 | negating twice gives the number back |
| Numbers.NumberText | src/eval/runtime.js:15 | a number's text is never empty; it starts with `-` exactly for a negative non-zero number, and otherwise with a digit, except that NaN shows exactly as `NaN` |
| Numbers.NatText | src/eval/runtime.js:15 | the text of a whole number is digits with no leading zero, whose value is that number |
| Runtime.TypeTagIdentifies | src/eval/runtime.js:24-151 | each `type` name belongs to exactly one kind of value |
| Runtime.PrimitiveInspect | src/eval/runtime.js:14-16 | a primitive value shows as text exactly when its host value is truthy; otherwise `inspect` returns that host value |
| Runtime.FalsyPrimitives | src/eval/runtime.js:14-16 | null, `false`, zero and `''` never show as text; a string reads as itself in a join or a template |
| Runtime.Truthy | src/eval/runtime.js:15 | a host string is truthy exactly when it is not empty, and the host `null` is falsy |
| Runtime.HostText | src/eval/runtime.js:15 | the host's `toString` is empty exactly for the empty string |
| Runtime.JoinPart | src/eval/runtime.js:81 | `join` writes a `null` element as nothing and every other element as a template would |
| Runtime.TemplatePart | src/eval/runtime.js:122 | a template writes a value as nothing exactly when it is the empty text or the falsy empty string |
| Runtime.BaseInspect | src/eval/runtime.js:14-16 | `value && value.toString()`: text is never empty; otherwise the falsy host value itself, which a template writes exactly as the host's text |
| Runtime.Inspect | src/eval/runtime.js:14-156 | only a primitive value with a falsy host value is returned as that value; every text `inspect` returns is non-empty |
| Runtime.HashEntry | src/eval/runtime.js:118-127 | a hash of one entry shows `{`, the key, `: `, the value's text and `}` |
| Runtime.HashInspectSplits | src/eval/runtime.js:118-127 | an empty hash shows `{}`; the text of two hashes put together is their two entry texts joined by `,` inside one pair of braces |
| Runtime.ElementTexts | src/eval/runtime.js:81 | an array gives one text per element |
| Runtime.EntryTexts | src/eval/runtime.js:119-124 | a hash gives one text per key |
| Runtime.ArrayInspectSplits | src/eval/runtime.js:80-82 | an empty array shows `[]`; the text of two arrays put together is their two texts joined by `,` inside one pair of brackets |
| Runtime.ArrayInspectLength | src/eval/runtime.js:80-82 | an array's text is two brackets, each element's text, and one `,` between neighbours |
| Runtime.NullElements | src/eval/runtime.js:80-127 | `[null]` shows like `[]`, while a hash writes a null value as `null` |
| Runtime.ErrorInspect | src/eval/runtime.js:95-97 | an error shows `ERROR: ` and its message, so two errors show alike exactly when their messages agree |
| Runtime.FunctionInspect | src/eval/runtime.js:154-156 | a function shows as `fn`, its parameter list and its body, as the parser renders them |
| Environments.FirstBinding | src/eval/closure.js:14-23 | what the search finds is some scope's binding of the name |
| Environments.Environment.Lookup | src/eval/closure.js:14-23 | a name in this store gives its binding; any other binding found comes from the outer scope's look-up |
| ScopeLookupAsWritten.StoreGet | src/eval/environment.js:11-13 | indexing a plain-object store gives its own binding exactly when it has one, and otherwise an inherited member only for an inherited name |
| ScopeLookupAsWritten.AgreesAwayFromInherited | src/eval/closure.js:14-23 | for a name no plain object inherits, the look-up as written finds exactly what the intended look-up finds |
| ScopeLookupAsWritten.InheritedNamesStopAtOnce | src/eval/closure.js:14-23 | for an inherited name, the look-up as written stops at the first scope: its own binding, or else the host member |
| ScopeLookupAsWritten.OuterBindingHidden | src/eval/closure.js:14-23 | a Closure over an Environment that binds `toString` finds that binding in the intended look-up and the host's `toString` as written |
| Environments.FirstBindingFinds | src/eval/closure.js:14-23 | the first-binding search finds `v` exactly when some scope binds the name to `v` and no nearer scope binds it |
| Environments.FirstBindingMisses | src/eval/closure.js:14-23 | the search finds nothing exactly when no scope binds the name |
| Environments.ShadowingOrder | src/eval/closure.js:14-23 | an inner binding shadows an outer one, and a name the inner scope lacks is found in the outer scope |
| Environments.Environment.LookupIsFirstBinding | src/eval/closure.js:14-23 | a look-up returns the first binding of the name along the chain of scopes |
| Environments.Environment.constructor | src/eval/environment.js:7-9 | a new environment has an empty store and no outer scope, so it binds nothing |
| Environments.Environment.Closure | src/eval/closure.js:9-12 | a new closure has an empty store in front of `outer`, and sees exactly what `outer` sees |
| Environments.Environment.Get | src/eval/closure.js:14-23 | `get` returns the binding in the store, else the outer scope's `get`; without an outer scope, the store's own binding |
| Environments.Environment.Set | src/eval/environment.js:15-17 | `set` binds the name in this store and returns the value; every other name looks up as before, and no outer scope changes |
| Evaluator.ObjInspect | src/eval/eval.js:7-9 | a String object gives its own text, and only the empty String object gives empty text |
| Evaluator.Bang | src/eval/eval.js:33-44 | `!` gives a boolean or Null, and Null exactly when applied to Null |
| Evaluator.Minus | src/eval/eval.js:46-52 | `-` gives a number exactly when applied to one, and NaN exactly for NaN |
| Evaluator.PrefixOutcome | src/eval/eval.js:22-31 | a prefix expression is never `undefined`, and produces an object exactly when its operand did and the operator is `!` or `-` |
| Evaluator.EvalExpr | src/eval/eval.js:54-77 | an expression is never `undefined`, and only a prefix expression can give the host `null` or throw |
| Evaluator.EvalStmt | src/eval/eval.js:54-77 | a statement is never `undefined`, and any statement but an expression statement gives the Null object |
| Evaluator.StatementsOutcome | src/eval/eval.js:12-20 | a statement list gives `undefined` exactly when it is empty |
| Evaluator.EvalExprOutcome | src/eval/eval.js:22-64 | an expression throws exactly when, along its chain of prefix operators, `!` or `-` is applied to the host `null` another prefix operator gives; otherwise it gives the host `null` exactly when its outer operator is neither `!` nor `-`, and an object in every other case; never `undefined` |
| Evaluator.EvalStatements | src/eval/eval.js:12-20 | the loop gives what `StatementsOutcome` specifies |
| Evaluator.EvalProgram | src/eval/eval.js:56-57 | a program gives what `StatementsOutcome` specifies for its statements |
| Evaluator.ProgramOutcome | src/eval/eval.js:12-20 | a program throws exactly when one of its statements throws; otherwise it gives its last statement's outcome, and `undefined` exactly when it is empty |
| Evaluator.DoubleBang | src/eval/eval.js:33-44 | `!` swaps `true` and `false`, keeps Null, and gives `false` for anything else; so `!!` keeps booleans and Null and gives `true` otherwise |
| Evaluator.DoubleMinus | src/eval/eval.js:46-52 | `-` negates a number and gives Null otherwise; applied twice it gives a number back |
| Evaluator.InspectFailsOnNull | src/eval/eval.js:7-9 | `inspect` throws on the Null object and nowhere else |
| Evaluator.LiteralsInspectAsWritten | src/eval/eval.js:69-73 | inspecting what a string or boolean literal evaluates to gives the literal's text |
| Evaluator.NumberLiteralRoundTrip | src/eval/eval.js:66-67 | the text of any non-negative number evaluates to that number, and inspecting it gives the text back |
| Evaluator.OtherPrefixThrows | src/eval/eval.js:22-31 | `+1` gives the host `null`, and `!+1` and `-+1` throw |
| Evaluator.DecimalExample | src/eval/eval.spec.js:20 | `1.234` evaluates to the number 1.234 |
| Evaluator.MinusExamples | src/eval/eval.spec.js:66-75 | `10` evaluates to 10, and `-10` to -10 |
| Evaluator.LiteralAndBangExamples | src/eval/eval.spec.js:26-64 | strings, `false` and `null` evaluate to themselves; `!2` gives `false`, `!!2` gives `true`, and `!!false` gives `false` |

## Left out

- The command-line front end (`index.js`, `src/eve.js`) and `src/eval/objects.js` are not part of this model. They do I/O or are not used by the core.
- `Static` values (`src/eval/runtime.js:159-169`) are left out. They wrap host functions.
- Runtime.FunctionValue does not keep the environment a function closes over. Nothing in the core reads it.
- Runtime.HashValue takes its entries already in the order `Object.keys` lists them. The host's ordering rule, integer-like keys first, is not modelled, and neither are duplicate keys.
- Numbers are exact decimals, not binary64. The model leaves out rounding, exponent notation in number text, and literals too long for a double.
- Numbers.ParseFloat handles the text scanned NUMBER tokens have: digits and points. It leaves out the host's signs, leading whitespace, exponents and `Infinity`.
- Numbers.NumberText writes `-0` as `0`, as the host does. The sign of zero is kept in the number itself.
- Environments.Environment.Get treats every bound value as present. Stored values are objects, and objects are truthy, so the `!obj` test in `get` only fails for missing names.
- Environments.Environment.Set: the store is a map of the names set, so the members every plain JavaScript object inherits (`toString`, `constructor`, …) are not bound. Module `ScopeLookupAsWritten` states the look-up as written (see "Findings").
- Grammar.ParameterLoop stops at EOF as well as at `)`. As written, the loop never ends on an input such as `fn(x` (see "Findings").
- Input text is a sequence of Unicode characters, not of UTF-16 code units. For a character outside the Basic Multilingual Plane, the source's positions count two units, and its `unrecognized token` message holds only the high surrogate. ScannerFacts.UnrecognizedFails names the whole character.
- The host TypeError's message is not modelled. The evaluator's `Threw` outcome and the `Err("TypeError")` of `Evaluator.ObjInspect` stand for it.
- The parser lemmas start from token streams, not source text. The scanner lemmas connect text to tokens one token at a time.

## Findings

| source | as written | input that shows it | evidently intended | confidence | as-written member | corrected member |
|---|---|---|---|---|---|---|
| src/scanner/scanner.js:175-180 | `Scanner.reservedWords[token]` looks the lexeme up in a plain object, whose inherited members (`constructor`, `toString`, `__proto__`, …) are truthy, so such a lexeme gets a host function or object as its token type | `let constructor = 1;`: the name is not an IDENTIFIER | only the nine reserved words are looked up; every other lexeme is an IDENTIFIER | high; not executed | ReservedWordLookup.ConstructorIsNotAnIdentifier | Scanning.IdentifierKind |
| src/eval/environment.js:11-13 | `get` indexes the plain-object store with the name, so an unbound inherited name such as `toString` gives a truthy host function. `Closure.get` (`src/eval/closure.js:14-23`) then never asks its outer scope for that name | a Closure over an Environment that binds `toString`: `get('toString')` gives the host's `toString`, not the outer binding | only the names a store binds are found, nearest scope first | high; not executed | ScopeLookupAsWritten.OuterBindingHidden | Environments.Environment.Lookup |
| src/parser/parser.js:323-331 | the loop runs until `tok` is `)`, and past the end of the input `nextToken` keeps giving EOF | `fn(x`: the loop never ends | stop at EOF, as a missing `)` after a group does, so that `parseBlockStatement` reports the error | high; not executed | ParameterListAsWritten.UnclosedParameters | Grammar.ParameterLoop |
