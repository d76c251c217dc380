# A verified model of a Lox tree-walking interpreter

This project models the core of a Rust tree-walking interpreter for the Lox
language. Each part of the pipeline is modelled here in the form the source
gives it:

- **Tokens and objects** (`tokens.dfy`). These are the token types, the
  runtime `Object` (number, string, boolean, nil) and their display forms.
- **The scanner** (`scanner.dfy`). A `Scanner` class walks the source with
  `start`/`current` cursors and a line counter. It appends tokens and records
  diagnostics, and scanning always goes on after an error. Two pure functions
  give the meaning: `ScanTokenStep` for one `scan_token` call and `Lex` for
  the whole pass. Every method is proved to compute them.
- **The parser** (`parser.dfy`, `parser_properties.dfy`). A `Parser` class
  does recursive descent with a cursor over a token list that ends in `Eof`.
  Every grammar rule is also a function from the cursor state to its result
  and the new state. Every method is proved to compute its rule. The rules
  have these properties:
  - they stay in bounds;
  - every declaration consumes a token;
  - error recovery goes through `synchronize`;
  - precedence and associativity behave as stated;
  - the parser's own test parses as expected.
- **The interpreter and its environment** (`environment.dfy`,
  `interpreter.dfy`). An `EnvironmentStack` class holds the stack of scopes
  (maps from names to objects). An `Interpreter` class executes statements
  against it, and the pure functions `Eval`, `Exec`, `Step` and `Run` give
  the meaning. Properties proved:
  - operand and error order;
  - what assignment yields;
  - shadowing and its undoing;
  - that a runtime error does not stop the run.
- **Glue** (`pipeline.dfy`). The token list the scanner produces always meets
  what the parser assumes of its input.

Smaller modules:

- `outcomes.dfy`: `Option`/`Result`.
- `text.dfy`: character classes, counting and decimal digits.
- `errors.dfy`: diagnostics and runtime errors.
- `expressions.dfy`: the expression tree and its parenthesised printer.
- `statements.dfy`: statements.

The error reporter's output is modelled as data, in three places:

- the scanner's `errors` field;
- the parser's `errors` field;
- the interpreter's list of runtime errors.

In each case "had an error" means that list is non-empty.

## Model

| member | source | states |
|---|---|---|
| Tokens.NewToken | src/tokens.rs:55-62 | the token carries exactly the given type, lexeme, literal and line |
| Tokens.ObjectText | src/tokens.rs:34-43 | strings print in double quotes, nil prints as `nil`, booleans as `true`/`false`; only strings start with a quote |
| Tokens.ObjectTextInjective | src/tokens.rs:34-43 | two objects with the same display are the same object |
| Tokens.TokenTypeName | src/tokens.rs:4-23 | the derived `Debug` name of each token kind is the variant's own name |
| Tokens.TokenText | src/tokens.rs:65-73 | a token displays as type name, lexeme, then its literal's display or `None` |
| Text.Decimal | src/tokens.rs:38 | a number's digits: non-empty, all decimal digits, at least two for values of ten or more |
| Text.DecimalRoundTrip | src/scanner.rs:52-54 | reading back the printed digits of n gives n |
| Text.DecimalInjective | src/tokens.rs:38 | different numbers print differently |
| Text.LeadingDigits | src/scanner.rs:52-54 | the longest prefix made of digits: all digits, followed by a non-digit or the end |
| Text.NumberText | src/tokens.rs:38 | a number prints as a non-empty text starting with a digit or a minus sign |
| Text.NumberTextInjective | src/tokens.rs:38 | different numbers print differently, negatives included |
| Text.OccurrencesAppend | src/scanner.rs:60-62 | counting a character in a concatenation adds the counts of the parts |
| Text.OccurrencesAbsent | src/scanner.rs:60-62 | a text without the character counts zero of it |
| Text.DigitChar | src/tokens.rs:38 | a digit value below ten maps to a decimal digit character |
| Errors.UndefinedVariable | src/environment.rs:44-47 | the error names the token and reads "Undefined variable '<name>'." |
| Expressions.SpaceSeparated | src/expressions.rs:41-44 | each printed part preceded by one blank, in order (properties in SpaceSeparatedSmall) |
| Expressions.Parenthesized | src/expressions.rs:38-47 | "(" then the name, the blank-separated parts and ")" (properties in ParenthesizedOne, ParenthesizedTwo, ParenthesizedBalanced) |
| Expressions.Print | src/expressions.rs:24-35 | each kind of node is printed as its parenthesized form, a literal as its display (properties in PrintShapes, PrintBalanced) |
| Expressions.PrintAll | src/expressions.rs:38-47 | prints every sub-expression in order, one text per expression |
| Expressions.Parenthesize | src/expressions.rs:38-47 | the loop builds "(name" then " part" per expression then ")" |
| Expressions.ParenthesizeStep | src/expressions.rs:42-44 | appending " " and one more printed part extends the text by exactly that part |
| Expressions.SpaceSeparatedSmall | src/expressions.rs:38-47 | one part gives " a", two parts give " a b" |
| Expressions.ParenthesizedOne | src/expressions.rs:38-47 | with one part the text is "(name part)" |
| Expressions.ParenthesizedTwo | src/expressions.rs:38-47 | with two parts the text is "(name left right)" |
| Expressions.PrintShapes | src/expressions.rs:24-35 | binary prints "(op left right)", unary "(op right)", grouping "(group inner)" |
| Expressions.ParenthesizedBalanced | src/expressions.rs:38-47 | parenthesizing balanced parts gives a balanced text |
| Expressions.PrintBalanced | src/expressions.rs:24-47 | a printed tree without parentheses in its lexemes or strings has as many "(" as ")" |
| Expressions.PrintSimpleExpr | src/expressions.rs:53-65 | `1 + 2` prints as "(+ 1 2)" |
| Expressions.PrintNestedExpr | src/expressions.rs:67-84 | `-a * (b)` prints as "(* (- a) (group b))" |
| Environments.Innermost | src/environment.rs:36-48 | finds the innermost scope binding a name; none exactly when no scope binds it |
| Environments.InnermostAt | src/environment.rs:36-48 | a scope that binds the name with no inner scope binding it is the one the search finds |
| Environments.Defined | src/environment.rs:31-34 | define adds the name to the innermost scope and leaves the stack height unchanged |
| Environments.Assigned | src/environment.rs:57-70 | assign keeps the stack height and every scope's set of names |
| Environments.LookupAfterDefine | src/environment.rs:31-48 | after define, get finds the new value, and any other name is unaffected |
| Environments.LookupAfterAssign | src/environment.rs:57-70 | after assigning a bound name, get finds the new value, and any other name is unaffected |
| Environments.ShadowingUndoneByPop | src/environment.rs:21-34 | a definition in a pushed scope shadows the outer one until that scope is popped |
| Environments.EnvironmentStack.constructor | src/environment.rs:11-15 | starts with one empty global scope |
| Environments.EnvironmentStack.PushEnvironment | src/environment.rs:21-23 | appends an empty innermost scope |
| Environments.EnvironmentStack.PopEnvironment | src/environment.rs:25-29 | removes the innermost scope, but never the global one |
| Environments.EnvironmentStack.Define | src/environment.rs:31-34 | binds in the innermost scope only |
| Environments.EnvironmentStack.DefineGlobal | src/environment.rs:50-55 | binds in the global scope and changes no other scope |
| Environments.EnvironmentStack.Get | src/environment.rs:36-48 | the innermost binding's value, or the undefined-variable error |
| Environments.EnvironmentStack.Assign | src/environment.rs:57-70 | succeeds exactly when some scope binds the name and updates the innermost one; otherwise reports undefined and changes nothing |
| Environments.ShadowingScenario | src/environment.rs:21-48 | inside a pushed scope the inner value is seen; after popping it, the outer value is seen again |
| Scanning.PeekAt | src/scanner.rs:185-191 | the character at a position, or `\0` at or past the end |
| Scanning.PeekNextAt | src/scanner.rs:193-199 | the character after a position, or `\0` when that is past the end |
| Scanning.SingleCharToken | src/scanner.rs:106-115 | the ten characters that are a token on their own, each with its kind; none for any other character |
| Scanning.EqualsPair | src/scanner.rs:116-143 | `!`, `=`, `<`, `>` each with their one-character kind and their kind when `=` follows; none for any other character |
| Scanning.Emit | src/scanner.rs:215-219 | appends a token whose lexeme is the consumed text and whose line is the current line (properties in EmitAdvances) |
| Scanning.DigitsEnd | src/scanner.rs:40-42 | the end of the run of digits at a position |
| Scanning.AlphaNumericEnd | src/scanner.rs:77-79 | the end of the run of letters and digits at a position |
| Scanning.FindChar | src/scanner.rs:59-64 | the first occurrence of a character from a position, or the end of the source |
| Scanning.FindCharAt | src/scanner.rs:59-64 | the search stops exactly at the first occurrence, or at the end when there is none |
| Scanning.NumberEnd | src/scanner.rs:39-50 | a number lexeme spans only digits and dots |
| Scanning.KeywordType | src/scanner.rs:80-99 | a reserved word maps to its keyword type, any other word to Identifier; never a number, string or Eof |
| Scanning.ClosedString | src/scanner.rs:58-74 | a closed string literal resumes after the closing quote |
| Scanning.UnclosedString | src/scanner.rs:65-68 | an unterminated string consumes the rest of the source |
| Scanning.StringStep | src/scanner.rs:58-74 | scanning a string makes progress and stays within the source |
| Scanning.NumberStep | src/scanner.rs:39-56 | scanning a number makes progress and stays within the source |
| Scanning.IdentifierStep | src/scanner.rs:76-101 | scanning a word makes progress and stays within the source |
| Scanning.SymbolStep | src/scanner.rs:106-115 | a one-character token consumes exactly one character |
| Scanning.OperatorStep | src/scanner.rs:116-143 | `!`, `=`, `<` and `>`, with or without a following `=`, make progress |
| Scanning.SlashStep | src/scanner.rs:144-152 | a slash or a comment makes progress |
| Scanning.ScanTokenStep | src/scanner.rs:103-167 | every scan_token call makes progress and stays within the source |
| Scanning.NewlinesSplit | src/scanner.rs:154 | newline counts add up over adjacent ranges |
| Scanning.NewlinesExtend | src/scanner.rs:154 | one more character adds one line exactly when it is a newline |
| Scanning.NoNewlines | src/scanner.rs:154 | a range without newlines adds no lines |
| Scanning.NewlinesAreOccurrences | src/scanner.rs:60-62 | the lines counted over a range are the newline characters in it |
| Scanning.StringStepLine | src/scanner.rs:58-62 | the opening and closing quotes add no lines |
| Scanning.EmitAdvances | src/scanner.rs:215-219 | an emitted token spans the consumed characters, carries the current line and its literal, and is never Eof |
| Scanning.StringStepAdvances | src/scanner.rs:58-74 | a string step consumes characters, counts its newlines and emits at most one String token with its value |
| Scanning.SymbolStepAdvances | src/scanner.rs:106-115 | a one-character step emits one token spanning that character |
| Scanning.OperatorStepAdvances | src/scanner.rs:116-143 | an operator step emits one token spanning the operator |
| Scanning.SlashStepAdvances | src/scanner.rs:144-152 | a slash step emits a Slash token or nothing, and counts no line |
| Scanning.NumberStepAdvances | src/scanner.rs:39-56 | a number step emits one Number token with its value |
| Scanning.IdentifierStepAdvances | src/scanner.rs:76-101 | a word step emits one keyword or Identifier token |
| Scanning.ScanTokenStepAdvances | src/scanner.rs:103-167 | every step makes progress and counts its newlines. It only appends, at most one token or one diagnostic, and never Eof |
| Scanning.ScanFrom | src/scanner.rs:29-32 | the scan_tokens loop: scan_token steps until the end of the source (properties in ScanFromStep, ScanFromDone, ScanFromFacts) |
| Scanning.Lex | src/scanner.rs:28-37 | the loop from the start of the source on line 1, then one Eof token (properties in LexEndsWithEof) |
| Scanning.ScanFromFacts | src/scanner.rs:28-37 | the loop reaches the end and counts every newline. It only appends, emits no Eof, and every number or string token carries its value |
| Scanning.LexEndsWithEof | src/scanner.rs:28-37 | the token list ends with exactly one Eof, on line 1 + the number of newlines, and every number or string token carries its value |
| Scanning.NumberValueOfDigits | src/scanner.rs:52-54 | an all-digit lexeme's value is the number its digits denote |
| Scanning.DigitsEndAt | src/scanner.rs:40-42 | the digit run ends exactly at the first non-digit |
| Scanning.ScanFromStep | src/scanner.rs:29-32 | while source is left, the loop takes one scan_token step |
| Scanning.ScanFromDone | src/scanner.rs:29-32 | at the end of the source the loop stops |
| Scanning.ScanFromLast | src/scanner.rs:29-32 | a step that consumes the rest of the source is the loop's last, and its state is the result |
| Scanning.LastSymbolScan | src/scanner.rs:106-115 | a one-character token at the end of the source is the last token the loop emits |
| Scanning.LastDotScan | src/scanner.rs:111 | a `.` at the end of the source is scanned as the last token |
| Scanning.WholeNumberStep | src/scanner.rs:39-56 | digits not followed by a dot and a digit become one Number token with their value |
| Scanning.SymbolScan | src/scanner.rs:106-115 | a one-character token character takes the symbol branch |
| Scanning.QuoteStep | src/scanner.rs:155 | a quote takes the string branch |
| Scanning.FindCharAfterPrefix | src/scanner.rs:59-64 | a text without the character is scanned to its end |
| Scanning.UnclosedStringStep | src/scanner.rs:65-68 | with no closing quote, the string branch reports the unterminated string |
| Scanning.ClosedStringStep | src/scanner.rs:69-73 | with a closing quote, the string branch emits the text between the quotes |
| Scanning.ClosedStringScanStep | src/scanner.rs:155 | a quote whose string closes makes scan_token emit the closed string, on the line of the closing quote |
| Scanning.ClosedStringLines | src/scanner.rs:60-62 | the newlines counted inside a closed literal are all the newlines of the literal |
| Scanning.ClosedStringFirstStep | src/scanner.rs:155 | the first step over a source that is one closed string takes the closed-string branch |
| Scanning.ClosedStringWhole | src/scanner.rs:69-73 | the token of a literal that is the whole source keeps the quotes in its lexeme and drops them from its value |
| Scanning.ScanNumberRoundTrip | src/scanner.rs:39-56 | scanning the printed digits of n gives one Number token whose value is n, then Eof |
| Scanning.TrailingDotNumberStep | src/scanner.rs:45-50 | a dot not followed by a digit is not part of the number |
| Scanning.DigitsThenDot | src/scanner.rs:45-50 | appending a `.` to a run of digits keeps the digits in front of it |
| Scanning.DotSymbolStep | src/scanner.rs:111 | a `.` after one token appends a Dot token whose lexeme is "." |
| Scanning.TrailingDotRest | src/scanner.rs:111 | a `.` that ends the source becomes a Dot token after the tokens before it, and scanning stops |
| Scanning.TrailingDotIsSeparate | src/scanner.rs:45-50 | `123.` scans as a Number and a Dot |
| Scanning.TwoCharacterOperators | src/scanner.rs:116-143 | `!=`, `==`, `<=`, `>=` are one token each; alone, `!`, `=`, `<`, `>` are single tokens |
| Scanning.BangEqualFirstNumber | src/scanner.rs:243-252 | the first steps of `1 != 2;` give the Number 1 and skip the blank |
| Scanning.BangEqualOperator | src/scanner.rs:243-252 | the middle steps give the `!=` token and skip the blank |
| Scanning.BangEqualSecondNumber | src/scanner.rs:243-252 | the last steps give the Number 2 and the semicolon |
| Scanning.BangEqualExample | src/scanner.rs:243-252 | `1 != 2;` scans to Number, BangEqual, Number, Semicolon |
| Scanning.CommentsAreSkipped | src/scanner.rs:144-152 | a line comment yields only Eof; a lone slash is a Slash token |
| Scanning.ClosedStringTokenStep | src/scanner.rs:58-74 | a source whose first closing quote is its last character is one String token holding the text between the quotes, on the line of its closing quote |
| Scanning.StringLiteralScan | src/scanner.rs:58-74 | scanning a closed string literal gives that token then Eof, with no diagnostic |
| Scanning.HelloStringLiteral | src/scanner.rs:58-74 | `"hello"` on its own scans to one String token whose literal is hello |
| Scanning.PrintHelloWord | src/scanner.rs:227-240 | the first word of `print "hello";` is the keyword `print`, ending at position 5 |
| Scanning.PrintHelloKeywordStep | src/scanner.rs:227-240 | the first scan_token step over `print "hello";` emits the Print token |
| Scanning.PrintHelloKeyword | src/scanner.rs:227-240 | after the keyword, the blank is skipped and the scan resumes at the quote |
| Scanning.PrintHelloString | src/scanner.rs:227-240 | the quoted part becomes a String token with literal hello |
| Scanning.PrintHelloSemicolon | src/scanner.rs:227-240 | the closing `;` is the last token before the end of the source |
| Scanning.PrintHelloExample | src/scanner.rs:227-240 | `print "hello";` scans to Print, String(hello), Semicolon, Eof and reports nothing |
| Scanning.UnclosedStringTokenStep | src/scanner.rs:65-68 | a source that opens a string and never closes it reports "Unterminated string." on the last line and emits no token |
| Scanning.UnterminatedString | src/scanner.rs:65-68 | the whole scan of an unterminated string gives only Eof and that one diagnostic |
| Scanning.UnexpectedCharacterContinues | src/scanner.rs:156-164 | an unexpected character is reported and the scan goes on to the number after it |
| Scanning.AlphaNumericEndAt | src/scanner.rs:77-79 | the word ends exactly at the first character that is neither letter nor digit |
| Scanning.IdentifierScan | src/scanner.rs:156-160 | a letter takes the identifier branch |
| Scanning.WordTokenStep | src/scanner.rs:76-101 | a whole word is one token of its keyword type |
| Scanning.WordScan | src/scanner.rs:76-101 | scanning a word leaves exactly that one token |
| Scanning.MaximalMunch | src/scanner.rs:76-101 | `or` is the keyword Or, while `orchid` is one Identifier |
| Scanning.Scanner.constructor | src/scanner.rs:17-26 | cursors at 0, line 1, no tokens, no errors |
| Scanning.Scanner.ScanTokens | src/scanner.rs:28-37 | a fresh scanner returns exactly Lex of its source |
| Scanning.Scanner.IsAtEnd | src/scanner.rs:201-203 | the cursor has reached or passed the end of the source |
| Scanning.Scanner.Peek | src/scanner.rs:185-191 | the character under the cursor, by PeekAt |
| Scanning.Scanner.PeekNext | src/scanner.rs:193-199 | the character after the cursor, by PeekNextAt |
| Scanning.Scanner.Advance | src/scanner.rs:205-209 | returns the current character and moves past it |
| Scanning.Scanner.MatchToken | src/scanner.rs:169-176 | consumes the expected character exactly when it is next |
| Scanning.Scanner.AddToken | src/scanner.rs:211-213 | appends a token spanning start to current, with no literal |
| Scanning.Scanner.AddLiteralToken | src/scanner.rs:215-219 | appends a token spanning start to current, with the literal |
| Scanning.Scanner.ScanToken | src/scanner.rs:103-167 | one call computes ScanTokenStep |
| Scanning.Scanner.SkipComment | src/scanner.rs:146-148 | stops at the next newline or the end |
| Scanning.Scanner.SkipStringBody | src/scanner.rs:59-64 | stops at the next quote or the end, counting newlines |
| Scanning.Scanner.String | src/scanner.rs:58-74 | computes StringStep |
| Scanning.Scanner.CloseString | src/scanner.rs:69-73 | consumes the closing quote and appends the String token, computing ClosedString |
| Scanning.Scanner.SkipDigits | src/scanner.rs:40-42 | stops at the first non-digit |
| Scanning.Scanner.SkipNumber | src/scanner.rs:40-50 | stops where NumberEnd says: after the digits, and after the fraction only when a digit follows the dot |
| Scanning.Scanner.Number | src/scanner.rs:39-56 | computes NumberStep |
| Scanning.Scanner.Identifier | src/scanner.rs:76-101 | computes IdentifierStep |
| Parsing.CheckAt | src/parser.rs:212-217 | the token at a position has the given type and is not Eof |
| Parsing.Matches | src/parser.rs:202-210 | the token at a position is not Eof and has one of the given types |
| Parsing.AdvancePos | src/parser.rs:219-224 | the cursor moves by one unless it is on Eof, and stays in bounds |
| Parsing.Report | src/parser.rs:188-191 | error records one diagnostic at the token and does not move the cursor |
| Parsing.ConsumeAt | src/parser.rs:193-200 | succeeds exactly when the expected type is next, and then moves past it; otherwise reports the message at the current token |
| Parsing.ParseAssignment | src/parser.rs:92-105 | stays in bounds, only appends diagnostics, and consumes a token when it succeeds |
| Parsing.ParseAssignmentTail | src/parser.rs:94-104 | without `=` the parsed left side is the result and nothing moves |
| Parsing.ParseOperand | src/parser.rs:107-151 | the operand of a level is the next tighter level, or unary below factor |
| Parsing.ParseBinary | src/parser.rs:107-151 | each level stays in bounds and consumes a token when it succeeds |
| Parsing.ParseFold | src/parser.rs:109-115 | the loop stops, with the left side as the result, when no operator of the level is next |
| Parsing.ParseUnary | src/parser.rs:153-160 | stays in bounds and consumes a token when it succeeds |
| Parsing.ParsePrimary | src/parser.rs:162-186 | stays in bounds and consumes a token when it succeeds |
| Parsing.ParseAtom | src/parser.rs:163-178 | literal and variable cases consume their token |
| Parsing.ParseGroup | src/parser.rs:179-183 | a group consumes its parentheses |
| Parsing.ParseVarDeclaration | src/parser.rs:62-78 | stays in bounds and consumes a token when it succeeds |
| Parsing.ParseVarRest | src/parser.rs:63-77 | a success is a Var statement for the consumed name |
| Parsing.ParseInitializer | src/parser.rs:67-71 | without `=` there is no initializer and nothing moves |
| Parsing.ParsePrintStatement | src/parser.rs:80-84 | stays in bounds and consumes a token when it succeeds |
| Parsing.ParseExpressionStatement | src/parser.rs:86-90 | stays in bounds and consumes a token when it succeeds |
| Parsing.ParseStatement | src/parser.rs:54-60 | stays in bounds and consumes a token when it succeeds |
| Parsing.SkipToBoundary | src/parser.rs:241-259 | stops at the first statement boundary: after a `;`, before a statement keyword, or at Eof |
| Parsing.Synchronized | src/parser.rs:238-260 | synchronize moves forward, and strictly so when not at Eof |
| Parsing.ParseDeclaration | src/parser.rs:38-52 | every declaration consumes at least one token. It only appends diagnostics, and a failed one has reported at least one |
| Parsing.ParseDeclarationAttempt | src/parser.rs:39-43 | stays in bounds and consumes a token when it succeeds |
| Parsing.Recovered | src/parser.rs:45-51 | a success is kept; a failure yields nothing and resynchronizes |
| Parsing.ParseTokens | src/parser.rs:24-32 | `parse` on a fresh parser: the loop from position 0 with no statements and no diagnostics (properties in ParseFrom, ParseFromStep) |
| Parsing.ParseFrom | src/parser.rs:24-32 | the loop only appends statements and diagnostics |
| Parsing.ParseFromStep | src/parser.rs:24-32 | each turn parses one declaration and keeps its statement when there is one |
| Parsing.Parser.constructor | src/parser.rs:16-22 | the cursor starts at 0 with no diagnostics |
| Parsing.Parser.Parse | src/parser.rs:24-32 | returns what ParseFrom computes |
| Parsing.Parser.Expression | src/parser.rs:34-36 | computes ParseAssignment |
| Parsing.Parser.Declaration | src/parser.rs:38-52 | computes ParseDeclaration |
| Parsing.Parser.DeclarationAttempt | src/parser.rs:39-43 | computes ParseDeclarationAttempt |
| Parsing.Parser.Statement | src/parser.rs:54-60 | computes ParseStatement |
| Parsing.Parser.VarDeclaration | src/parser.rs:62-78 | computes ParseVarDeclaration |
| Parsing.Parser.VarRest | src/parser.rs:63-77 | computes ParseVarRest |
| Parsing.Parser.Initializer | src/parser.rs:67-71 | computes ParseInitializer |
| Parsing.Parser.PrintStatement | src/parser.rs:80-84 | computes ParsePrintStatement |
| Parsing.Parser.ExpressionStatement | src/parser.rs:86-90 | computes ParseExpressionStatement |
| Parsing.Parser.Assignment | src/parser.rs:92-105 | computes ParseAssignment |
| Parsing.Parser.AssignmentTail | src/parser.rs:94-104 | computes ParseAssignmentTail |
| Parsing.Parser.Binary | src/parser.rs:107-151 | computes ParseBinary at every level |
| Parsing.Parser.Operand | src/parser.rs:107-151 | computes ParseOperand |
| Parsing.Parser.Unary | src/parser.rs:153-160 | computes ParseUnary |
| Parsing.Parser.Primary | src/parser.rs:162-186 | computes ParsePrimary |
| Parsing.Parser.Atom | src/parser.rs:163-178 | computes ParseAtom |
| Parsing.Parser.Group | src/parser.rs:179-183 | computes ParseGroup |
| Parsing.Parser.Error | src/parser.rs:188-191 | appends exactly one diagnostic at the token |
| Parsing.Parser.Consume | src/parser.rs:193-200 | computes ConsumeAt |
| Parsing.Parser.Check | src/parser.rs:212-217 | the current token has the given type and is not Eof, by CheckAt |
| Parsing.Parser.IsAtEnd | src/parser.rs:226-228 | the current token is Eof |
| Parsing.Parser.Peek | src/parser.rs:230-232 | the token under the cursor |
| Parsing.Parser.Previous | src/parser.rs:234-236 | the token just before the cursor |
| Parsing.Parser.MatchToken | src/parser.rs:202-210 | returns whether one of the types is next, not at Eof, and moves past it exactly then |
| Parsing.Parser.Advance | src/parser.rs:219-224 | moves as AdvancePos does and returns the token it moved past |
| Parsing.Parser.Synchronize | src/parser.rs:238-260 | moves the cursor where Synchronized says |
| ParserProperties.Precedence | src/parser.rs:107-151 | the binding level of a token type is between 1 and 5 |
| ParserProperties.OperatorsByPrecedence | src/parser.rs:107-151 | a level's operators are exactly the token types of that precedence |
| ParserProperties.PrimaryAtom | src/parser.rs:163-178 | a literal or identifier token parses to its literal or Variable and consumes one token |
| ParserProperties.BinaryMissingExpression | src/parser.rs:185 | at every binary level, a token that starts no expression reports "Expect expression." there |
| ParserProperties.MissingExpression | src/parser.rs:185 | an expression cannot start at such a token, Eof included, and the error is reported at it |
| ParserProperties.OperandPrimary | src/parser.rs:153-160 | an operand not starting with `!` or `-` is a primary |
| ParserProperties.OperandAtom | src/parser.rs:107-160 | an atom operand at any level is the atom alone |
| ParserProperties.BinaryAtom | src/parser.rs:107-151 | an atom followed by no operator of its level or tighter is the atom alone |
| ParserProperties.LiftLevel | src/parser.rs:107-151 | a level parses like a tighter one when none of the operators in between occurs |
| ParserProperties.BinaryPair | src/parser.rs:107-151 | `atom op right` within a level is one Binary node |
| ParserProperties.FoldOperatorAtom | src/parser.rs:109-115 | one turn of a level's loop folds the operator and atom into the left side |
| ParserProperties.LeftAssociative | src/parser.rs:107-151 | `a op b op c` within one level is `(a op b) op c` |
| ParserProperties.TighterOnRight | src/parser.rs:107-151 | `a op b tighter c` is `a op (b tighter c)` |
| ParserProperties.TighterOnLeft | src/parser.rs:107-151 | `a tighter b op c` is `(a tighter b) op c` |
| ParserProperties.TighterPairOperand | src/parser.rs:107-151 | the tighter pair `a tighter b` is the left operand of the looser level |
| ParserProperties.AssignmentOfEquality | src/parser.rs:92-105 | an equality not followed by `=` is the whole assignment expression |
| ParserProperties.AssignmentAfterEquals | src/parser.rs:92-105 | for any left side followed by `=`: the right side is parsed as an assignment; a variable target gives an Assignment, any other target is returned with "Invalid assignment target" reported at the `=`; an error on the right side is passed on |
| ParserProperties.PairAsEquality | src/parser.rs:107-151 | `a op b` with one binary operator, followed by a non-operator, parses at the top level as that one binary expression |
| ParserProperties.CompoundAssignmentTarget | src/parser.rs:98-101 | `a op b = c` reports "Invalid assignment target" at the `=` and yields `a op b`, leaving `c` unconsumed |
| ParserProperties.AssignmentTarget | src/parser.rs:92-105 | `name = value` becomes an Assignment; any other atom target reports "Invalid assignment target" at the `=` and still yields the target (the general case is AssignmentAfterEquals) |
| ParserProperties.RightAssociative | src/parser.rs:92-105 | `a = b = c` is `a = (b = c)` |
| ParserProperties.InvalidAssignmentTarget | src/parser.rs:100-102 | `1 = x` reports at `=` and yields `1` |
| ParserProperties.VarWithoutInitializer | src/parser.rs:62-78 | `var x;` declares x with no initializer |
| ParserProperties.VarMissingSemicolon | src/parser.rs:71-77 | a missing `;` after `var x` is reported at the offending token, the declaration is dropped and parsing resumes at the synchronize point |
| ParserProperties.GroupPrimary | src/parser.rs:179-183 | `( expression )` is a Grouping of the inner expression |
| ParserProperties.SingleExpressionStatement | src/parser.rs:24-32 | a program of one expression and `;` is one expression statement with no diagnostic |
| ParserProperties.SumOfGroupedProduct | src/parser.rs:268-309 | `a + (b * c)` parses to `+` over a grouped `*` |
| ParserProperties.GroupedProductPrimary | src/parser.rs:268-309 | `(b * c)` is a Grouping of the product, ending after the `)` |
| ParserProperties.GroupedProductParses | src/parser.rs:268-309 | the parser test's tokens are well formed and parse to the tree the test expects, with no error |
| Pipeline.ScannedTokensAreParseable | src/scanner.rs:28-37 | whatever the source, its tokens end in Eof and carry the literal values the parser needs |
| Interpreting.IsTruthy | src/interpreter.rs:214-220 | nil and false are falsey, everything else truthy |
| Interpreting.IsEqual | src/interpreter.rs:222-230 | equal exactly when the two objects are the same |
| Interpreting.CheckNumberOperand | src/interpreter.rs:185-197 | accepts exactly a number, otherwise "Operand must be a number" at the operator |
| Interpreting.CheckNumberOperands | src/interpreter.rs:199-212 | accepts exactly two numbers, otherwise "Operands must be two numbers" at the operator |
| Interpreting.UnaryOp | src/interpreter.rs:161-178 | `-` negates numbers and rejects the rest; `!` negates truthiness; any other operator is invalid |
| Interpreting.Quotient | src/interpreter.rs:107-110 | the quotient of two numbers; a zero divisor gives 0 (see Left out) |
| Interpreting.BinaryOp | src/interpreter.rs:102-147 | arithmetic and comparison need numbers. `+` adds numbers or concatenates strings. `==` and `!=` compare any objects; anything else is unhandled |
| Interpreting.Eval | src/interpreter.rs:70-183 | evaluation keeps the number of scopes and every scope's set of names |
| Interpreting.EvalWithoutAssignmentKeepsScopes | src/interpreter.rs:70-183 | an expression without assignment leaves the scopes unchanged |
| Interpreting.BinaryEvaluationOrder | src/interpreter.rs:94-101 | the left operand is evaluated first and its error wins; the right one runs in the scopes the left one left |
| Interpreting.EqualityNeverFails | src/interpreter.rs:141-142 | `==` and `!=` fail only when an operand fails |
| Interpreting.AssignmentYieldsValue | src/interpreter.rs:83-91 | assignment yields the assigned value and stores it, or fails with undefined variable and changes nothing |
| Interpreting.AdditionAndEquality | src/interpreter.rs:238-266 | `1 + 2` is 3 and `1 == 1` is true |
| Interpreting.Exec | src/interpreter.rs:33-68 | a statement keeps the number of scopes and prints at most one line |
| Interpreting.Step | src/interpreter.rs:25-31 | one statement reports at most one runtime error |
| Interpreting.Run | src/interpreter.rs:25-31 | running only appends output and errors, at most one error per statement |
| Interpreting.RunAppend | src/interpreter.rs:25-31 | running a concatenation is running one program after the other |
| Interpreting.RunContinuesAfterStatement | src/interpreter.rs:25-31 | a failing statement is reported and the rest of the program still runs |
| Interpreting.ErrorThenContinue | src/interpreter.rs:25-31 | after an undefined-variable error, later prints still happen |
| Interpreting.Interpreter.constructor | src/interpreter.rs:19-24 | one empty scope, no output, no errors |
| Interpreting.Interpreter.Interpret | src/interpreter.rs:25-31 | computes Run over the statements |
| Interpreting.Interpreter.Execute | src/interpreter.rs:33-40 | computes Exec |
| Interpreting.Interpreter.ExecuteExpressionStatement | src/interpreter.rs:43-46 | computes Exec of an expression statement |
| Interpreting.Interpreter.ExecutePrintStatement | src/interpreter.rs:49-53 | computes Exec of a print statement |
| Interpreting.Interpreter.ExecuteVarStatement | src/interpreter.rs:56-68 | computes Exec of a var statement; no initializer binds nil |
| Interpreting.Interpreter.Evaluate | src/interpreter.rs:70-80 | computes Eval |
| Interpreting.Interpreter.EvaluateAssignment | src/interpreter.rs:83-91 | computes Eval of an assignment |

## Left out

- **Numbers.**
  - `f64` is modelled as an unbounded integer. NaN, infinities and fractions are not modelled.
  - Dividing by zero yields 0 in the model, where the source produces an IEEE infinity or NaN.
  - A number lexeme's value keeps only its leading digits, so `1.5` has the value 1.
  - A number displays as an integer in decimal.
- **Printing.** `println!` becomes an appended line in the interpreter's `output` list.
- **The error reporter.**
  - src/error_reporter.rs is not part of this model.
  - Its messages become the `errors` lists of the scanner, the parser and the interpreter.
- **Not part of this model:** src/main.rs (reading files, the REPL, exit codes) and src/callable.rs (functions and the clock builtin).
- **Character classes.**
  - Letter and digit tests are ASCII only. Rust's `is_alphabetic` rejects `_`, so `_` is an unexpected character here as there.
  - The source indexes characters with `chars().nth` but measures the length in bytes. The model treats the source as a sequence of characters, so the two agree.
- **Line numbers.** The source keeps them as `u32`. They are modelled as `nat` without wrap-around.
- **The expression printer.** It has no case for `Variable` or `Assignment`. The model requires the printable subset (`Printable`).
- **Source versions.** The core files are taken at one consistent state:
  - statements with `Var`;
  - expressions with assignment;
  - an `EnvironmentStack` of scopes.
  `Expr` and `Stmt` are the union of what the parser builds and the interpreter matches on.
- **Logical operators, blocks and control flow.** The grammar has none of them: no `and`, `or`, `if`, `while`, `for`, functions or classes. Only their keywords are scanned.
- **Parsing.WellFormed.** The parser requires Number and String tokens to carry a literal, because the source unwraps it. `Pipeline.ScannedTokensAreParseable` proves that scanned input always does.
- **Parsing.Parser.Synchronize and Parsing.Parser.Advance.** They require that the cursor is not on an `Eof` at position 0. There the source's `previous()` would read before the first token. The parser never gets there, because `declaration` only runs when the cursor is not on `Eof`.
- **Parser levels.** The four binary levels (equality, comparison, term, factor) are one function and one method parameterised by level 1–4. The split-out helper methods (`DeclarationAttempt`, `VarRest`, `Initializer`, `AssignmentTail`, `Operand`, `Atom`, `Group`, `SkipComment`, `SkipStringBody`, `CloseString`, `SkipDigits`, `SkipNumber`) are pieces of the source's methods.
- ParserProperties.AssignmentTarget: stated for an atom target. The general rule for any left side is ParserProperties.AssignmentAfterEquals, and ParserProperties.CompoundAssignmentTarget works one compound target out in full.
- **ParserProperties.** The precedence and associativity lemmas are stated for atom operands. Deeper nesting follows by the same steps but is not proved in general.
