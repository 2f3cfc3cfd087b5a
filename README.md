# first_interpreter: lexer, parser and virtual machine

This project is a Dafny model of the front end and the machine of a small toy-language
interpreter. It has four parts:

- **The keyword table** (`Tokens`). An identifier token whose text is one of fourteen
  exact, case-sensitive spellings becomes a keyword token.
- **The lexer** (`Lexer`). It makes one forward scan over the source bytes. A cursor and a
  line counter move along, and tokens are appended to a vector.
  - `ScanToken` and `Tokenize` are pure reference definitions of one scanner call and of
    the whole loop.
  - The class `Lexer` keeps the cursor, the line counter and the token vector as fields.
    Each of its methods is proved to do exactly what the reference definition says.
  - `LexerRoundTrip` proves that the scanner reads printed tokens back as they were.
- **The parser** (`Ast`, `Parser`). Recursive descent over the token vector builds the
  program tree.
  - Each grammar rule has a reference function `XAt(toks, p)`. It returns the tree and the
    cursor after it, or `Fatal` where the source panics.
  - The class `Parser` keeps the token vector and the cursor. Each `ParseX` method is
    proved to return what `XAt` returns and to leave the cursor at its position.
  - `ParserProperties` proves how items are chosen, the shape of binary expressions and
    the comma-separated lists. `ParserExamples` works out whole parses.
- **The virtual machine** (`Vm`). A fetch-dispatch loop runs a fixed list of
  instructions. The machine has four 32-bit registers, a memory vector that is also the
  push/pop stack, a return-address stack and a label table.
  - `Transition` defines one turn of the loop, and `RunFor` a bounded number of turns.
  - The class `VM` keeps the state in fields; its `Step` and `Run` are proved to follow
    those functions.

In these places the code's behaviour looks unintended; the model follows the code as
written:

- **The cursor moves two bytes after `!`, `=`, `>`, `<`, and after a `/` that does not
  start a comment.** This happens whether or not a two-character operator was formed, so
  the byte after a one-character operator is skipped. `x=1` scans to `x =`
  (`LexerRoundTrip.GluedOperandDropped`). The round trip is therefore proved for
  space-separated printing.
- **The expression rule re-parses a binary from the token just before the operator.**
  This is the last token of the left operand, not its first. So `!a + b` loses the
  negation, and `(a) + b` is fatal. A call used as a left operand, as in `f(x) + 1`, is
  fatal for the same reason: the binary is re-parsed from the call's closing `)`
  (`ParserExamples.CallLeftOperandFatal`).
- **The block rule steps one token past its items without checking for `}`.** So a
  block with no closing brace is accepted.

A newline inside a string literal only draws a warning; it does not end the literal.

Where the source panics (an unterminated string, an integer literal out of the signed
64-bit range, a parse error, a missing label, a bad address, a pop from empty memory), the
model returns an explicit error value instead.

## Model

| member | source | states |
|---|---|---|
| Tokens.TryConvertToKeyword | src/token.rs:44-64 | non-identifiers are unchanged; an identifier becomes a keyword exactly when its text is one of the fourteen spellings, and otherwise comes back with the same text |
| Tokens.KeywordSpelling | src/token.rs:47-60 | each keyword token has a spelling in the table |
| Tokens.KeywordRoundTrip | src/token.rs:44-64 | converting a keyword's spelling gives that keyword back |
| Tokens.SpellingRoundTrip | src/token.rs:44-64 | a spelling in the table converts to a keyword whose spelling is that text |
| Tokens.ConvertIdempotent | src/token.rs:44-64 | converting twice is the same as converting once |
| Tokens.ConvertCaseSensitive | src/token.rs:46-61 | matching is exact and case-sensitive: `Var` and `variable` stay identifiers; `var` becomes a keyword |
| Lexer.CharacterClasses | src/lexer.rs:3-13 | the digits are exactly `0`-`9`; no character is both a letter and a digit; no punctuation, operator, quote, dot or white-space byte the scanner dispatches on is a letter or a digit |
| Lexer.PeekAtShape | src/lexer.rs:125-130 | the lookahead is NUL at or past the end, otherwise the byte at the cursor as a character |
| Lexer.Chars | src/lexer.rs:129 | each byte is cast to a character one by one, keeping the length |
| Lexer.RunEnd | src/lexer.rs:157-160 | the end of the longest run of bytes in a class: every byte before it is in the run, and the byte at it is not |
| Lexer.RunEndUnique | src/lexer.rs:157-160 | only one position has the run-end properties |
| Lexer.ParseI64 | src/lexer.rs:192-196 | reading a digit string fails exactly when its value exceeds the signed 64-bit maximum, and otherwise gives that value |
| Lexer.ScanString | src/lexer.rs:132-152 | fatal exactly when no closing quote follows; otherwise the token holds exactly the bytes up to the first quote, and the cursor ends just past it |
| Lexer.ScanIdentifier | src/lexer.rs:154-163 | an identifier holds the longest run of letters, digits and `_`, and the byte after it is not one of those |
| Lexer.ScanNumber | src/lexer.rs:165-197 | a number ends within the source at a non-digit; it is a float exactly when `.` follows the first digit run, and then holds its text; an integer ends at the first digit run; the only fault is an out-of-range value |
| Lexer.ScanNumberFloat | src/lexer.rs:169-190 | a digit run followed by `.` and a second digit run is a float whose text covers both runs |
| Lexer.ScanNumberInt | src/lexer.rs:169-196 | a digit run with no `.` after it is an integer when its value fits, and fatal otherwise |
| Lexer.ScanToken | src/lexer.rs:37-117 | one call moves the cursor forward, emits at most one token, counts a line only at a newline, and fails only at a quote or a digit |
| Lexer.ScanTokenNumber | src/lexer.rs:108-112 | at a digit, the scanner emits the number that starts there |
| Lexer.ScanTokenQuote | src/lexer.rs:67-72 | at a quote, the scanner emits the string literal that follows |
| Lexer.ScanTokenWord | src/lexer.rs:102-107 | at a letter or `_`, the scanner emits the identifier passed through the keyword table |
| Lexer.Tokenize | src/lexer.rs:119-123 | the whole scan only appends to the tokens already produced |
| Lexer.ScanSkipped | src/lexer.rs:41-116 | whitespace and unrecognised bytes emit nothing and move one byte; only a newline counts a line |
| Lexer.ScanSilentExactly | src/lexer.rs:37-117 | a call emits nothing exactly at a skipped byte or at the start of a comment |
| Lexer.ScanComment | src/lexer.rs:53-61 | `//` discards everything up to the next newline; the cursor ends one past that newline (or one past the end), and the line counter is not touched |
| Lexer.ScanLookahead | src/lexer.rs:53-116 | after `! = > < /` (not starting a comment) the cursor moves by two bytes, and the token depends on whether the next byte is `=` |
| Lexer.LookaheadToken | src/lexer.rs:73-100 | for `! = > <`, the two-character token is formed exactly when the next byte is `=` |
| Lexer.ScanIdentifierLongest | src/lexer.rs:154-163 | an identifier is the longest alphanumeric run from a letter or `_`, passed through the keyword table |
| Lexer.ScanNumberShape | src/lexer.rs:108-197 | the number is a float with its text when a `.` follows the digits, an integer with its value when that fits in 64 bits, and fatal otherwise |
| Lexer.ScanStringExact | src/lexer.rs:67-152 | the string holds exactly the bytes between the quotes, the cursor ends past the closing quote, the line counter is unchanged, and reaching the end first is fatal |
| Lexer.ScanEmittable | src/lexer.rs:37-117 | a call never emits EOF, a keyword spelling as an identifier, or a negative integer |
| Lexer.TokenizeEmittable | src/lexer.rs:119-123 | the same holds for a whole scan |
| Lexer.TokenizeLineBound | src/lexer.rs:119-123 | a whole scan counts at most one line per newline byte it passes, and never fewer than it started with |
| Lexer.NewlinesMonotone | src/lexer.rs:42 | fewer newlines lie after a later position |
| Lexer.Lexer.constructor | src/lexer.rs:24-31 | a new lexer has the source, no tokens, the cursor at 0 and the line at 0 |
| Lexer.Lexer.IsAtEnd | src/lexer.rs:33-35 | the end is reached once the cursor reaches the length of the source, past the last byte |
| Lexer.Lexer.Peek | src/lexer.rs:125-130 | the character under the field cursor is the reference lookahead `PeekAt` at that cursor |
| Lexer.Lexer.Lex | src/lexer.rs:119-123 | the state after the loop is what `Tokenize` gives; a fault is returned where the source panics |
| Lexer.Lexer.LexToken | src/lexer.rs:37-117 | one call updates the cursor, the line counter and the token vector exactly as `ScanToken` says |
| Lexer.Lexer.SkipComment | src/lexer.rs:58-60 | the comment loop stops at the next newline or at the end |
| Lexer.Lexer.LexString | src/lexer.rs:132-152 | gives the token and the cursor that `ScanString` gives, or its fault |
| Lexer.Lexer.LexIdentifier | src/lexer.rs:154-163 | gives the token and the cursor that `ScanIdentifier` gives |
| Lexer.Lexer.PushWhile | src/lexer.rs:157-183 | the push-while-in-class loop stops at the end of the run and appends exactly the bytes it passed |
| Lexer.Lexer.LexNumber | src/lexer.rs:165-197 | gives the token and the cursor that `ScanNumber` gives, or its fault |
| LexerRoundTrip.DecimalText | src/lexer.rs:192-196 | the decimal digits of a number read back as that number |
| LexerRoundTrip.ScanWord | src/lexer.rs:101-107 | an identifier or keyword spelling followed by a space scans as one word token ending at the space |
| LexerRoundTrip.DecimalRun | src/lexer.rs:169-172 | decimal digits followed by a space form a digit run that ends at the space and reads back as those digits |
| LexerRoundTrip.NumberOfDecimal | src/lexer.rs:165-197 | the decimal text of a non-negative 64-bit value followed by a space scans as that integer |
| LexerRoundTrip.ScanInt | src/lexer.rs:108-112 | the same, for one call of the scanner |
| LexerRoundTrip.NumberOfFloat | src/lexer.rs:169-190 | a float literal followed by a space scans as that literal |
| LexerRoundTrip.NumberOfDotAt | src/lexer.rs:169-190 | the same, for a literal whose dot is at a given position |
| LexerRoundTrip.DigitsDotDigitsRuns | src/lexer.rs:169-183 | where the two digit runs of a printed float end |
| LexerRoundTrip.DigitRun | src/lexer.rs:169-172 | a digit run followed by a non-digit ends there |
| LexerRoundTrip.ScanFloat | src/lexer.rs:108-112 | one call of the scanner reads a printed float literal |
| LexerRoundTrip.StringOfText | src/lexer.rs:132-152 | the string scanner reads a quote-free text up to the closing quote |
| LexerRoundTrip.ScanQuoted | src/lexer.rs:67-72 | a quoted quote-free text followed by a space scans as that string |
| LexerRoundTrip.LookaheadSpelling | src/lexer.rs:73-100 | for `! = > <` the token is the one spelled by the operator followed by `=` when the next byte is `=`, and by the operator alone otherwise; `/` not starting a comment gives the token spelled `/` |
| LexerRoundTrip.ScanLookaheadSingle | src/lexer.rs:73-116 | a one-character operator followed by a space is emitted, and the cursor moves past both |
| LexerRoundTrip.ScanSymbol | src/lexer.rs:43-100 | punctuation and two-character operators scan as themselves |
| LexerRoundTrip.ScanPrinted | src/lexer.rs:37-117 | every other printable token followed by a space scans as itself and stops at the space |
| LexerRoundTrip.ScanPrintedLookahead | src/lexer.rs:73-116 | a printed one-character operator: the scanner moves over it and the space after it |
| LexerRoundTrip.ScanPrintedSpaced | src/lexer.rs:37-117 | any other printed token: the scanner emits it and stops on the space after it |
| LexerRoundTrip.ScanKeyword | src/lexer.rs:101-107 | a keyword spelling followed by a space scans as that keyword |
| LexerRoundTrip.TokenizePrinted | src/lexer.rs:119-123 | text that holds each token's spelling and a space scans to exactly those tokens, with the line count unchanged |
| LexerRoundTrip.PrintPlacesTokens | src/lexer.rs:119-123 | the printed text of a token list has each spelling at its place |
| LexerRoundTrip.LexPrinted | src/lexer.rs:37-123 | printing printable tokens with a space after each and scanning the bytes gives the same tokens back, with the line count at zero |
| LexerRoundTrip.GluedOperandDropped | src/lexer.rs:80-116 | `x=1` scans to `x` and `=`; the `1` is skipped |
| Parser.ProgramAt | src/parser.rs:51-61 | a program parse ends at or past the last token |
| Parser.ItemsFrom | src/parser.rs:51-61 | the item loop (shared with the block's loop at lines 211-221) only appends, and it stops at the end or, inside a block, at `}` |
| Parser.ItemAt | src/parser.rs:63-79 | an item consumes at least one token |
| Parser.DeclarationAt | src/parser.rs:81-89 | a declaration consumes at least one token |
| Parser.DefinitionAt | src/parser.rs:91-135 | a `var` or `const` definition covers its keyword, its name, `=` and an expression |
| Parser.VarAt | src/parser.rs:91-112 | a `var` declaration consumes at least one token |
| Parser.ConstAt | src/parser.rs:114-135 | a `const` declaration consumes at least one token |
| Parser.ProcAt | src/parser.rs:137-156 | a procedure consumes at least one token (its shape: `ParserProperties.ProcShape`) |
| Parser.ProcArgsAt | src/parser.rs:158-183 | a parameter list covers `(` and at least one more token (its grammar: `ParserProperties.ProcArgsExactly`) |
| Parser.ProcArgsLoop | src/parser.rs:166-180 | the parameter loop only appends, and it ends right after a `)` |
| Parser.AssignmentAt | src/parser.rs:185-201 | an assignment covers a name, `=` and an expression (its shape: `ParserProperties.AssignmentShape`) |
| Parser.BlockAt | src/parser.rs:204-226 | a block consumes at least one token (its shape: `ParserProperties.BlockShape`) |
| Parser.ExpressionAt | src/parser.rs:228-238 | an expression never stops in front of a binary operator |
| Parser.BinaryAt | src/parser.rs:240-273 | a binary expression never stops in front of a binary operator |
| Parser.BinaryLoop | src/parser.rs:244-270 | the operator loop stops only where no operator follows |
| Parser.UnaryAt | src/parser.rs:275-288 | a unary consumes at least one token |
| Parser.CallAt | src/parser.rs:290-319 | a call consumes at least one token (its shape: `ParserProperties.CallShape`) |
| Parser.PrimaryAt | src/parser.rs:321-347 | a primary consumes at least one token (its shape: `ParserProperties.PrimaryShape`) |
| Parser.CallArgsAt | src/parser.rs:349-378 | an argument list covers `(` and at least one more token (its grammar: `ParserProperties.CallArgsExactly`) |
| Parser.CallArgsLoop | src/parser.rs:356-376 | the argument loop only appends, and it ends right after a `)` |
| Parser.Parser.constructor | src/parser.rs:12-18 | a new parser has the tokens, the cursor at 0 and an empty root |
| Parser.Parser.Advance | src/parser.rs:20-22 | the cursor moves forward by one |
| Parser.Parser.Retreat | src/parser.rs:24-26 | the cursor moves back by one; the source never retreats from 0 |
| Parser.Parser.Peek | src/parser.rs:37-39 | the current token, or EOF once the vector is exhausted |
| Parser.Parser.PeekN | src/parser.rs:28-35 | lookahead gives EOF at or past the end and the token there otherwise |
| Parser.Parser.NextToken | src/parser.rs:41-45 | gives the token under the cursor and moves past it |
| Parser.Parser.Parse | src/parser.rs:47-49 | succeeds exactly when the program parses, and then stores its tree in `root` |
| Parser.Parser.ParseProgram | src/parser.rs:51-61 | gives `ProgramAt` and leaves the cursor at its end |
| Parser.Parser.ParseItem | src/parser.rs:63-79 | gives `ItemAt` and leaves the cursor at its end |
| Parser.Parser.ParseDeclaration | src/parser.rs:81-89 | gives `DeclarationAt` and leaves the cursor at its end |
| Parser.Parser.ParseDefinition | src/parser.rs:91-135 | gives `DefinitionAt` and leaves the cursor at its end |
| Parser.Parser.ParseVar | src/parser.rs:91-112 | gives `VarAt` and leaves the cursor at its end |
| Parser.Parser.ParseConst | src/parser.rs:114-135 | gives `ConstAt` and leaves the cursor at its end |
| Parser.Parser.ParseProc | src/parser.rs:137-156 | gives `ProcAt` and leaves the cursor at its end |
| Parser.Parser.ParseProcArgs | src/parser.rs:158-183 | gives `ProcArgsAt` and leaves the cursor at its end |
| Parser.Parser.ParseAssignment | src/parser.rs:185-201 | gives `AssignmentAt` and leaves the cursor at its end |
| Parser.Parser.ParseBlock | src/parser.rs:204-226 | gives `BlockAt` and leaves the cursor at its end |
| Parser.Parser.ParseExpression | src/parser.rs:228-238 | gives `ExpressionAt` and leaves the cursor at its end |
| Parser.Parser.ParseBinary | src/parser.rs:240-273 | gives `BinaryAt` and leaves the cursor at its end |
| Parser.Parser.ParseUnary | src/parser.rs:275-288 | gives `UnaryAt` and leaves the cursor at its end |
| Parser.Parser.ParseCall | src/parser.rs:290-319 | gives `CallAt` and leaves the cursor at its end |
| Parser.Parser.ParsePrimary | src/parser.rs:321-347 | gives `PrimaryAt` and leaves the cursor at its end |
| Parser.Parser.ParseCallArgs | src/parser.rs:349-378 | gives `CallArgsAt` and leaves the cursor at its end |
| ParserProperties.ItemDispatch | src/parser.rs:63-79 | the kind of an item is fixed by its first one or two tokens, and any other first token is fatal |
| ParserProperties.ItemDelegates | src/parser.rs:63-79 | each kind of item succeeds exactly when its own rule succeeds from the same position |
| ParserProperties.ReturnAssignmentFatal | src/parser.rs:63-79 | `return =` goes to the assignment rule, which rejects it |
| ParserProperties.DefinitionShape | src/parser.rs:91-135 | a definition succeeds exactly when keyword, name and `=` are there and an expression follows, and it then holds that name and that expression |
| ParserProperties.ProgramConsumesAll | src/parser.rs:51-61 | a whole program parse ends at or past the last token |
| ParserProperties.UnaryShape | src/parser.rs:275-288 | `!` wraps the unary after it; anything else is a call |
| ParserProperties.BinaryShape | src/parser.rs:240-273 | every binary is one left unary, one operator and a whole expression on the right; the operator-after-a-finished-binary branch is never taken |
| ParserProperties.AssignmentShape | src/parser.rs:185-201 | an assignment succeeds exactly when a name and `=` are there and an expression follows; it then holds them and ends where the expression ends |
| ParserProperties.BlockShape | src/parser.rs:204-226 | a block succeeds exactly when `{` opens it and the items after it parse in block mode; it holds them and ends one past where they stopped, which is a `}` or past the end |
| ParserProperties.ProcShape | src/parser.rs:137-156 | a procedure succeeds exactly when `proc`, a name, a parameter list and a block follow one another; it holds the three and ends where the block ends |
| ParserProperties.CallShape | src/parser.rs:290-319 | a literal, `return` or `(` starts a primary; an identifier followed by `(` is a call with the argument list, any other identifier is bare; any other token is fatal |
| ParserProperties.PrimaryShape | src/parser.rs:321-347 | a literal stands for itself; `return` takes the expression after it; `(` succeeds exactly when an expression and then `)` follow, and is fatal otherwise; any other token is fatal |
| ParserProperties.ExpressionNotAtClose | src/parser.rs:321-347 | no expression starts with `)` |
| ParserProperties.ExpressionShape | src/parser.rs:228-238 | an expression followed by an operator is re-parsed as a binary from the token before the operator |
| ParserProperties.ProcArgsLoopLast | src/parser.rs:166-180 | the last parameter, with or without a trailing comma, ends the list |
| ParserProperties.ProcArgsLoopStep | src/parser.rs:166-180 | a `name ,` step appends the name and moves two tokens |
| ParserProperties.ProcArgsLoopReadsList | src/parser.rs:166-180 | the parameter loop reads a comma-separated list of names, trailing comma or not |
| ParserProperties.ProcArgsLoopReadsMany | src/parser.rs:166-180 | the same, for two or more names |
| ParserProperties.ProcArgsAccepted | src/parser.rs:158-183 | `( a, b, ... )` with or without a trailing comma gives exactly those names |
| ParserProperties.ProcArgsLoopReadsLastName | src/parser.rs:166-180 | the last name of a list the parameter grammar describes, with or without a trailing comma, ends the loop |
| ParserProperties.ProcArgsLoopReadsParameters | src/parser.rs:166-180 | the parameter loop reads every list of names separated by commas, with an optional trailing comma, then `)` |
| ParserProperties.ProcArgsLoopReadsMoreNames | src/parser.rs:166-180 | the same, for two or more names |
| ParserProperties.ProcArgsLoopFollowsGrammar | src/parser.rs:166-180 | every list the parameter loop accepts is such a list |
| ParserProperties.ProcArgsExactly | src/parser.rs:158-183 | a parameter list parses to given names and end exactly when `(` opens it and those names follow, separated by commas, with an optional trailing comma, then `)`; anything else, such as `(a b)`, is fatal |
| ParserProperties.ProcArgsMissingCommaFatal | src/parser.rs:174-179 | two names with no comma between them, as in `(a b)`, are rejected |
| ParserProperties.ProcArgsLeadingCommaFatal | src/parser.rs:166-172 | a comma with no name before it is rejected |
| ParserProperties.AtomParses | src/parser.rs:290-347 | a literal or identifier followed by `,` or `)` is a complete expression |
| ParserProperties.CallArgsLoopLast | src/parser.rs:356-376 | the last argument, with or without a trailing comma, ends the list |
| ParserProperties.CallArgsLoopStep | src/parser.rs:356-376 | an `x ,` step appends the argument and moves two tokens |
| ParserProperties.CallArgsLoopReadsList | src/parser.rs:356-376 | the argument loop reads a comma-separated list of literal or identifier arguments |
| ParserProperties.CallArgsLoopReadsMany | src/parser.rs:356-376 | the same, for two or more arguments |
| ParserProperties.CallArgsAccepted | src/parser.rs:349-378 | `( x, 1, ... )` with or without a trailing comma gives exactly those arguments |
| ParserProperties.CallArgsLoopStepAny | src/parser.rs:356-376 | an `e ,` step appends any parsed expression `e` and continues after the comma |
| ParserProperties.CallArgsLoopReadsLast | src/parser.rs:356-376 | the last argument of such a list, with or without a trailing comma, ends the loop |
| ParserProperties.CallArgsLoopReadsArguments | src/parser.rs:356-376 | the argument loop reads every list of expressions separated by commas, with an optional trailing comma, then `)` |
| ParserProperties.CallArgsLoopReadsMore | src/parser.rs:356-376 | the same, for two or more arguments |
| ParserProperties.CallArgsLoopFollowsGrammar | src/parser.rs:356-376 | every list the argument loop accepts is such a list |
| ParserProperties.CallArgsExactly | src/parser.rs:349-378 | an argument list parses to given arguments and end exactly when `(` opens it and those expressions follow, separated by commas, with an optional trailing comma, then `)` |
| ParserExamples.VarDeclarationExample | src/parser.rs:91-112 | `var x = 1` is one `var` declaration |
| ParserExamples.AssignmentItem | src/parser.rs:185-201 | `x = y` is an assignment |
| ParserExamples.ExpressionItems | src/parser.rs:51-79 | `x y` is two expression items |
| ParserExamples.ProcExampleParameters | src/parser.rs:158-183 | the parameter list `(a, b)` gives `a` and `b` |
| ParserExamples.ProcExampleBlock | src/parser.rs:204-226 | the block `{ return a }` holds one expression item |
| ParserExamples.ProcExample | src/parser.rs:137-156 | `proc f(a, b) { return a }` is one procedure with those parameters and that body |
| ParserExamples.UnclosedBlockAccepted | src/parser.rs:204-226 | `proc f() {` with no `}` is accepted with an empty body |
| ParserExamples.RightNestingExample | src/parser.rs:240-273 | `1 + 2 * 3` nests to the right |
| ParserExamples.NegatedLeftOperandDropped | src/parser.rs:228-238 | `!a + b` parses as `a + b` |
| ParserExamples.GroupingExample | src/parser.rs:333-343 | `(a)` is a grouping |
| ParserExamples.GroupedLeftOperandFatal | src/parser.rs:228-238 | `(a) + b` is fatal |
| ParserExamples.CallLeftOperandFatal | src/parser.rs:228-238 | `f(x) + 1` is fatal |
| ParserExamples.CallExample | src/parser.rs:290-378 | `f(x, 1)` is a call with two arguments |
| ParserExamples.RejectedItems | src/parser.rs:63-112 | an item that starts with a literal, and `var x 1`, are fatal |
| Vm.Get | src/vm.rs:240-247 | each register name selects its own word of the state |
| Vm.Execute | src/vm.rs:194-256 | an instruction halts exactly on `Ret` with an empty return stack; it faults exactly on a missing label, an address outside memory or a pop from empty memory, and says which fault; only control instructions move the pointer, only `Call` and `Ret` touch the return stack, and only `SW`, `Push` and `Pop` touch memory |
| Vm.Transition | src/vm.rs:176-257 | a turn with nothing to fetch halts in the same state; a turn that does not halt had an instruction to fetch; a halted turn leaves the state as it was, or with the pointer one instruction on, and then the pointer is past the instructions or the return stack is empty |
| Vm.RunFor | src/vm.rs:175-259 | no fuel leaves the machine running as it was; a halted run ends with the pointer past the instructions or with an empty return stack |
| Vm.Set | src/vm.rs:194-200 | writing a register changes that register only |
| Vm.Fetch | src/vm.rs:165-173 | nothing once the pointer reaches the instruction count truncated to 32 bits; otherwise the instruction under the pointer, and then `ip + 1` does not overflow |
| Vm.HaltsExactly | src/vm.rs:175-192 | a turn halts exactly when the pointer is past the instructions, or on `Ret` with an empty return stack |
| Vm.FaultsExactly | src/vm.rs:205-256 | a turn faults exactly on a missing label for `Call` or `LA`, an address outside memory for `LW` or `SW`, and `Pop` on empty memory, and says which fault |
| Vm.RetPops | src/vm.rs:185-192 | `Ret` with a non-empty return stack pops its top into the pointer |
| Vm.CallThenRetResumes | src/vm.rs:185-208 | `Call` pushes the address after itself and jumps to the label; a later `Ret` that finds that return stack resumes after the `Call` |
| Vm.WritesOnlyNamedRegister | src/vm.rs:194-256 | `Move`, `LA`, `LW` and `Pop` write only the named register |
| Vm.StoreWordFrame | src/vm.rs:240-247 | `SW` changes only the addressed memory word |
| Vm.ConditionalJumps | src/vm.rs:209-223 | `JEQ`, `JGT` and `JGE` take the target exactly when their comparison holds |
| Vm.PushThenPop | src/vm.rs:248-256 | a `Push` then a `Pop` hands the pushed word to the register and restores memory |
| Vm.RunForAdditive | src/vm.rs:175-182 | running for `f1 + f2` turns is running for `f1` and then for `f2` more |
| Vm.StoppedIsFinal | src/vm.rs:176-191 | once a run has halted or faulted, more turns change nothing |
| Vm.JumpLoopsForever | src/vm.rs:202-204 | `[Jump(0)]` never stops |
| Vm.PushPopExample | src/vm.rs:248-256 | `Push 5, Push 3, Pop A, Pop B` ends with A = 3, B = 5 and memory empty |
| Vm.MissingCallFaults | src/vm.rs:205-208 | a `Call` to a label not in the table stops with a fault |
| Vm.RetOnEmptyHalts | src/vm.rs:185-192 | `Ret` on an empty return stack halts |
| Vm.VM.constructor | src/vm.rs:67-79 | a new machine has zero registers, empty memory and return stack, and the pointer at 0 |
| Vm.VM.NextInstruction | src/vm.rs:165-173 | gives `Fetch` and moves the pointer past the instruction it gives |
| Vm.VM.Read | src/vm.rs:240-247 | reading a register field is reading that register of the state |
| Vm.VM.Write | src/vm.rs:194-200 | writes the named register field and nothing else |
| Vm.VM.Step | src/vm.rs:176-257 | one turn of the loop gives exactly `Transition`'s outcome and leaves the fields in its state |
| Vm.VM.Run | src/vm.rs:175-259 | at most `fuel` turns give exactly `RunFor`'s outcome and leave the fields in its state |

## Left out

- `main.rs`: reading the source file, printing and process exit are I/O.
- `VM::from_ast`: every branch is `todo!()`, so there is no behaviour to model.
- The code generator: it is not part of this model.
- `SysCall`, `STDIN` and `STDOUT` have no instruction that uses them.
- Float tokens carry their literal text, not an `f64` value, because the model has no floating point.
- Diagnostics (`eprintln!`, panic messages) become error values with no text.
- Vm.VM.Run: the source loop is unbounded, and the model runs at most `fuel` turns; `Vm.JumpLoopsForever` shows that programs which never stop exist.
- Vm.VM.constructor: it takes the instruction list and the label table as parameters. The source starts them empty, and it has no other way to fill them.
- Lexer.Chars: bytes become characters one by one, as the source casts them; multi-byte UTF-8 text is not decoded.
- Tokens.TryConvertToKeyword: the source rewrites the token in place through `&mut self`. The model returns the new token instead.
- LexerRoundTrip.LexPrinted: the round trip puts a space after every token because of the two-byte step after one-character operators. It covers only tokens the scanner can emit: no EOF, no identifier spelled as a keyword, no negative integer, and string literals with no quote and only byte-range characters.
- Parser.Parser.Parse: the source panics on a parse error; here it returns false and leaves `root` unspecified.
