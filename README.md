# PLC pipeline in Dafny

A model of the course-project compiler pipeline `plc.project`. It has five stages: a lexer, a recursive-descent parser, a static analyzer, a tree-walking interpreter and a generator that prints Java. The model also covers the five validator patterns of `plc.homework.Regex`. Each stage keeps the form of the Java code it models.

- **Lexer** (`lexer.dfy`, module `Lexing`). A `CharStream` class with the cursors `index` and `start`, and a `Lexer` class whose methods advance them. Each lexing rule is also a spec function on the input (`RunEnd`, `NumberLexeme`, `ScanEscape`, `ScanCharacter`, `ScanString`, `TokenAt`, `LexFrom`). Every method is proved to leave the cursors and return the token or error that its function gives.
- **Parser** (`parser.dfy`, `parser_props.dfy`, modules `Parsing` and `ParserProperties`). A `Parser` class over a token list with one cursor. Its methods loop where the Java loops. Each one is proved to follow a grammar function `P*`: the same node with the cursor after it, or the same error. `peek` and `match` test a run of consecutive tokens against a run of patterns.
- **Analyzer** (`analyzer.dfy`, `analyzer_props.dfy`, modules `Analysis` and `AnalysisProperties`).
  - `requireAssignable` and the typing of literals and operators are pure functions.
  - An `Analyzer` class holds the `scope` field and pushes and pops it around blocks. Its visits are proved to follow the functions `A*`.
  - An analysed node is a copy of the input with its type, variable and function slots filled in, which stands for the Java setters.
- **Interpreter** (`interpreter.dfy`, `interpreter_props.dfy`, modules `Interpretation` and `InterpretationProperties`).
  - Evaluation is a function of the scope and the output log: `EvalExpr`, `ExecStmt`, `Invocation`, `RunSource`.
  - An `Interpreter` class with `scope` and `output` fields carries it out. A thrown `Return` becomes the outcome `Returning(v)`.
- **Generator** (`generator.dfy`, `generator_props.dfy`, modules `Generation` and `GenerationProperties`). A `Generator` class with a `writer` string and an `indent` counter. Its visits are proved to append exactly the text of the functions `G*`, or to fail as they do.
- **Regex** (`regex.dfy`, module `Regexes`). Each pattern is a whole-string predicate that follows the pattern's structure, with the engine's choices as existential split points. Each also has a deterministic recognizer proved equivalent to it.
- **Shared modules.**
  - `wrappers.dfy`: `Option`, `Result`.
  - `numbers.dfy`: BigInteger truncating division, decimal text, BigDecimal as an unscaled value and a scale.
  - `ast.dfy`: tokens, the AST and type tags.
  - `scopes.dfy`: the parent-linked `Scope`.

The model keeps the code's own behaviour where it differs from what the course design describes. These are the quirks kept, proved as written:

- **Lexer.**
  - A literal absorbs the whitespace in front of it.
  - A lone digit is an operator.
  - A string holding U+0085, U+2028 or U+2029 never finishes lexing. The peek admits the character, but the `.` that should consume it refuses it.
- **Parser.**
  - `AND OR` is one operator, recorded `OR`.
  - Every keyword has to be written twice.
  - A for loop is never parsed.
  - An if statement always has an empty else list.
  - The parser records no type names, so a parsed `main` fails analysis (`UntypedMainRejected`), and a parsed method with parameters cannot be generated (`UntypedParametersFail`).
- **Analyzer.** Two Integers cannot be compared.
- **Interpreter.**
  - Parameters and block scopes are created and then never read.
  - A call evaluates its arguments before its receiver.
- **Generator.** `List.indexOf` decides where a newline goes in an if branch.

## Model

| member | source | states |
|---|---|---|
| Lexing.RunEnd | src/main/java/plc/project/Lexer.java:46 | `while (match(p));` stops at the first character that is not of class p, or at the end; every character it passes is of class p |
| Lexing.NumberLexeme | src/main/java/plc/project/Lexer.java:50-59 | a number lexeme is INTEGER or DECIMAL, stays inside the input, and consumes at least one character when a sign starts it |
| Lexing.ScanEscape | src/main/java/plc/project/Lexer.java:98-107 | a valid escape is exactly two characters; a failure reports a position at or after its start |
| Lexing.ScanCharacter | src/main/java/plc/project/Lexer.java:61-79 | a character literal consumes at least one character; a failure reports a position inside the input |
| Lexing.ScanStringBody | src/main/java/plc/project/Lexer.java:83-89 | the string loop ends just after a closing `"`, or fails at or after where it started (Stuck where `.` refuses a character the loop admits) |
| Lexing.ScanString | src/main/java/plc/project/Lexer.java:81-91 | a string literal consumes at least one character; a failure reports a position inside the input |
| Lexing.TokenAt | src/main/java/plc/project/Lexer.java:26-42 | every successful lexToken consumes at least one character, which is why lex terminates |
| Lexing.LexFrom | src/main/java/plc/project/Lexer.java:14-24 | a successful lex reads the whole input; a failed one stops with the cursor at the index the error records |
| Lexing.Lex | src/main/java/plc/project/Lexer.java:14-24 | lex() of a whole input reads to its end when it succeeds, and stops at the index of the error when it fails |
| Lexing.CharStream.constructor | src/main/java/plc/project/Lexer.java:133-135 | both cursors start at 0 over the given input |
| Lexing.CharStream.Has | src/main/java/plc/project/Lexer.java:137-139 | has(offset) holds exactly when index + offset is inside the input |
| Lexing.CharStream.Get | src/main/java/plc/project/Lexer.java:141-143 | get(offset) is the character at index + offset |
| Lexing.CharStream.Advance | src/main/java/plc/project/Lexer.java:145-147 | advance moves index by one and leaves start |
| Lexing.CharStream.Emit | src/main/java/plc/project/Lexer.java:149-153 | emit returns input[start..index) and moves start to index |
| Lexing.Lexer.constructor | src/main/java/plc/project/Lexer.java:10-12 | a lexer starts on a fresh stream at position 0 |
| Lexing.Lexer.Peek | src/main/java/plc/project/Lexer.java:109-116 | peek(p0..pn-1) holds exactly when n characters remain and each matches its class; it moves nothing |
| Lexing.Lexer.Match | src/main/java/plc/project/Lexer.java:118-126 | match advances by the number of patterns when peek holds, and not at all otherwise |
| Lexing.Lexer.PeekSingle | src/main/java/plc/project/Lexer.java:109-116 | peek of one pattern: the next character exists and matches the class |
| Lexing.Lexer.MatchSingle | src/main/java/plc/project/Lexer.java:118-126 | match of one pattern: one step exactly when the next character matches |
| Lexing.Lexer.MatchRun | src/main/java/plc/project/Lexer.java:46 | the loop `while (match(p));` leaves index at RunEnd |
| Lexing.Lexer.Lex | src/main/java/plc/project/Lexer.java:14-24 | lex returns the tokens or the error of LexFrom and leaves both cursors where LexFrom says |
| Lexing.Lexer.LexToken | src/main/java/plc/project/Lexer.java:26-42 | lexToken emits the token of TokenAt, taking its literal from start, or raises its error |
| Lexing.Lexer.LexIdentifier | src/main/java/plc/project/Lexer.java:44-48 | an identifier is the start character and the run of identifier characters after it |
| Lexing.Lexer.LexNumber | src/main/java/plc/project/Lexer.java:50-59 | the number token is the lexeme NumberLexeme gives, with its end offset as index |
| Lexing.Lexer.LexCharacter | src/main/java/plc/project/Lexer.java:61-79 | lexCharacter emits ScanCharacter's token or raises its error at its index |
| Lexing.Lexer.LexString | src/main/java/plc/project/Lexer.java:81-91 | lexString emits ScanString's token or raises its error at its index |
| Lexing.Lexer.LexOperator | src/main/java/plc/project/Lexer.java:93-96 | an operator is the next character, and its index is one less than its end |
| Lexing.Lexer.LexEscape | src/main/java/plc/project/Lexer.java:98-107 | lexEscape consumes a backslash and a code, or raises the ScanEscape error |
| Lexing.CompoundOpNeverMatches | src/main/java/plc/project/Lexer.java:35-36 | peek("[<>!=]=", ".") never holds, so every operator is a single character |
| Lexing.IdentifierLexeme | src/main/java/plc/project/Lexer.java:44-48 | an identifier lexeme starts with [A-Za-z_] and continues only with [A-Za-z0-9_-] |
| Lexing.NumberLexemeText | src/main/java/plc/project/Lexer.java:50-59 | a number lexeme is a sign and digits (INTEGER), or a sign, digits, `.` and possibly no more digits (DECIMAL) |
| Lexing.CharacterLexeme | src/main/java/plc/project/Lexer.java:61-79 | a character literal is a quote, one plain character or one escape, and a quote |
| Lexing.StringLexeme | src/main/java/plc/project/Lexer.java:81-91 | a string literal is quoted and holds only plain characters and valid escapes |
| Lexing.TokenAtText | src/main/java/plc/project/Lexer.java:26-42 | every lexeme lexToken produces has the text its kind calls for |
| Lexing.LexStep | src/main/java/plc/project/Lexer.java:14-24 | at a non-whitespace character a successful lex emits TokenAt's token and continues after it |
| Lexing.LexedCover | src/main/java/plc/project/Lexer.java:14-24 | skipping whitespace without emit makes the literals, followed by the trailing whitespace, spell out the input exactly |
| Lexing.LexedIndices | src/main/java/plc/project/Lexer.java:44-96 | each token's index is the end offset of its literal in the input (for an operator, one less) |
| Lexing.LexedKinds | src/main/java/plc/project/Lexer.java:26-96 | each literal, with its leading whitespace removed, is a lexeme of its kind |
| Lexing.LexLayout | src/main/java/plc/project/Lexer.java:14-24 | for a whole input: the literals plus trailing whitespace are the input, the indices are end offsets, and the kinds fit the texts |
| Lexing.LexLoneDigit | src/main/java/plc/project/Lexer.java:29 | "5" is one OPERATOR token, because the number rule needs a sign first |
| Lexing.LexSignedInteger | src/main/java/plc/project/Lexer.java:50-59 | "+5" is one INTEGER with index 2 |
| Lexing.LexLeadingWhitespace | src/main/java/plc/project/Lexer.java:16-20 | " x " lexes to the literal " x": the leading space is absorbed and the trailing one is dropped |
| Lexing.LexStuckString | src/main/java/plc/project/Lexer.java:83-86 | a string holding U+0085 is Stuck at that character, where the loop never ends |
| Parsing.ReplacePair | src/main/java/plc/project/Parser.java:399 | String.replace never lengthens the text |
| Parsing.Unescape | src/main/java/plc/project/Parser.java:399 | decoding the inside of a string literal never lengthens it |
| Parsing.LiteralValue | src/main/java/plc/project/Parser.java:388-400 | each literal token kind gives its own literal class; only number literals fail with a number format error; a character or string literal succeeds iff it has two characters; the character is the one at position 1, and the string is no longer than the text between the quotes |
| Parsing.Operators | src/main/java/plc/project/Parser.java:300-338 | every binary rule matches a run of at least two operator tokens |
| Parsing.PExpression | src/main/java/plc/project/Parser.java:291-293 | a parsed expression consumes at least one token |
| Parsing.POperand | src/main/java/plc/project/Parser.java:299-337 | each binary rule's operand is the next tighter rule and consumes at least one token |
| Parsing.PBinary | src/main/java/plc/project/Parser.java:298-344 | a binary expression consumes at least one token |
| Parsing.PBinaryRest | src/main/java/plc/project/Parser.java:300-304 | the operator loop moves the cursor only forward |
| Parsing.PSecondary | src/main/java/plc/project/Parser.java:349-375 | a secondary expression consumes at least one token |
| Parsing.PSecondaryRest | src/main/java/plc/project/Parser.java:351-373 | the `.name` loop moves the cursor only forward |
| Parsing.PArguments | src/main/java/plc/project/Parser.java:406-414 | an argument list consumes at least its `)` |
| Parsing.PArgumentList | src/main/java/plc/project/Parser.java:408-413 | the do-while over arguments consumes at least one token |
| Parsing.PPrimary | src/main/java/plc/project/Parser.java:383-431 | a primary expression consumes at least one token |
| Parsing.PStatement | src/main/java/plc/project/Parser.java:124-148 | a statement consumes at least one token and is never a for loop |
| Parsing.PExpressionStatement | src/main/java/plc/project/Parser.java:135-146 | a statement without a keyword is an expression statement or an assignment |
| Parsing.PInitializer | src/main/java/plc/project/Parser.java:165-168 | the optional initializer moves the cursor only forward |
| Parsing.PDeclaration | src/main/java/plc/project/Parser.java:155-175 | parseDeclarationStatement yields a Declaration |
| Parsing.PThen | src/main/java/plc/project/Parser.java:194-196 | the then-loop moves only forward, and collects no for loop |
| Parsing.PBlock | src/main/java/plc/project/Parser.java:262-264 | a block consumes at least its END and collects no for loop |
| Parsing.PIf | src/main/java/plc/project/Parser.java:182-210 | parseIfStatement yields an If holding no for loop |
| Parsing.PFor | src/main/java/plc/project/Parser.java:217-243 | parseForStatement yields a For |
| Parsing.PWhile | src/main/java/plc/project/Parser.java:250-267 | parseWhileStatement yields a While holding no for loop |
| Parsing.PReturn | src/main/java/plc/project/Parser.java:274-286 | parseReturnStatement yields a Return |
| Parsing.PField | src/main/java/plc/project/Parser.java:52-73 | a field consumes at least one token |
| Parsing.PParameters | src/main/java/plc/project/Parser.java:96-101 | the do-while over parameter names reads at least one name |
| Parsing.PParameterList | src/main/java/plc/project/Parser.java:94-105 | a parameter list consumes at least its `)` |
| Parsing.PMethod | src/main/java/plc/project/Parser.java:79-117 | a method consumes at least one token |
| Parsing.PFields | src/main/java/plc/project/Parser.java:38-40 | the field loop stops only where no LET follows |
| Parsing.PMethods | src/main/java/plc/project/Parser.java:41-43 | the method loop stops only where no DEF follows |
| Parsing.PSource | src/main/java/plc/project/Parser.java:33-46 | parseSource never stops in front of a DEF |
| Parsing.PeekOne | src/main/java/plc/project/Parser.java:443-460 | peek of one pattern is a test of the next token |
| Parsing.PeekTwo | src/main/java/plc/project/Parser.java:443-460 | peek of two patterns tests the next two consecutive tokens |
| Parsing.Parser.constructor | src/main/java/plc/project/Parser.java:26-28 | a parser starts at the first token |
| Parsing.Parser.Has | src/main/java/plc/project/Parser.java:488-490 | has(offset) holds exactly when index + offset is a token |
| Parsing.Parser.Get | src/main/java/plc/project/Parser.java:495-497 | get(offset) is the token at index + offset |
| Parsing.Parser.Advance | src/main/java/plc/project/Parser.java:502-504 | advance moves the cursor by one |
| Parsing.Parser.Peek | src/main/java/plc/project/Parser.java:443-460 | peek holds exactly when consecutive tokens match the patterns (type or literal); it moves nothing |
| Parsing.Parser.Match | src/main/java/plc/project/Parser.java:466-474 | match advances by the number of patterns when peek holds, and by 0 otherwise |
| Parsing.Parser.MatchSingle | src/main/java/plc/project/Parser.java:466-474 | match of one pattern moves by one exactly when the next token matches |
| Parsing.Parser.ParseSource | src/main/java/plc/project/Parser.java:33-46 | parseSource returns PSource's node with the cursor after it, or its error |
| Parsing.Parser.ParseFields | src/main/java/plc/project/Parser.java:38-40 | the field loop follows PFields |
| Parsing.Parser.ParseMethods | src/main/java/plc/project/Parser.java:41-43 | the method loop follows PMethods |
| Parsing.Parser.ParseField | src/main/java/plc/project/Parser.java:52-73 | parseField follows PField |
| Parsing.Parser.ParseMethod | src/main/java/plc/project/Parser.java:79-117 | parseMethod follows PMethod |
| Parsing.Parser.ParseParameterList | src/main/java/plc/project/Parser.java:94-105 | the parameter loop follows PParameterList |
| Parsing.Parser.ParseBlock | src/main/java/plc/project/Parser.java:111-114 | a `while (!match("END"))` loop follows PBlock |
| Parsing.Parser.ParseStatement | src/main/java/plc/project/Parser.java:124-148 | parseStatement follows PStatement |
| Parsing.Parser.ParseExpressionStatement | src/main/java/plc/project/Parser.java:135-146 | the expression/assignment branch follows PExpressionStatement |
| Parsing.Parser.ParseDeclarationStatement | src/main/java/plc/project/Parser.java:155-175 | parseDeclarationStatement follows PDeclaration |
| Parsing.Parser.ParseIfStatement | src/main/java/plc/project/Parser.java:182-210 | parseIfStatement follows PIf |
| Parsing.Parser.ParseThenStatements | src/main/java/plc/project/Parser.java:193-196 | the then-loop follows PThen |
| Parsing.Parser.ParseForStatement | src/main/java/plc/project/Parser.java:217-243 | parseForStatement follows PFor |
| Parsing.Parser.ParseWhileStatement | src/main/java/plc/project/Parser.java:250-267 | parseWhileStatement follows PWhile |
| Parsing.Parser.ParseReturnStatement | src/main/java/plc/project/Parser.java:274-286 | parseReturnStatement follows PReturn |
| Parsing.Parser.ParseExpression | src/main/java/plc/project/Parser.java:291-293 | parseExpression follows PExpression |
| Parsing.Parser.ParseLogicalExpression | src/main/java/plc/project/Parser.java:298-306 | the logical loop follows PBinary at the logical level |
| Parsing.Parser.ParseEqualityExpression | src/main/java/plc/project/Parser.java:311-319 | the equality loop follows PBinary at the equality level |
| Parsing.Parser.ParseAdditiveExpression | src/main/java/plc/project/Parser.java:324-332 | the additive loop follows PBinary at the additive level |
| Parsing.Parser.ParseMultiplicativeExpression | src/main/java/plc/project/Parser.java:336-344 | the multiplicative loop follows PBinary at the multiplicative level |
| Parsing.Parser.ParseSecondaryExpression | src/main/java/plc/project/Parser.java:349-375 | the `.name` loop follows PSecondary |
| Parsing.Parser.ParseArguments | src/main/java/plc/project/Parser.java:405-414 | the argument do-while follows PArguments |
| Parsing.Parser.ParsePrimaryExpression | src/main/java/plc/project/Parser.java:383-431 | parsePrimaryExpression follows PPrimary |
| ParserProperties.PeekAtAppend | src/main/java/plc/project/Parser.java:443-460 | a run of patterns matches exactly when its two halves match one after the other |
| ParserProperties.LastOperatorMatched | src/main/java/plc/project/Parser.java:301 | the operator taken is the literal of the run's last token, which equals the last pattern |
| ParserProperties.BinaryRestSpine | src/main/java/plc/project/Parser.java:300-304 | the loop grows a left-nested tree whose every node carries the run's last literal (OR, >=, -, /) |
| ParserProperties.BinarySpine | src/main/java/plc/project/Parser.java:298-344 | a binary rule's result is its first operand under a left spine of one operator |
| ParserProperties.LoneAndStops | src/main/java/plc/project/Parser.java:300 | `a AND b` parses as `a` alone, stopping before AND |
| ParserProperties.AndOrRunIsOr | src/main/java/plc/project/Parser.java:300-303 | `a AND OR b` is one Binary with operator OR |
| ParserProperties.ExhaustedExpression | src/main/java/plc/project/Parser.java:430 | with no token left, an expression fails out of range, not with a ParseException |
| ParserProperties.ExhaustedBlock | src/main/java/plc/project/Parser.java:495-497 | a statement or block that runs out of tokens fails out of range |
| ParserProperties.BlockEndsWithEnd | src/main/java/plc/project/Parser.java:262-264 | a block ends just after an END token |
| ParserProperties.ThenStopsAtElseEnd | src/main/java/plc/project/Parser.java:194-196 | the then-loop stops only on the two-token run ELSE END |
| ParserProperties.IfElseEmpty | src/main/java/plc/project/Parser.java:194-209 | a parsed if has an empty else list and ends with ELSE END |
| ParserProperties.SingleLetField | src/main/java/plc/project/Parser.java:38-55 | a single LET before a field is refused at the following token |
| ParserProperties.SingleDefMethod | src/main/java/plc/project/Parser.java:41-82 | a single DEF before a method is refused at the following token |
| ParserProperties.SingleStatementKeyword | src/main/java/plc/project/Parser.java:125-132 | a single LET, IF, WHILE or RETURN is refused by the statement rule it leads to |
| ParserProperties.LoneDefProgram | src/main/java/plc/project/Parser.java:80-82 | `DEF main() ...` as lexed is refused at the name token's index |
| ParserProperties.FieldsExtend | src/main/java/plc/project/Parser.java:38-40 | the field loop only appends, and appends nothing exactly when it reads nothing |
| ParserProperties.MethodsExtend | src/main/java/plc/project/Parser.java:41-43 | the method loop only appends, and appends nothing exactly when it reads nothing |
| ParserProperties.SourceStops | src/main/java/plc/project/Parser.java:33-46 | parseSource stops without error only where neither loop continues |
| ParserProperties.SourceLeavesRest | src/main/java/plc/project/Parser.java:33-46 | tokens after the declarations are left unread and raise no error |
| ParserProperties.MethodForFree | src/main/java/plc/project/Parser.java:124-148 | no parsed method body holds a for loop |
| ParserProperties.MethodsForFree | src/main/java/plc/project/Parser.java:41-43 | no method of the method loop holds a for loop |
| ParserProperties.SourceForFree | src/main/java/plc/project/Parser.java:33-46 | no method of a parsed source holds a for loop |
| ParserProperties.ReplacePairIdentity | src/main/java/plc/project/Parser.java:399 | String.replace changes nothing in a text without a backslash |
| ParserProperties.UnescapeIdentity | src/main/java/plc/project/Parser.java:399 | decoding leaves a text without a backslash unchanged |
| ParserProperties.ErrorAtToken | src/main/java/plc/project/Parser.java:54 | ErrorAt: a parse error carries the index of the token at the cursor, and reading past the last token is an index-out-of-bounds error |
| ParserProperties.UnescapeExamples | src/main/java/plc/project/Parser.java:399 | only `\n` and `\t` are decoded, left to right; an escaped backslash before n still decodes |
| ParserProperties.LiteralExamples | src/main/java/plc/project/Parser.java:388-400 | a character literal keeps only position 1; a string loses its quotes; a number with leading whitespace is refused by BigInteger |
| Analysis.GetType | src/main/java/plc/project/Analyzer.java:38 | Environment.getType succeeds exactly on a known name, with the type bound to it |
| Analysis.RequireAssignable | src/main/java/plc/project/Analyzer.java:296-310 | succeeds iff the target is Any, equals the type, or is Comparable with Integer, Decimal, Character or String; otherwise it names both types |
| Analysis.Assignable | src/main/java/plc/project/Analyzer.java:296-310 | only Any and Comparable accept a type other than their own |
| Analysis.LiteralType | src/main/java/plc/project/Analyzer.java:178-208 | a literal fails exactly when it is an Integer outside the int range or a Decimal whose double value is infinite; otherwise its type is Nil, Boolean, Character, String, Integer or Decimal |
| Analysis.BinaryType | src/main/java/plc/project/Analyzer.java:218-261 | only the twelve operators have a type; logical and comparison operators are Boolean; arithmetic is String or the type of the left operand |
| Analysis.AExpr | src/main/java/plc/project/Analyzer.java:178-294 | an analysed expression always has a type |
| Analysis.ACallee | src/main/java/plc/project/Analyzer.java:280-287 | a callee keeps its receiver when it has one |
| Analysis.AArguments | src/main/java/plc/project/Analyzer.java:288-291 | the argument loop yields one analysed argument per argument |
| Analysis.AStmt | src/main/java/plc/project/Analyzer.java:72-175 | a statement keeps the scope's parent and functions |
| Analysis.AStmts | src/main/java/plc/project/Analyzer.java:65-67 | a statement list keeps the scope's parent and functions |
| Analysis.AExpressionStmt | src/main/java/plc/project/Analyzer.java:73-80 | an expression statement leaves the scope as it was |
| Analysis.ADeclaration | src/main/java/plc/project/Analyzer.java:83-101 | a declaration keeps the scope's parent and functions |
| Analysis.Declare | src/main/java/plc/project/Analyzer.java:98-99 | a declaration binds the name to a variable of its type in the current scope and records that variable |
| Analysis.AAssignment | src/main/java/plc/project/Analyzer.java:104-113 | an assignment leaves the scope as it was |
| Analysis.AIf | src/main/java/plc/project/Analyzer.java:116-136 | an if keeps the scope's parent and functions |
| Analysis.AFor | src/main/java/plc/project/Analyzer.java:139-153 | a for keeps the scope's parent and functions |
| Analysis.AWhile | src/main/java/plc/project/Analyzer.java:156-166 | a while keeps the scope's parent and functions |
| Analysis.AReturn | src/main/java/plc/project/Analyzer.java:169-175 | a return leaves the scope as it was |
| Analysis.AField | src/main/java/plc/project/Analyzer.java:36-46 | a field keeps the scope's parent and functions |
| Analysis.AFields | src/main/java/plc/project/Analyzer.java:22-24 | the field loop yields one analysed field per field after those already done, and keeps the functions and the parent |
| Analysis.AMethod | src/main/java/plc/project/Analyzer.java:49-70 | a method keeps the scope's variables and parent, keeps its name and parameters, and records its function |
| Analysis.AMethods | src/main/java/plc/project/Analyzer.java:25-27 | the method loop yields one analysed method per method after those already done, and keeps the variables and the parent |
| Analysis.ASource | src/main/java/plc/project/Analyzer.java:20-33 | an analysed source has as many fields and methods as the input, and keeps the parent |
| Analysis.ParameterTypes | src/main/java/plc/project/Analyzer.java:51-53 | one parameter type per parameter type name |
| Analysis.BindParameters | src/main/java/plc/project/Analyzer.java:62-64 | the parameter loop keeps the scope's parent and functions |
| Analysis.Analyzer.constructor | src/main/java/plc/project/Analyzer.java:12-17 | the analyzer starts in a child of the parent with print/1 defined |
| Analysis.Analyzer.VisitSource | src/main/java/plc/project/Analyzer.java:20-33 | visit(Source) follows ASource |
| Analysis.Analyzer.VisitField | src/main/java/plc/project/Analyzer.java:36-46 | visit(Field) follows AField |
| Analysis.Analyzer.VisitMethod | src/main/java/plc/project/Analyzer.java:49-70 | visit(Method) follows AMethod |
| Analysis.Analyzer.VisitStatements | src/main/java/plc/project/Analyzer.java:65-67 | the statement loop follows AStmts |
| Analysis.Analyzer.VisitStmt | src/main/java/plc/project/Analyzer.java:72-175 | a statement visit follows AStmt |
| Analysis.Analyzer.VisitExpressionStmt | src/main/java/plc/project/Analyzer.java:73-80 | visit(Expression) follows AExpressionStmt |
| Analysis.Analyzer.VisitDeclaration | src/main/java/plc/project/Analyzer.java:83-101 | visit(Declaration) follows ADeclaration |
| Analysis.Analyzer.VisitAssignment | src/main/java/plc/project/Analyzer.java:104-113 | visit(Assignment) follows AAssignment |
| Analysis.Analyzer.VisitIf | src/main/java/plc/project/Analyzer.java:116-136 | visit(If) follows AIf |
| Analysis.Analyzer.VisitFor | src/main/java/plc/project/Analyzer.java:139-153 | visit(For) follows AFor |
| Analysis.Analyzer.VisitWhile | src/main/java/plc/project/Analyzer.java:156-166 | visit(While) follows AWhile |
| Analysis.Analyzer.VisitReturn | src/main/java/plc/project/Analyzer.java:169-175 | visit(Return) follows AReturn |
| Analysis.Analyzer.VisitExpr | src/main/java/plc/project/Analyzer.java:178-294 | an expression visit returns AExpr's annotated node |
| Analysis.Analyzer.VisitCallee | src/main/java/plc/project/Analyzer.java:280-287 | the callee lookup returns ACallee's result |
| Analysis.Analyzer.VisitArguments | src/main/java/plc/project/Analyzer.java:288-291 | the argument loop returns AArguments' result |
| AnalysisProperties.AssignableOrder | src/main/java/plc/project/Analyzer.java:296-310 | assignability is reflexive, transitive and antisymmetric |
| AnalysisProperties.ExactTargets | src/main/java/plc/project/Analyzer.java:298 | a target other than Any and Comparable accepts only itself |
| AnalysisProperties.LiteralTyping | src/main/java/plc/project/Analyzer.java:178-207 | literals type by class; an Integer iff it fits in an int, a Decimal iff its double value is finite |
| AnalysisProperties.IntRangeEdges | src/main/java/plc/project/Analyzer.java:191-193 | -2^31 and 2^31-1 are accepted, one past each is refused |
| AnalysisProperties.LogicalRule | src/main/java/plc/project/Analyzer.java:223-228 | AND and OR need two Booleans, left first, and are Boolean |
| AnalysisProperties.ComparisonRule | src/main/java/plc/project/Analyzer.java:229-240 | a comparison is Boolean and succeeds iff the left type is exactly Comparable and the right is assignable to it |
| AnalysisProperties.IntegersNotComparable | src/main/java/plc/project/Analyzer.java:236-238 | two Integers can never be compared or checked for equality |
| AnalysisProperties.PlusRule | src/main/java/plc/project/Analyzer.java:241-249 | `+` is String when either side is String, otherwise needs the right assignable to the left and has the left type |
| AnalysisProperties.ArithmeticRule | src/main/java/plc/project/Analyzer.java:250-255 | `-`, `*`, `/` succeed iff the right is assignable to the left and have the left type |
| AnalysisProperties.UnknownOperator | src/main/java/plc/project/Analyzer.java:256-257 | any other operator is refused |
| AnalysisProperties.AnalysisOnlyAnnotates | src/main/java/plc/project/Analyzer.java:178-294 | analysis only fills the type, variable and function slots and changes nothing else in the tree |
| AnalysisProperties.SlotsIgnored | src/main/java/plc/project/Analyzer.java:178-294 | analysis reads no resolution slot: expressions that differ only in their type, variable and function slots analyse alike |
| AnalysisProperties.ArgumentsSlotsIgnored | src/main/java/plc/project/Analyzer.java:288-291 | the same for an argument list |
| AnalysisProperties.AnalysisIdempotent | src/main/java/plc/project/Analyzer.java:178-294 | analysing an analysed expression again in the same scope gives it back unchanged |
| AnalysisProperties.ArgumentsChecked | src/main/java/plc/project/Analyzer.java:288-291 | every argument is analysed, has a parameter type and is assignable to it |
| AnalysisProperties.CallChecked | src/main/java/plc/project/Analyzer.java:284-291 | a call without receiver resolves by name and argument count, and each argument fits its parameter type |
| AnalysisProperties.AccessResolved | src/main/java/plc/project/Analyzer.java:269-272 | a plain access succeeds iff the name is bound somewhere in the scope chain, and records that variable |
| AnalysisProperties.ScopeRestored | src/main/java/plc/project/Analyzer.java:123-164 | every statement other than a declaration leaves the scope it started in: each push is matched by a pop |
| AnalysisProperties.DeclarationRules | src/main/java/plc/project/Analyzer.java:83-101 | a declaration needs a type name or an initializer, takes the initializer's type without a name, and needs it assignable with one |
| AnalysisProperties.StatementChecks | src/main/java/plc/project/Analyzer.java:76-159 | expression statements are calls, assignment receivers are accesses, if/while conditions are Boolean, if and for bodies are non-empty, a for iterates an IntegerIterable |
| AnalysisProperties.ReturnNeedsBinding | src/main/java/plc/project/Analyzer.java:173 | a return succeeds only if the return-type variable is bound in the chain and the value is assignable to its type |
| AnalysisProperties.MethodDefined | src/main/java/plc/project/Analyzer.java:49-70 | a method is defined in the enclosing scope by name and number of parameter types, Nil-returning when it names no type, and its scope is popped |
| AnalysisProperties.MissingParameterTypes | src/main/java/plc/project/Analyzer.java:62-64 | parameters without type names fail out of range |
| AnalysisProperties.MainChecked | src/main/java/plc/project/Analyzer.java:29-31 | a successful analysis leaves main/0 bound with return type Integer |
| AnalysisProperties.UntypedMainRejected | src/main/java/plc/project/Analyzer.java:54-56 | a main without a return type name, as the parser builds it, is refused |
| AnalysisProperties.PrintVisible | src/main/java/plc/project/Analyzer.java:16 | print/1 is visible from the start and every other name resolves as in the parent |
| Scopes.Child | src/main/java/plc/project/Analyzer.java:59 | new Scope(parent) is empty and falls back to the parent |
| Scopes.DefineVariable | src/main/java/plc/project/Analyzer.java:43 | defining a variable keeps the functions and the parent |
| Scopes.DefineFunction | src/main/java/plc/project/Analyzer.java:56 | defining a function keeps the variables and the parent |
| Scopes.DefineThenLookupVariable | src/main/java/plc/project/Interpreter.java:41 | a defined variable is found by the next lookup and no other name changes |
| Scopes.DefineThenLookupFunction | src/main/java/plc/project/Interpreter.java:47 | a defined function is found by name and arity and no other entry changes |
| Scopes.ChildLookup | src/main/java/plc/project/Analyzer.java:123 | a fresh child resolves every name as its parent does |
| Scopes.LookupVariable | src/main/java/plc/project/Analyzer.java:270 | a lookup succeeds iff some scope of the chain binds the name, and a binding in the scope itself wins |
| Scopes.LookupFunction | src/main/java/plc/project/Analyzer.java:29 | a function lookup succeeds iff some scope of the chain binds the name with that arity, and a binding in the scope itself wins |
| Numbers.TruncDivSpec | src/main/java/plc/project/Interpreter.java:198 | BigInteger.divide: the remainder is smaller than the divisor and has the dividend's sign |
| Numbers.TruncDiv | src/main/java/plc/project/Interpreter.java:198 | BigInteger.divide: the quotient is zero or negative exactly when the operands' signs differ |
| Numbers.TruncDivExamples | src/main/java/plc/project/Interpreter.java:198 | 7/2 = 3, -7/2 = -3, 7/-2 = -3, unlike Euclidean -4 |
| Numbers.DigitsRoundTrip | src/main/java/plc/project/Parser.java:389 | the digits of a natural number read back as that number |
| Numbers.IntegerTextRoundTrip | src/main/java/plc/project/Parser.java:389 | new BigInteger(i.toString()) is i |
| Numbers.ParseBigInteger | src/main/java/plc/project/Parser.java:389 | an accepted text ends in a digit, and a negative value was written with a leading minus |
| Numbers.DecToString | src/main/java/plc/project/Interpreter.java:167-170 | BigDecimal.toString is non-empty and starts with a minus exactly for a negative value |
| Numbers.DecAdd | src/main/java/plc/project/Interpreter.java:173 | BigDecimal.add has the larger scale |
| Numbers.DecSub | src/main/java/plc/project/Interpreter.java:181 | BigDecimal.subtract has the larger scale |
| Numbers.DecMul | src/main/java/plc/project/Interpreter.java:189 | BigDecimal.multiply has the sum of the scales |
| Numbers.DecAddExact | src/main/java/plc/project/Interpreter.java:173 | BigDecimal.add is exact |
| Numbers.DecSubExact | src/main/java/plc/project/Interpreter.java:181 | BigDecimal.subtract is exact |
| Numbers.DecMulExact | src/main/java/plc/project/Interpreter.java:189 | BigDecimal.multiply is exact |
| Numbers.DecCompareValue | src/main/java/plc/project/Interpreter.java:156-162 | compareTo orders decimals by numeric value, whatever the scales |
| Numbers.DecCompare | src/main/java/plc/project/Interpreter.java:156-162 | compareTo of decimals is -1, 0 or 1, and 0 on equal decimals |
| Numbers.DecIsZeroValue | src/main/java/plc/project/Interpreter.java:200 | compareTo(ZERO) == 0 exactly for a zero unscaled value |
| Numbers.RoundHalfEvenNearest | src/main/java/plc/project/Interpreter.java:203 | HALF_EVEN rounds to within half a unit, and to the even neighbour on a tie |
| Numbers.RoundHalfEven | src/main/java/plc/project/Interpreter.java:203 | HALF_EVEN rounding is within one of the truncated quotient |
| Numbers.DecDiv | src/main/java/plc/project/Interpreter.java:203 | the quotient keeps the dividend's scale |
| Numbers.DotIndex | src/main/java/plc/project/Parser.java:391 | the first `.` of the text, or its length |
| Numbers.ParseBigDecimal | src/main/java/plc/project/Parser.java:391 | an accepted text has a scale below its length, and a negative value was written with a leading minus |
| Numbers.ParseBigDecimalExample | src/main/java/plc/project/Parser.java:391 | "+1.50" is 150 at scale 2 |
| Numbers.ParseBigDecimalTrailingDot | src/main/java/plc/project/Parser.java:391 | "1." is 1 at scale 0 |
| Numbers.ParseBigDecimalLoneDot | src/main/java/plc/project/Parser.java:391 | "." is refused |
| Interpretation.TypeError | src/main/java/plc/project/Interpreter.java:242 | requireType's failure is a null dereference exactly for a null value |
| Interpretation.RequireType | src/main/java/plc/project/Interpreter.java:238-244 | requireType succeeds iff the value is an instance, returns it unchanged, and otherwise raises the type error |
| Interpretation.IsInstance | src/main/java/plc/project/Interpreter.java:239 | no instance test holds of null or Nil |
| Interpretation.LiteralValue | src/main/java/plc/project/Interpreter.java:137-139 | Environment.create gives null exactly for the null literal, and every other literal a Comparable value that is not Nil |
| Interpretation.Display | src/main/java/plc/project/Interpreter.java:167-170 | an Integer displays as text BigInteger reads back as the same value, a Character as one character, and only a String can display as empty text |
| Interpretation.PrintText | src/main/java/plc/project/Interpreter.java:17-20 | println writes a String as it is, and any other value, null as "null", as non-empty text |
| Interpretation.CompareTo | src/main/java/plc/project/Interpreter.java:155-162 | compareTo succeeds iff both values are of one class; otherwise a null argument is a null dereference and another class a failed cast; zero means equal values, for decimals equal numeric values |
| Interpretation.ApplyBinary | src/main/java/plc/project/Interpreter.java:150-210 | only the twelve operators succeed; logical and comparison operators yield a Boolean; arithmetic yields a String, an Integer from two Integers or a Decimal from two Decimals |
| Interpretation.Define | src/main/java/plc/project/Interpreter.java:73 | defining a variable only adds a binding |
| Interpretation.EvalExpr | src/main/java/plc/project/Interpreter.java:137-233 | evaluation only defines variables in the one scope and appends output |
| Interpretation.EvalArgs | src/main/java/plc/project/Interpreter.java:224-226 | argument evaluation only defines variables and appends output |
| Interpretation.Invocation | src/main/java/plc/project/Interpreter.java:47-60 | a call only defines variables and appends output |
| Interpretation.ExecStmt | src/main/java/plc/project/Interpreter.java:64-134 | a statement only defines variables and appends output |
| Interpretation.ExecStmts | src/main/java/plc/project/Interpreter.java:53-55 | a statement list only defines variables and appends output |
| Interpretation.ExecWhile | src/main/java/plc/project/Interpreter.java:121-129 | a while loop only defines variables and appends output |
| Interpretation.ExecField | src/main/java/plc/project/Interpreter.java:39-43 | a field only defines variables and appends output |
| Interpretation.ExecFields | src/main/java/plc/project/Interpreter.java:29-31 | the field loop only defines variables and appends output |
| Interpretation.DefineMethod | src/main/java/plc/project/Interpreter.java:46-62 | the method is then found under its name and parameter count; variables, parent and output are unchanged |
| Interpretation.DefineMethods | src/main/java/plc/project/Interpreter.java:32-34 | the method loop keeps every function already bound and changes no variable, parent or output |
| Interpretation.RunSource | src/main/java/plc/project/Interpreter.java:28-36 | a run only appends output and keeps the parent; a successful run found main/0 |
| Interpretation.Interpreter.constructor | src/main/java/plc/project/Interpreter.java:15-21 | the interpreter starts in a child of the parent with print/1 bound, and nothing printed |
| Interpretation.Interpreter.VisitSource | src/main/java/plc/project/Interpreter.java:28-36 | visit(Source) returns RunSource's value and leaves its state |
| Interpretation.Interpreter.VisitField | src/main/java/plc/project/Interpreter.java:39-43 | visit(Field) follows ExecField |
| Interpretation.Interpreter.VisitMethod | src/main/java/plc/project/Interpreter.java:46-62 | visit(Method) binds the method by name and parameter count |
| Interpretation.Interpreter.Invoke | src/main/java/plc/project/Interpreter.java:47-60 | invoking a function follows Invocation |
| Interpretation.Interpreter.VisitStatements | src/main/java/plc/project/Interpreter.java:53-55 | a statement loop follows ExecStmts |
| Interpretation.Interpreter.VisitStmt | src/main/java/plc/project/Interpreter.java:64-134 | a statement visit follows ExecStmt |
| Interpretation.Interpreter.VisitAssignment | src/main/java/plc/project/Interpreter.java:78-88 | visit(Assignment) follows ExecStmt |
| Interpretation.Interpreter.VisitWhile | src/main/java/plc/project/Interpreter.java:121-129 | the while loop follows ExecWhile |
| Interpretation.Interpreter.VisitExpr | src/main/java/plc/project/Interpreter.java:137-233 | an expression visit follows EvalExpr |
| Interpretation.Interpreter.VisitArguments | src/main/java/plc/project/Interpreter.java:224-226 | the argument stream follows EvalArgs |
| InterpretationProperties.IntegerDivision | src/main/java/plc/project/Interpreter.java:194-198 | integer `/` truncates toward zero, and a zero divisor is "Division by zero" |
| InterpretationProperties.IntegerDivisionExamples | src/main/java/plc/project/Interpreter.java:194-198 | -7 / 2 is -3 and 7 / -2 is -3; 1 / 0 fails |
| InterpretationProperties.DecimalDivision | src/main/java/plc/project/Interpreter.java:199-203 | decimal `/` refuses a zero divisor of any scale, keeps the dividend's scale and is within half a unit |
| InterpretationProperties.DecimalZeroAnyScale | src/main/java/plc/project/Interpreter.java:200-202 | 1.0 / 0.00 is "Division by zero" |
| InterpretationProperties.PlusRule | src/main/java/plc/project/Interpreter.java:167-176 | `+` concatenates display strings when a side is a String, adds Integers or Decimals exactly, and refuses every other pair |
| InterpretationProperties.PlusExamples | src/main/java/plc/project/Interpreter.java:167-176 | 1 + "a" is "1a", "x" + nil is "xnil", 1 + 1.0 fails, null + "a" is a null dereference |
| InterpretationProperties.MinusTimesRule | src/main/java/plc/project/Interpreter.java:177-192 | `-` and `*` succeed iff both are Integers or both Decimals, are exact, and otherwise fail with "Invalid operands" |
| InterpretationProperties.ShortCircuit | src/main/java/plc/project/Interpreter.java:151-154 | false AND x is false and true OR x is true, whatever x |
| InterpretationProperties.LogicalRule | src/main/java/plc/project/Interpreter.java:151-154 | AND and OR are the connectives, succeed iff the operands they inspect are Boolean |
| InterpretationProperties.EqualityRule | src/main/java/plc/project/Interpreter.java:163-166 | `==` and `!=` are value equality with no type requirement; only a null left operand fails |
| InterpretationProperties.EqualityExamples | src/main/java/plc/project/Interpreter.java:155-166 | 1.0 == 1.00 is false while 1.0 <= 1.00 and 1.0 >= 1.00 hold; 1 == 1.0 is false |
| InterpretationProperties.ComparisonRule | src/main/java/plc/project/Interpreter.java:155-162 | a comparison succeeds iff both sides are Comparable of one class; Integers compare as integers, Decimals by value |
| InterpretationProperties.StringCompareOrder | src/main/java/plc/project/Interpreter.java:156 | String compareTo is antisymmetric and zero exactly on equal strings |
| InterpretationProperties.PrefixComesFirst | src/main/java/plc/project/Interpreter.java:156 | a proper prefix compares below |
| InterpretationProperties.UnknownOperatorRule | src/main/java/plc/project/Interpreter.java:207-208 | any other operator fails with "Unknown operator: " and its name |
| InterpretationProperties.StatementsAppend | src/main/java/plc/project/Interpreter.java:53-58 | running a + b is running a, then b only when a completed normally |
| InterpretationProperties.StatementsShift | src/main/java/plc/project/Interpreter.java:53-55 | running b from j is running a + b from |a| + j |
| InterpretationProperties.ReturnEndsBlock | src/main/java/plc/project/Interpreter.java:132-134 | nothing after a Return runs, and the block returns the value |
| InterpretationProperties.BlockLeaks | src/main/java/plc/project/Interpreter.java:91-97 | a declaration inside an if branch stays visible after it |
| InterpretationProperties.AssignmentDefinesHere | src/main/java/plc/project/Interpreter.java:84-86 | an assignment without receiver defines the name in the current scope and leaves the parent |
| InterpretationProperties.ForFails | src/main/java/plc/project/Interpreter.java:108-118 | in this model, where no value is an Iterable, a for loop always fails |
| InterpretationProperties.WhileFalse | src/main/java/plc/project/Interpreter.java:121-129 | a false condition ends a while at once, changing nothing |
| InterpretationProperties.EndlessLoop | src/main/java/plc/project/Interpreter.java:121-129 | `WHILE TRUE DO END` never finishes, whatever the fuel |
| InterpretationProperties.ConditionMustBeBoolean | src/main/java/plc/project/Interpreter.java:92 | a non-Boolean if or while condition is a type error |
| InterpretationProperties.ArgumentsBeforeReceiver | src/main/java/plc/project/Interpreter.java:224-229 | arguments are evaluated before the receiver; in this model, where no value is a Scope, a call with a receiver always fails |
| InterpretationProperties.CallByNameAndCount | src/main/java/plc/project/Interpreter.java:230-232 | a call without receiver finds its function by name and argument count, or fails if none is bound |
| InterpretationProperties.ArgumentsCount | src/main/java/plc/project/Interpreter.java:224-226 | one value per argument |
| InterpretationProperties.PrintWrites | src/main/java/plc/project/Interpreter.java:17-20 | print writes its argument's display string as one line (null as "null") and yields Nil |
| InterpretationProperties.PrintBound | src/main/java/plc/project/Interpreter.java:17 | print/1 is bound from the start |
| InterpretationProperties.MethodResult | src/main/java/plc/project/Interpreter.java:52-59 | a method yields the returned value, Nil when its body just ends, and its body's error otherwise |
| InterpretationProperties.ParametersUnbound | src/main/java/plc/project/Interpreter.java:48-51 | a parameter is not visible to the body: returning it fails when nothing else binds it |
| InterpretationProperties.MainRequired | src/main/java/plc/project/Interpreter.java:35 | without main/0 the run fails after the fields and methods |
| InterpretationProperties.MainRuns | src/main/java/plc/project/Interpreter.java:28-36 | a source of one parameterless main runs it with no arguments |
| InterpretationProperties.EvalExprFuel | src/main/java/plc/project/Interpreter.java:137-233 | an expression result other than running out of fuel stays the same with more fuel |
| InterpretationProperties.EvalArgsFuel | src/main/java/plc/project/Interpreter.java:224-226 | the same for argument evaluation |
| InterpretationProperties.InvocationFuel | src/main/java/plc/project/Interpreter.java:47-60 | the same for a call |
| InterpretationProperties.ExecStmtFuel | src/main/java/plc/project/Interpreter.java:64-134 | the same for a statement |
| InterpretationProperties.ExecStmtsFuel | src/main/java/plc/project/Interpreter.java:53-55 | the same for a statement list |
| InterpretationProperties.ExecWhileFuel | src/main/java/plc/project/Interpreter.java:121-129 | the same for a while loop |
| InterpretationProperties.ExecFieldsFuel | src/main/java/plc/project/Interpreter.java:29-31 | the same for the field loop |
| InterpretationProperties.RunSourceFuel | src/main/java/plc/project/Interpreter.java:28-36 | a program that finishes within some bound finishes the same way within any larger one |
| Generation.IndexOf | src/main/java/plc/project/Generator.java:176 | List.indexOf is -1 or a position of the list |
| Generation.IndexOfFirst | src/main/java/plc/project/Generator.java:176 | indexOf finds the first equal statement, and -1 exactly when there is none |
| Generation.JavaType | src/main/java/plc/project/Generator.java:111-125 | the Java spelling of a type name is double, int, String, boolean or Object |
| Generation.DeclarationType | src/main/java/plc/project/Generator.java:110-148 | a declaration is always given one of those five Java types |
| Generation.ReturnTypeText | src/main/java/plc/project/Generator.java:68-71 | a return type is never written "Integer", and is "int" exactly for Integer or int |
| Generation.LiteralText | src/main/java/plc/project/Generator.java:241-248 | only the null literal fails, and an integer is written as text BigInteger reads back as the same value |
| Generation.GField | src/main/java/plc/project/Generator.java:56-64 | a written field ends with a semicolon |
| Generation.SourceHead | src/main/java/plc/project/Generator.java:33-40 | at indent 0 the prologue is the class line, a blank line, the main method and a blank line |
| Generation.Generator.constructor | src/main/java/plc/project/Generator.java:10-12 | the writer starts empty and indent at 0 |
| Generation.Generator.Print | src/main/java/plc/project/Generator.java:27-29 | print appends the text |
| Generation.Generator.Newline | src/main/java/plc/project/Generator.java:20-25 | newline(n) appends the line separator and n levels of four spaces |
| Generation.Generator.VisitSource | src/main/java/plc/project/Generator.java:32-53 | visit(Source) appends GSource's text and, on success, lowers indent by 2 |
| Generation.Generator.PrintPrologue | src/main/java/plc/project/Generator.java:33-40 | the class and main prologue, lowering indent once |
| Generation.Generator.VisitFields | src/main/java/plc/project/Generator.java:42-44 | the field loop appends GFields' text |
| Generation.Generator.VisitMethods | src/main/java/plc/project/Generator.java:46-48 | the method loop appends GMethods' text |
| Generation.Generator.VisitField | src/main/java/plc/project/Generator.java:56-64 | visit(Field) appends GField's text |
| Generation.Generator.VisitMethod | src/main/java/plc/project/Generator.java:67-97 | visit(Method) appends GMethod's text and, on success, restores indent |
| Generation.Generator.VisitParameters | src/main/java/plc/project/Generator.java:74-81 | the parameter loop appends GParameters' text |
| Generation.Generator.VisitMethodBody | src/main/java/plc/project/Generator.java:84-95 | the body loop appends GMethodBody's text |
| Generation.Generator.VisitStmt | src/main/java/plc/project/Generator.java:100-238 | a statement visit appends GStmt's text and, on success, restores indent |
| Generation.Generator.VisitBranch | src/main/java/plc/project/Generator.java:174-179 | the if-branch loop appends GBranch's text |
| Generation.Generator.VisitLoopBody | src/main/java/plc/project/Generator.java:204-207 | the loop-body loop appends GLoopBody's text |
| Generation.Generator.VisitIf | src/main/java/plc/project/Generator.java:169-196 | visit(If) appends GIf's text and, on success, leaves indent unchanged |
| Generation.Generator.VisitFor | src/main/java/plc/project/Generator.java:199-211 | visit(For) appends GFor's text and, on success, leaves indent unchanged |
| Generation.Generator.VisitWhile | src/main/java/plc/project/Generator.java:214-230 | visit(While) appends GWhile's text and, on success, leaves indent unchanged |
| Generation.Generator.VisitExpr | src/main/java/plc/project/Generator.java:241-278 | an expression visit appends GExpr's text |
| Generation.Generator.VisitCall | src/main/java/plc/project/Generator.java:281-307 | visit(Function) appends GExpr's text for the call |
| Generation.Generator.VisitArguments | src/main/java/plc/project/Generator.java:298-303 | the argument loop appends GArguments' text |
| GenerationProperties.SpacesShape | src/main/java/plc/project/Generator.java:22-24 | Spaces: n levels are 4n spaces, none when n <= 0 |
| GenerationProperties.NewlineNonPositive | src/main/java/plc/project/Generator.java:20-25 | NewlineText: newline(n) with n <= 0 writes the separator alone |
| GenerationProperties.BinaryOperator | src/main/java/plc/project/Generator.java:259-268 | GExpr: left, space, operator (AND as &&), space, right |
| GenerationProperties.BinaryLeftFirst | src/main/java/plc/project/Generator.java:260-266 | a failing left operand decides the error |
| GenerationProperties.OrIsVerbatim | src/main/java/plc/project/Generator.java:262-264 | `a OR b` is written "a OR b", `a AND b` as "a && b" |
| GenerationProperties.LiteralTexts | src/main/java/plc/project/Generator.java:241-248 | a string is quoted without escaping, null cannot be written, true and characters by toString |
| GenerationProperties.QuoteNotEscaped | src/main/java/plc/project/Generator.java:243 | a string holding a quote is written with it unescaped |
| GenerationProperties.ArgumentsJoined | src/main/java/plc/project/Generator.java:298-303 | GArguments: the arguments are joined by ", " with nothing after the last |
| GenerationProperties.ArgumentFails | src/main/java/plc/project/Generator.java:298-303 | the first failing argument decides the error |
| GenerationProperties.PrintCall | src/main/java/plc/project/Generator.java:282-285 | print writes System.out.println of its first argument, ignoring the receiver and the others; without arguments it fails |
| GenerationProperties.CallText | src/main/java/plc/project/Generator.java:287-304 | another call writes receiver and dot, the name with slice as substring, and the joined arguments |
| GenerationProperties.SliceExample | src/main/java/plc/project/Generator.java:291-292 | `s.slice(i, j)` is written "s.substring(i, j)" |
| GenerationProperties.DeclarationTypes | src/main/java/plc/project/Generator.java:110-148 | the explicit type name wins over the variable's type, and Object is the default |
| GenerationProperties.JavaTypes | src/main/java/plc/project/Generator.java:111-125 | Decimal, Integer, String and Boolean map to double, int, String, boolean, everything else to Object |
| GenerationProperties.VariableTypes | src/main/java/plc/project/Generator.java:127-146 | the resolved variable's type tag maps the same way |
| GenerationProperties.DeclarationText | src/main/java/plc/project/Generator.java:107-157 | a declaration writes type, name, optional initializer and a semicolon |
| GenerationProperties.FieldWithoutTypeName | src/main/java/plc/project/Generator.java:57 | a field without type name writes "null name;" |
| GenerationProperties.ReturnTypes | src/main/java/plc/project/Generator.java:68-71 | the return type is Any when absent, int for Integer, otherwise verbatim |
| GenerationProperties.ParametersJoined | src/main/java/plc/project/Generator.java:74-81 | GParameters: with enough type names, "Type name" pairs joined by ", " |
| GenerationProperties.ParametersNeedTypeNames | src/main/java/plc/project/Generator.java:76 | too few type names fail out of range |
| GenerationProperties.UntypedParametersFail | src/main/java/plc/project/Generator.java:74-81 | a method with parameters but no type names, as parsed, cannot be written |
| GenerationProperties.MethodClosing | src/main/java/plc/project/Generator.java:84-96 | GMethodBody: an empty body closes with "    }" alone, a non-empty one adds a line separator |
| GenerationProperties.BranchJoined | src/main/java/plc/project/Generator.java:174-179 | GBranch: with no repeated statement, a newline between neighbours and none after the last |
| GenerationProperties.RepeatedLastStatement | src/main/java/plc/project/Generator.java:176 | a last statement equal to an earlier one gets a trailing newline |
| GenerationProperties.ElseAppended | src/main/java/plc/project/Generator.java:183-194 | GIf: a non-empty else list is written after the then part |
| GenerationProperties.IfWithoutElse | src/main/java/plc/project/Generator.java:183 | an empty else list writes nothing after the then part |
| GenerationProperties.LoopBodyTerminated | src/main/java/plc/project/Generator.java:204-207 | GLoopBody: a loop body has a newline after every statement, the last included |
| GenerationProperties.EmptyWhile | src/main/java/plc/project/Generator.java:218-219 | GWhile: an empty while is written on one line |
| GenerationProperties.ForText | src/main/java/plc/project/Generator.java:199-211 | GFor: a for loop is written as a Java enhanced for over int |
| GenerationProperties.SourceFrame | src/main/java/plc/project/Generator.java:32-53 | GSource: a program opens with "public class Main {" and ends with "}" |
| GenerationProperties.FieldsConcatenated | src/main/java/plc/project/Generator.java:42-44 | GFields: fields are written back to back, with no separator of their own |
| GenerationProperties.ExprPrints | src/main/java/plc/project/Generator.java:241-307 | GExpr: an expression with no null literal and no print call without arguments is always written |
| GenerationProperties.ArgumentsPrint | src/main/java/plc/project/Generator.java:298-303 | GArguments: printable arguments are always written |
| GenerationProperties.StmtPrints | src/main/java/plc/project/Generator.java:100-238 | GStmt, GIf, GFor, GWhile: a statement whose expressions are printable is always written |
| GenerationProperties.BranchPrints | src/main/java/plc/project/Generator.java:174-179 | GBranch: an if branch of printable statements is always written |
| GenerationProperties.LoopBodyPrints | src/main/java/plc/project/Generator.java:204-207 | GLoopBody: a loop body of printable statements is always written |
| GenerationProperties.MethodBodyPrints | src/main/java/plc/project/Generator.java:84-95 | GMethodBody: a method body of printable statements is always written |
| GenerationProperties.MethodPrints | src/main/java/plc/project/Generator.java:67-97 | GMethod: a method with a type name per parameter and a printable body is always written |
| GenerationProperties.FieldsPrint | src/main/java/plc/project/Generator.java:42-44 | GFields: fields with printable initializers are always written |
| GenerationProperties.MethodsPrint | src/main/java/plc/project/Generator.java:46-48 | GMethods: printable methods are always written |
| GenerationProperties.SourcePrints | src/main/java/plc/project/Generator.java:32-53 | GSource: generate throws nothing on a source whose fields and methods are printable |
| Regexes.DigitEnd | src/main/java/plc/homework/Regex.java:16 | the greedy run of digits: all digits before it, a non-digit or the bound at it |
| Regexes.FirstAt | src/main/java/plc/homework/Regex.java:12 | the first @ at or after i, or the end |
| Regexes.LastDot | src/main/java/plc/homework/Regex.java:12 | the last dot, or -1 |
| Regexes.EmailPattern | src/main/java/plc/homework/Regex.java:12 | a match has at least six characters |
| Regexes.IsEmail | src/main/java/plc/homework/Regex.java:12 | an accepted address has at least six characters and exactly one @ |
| Regexes.EmailDecided | src/main/java/plc/homework/Regex.java:12 | splitting at the first @ and the last dot decides EMAIL exactly |
| Regexes.EmailExamples | src/main/java/plc/homework/Regex.java:12 | "ab@c.de" matches; a one-letter top level, an empty domain or local part do not |
| Regexes.EvenStringsDecided | src/main/java/plc/homework/Regex.java:14 | EVEN_STRINGS is an even length from 10 to 20 with no line terminator |
| Regexes.EvenStringsPattern | src/main/java/plc/homework/Regex.java:14 | a match has an even length from 10 to 20 |
| Regexes.IsEvenString | src/main/java/plc/homework/Regex.java:14 | an accepted string is two characters followed by four to nine pairs |
| Regexes.EvenStringsExamples | src/main/java/plc/homework/Regex.java:14 | a length of 10 matches; 9, 11, and 10 with a newline inside do not |
| Regexes.ItemsDecided | src/main/java/plc/homework/Regex.java:16 | the item scanner decides the repeated `, ?\d+` part exactly |
| Regexes.IntegerListDecided | src/main/java/plc/homework/Regex.java:16 | the scanner decides INTEGER_LIST exactly |
| Regexes.IntegerListPattern | src/main/java/plc/homework/Regex.java:16 | a non-empty list match starts with a digit |
| Regexes.IsIntegerList | src/main/java/plc/homework/Regex.java:16 | a non-empty accepted list starts with a digit |
| Regexes.IntegerListExamples | src/main/java/plc/homework/Regex.java:16 | "[]" and "[1,2, 3]" match; two spaces, a trailing comma or a leading space do not |
| Regexes.NumberDecided | src/main/java/plc/homework/Regex.java:18 | the scanner decides NUMBER exactly |
| Regexes.NumberPattern | src/main/java/plc/homework/Regex.java:18 | a match is non-empty and ends in a digit |
| Regexes.IsNumber | src/main/java/plc/homework/Regex.java:18 | an accepted number is non-empty and ends in a digit |
| Regexes.NumberExamples | src/main/java/plc/homework/Regex.java:18 | "-1.5", "+10", "0" match; "1.", ".5", "+", "1.2.3" do not |
| Regexes.ChunksDecided | src/main/java/plc/homework/Regex.java:20 | the chunk scanner decides the repeated escape-or-character part exactly |
| Regexes.StringDecided | src/main/java/plc/homework/Regex.java:20 | the scanner decides STRING exactly |
| Regexes.ScanChunks | src/main/java/plc/homework/Regex.java:20 | every quote the chunk scanner accepts is the second character of an escape |
| Regexes.StringPattern | src/main/java/plc/homework/Regex.java:20 | inside the quotes of a match, a quote only follows a backslash |
| Regexes.IsStringLiteral | src/main/java/plc/homework/Regex.java:20 | inside the quotes of an accepted literal, a quote only follows a backslash |
| Regexes.StringExamples | src/main/java/plc/homework/Regex.java:20 | the empty string, an escaped and a raw newline match; a bad escape, a missing closing quote or an escaped closing quote do not |

## Left out

- Scope.java, Environment.java, Ast.java and Token.java are not part of this model. `scopes.dfy` and `ast.dfy` declare what the core uses of them. Defining a name a scope already binds replaces the binding.
- Environment.getType, Type.getField and Type.getMethod are a map parameter, `TypeEnv`.
- `__currentFunctionReturnType` is an ordinary variable lookup that nothing binds, so a return statement passes analysis only if a caller's scope binds that name.
- The Environment.NIL display is taken to be "nil".
- Interpretation.IsInstance: no value of this model is an Iterable or a Scope, because the value datatype has no list, range or object constructor. Environment.PlcObject and Java iterables handed in from outside the core are not modelled. So in this model the interpreter's for loop, and every access, assignment or call with a receiver, fail at requireType.
- Interpretation.EvalExpr, Interpretation.ExecStmt, Interpretation.Invocation: a `fuel` argument bounds the recursion, and running out of it yields `OutOfFuel`. The `*Fuel` lemmas show that any other result is the same for every larger bound. So a program whose result is `OutOfFuel` at every bound does not terminate, such as the endless loop of `EndlessLoop`. One `OutOfFuel` result alone only means the program did not finish within that bound.
- The print native's System.out.println is an append to the `output` log, one line per call.
- Generator.generate's flush and `writer.toString()` are left out. The model's `writer` is the text itself. `System.lineSeparator()` is the parameter `nl`.
- Characters are Unicode code points, whereas Java `String`s are UTF-16. The lexer, the parser's `charAt(1)` and `String.compareTo` therefore differ from Java on characters outside the Basic Multilingual Plane.
- BigDecimal is modelled exactly, as an unscaled integer and a scale, with no exponent literals, which the lexer never produces. The analyzer's double range check is the exact threshold at which `doubleValue()` becomes infinite.
- java.util.regex is replaced by predicates on whole strings, as `Matcher.matches` reads them. EMAIL has no anchors, and is modelled as a whole-string match.
- The state an exception leaves behind is modelled only as far as a caller reads it. The interpreter's scope and output after a throw are exact. The analyzer's scope after a throw is left unconstrained.
- Generation.Wrote: after a failed visit, `Wrote` fixes the error but not the `writer` contents, so the partial text written before the failure is left unconstrained.
- Analysis.PrintFunction: Scope.java is not part of this model, so what the three-argument `defineFunction("print", 1, ...)` records is taken to be one parameter of type Any and a Nil return type, under the name "print".
- AnalysisProperties.AnalysisIdempotent: analysing an analysed expression again is proved to give it back unchanged. The same fact for statements, methods and sources is not proved.
- Numbers.ParseBigInteger, Numbers.ParseBigDecimal: only the ASCII digits are accepted. Java's BigInteger and BigDecimal also accept other Unicode decimal digits, but the lexer never puts one in a number literal.
- The AST setters are modelled as the returned copy with the slot filled in, not as updates to shared nodes.
- A runtime `Return` turned into an outcome value replaces Java exceptions as control flow. Each Java exception class becomes a constructor of an error datatype.
