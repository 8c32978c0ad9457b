# rust-js-parser in Dafny

A model of the front end of rust-js-parser, a JavaScript parser written in Rust,
together with the evaluator helpers of its companion script `src/a.js`.

- The lexer (`src/lex.rs`) turns source text into tokens (`src/token.rs`).
  It tracks line and column. It reads words, keywords, strings with
  escapes, numbers with exponents, operators, comments, regular expressions
  with flags, and template strings.
- The parser (`src/parser.rs`, `src/express.rs`, `src/exp/*.rs`) builds a
  Babel-like syntax tree. Statements are parsed by recursive descent.
  Expressions are parsed by a precedence loop driven by `get_level`.
- `src/a.js` holds the evaluator's helpers:
  - the `var`-hoisting walk (`getElevationVariableList`);
  - the property write and read dispatch (`setObjKey`, `getObjValue`,
    `getValueOperator`, `isIgnoreObjKey`);
  - the one-line node text used in messages (`getNodeStr`);
  - the comment-suppressing printer wrapper (`getNodeCode`).

Files and modules:

- `wrappers.dfy` (`Wrappers`): `Option` and `Result`.
- `tokens.dfy` (`Tokens`): the token type, its two display texts and `is_keyword`.
- `ast.dfy` (`Ast`): the parser's node type.
- `express.rs`'s free functions are in `express.dfy` (`Express`):
  - `get_level`;
  - `expect`, `expect_keyword` and `expect_keys`;
  - `is_ctrl_word`;
  - the binding predicates that describe well-formed operator trees.
- `lexer.dfy` (`Lexing`): the class `Lexer`. It has the source's fields
  (`input`, `pos`, `line`, `column`) and one method per `read_*` function.
  Each method is proved equal to a pure scanning function (`ScanWord`,
  `ScanString`, `ScanRegex`, …). The lemmas are stated about those functions.
- `parser.dfy` (`Parsing`): the class `Parser`, with one method per builder.
  The builders are mutually recursive. Every one of them either fails or
  consumes at least one token, and the token count is the termination
  measure.
- `babel.dfy`, `hoisting.dfy`, `objects.dfy`, `nodetext.dfy` (`Babel`,
  `Hoisting`, `Objects`, `NodeText`): the `src/a.js` helpers.

Modelling choices:

- The parser reads the token list the lexer produces, each token with its
  start line (`Tokenize`). The parser's `regex_allowed` flag is written
  but `lex.rs` never reads it. The source lexes one token at a time, so
  lexing the whole input first differs when the input holds a character the
  lexer refuses after the point where parsing stops (see "## Left out").
- Rust `panic!`s become `Err` results carrying the same message.
- The repository has two token types with the same variants. `src/token.rs`
  displays reserved words in lower case; `src/lex.rs` displays them as
  capitalised variant names. Messages are built with the display of the
  type the formatting file imports. `src/express.rs` and most builders use
  the lex.rs type (`LexDisplay`), so `do {} x` fails with
  `expect keyword While`. `src/exp/declaration_exp.rs` uses the token.rs
  type (`Display`).
- A `string` is a sequence of `char`s. The lexer reads Unicode scalar values,
  as `chars().nth` does in `lex.rs`. In the `src/a.js` modules a `string` is
  read as the sequence of a JavaScript string's UTF-16 code units, so a
  character outside the Basic Multilingual Plane is two elements there
  (see `NodeText.Truncate` under "## Left out").
- The description of `src/a.js` says function declarations are hoisted
  together with `var` declarations. The code does not hoist them; the first
  row of "## Findings" models the code as written beside the corrected walk.
- Each of the four rows of "## Findings" has an as-written member and a
  corrected member. The driver (`Tokenize`, `ParseProgram`,
  `ParseStatement`, `FoldOperator`, `ParseExpression`) is built from the
  corrected halves: it keeps regular expression flag letters in the body,
  stops a `for` header's `let` in front of its `;`, and parses call
  arguments at level 2. On inputs that reach those three places its
  results differ from the source's (see "## Left out").

## Model

| member | source | states |
|---|---|---|
| Tokens.IsKeyword | src/token.rs:114-154 | definition, no contract of its own: `is_keyword`, true exactly for the reserved words; `KeywordOfSound` states that the lexer's keywords satisfy it |
| Tokens.Display | src/token.rs:55-112 | definition, no contract of its own: token.rs's `Display` text, with reserved words in lower case, as `build_declarator`'s message shows them; `KeywordRoundTrip` and `KeywordOfSound` tie it to the lexer's keywords |
| Tokens.LexDisplay | src/lex.rs:68-122 | definition, no contract of its own: lex.rs's `Display` text, with reserved words as capitalised variant names, used by the messages of `src/express.rs` |
| Tokens.DisplaysAgree | src/lex.rs:68-122 | the two display texts differ only in that lex.rs capitalises each reserved word's first letter and has no text of its own for a comment |
| Ast.SetParenthesized | src/exp/arrow_function_exp.rs:55-58 | the result is marked parenthesised; an already marked node is unchanged, any other node is wrapped once |
| Express.GetLevel | src/express.rs:313-344 | every level is between 1 and 17; a token without a level gives `get level err` followed by the token's text |
| Express.GetLevelDomain | src/express.rs:313-344 | a token has a level exactly when it is a control word of the table or one of `instanceof in typeof void delete await new`; a control word's level is its table row |
| Express.Expect | src/express.rs:379-389 | succeeds exactly on the control token `s`; a different control word and a non-control token give the two distinct messages |
| Express.ExpectKeyword | src/express.rs:391-396 | succeeds exactly on the expected keyword, otherwise the message names it in lex.rs's spelling (`expect keyword While`) |
| Express.ExpectKeys | src/express.rs:398-405 | succeeds exactly when the token is in the list and returns that token; otherwise the message lists the candidates in their derived `Debug` spelling |
| Express.DebugString | src/express.rs:398-405 | Rust's `Debug` spelling of a string is between double quotes and at least as long as the text plus the quotes |
| Express.DebugEscapePlain | src/express.rs:398-405 | a string with no quote, backslash, line break or tab is printed unchanged between the quotes |
| Express.AdditiveLeftAssociative | src/express.rs:205-215 | in a tree the loop builds, `+` and `-` never have another `+`/`-` as right operand: `a - b - c` groups to the left |
| Express.AssignmentRightAssociative | src/express.rs:174-182 | an assignment may have an assignment on its right (`a = b = c` groups right) but never a comma list |
| Express.SequenceIsFlat | src/express.rs:156-173 | a comma list the loop builds holds no comma list directly |
| Lexing.SpanEnd | src/lex.rs:224-235 | the end of the longest run of characters with a property: all characters before it have it, the one at it does not |
| Lexing.Lexer.constructor | src/lex.rs:133-140 | a new lexer starts at position 0, line 1, column 1 |
| Lexing.Lexer.Next | src/lex.rs:141-218 | skips blanks (updating line and column), then returns what `ScanToken` gives at the first non-blank, with the start and end positions; at the end of input, `EOF` with an empty span |
| Lexing.Lexer.SkipBlanks | src/lex.rs:146-168 | stops at the first non-blank; line and column are those `AfterBlanks` computes for the skipped text |
| Lexing.AfterBlanksLine | src/lex.rs:158-161 | skipping blanks adds one line per line feed |
| Lexing.AfterBlanksSameLine | src/lex.rs:150-157 | without a line feed, the column grows by one per space or tab, and carriage returns do not count |
| Lexing.AfterBlanksNewLine | src/lex.rs:158-161 | after the last line feed, the column restarts at 1 plus the spaces and tabs that follow |
| Lexing.TokenDispatch | src/lex.rs:174-212 | a punctuation character is a one-character control token; a character no reader claims gives `Unrecognized character` |
| Lexing.ScanToken | src/lex.rs:174-212 | a token read from a non-blank consumes at least one character and is never `EOF` |
| Lexing.Lexer.ReadToken | src/lex.rs:174-212 | the token and new position agree with `ScanToken`; the line is unchanged and the column advances by the characters read |
| Lexing.ScanWord | src/lex.rs:220-275 | a word is the longest run of word characters, classified as keyword or variable |
| Lexing.Lexer.ReadWord | src/lex.rs:220-275 | the token and end position are `ScanWord`'s, with the column advanced by the word's length |
| Lexing.KeywordRoundTrip | src/lex.rs:236-274 | every keyword's display text reads back as that keyword |
| Lexing.KeywordOfSound | src/lex.rs:236-274 | a word read as a keyword gives a token `is_keyword` accepts, and that keyword's display text is the word itself; any other word is a variable of that name |
| Lexing.KeywordsRead1 | src/token.rs:114-154 | the keywords `var` … `async` read back from their display text |
| Lexing.KeywordsRead2 | src/token.rs:114-154 | the keywords `function` … `break` read back from their display text |
| Lexing.KeywordsRead3 | src/token.rs:114-154 | the keywords `continue` … `finally` read back from their display text |
| Lexing.KeywordsRead4 | src/token.rs:114-154 | the keywords `throw` … `typeof` read back from their display text |
| Lexing.KeywordsRead5 | src/token.rs:114-154 | the keywords `class` … `debugger` read back from their display text |
| Lexing.ScanString | src/lex.rs:277-340 | a string read successfully is a `String` token and consumes at least the quote |
| Lexing.Lexer.ReadString | src/lex.rs:277-340 | the token and new position agree with `ScanString`; the line is unchanged |
| Lexing.StringRoundTrip | src/lex.rs:277-340 | a string escaped and quoted reads back as itself, its end just after the closing quote |
| Lexing.UnterminatedString | src/lex.rs:277-340 | without a closing quote the text read so far is the string, ending at the end of input |
| Lexing.StringRawLineFeed | src/lex.rs:277-340 | an unescaped line feed inside a string is an error naming the line; an escaped one is kept |
| Lexing.ScanOperator | src/lex.rs:342-373 | an operator token consumes at least one character |
| Lexing.OperatorShape | src/lex.rs:342-373 | an operator is the longest run of operator characters; a lone `/` at the end is the division sign; `//` starts a comment; `/` followed by anything else starts a regular expression |
| Lexing.Lexer.OperatorRun | src/lex.rs:342-373 | the loop of `read_operation`: where the run ends, the word read, and whether a comment or a regular expression follows |
| Lexing.Lexer.ReadOperation | src/lex.rs:342-373 | the token and new position agree with `ScanOperator`; the line is unchanged |
| Lexing.ScanRegex | src/lex.rs:375-435 | `//` is refused; a body that runs to the end of input is a syntax error; otherwise the body is the first character plus `RegexBody` of the text up to the closing `/`, and the flags are exactly the text after the closing `/` up to the end position, each at most once; with flag letters kept, the body is the source text |
| Lexing.Lexer.ReadRegex | src/lex.rs:375-435 | the token and new position agree with `ScanRegex`; the line is unchanged |
| Lexing.Lexer.ReadRegexBody | src/lex.rs:385-401 | reads up to the closing `/`, or fails with `regex syntax error` at the end of input |
| Lexing.Lexer.RegexBodyRun | src/lex.rs:385-401 | the body loop ends at the first `/` and has collected exactly `RegexBody` of the text before it |
| Lexing.ScanFlags | src/lex.rs:402-433 | the flags are those already read followed by exactly the text from the start to the end position; they stay distinct; reading stops in front of a character that is not a lower-case word character |
| Lexing.Lexer.ReadRegexFlags | src/lex.rs:402-433 | the flags and end position agree with `ScanFlags` |
| Lexing.RegexKeepsBackslashes | src/lex.rs:614-621 | the body keeps every backslash of the source text, as the escape test expects |
| Lexing.RegexAsWrittenLosesLetters | src/lex.rs:402-418 | as written, a body containing any of `i g m s u y` differs from its source text |
| Lexing.RegexThis | src/lex.rs:402-418 | as written `/this/` has body `th`; with flag letters kept, `this` |
| Lexing.DropFlagsNoFlag | src/lex.rs:402-418 | as written, no flag letter is left in a body |
| Lexing.ScanComment | src/lex.rs:437-458 | a comment is the rest of the line, up to a carriage return or line feed |
| Lexing.Lexer.ReadComment | src/lex.rs:437-458 | the token and end position are `ScanComment`'s |
| Lexing.PendingExponentMeans | src/lex.rs:482-515 | the exponent flag is set exactly when the last `e` is followed only by underscores |
| Lexing.ScanDigit | src/lex.rs:482-515 | a number read successfully consumes at least one character |
| Lexing.DigitExamples | src/lex.rs:558-562 | `1e3` is one number; `1e` is a digit syntax error; `1.5` reads `1` |
| Lexing.Lexer.ReadDigit | src/lex.rs:482-515 | the token and new position agree with `ScanDigit` |
| Lexing.ScanTemplate | src/lex.rs:516-537 | fails exactly when no closing backtick follows; otherwise the text between the backticks, which holds none |
| Lexing.Lexer.ReadTemplateStr | src/lex.rs:516-537 | the token and new position agree with `ScanTemplate` |
| Parsing.NextIndex | src/parser.rs:76-91 | `next` moves to the next token that is not a comment, skipping every comment before it, and stays on `EOF` |
| Parsing.Tokenize | src/parser.rs:47-91 | the tokens the lexer returns end with the one `EOF`, and every line number is at least 1 |
| Parsing.Parser.constructor | src/parser.rs:47-74 | skips leading line-feed tokens; `is_arrow_function` is `Maybe`, `in_for_init` false, `regex_allowed` true |
| Parsing.Parser.Next | src/parser.rs:76-91 | moves to `NextIndex`, records the line left, clears `regex_allowed`, and changes no other flag |
| Parsing.Parser.ExpectAndNext | src/express.rs:379-389 | the builders' `expect(parser, s)`, read as `expect` on the current token (with its two messages) followed by `next`: moves on exactly when `expect` succeeds |
| Parsing.Parser.Parse | src/parser.rs:212-214 | a program parses up to a token that ends a statement list, with no empty statement in the result |
| Parsing.ParseProgram | src/parser.rs:47-74 | `Parser::new` followed by `parse`: the statement list of the whole input, ending in front of a list end |
| Parsing.Parser.ParseStatementList | src/parser.rs:97-183 | ends in front of `EOF`, `}`, `case` or `default`; the skipped `;` leave no empty statement in the list; an empty list when it starts at one of those tokens |
| Parsing.Parser.ParseStatement | src/parser.rs:106-178 | the first token decides the kind: `var`/`let`/`const` a declaration of that kind, each statement keyword its statement, anything else an expression; at least that token is consumed |
| Parsing.Parser.ParseReturn | src/parser.rs:147-161 | `return` at a line end, at `EOF`, before `}` or `;` has no argument; otherwise its argument is an expression |
| Parsing.Parser.ParseThrow | src/parser.rs:170-181 | `throw` needs an expression on its own line: a line end is `expression expected`, and `}` or `;` is `Unexpected token` |
| Parsing.Parser.ParseBlock | src/parser.rs:185-197 | a block must start with `{`; `{}` is the empty block |
| Parsing.Parser.BuildMaybeEmptyBody | src/parser.rs:199-210 | a body is a block or `;` (the empty statement); anything else is `for body error` |
| Parsing.Parser.BuildLet | src/exp/declaration_exp.rs:7-30 | the kind is checked by `expect_keys`; one or more declarators; a following `;` is consumed outside a `for` header |
| Parsing.Parser.MoreDeclarators | src/exp/declaration_exp.rs:12-25 | declarators are added while commas follow; the list only grows |
| Parsing.Parser.BuildDeclarator | src/exp/declaration_exp.rs:32-52 | a declarator needs a variable name; without `=` it has no initialiser; an initialiser that is not an early form is not followed by a comma |
| Parsing.Parser.DeclaratorInit | src/exp/declaration_exp.rs:44-49 | `= init` gives a declarator with an initialiser; the initialiser is parsed at level 1, so unless it is an early form no comma follows it |
| Parsing.Parser.BuildFor | src/exp/for_exp.rs:8-57 | the corrected `for`: a `let` initialiser stops at its `;`; `for (let i;;);` parses to a loop with three empty slots |
| Parsing.Parser.ForHead | src/exp/for_exp.rs:10-57 | the header from `(` on, with the same guarantees as `BuildFor` |
| Parsing.Parser.ForSlots | src/exp/for_exp.rs:17-57 | the slots from the initialiser on, with the same guarantees |
| Parsing.Parser.ForInit | src/exp/for_exp.rs:17-23 | an empty initialiser, a `let` declaration that stops in front of its `;`, or an expression |
| Parsing.Parser.BuildForAsWritten | src/exp/for_exp.rs:17-25 | as written, a `let` initialiser also consumes the `;` after it; `for (let i;;);` fails with `get level err )` |
| Parsing.Parser.ForHeadAsWritten | src/exp/for_exp.rs:10-57 | the as-written header, with the same failure |
| Parsing.Parser.ForSlotsAsWritten | src/exp/for_exp.rs:17-57 | the as-written slots, with the same failure |
| Parsing.Parser.ForInitAsWritten | src/exp/for_exp.rs:17-23 | as written, the `let` initialiser ends after its `;` |
| Parsing.Parser.LetInitAsWritten | src/exp/declaration_exp.rs:26-28 | `build_let` with `in_for_init` never set consumes the `;` that ends the initialiser |
| Parsing.Parser.ForRest | src/exp/for_exp.rs:25-57 | the test slot needs a `;` before it; `;;);` gives empty test, update and body; a test that cannot start an expression gives that error, so `;)` fails with `get level err )` |
| Parsing.Parser.ForTail | src/exp/for_exp.rs:33-57 | the update slot and the body; `;);` gives an empty update and an empty body |
| Parsing.Parser.ForBody | src/exp/for_exp.rs:41-50 | after `)`, a block or `;` is the loop body |
| Parsing.Parser.ForSlot | src/exp/for_exp.rs:25-39 | a slot is empty at its closer, otherwise an expression |
| Parsing.Parser.ParenHead | src/exp/while_exp.rs:14-16 | `( expression )`, ending just after the `)` |
| Parsing.Parser.BuildWhile | src/exp/while_exp.rs:7-19 | `while` needs `(`; the result has an expression test and a block or empty body |
| Parsing.Parser.BuildDoWhile | src/exp/while_exp.rs:21-34 | `do` block `while ( expression )`, ending after the `)` |
| Parsing.Parser.WhileHead | src/exp/while_exp.rs:27-32 | the `while ( test )` part of a `do … while` |
| Parsing.Parser.BuildIf | src/exp/if_exp.rs:7-42 | an `if` has an expression test and a block or empty consequent; without `else` the parser is not at `else`; an `else` branch is a block, or an empty statement when no `{` follows |
| Parsing.Parser.ElseBranch | src/exp/if_exp.rs:27-36 | no `else` gives no branch and consumes nothing; `else` then not `{` gives the empty statement |
| Parsing.Parser.BuildSwitch | src/exp/switch_exp.rs:7-58 | the discriminant is an expression, every clause is a `SwitchCase`, and the statement ends after its `}` |
| Parsing.Parser.SwitchClause | src/exp/switch_exp.rs:26-45 | a `default` clause has no test and a `case` clause an expression test |
| Parsing.Parser.BuildTry | src/exp/try_exp.rs:7-68 | a `try` block has a catch clause or a `finally` block (or both); no catch clause exactly when `finally` follows the block |
| Parsing.Parser.CatchClauseFrom | src/exp/try_exp.rs:17-48 | the catch parameter rules: nothing, or one variable; `{` inside the parentheses, a second parameter and any other token are the source's three errors |
| Parsing.Parser.BuildFunction | src/exp/function_exp.rs:10-38 | a declaration needs a name (`Expected function name`); an expression has one exactly when a variable follows `function`; the body is a block and every parameter is a pattern |
| Parsing.Parser.HandleFunctionParams | src/exp/function_exp.rs:40-76 | parameters need `(`; `()` is the empty list; every parameter is a name, a default or a pattern |
| Parsing.Parser.NameWithDefault | src/exp/function_exp.rs:51-65 | a name without `=` is an identifier parameter |
| Parsing.Parser.HandleObject | src/exp/function_exp.rs:78-146 | an object pattern needs `{`; every entry is a pattern property; `{a}` and a non-variable key are errors |
| Parsing.Parser.PatternEntry | src/exp/function_exp.rs:90-136 | after a key, `,` gives the shorthand property; anything but `:` `=` `,` is `handle_object syntax error` |
| Parsing.Parser.HandleArray | src/exp/function_exp.rs:148-186 | an array pattern needs `[`; its elements are parameters; any other token is `handle_array syntax error` |
| Parsing.Parser.BuildObject | src/exp/object_exp.rs:10-69 | an object literal needs `{`; `{}` is empty; a key that is not a name, string or number is `object property type error` |
| Parsing.Parser.ObjectEntry | src/exp/object_exp.rs:44-64 | after a key, `,` gives the shorthand property; a token other than `,` `(` `:` adds nothing |
| Parsing.Parser.BuildArray | src/exp/array_exp.rs:6-22 | an array literal needs `[`; `[]` is empty; each element is parsed at level 2, so commas separate elements |
| Parsing.Parser.BuildPossibleArrow | src/exp/arrow_function_exp.rs:12-81 | `(` starts either a parenthesised expression or an arrow function; `()` without `=>` is `syntax error, ()`; `() =>` has no parameters |
| Parsing.Parser.ArrowTail | src/exp/arrow_function_exp.rs:48-80 | without `=>`: `Must` is a syntax error, one item is parenthesised, several form a parenthesised comma list; with `=>`: `Impossible` is a syntax error, otherwise an arrow function over the items |
| Parsing.Parser.PossibleParam | src/exp/arrow_function_exp.rs:26-45 | an item of the list consumes at least one token |
| Parsing.Parser.BuildPossibleObject | src/exp/arrow_function_exp.rs:83-161 | an object or pattern needs `{`; a key that is not a name, string or number is `object property type error` |
| Parsing.Parser.PossibleEntry | src/exp/arrow_function_exp.rs:123-153 | a key followed by neither `:` nor `=` adds nothing and leaves the arrow state alone |
| Parsing.Parser.BuildPossibleArray | src/exp/arrow_function_exp.rs:163-187 | an array or pattern; `[]` is empty |
| Parsing.Parser.ParseExpression | src/express.rs:13-303 | the result is an expression binding at least `minLevel`, built as the precedence loop builds it; it stops in front of an operator it may not fold; a variable or number on the same line is not left behind; a literal before a stop token is returned alone |
| Parsing.Parser.ParseStart | src/express.rs:13-122 | the operand the loop starts from: the early forms (prefix operators, brackets, function expressions) or an atom; a token that cannot start one gives the source's error, naming it in lex.rs's spelling (`unsupported parse_express start Var`) |
| Parsing.Parser.ParsePrefix | src/express.rs:15-42 | prefix `++`, `+`, `-`, `!` take an operand one level tighter; `(`, `[`, `{` hand over to their builders; any other control word is `expect control,` |
| Parsing.Parser.ParseNew | src/express.rs:83-101 | the callee is parsed at level 18 (no member access or call) and the arguments at level 2 |
| Parsing.Parser.OperatorLoop | src/express.rs:124-152 | folds operators while they bind at least `minLevel`; at a stop token the operand is returned unchanged |
| Parsing.Parser.OperatorStep | src/express.rs:124-152 | one turn: stop tokens end the loop, a variable or number on the same line is `syntax error:`, otherwise the operator is folded |
| Parsing.Parser.ControlStep | src/express.rs:149-152 | an operator below `minLevel` ends the loop without consuming it |
| Parsing.Parser.FoldStep | src/express.rs:154-300 | a folded result binds at least `minLevel`; postfix updates and conditionals end the loop |
| Parsing.Parser.FoldOperator | src/express.rs:154-300 | the fold of one operator keeps the tree well formed (`Folded`, `BindsAtLeast`, `RightBinds`); a control word that folds nothing is `unsupported operator` |
| Parsing.Parser.FoldInfix | src/express.rs:156-224 | infix operators: the right operand is parsed at the operator's level for assignments and one tighter for the rest, so the binding invariants hold |
| Parsing.InfixBinds | src/express.rs:156-224 | the node built for an infix operator keeps its level and the right-binding invariant |
| Parsing.Parser.FoldArrow | src/express.rs:183-195 | `x => body`: one parameter, and the body is a block or an expression at level 2 |
| Parsing.Parser.FoldConditional | src/express.rs:233-246 | `?:` builds a conditional with its consequent at level 2 and its alternate at level 3; a missing `:` is `expect :` |
| Parsing.Parser.FoldCall | src/express.rs:247-271 | the corrected call: each argument binds at level 2 or tighter, so no argument is a comma list and a comma only separates arguments; `f()` has none |
| Parsing.Parser.FoldCallAsWritten | src/express.rs:247-271 | as written (level 1): an argument that is not an early form is never followed by a comma, so every comma is folded into an argument |
| Parsing.Parser.ArgumentAsWritten | src/express.rs:256 | one as-written argument: unless it is an early form, the token after it is not a comma |
| Parsing.Parser.FoldIndex | src/express.rs:272-282 | `obj[expr]` is a computed member access of the operand |
| Parsing.ForLetHeader | src/exp/for_exp.rs:17-25 | the tokens of `for (let i;;);` form an empty `let` header naming `i` |
| Parsing.ForLetScenario | src/exp/for_exp.rs:17-25 | `for (let i;;);` fails as written with `get level err )` and parses as corrected |
| Objects.CompoundOp | src/a.js:376-399 | the eight compound assignments are each operator followed by `=`, and no other text is one |
| Objects.GetValueOperator | src/a.js:376-399 | `=` stores the new value; a compound operator combines old and new; any other operator is refused with `not support update operator:` |
| Objects.SupportedAssignments | src/a.js:376-399 | of the assignment operators the parser accepts, every one except `<<=` is handled, and no other operator is |
| Objects.GetObjValue | src/a.js:432-443 | a missing receiver is an error; a scope object answers itself; a document-like object reports `visible` for `visibilityState`; anything else reads the property table |
| Objects.SetObjKey | src/a.js:402-430 | the checks in order: null object, scope object, internal key on a function object, ignored object; otherwise the combined value is stored and returned; no other key changes, and reading the key back gives the stored value |
| Objects.AssignObjKey | src/a.js:402-430 | `setObjKey` with its default operator `=`: a write that reaches the store succeeds and stores the value itself, and the other checks end as in `setObjKey` |
| Babel.Children | src/a.js:192-213 | the child nodes `t.traverse` visits, in visiting order; each child is smaller than its node, so the walk ends |
| Hoisting.Collector.Enter | src/a.js:193-207 | the count grows on a function-like node; the list grows by `Pushed` only when no function encloses the node |
| Hoisting.Collector.Exit | src/a.js:208-212 | the count falls on a function-like node; the list is unchanged |
| Hoisting.Collector.Traverse | src/a.js:192-213 | after a walk the count is back where it was, and the list grew by exactly `Collected` of the node when no function encloses it |
| Hoisting.Collector.TraverseAll | src/a.js:192-213 | walking siblings in order appends their `CollectedList` |
| Hoisting.GetElevationVariableList | src/a.js:186-215 | a function-like root gives nothing; otherwise the walk's list; only `var` declarations (and function declarations, when hoisting them) appear |
| Hoisting.CollectedKinds | src/a.js:201-206 | only `var` declarations and, when hoisting them, function declarations are collected |
| Hoisting.AsWrittenHoistsOnlyVars | src/a.js:194-206 | as written, the list holds `var` declarations only |
| Hoisting.AsWrittenIsVarPart | src/a.js:194-206 | the as-written list is the corrected list with function declarations dropped |
| Hoisting.FunctionSiblingSkipped | src/a.js:194-197 | a function-like child adds at most itself: nothing inside a nested function is collected, and the siblings after it still are |
| Hoisting.OneChildCollected | src/a.js:192-213 | a node with one child adds its own push, then its child's |
| Hoisting.VarCollected | src/a.js:201-203 | `var x` collects itself and nothing inside it |
| Hoisting.FunctionDeclarationCollected | src/a.js:194-197 | a function declaration is collected only when function declarations are hoisted |
| Hoisting.VarThenFunctionCollected | src/a.js:186-215 | for `var x; function g(){…}` the walk collects `var x`, plus `g` when function declarations are hoisted |
| Hoisting.HoistScenario | src/a.js:186-215 | as written `var x; function g(){…}` hoists only `var x`; corrected it hoists both, in source order |
| NodeText.NodeStr | src/a.js:227-314 | definition, no contract of its own: `getNodeStr`, one case per listed node type and `___type___` for the rest; its lemmas follow |
| NodeText.NodeStrOf | src/a.js:228-230 | definition, no contract of its own: `getNodeStr` of a missing node is the empty text |
| NodeText.Join | src/a.js:235-284 | definition, no contract of its own: `map(getNodeStr).join(sep)`; `JoinAppend` states how it splits |
| NodeText.JoinAppend | src/a.js:227-314 | joining two lists is joining each with the separator between |
| NodeText.NestedSequenceFlat | src/a.js:227-314 | a comma list at the head of another prints as the flat list |
| NodeText.BlockShowsTwo | src/a.js:227-314 | a block shows its first two statements; later statements change nothing |
| NodeText.LongBlockMark | src/a.js:227-314 | a block of more than two statements prints its first two followed by ` ,... } ` |
| NodeText.ArrayShowsFirst | src/a.js:227-314 | an array literal shows its first element only |
| NodeText.Truncate | src/a.js:36 | `substring(0, limit)`: a prefix of the text, of length `limit` clamped to the text |
| NodeText.GetNodeCode | src/a.js:29-40 | nothing for a missing node; otherwise the printer's text of the node, seen without leading comments, cut to `limit`; the comments are restored whether or not the printer fails |
| NodeText.GetNodeCodeDefault | src/a.js:29-40 | `getNodeCode` with its default limit 100: the text is at most 100 characters, and the comments are restored |

## Left out

- `src/main.rs` is file I/O around the parser and is not part of this model.
- The debug `println!` in `Lex::next` (`\t find`) is output only and is left out.
- `read_newline` (src/lex.rs) is never called and is left out.
- `regex_allowed` is modelled as a parser field. The lexer's output does not depend on it, which allows lexing before parsing; what that costs is on the `Parsing.Tokenize` line below.
- `escaped` in `read_regex` is never set, so an escaped `/` cannot occur; the model has no such branch.
- `Extra::Parenthesized` on every binary and comma node (src/express.rs:165-213) is a constant marker and is dropped. Only `set_parenthesized` from the arrow builder is kept.
- Parsing.Parser.HandleFunctionParams: on a token it does not expect, the source loops forever (src/exp/function_exp.rs:45-71). The model returns an error instead.
- Parsing.Parser.FoldCallAsWritten: the as-written call's arguments are described through the tokens after them (no argument is followed by a comma). The binding level of each argument is not stated.
- Parsing.Parser.BuildPossibleArrow: a nested `(` item sets the arrow state to `Impossible`, but the nested `build_possible_arrow_function` that `parse_expression` reaches resets it to `Maybe` when it starts (src/exp/arrow_function_exp.rs:18 after :28-30). The nested call's reset wins, so `((a)) => 1` is accepted as an arrow function. The model does the same, and the contract does not state the arrow state.
- Parsing.Tokenize: the whole input is lexed before parsing starts, where the source lexes one token at a time (src/parser.rs:47-91). A character the lexer refuses anywhere in the input therefore fails the run, even after the point where the source stops: `a } @` is `Ok([a])` in the source and `Unrecognized character @` here, and `) @` fails with `get level err )` in the source and `Unrecognized character @` here.
- Parsing.ParseProgram: it lexes eagerly, as `Tokenize` does, with the same difference. It is also built from the corrected halves of the findings, so on `/this/`, `for (let i;;);` and `f(a, b)` it gives the corrected results, not the source's. Its contract does not describe the tree.
- Parsing.Tokenize: it runs the lexer with flag letters kept, the corrected half of the regular expression finding; the source drops `i g m s u y` from a body (`/this/` has body `th`).
- Parsing.Parser.ParseStatement: a `for` goes to the corrected `BuildFor`; the source's `build_for` as written (`BuildForAsWritten`) fails on `for (let i;;);` with `get level err )`.
- Parsing.Parser.FoldOperator: `(` goes to the corrected `FoldCall` (arguments at level 2); the source's call (`FoldCallAsWritten`, level 1) gives `f(a, b)` one comma-list argument.
- Parsing.Parser.ParseExpression: calls are folded by the corrected `FoldCall`, so `f(a, b)` has two arguments where the source gives one; its contract holds for that corrected fold.
- Objects.GetObjValue: `null` and `undefined` receivers are both the missing receiver, and the host's error text is not reproduced exactly. Primitive receivers (strings, numbers) read host properties and are not modelled.
- NodeText.Truncate: it counts the elements of a `string`. `substring` counts UTF-16 code units, so the two agree only when the printed text is given as code units; the model does not convert the printer's text from scalar values to code units.
- NodeText.GetNodeCode: the limit, and the bound of 100 in `GetNodeCodeDefault`, are in UTF-16 code units only under that reading of the printer's text, as for `Truncate`.
- Babel.BNode: an array hole (`[, 1]`, a `null` element of an `ArrayExpression`) cannot be represented, so `getNodeStr`'s `[]` for an array that starts with a hole is not modelled.
- Express.DebugString: control characters other than line breaks and tabs, which Rust's `Debug` prints as `\u{…}`, are kept as they are.
- `skip_empty`, `ok_box` and `box_` (src/express.rs) are trivial or unused and have no counterpart.
- Lexing.ScanDigit: only that a number consumes characters is stated in its contract. The exponent rule is stated by `PendingExponentMeans` and `DigitExamples`.
- src/a.js `getAst`, `recast` printing, `getGlobalObj`, `writeFile`, `getRunItem` and `getObjectStr` are host I/O or host library calls. The printer in `GetNodeCode` is a parameter.
- Objects.GetValueOperator: JavaScript's arithmetic on values is the host's and is passed in as `apply`. Numbers are integers.
- Objects.SetObjKey: the `___setName` call on an interpreted function value, the prototype chain, primitive receivers and the scope object's own `get`/`set` (reported as `Delegated`) are not modelled.

## Findings

| source | as written | input that shows it | evidently intended | confidence | as-written member | corrected member |
|---|---|---|---|---|---|---|
| src/a.js:194-197, 204-206 | a function-like node returns from the enter callback before the `FunctionDeclaration` push, so that push can never run | `var x; function g(){}` hoists only `var x` | function declarations of the scope are hoisted with the `var` declarations, in source order | not executed | Hoisting.AsWrittenHoistsOnlyVars, Hoisting.HoistScenario | Hoisting.GetElevationVariableList (with `hoistFunctions` true) |
| src/exp/declaration_exp.rs:26-28, src/exp/for_exp.rs:17-25 | `in_for_init` is never set, so a `let` initialiser in a `for` header consumes the `;` after it | `for (let i;;);` fails with `get level err )` | in a `for` header the declaration stops in front of its `;` | not executed | Parsing.Parser.BuildForAsWritten, Parsing.ForLetScenario | Parsing.Parser.BuildFor |
| src/express.rs:256 | call arguments are parsed at level 1, where the comma folds | `f(a, b)` has one argument, the comma list `a, b` | arguments parsed at level 2, as `new` and array literals do, giving two arguments | not executed | Parsing.Parser.FoldCallAsWritten | Parsing.Parser.FoldCall |
| src/lex.rs:402-418 | before the closing `/`, the letters `i g m s u y` are dropped from the body | `/this/` has body `th` | flag letters are only special after the closing `/` | not executed | Lexing.RegexThis, Lexing.RegexAsWrittenLosesLetters | Lexing.ScanRegex and Lexing.Lexer.ReadRegexBody with `keepFlagLetters` true |
