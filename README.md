# Cflat front end: lexer and parser

This project models the front end of Cflat, a small expression language
written in Rust, and proves properties of the model. The front end has two parts:

- **The lexer** (`src/lexer.rs`). A `Lexer` holds the input characters and a
  cursor. `get_token` skips whitespace, then reads one token: an identifier or
  keyword (`if`, `for`), a number, a `#` comment, or any other single
  character.
- **The parser** (`src/parser.rs`). A `Parser` holds the token vector and a
  cursor. `parse` reads one expression by recursive descent: primaries are
  identifiers, numbers and parenthesised expressions. Binary operators are
  read by precedence climbing over the table in `token_precedence`.

The project has five modules:

- `CharClasses` (`char_classes.dfy`): the character classes the lexer consults.
- `Lexing` (`lexer.dfy`): the `Token` type and the class `Lexer`. Its methods
  `GetToken`, `GetIdentifier`, `GetNumber` and `SkipComment` keep the
  source's loops. Each is proved to leave the cursor and return the token
  that a closed-form function gives. `LexToken`, `ScanIdentifier`,
  `ScanNumber` and `ScanComment` are those functions; they are defined by
  the end of the maximal run of a character class (`RunEnd`).
- `LexerProperties` (`lexer_properties.dfy`): what `LexToken` means. There is
  one characterisation per kind of token, the shape of an identifier, the
  EOF cases, and worked inputs.
- `Parsing` (`parser.dfy`): the `Expression` type and the class `Parser`. Its
  methods `Parse`, `ParseExpression`, `ParsePrimary`, `ParseParens` and
  `ParseBinaryOp` advance the cursor through `Eat` as the source does. Each
  is proved to agree with a recursive function over (tokens, cursor):
  `TopLevel`, `Expr`, `Primary`, `Parens` and `BinaryOp`.
- `ParserProperties` (`parser_properties.dfy`): what those functions mean.
  It covers the primary cases, the stopping rule, left folding, absorption by
  a tighter operator, parentheses, and the top-level `;`. For any input
  without parentheses, two lemmas pin down the tree: it reads back in order
  as the tokens consumed (`ExprYield`), and it is bracketed by precedence
  (`ExprPrec`). It also covers how a loop of `parse` calls guarded by
  `finished` ends.

Every way the source can abort becomes an explicit failure value:

- In the lexer, `unwrap` on a number text that is not a float gives
  `BadNumber(text)`.
- In the parser, a `get_next` past the end gives `IndexOutOfBounds`.
- `todo!` for IF/FOR gives `Unimplemented`.
- The invalid-primary panic gives `InvalidPrimary`.
- The missing-operator panic gives `MissingOperator`.

The parsing functions return `Fail(error)` for these, and the methods return
the same failure.

Two routines are split out of larger source functions:

- `Lexer.SkipComment` is the comment loop of `get_token` (`src/lexer.rs:54-64`).
  It is a method of its own here, with its own loop.
- `Parsing.RightOperand` is the part of the loop of `parse_binary_op` that
  reads the right operand and may hand it on to a tighter operator
  (`src/parser.rs:76-81`). `BinaryOp` is the loop itself, written as a tail
  call.

Behaviour of the code worth knowing, which the model keeps:

- **Keywords on prefixes.** `get_identifier` tests the name after every
  character (`src/lexer.rs:83-84`). So `iffy` lexes as IF, then IDENTIFIER
  `fy`, and `forest` as FOR, then IDENTIFIER `est`. The keywords `True`,
  `False` and `Print` declared in `src/token.rs` are never produced.
- **Parentheses.** No grouping node is built, and the token after the inner
  expression is eaten without checking that it is `)` (`src/parser.rs:48`).
- **No statements.** There is no if/for parsing, no unary operator and no
  boolean literal. A leading `;` is skipped, and no trailing `;` is
  required. IF and FOR in primary position abort (`src/parser.rs:43-44`).
- **`finished`.** `finished` is true when the cursor equals the number of
  tokens (`src/parser.rs:107-109`). A successful parse always stops on a
  token it has read but not consumed. So a loop of `parse` calls guarded by
  `finished` never stops through `finished`; it always ends in an abort
  (`ParseAllEndsInAbort`). On a stream that ends in EOF, a parse at that
  EOF aborts on it.

## Model

| member | source | states |
|---|---|---|
| CharClasses.IsWhitespace | src/lexer.rs:33 | Rust's `char::is_whitespace`: exactly the Unicode White_Space characters |
| CharClasses.IsAlphabetic | src/lexer.rs:44 | Rust's `char::is_alphabetic`, exact for every code point below U+0100 (the ASCII letters, ª, µ, º and the Latin-1 letters other than × and ÷) |
| CharClasses.IsNumeric | src/lexer.rs:49 | Rust's `char::is_numeric`, exact for every code point below U+0100 (the ASCII digits, ², ³, ¹ and the three vulgar fractions) |
| CharClasses.IsAlphanumeric | src/lexer.rs:77 | Rust's `char::is_alphanumeric`: alphabetic or numeric |
| CharClasses.ClassesAgree | src/lexer.rs:33-54 | alphabetic and numeric characters are alphanumeric and not whitespace; `#` is in no class; line ends are whitespace, so the branches of the dispatch are disjoint |
| Lexing.Lexer.constructor | src/lexer.rs:17-20 | the lexer starts at cursor 0 on the given input |
| Lexing.Lexer.GetChar | src/lexer.rs:105-111 | `Some(input[idx])` exactly when `idx < |input|`, `None` otherwise; reads the cursor without moving it |
| Lexing.Lexer.Progress | src/lexer.rs:113-115 | the cursor advances by exactly one |
| Lexing.Lexer.GetToken | src/lexer.rs:22-69 | the token returned and the new cursor are those of `LexToken` from the old cursor; the cursor stays within the input |
| Lexing.Lexer.SkipComment | src/lexer.rs:54-64 | the result and new cursor are those of `ScanComment`: COMMENT just past the first line end, or EOF at the end of input |
| Lexing.Lexer.GetIdentifier | src/lexer.rs:71-88 | the token and new cursor are those of `ScanIdentifier`: the keyword as soon as the name reads `if`/`for`, otherwise the whole alphanumeric run |
| Lexing.Lexer.GetNumber | src/lexer.rs:90-103 | the result and new cursor are those of `ScanNumber`: the maximal run of numeric characters and dots, NUMBER if it is a float literal, the abort otherwise |
| Lexing.IsFloatLiteral | src/lexer.rs:102 | the texts of numeric characters and dots on which `parse::<f64>()` succeeds: Rust's float grammar restricted to such texts, i.e. ASCII digits and dots only, at least one digit, at most one dot |
| Lexing.LexToken | src/lexer.rs:22-41 | the cursor never passes the end of input, and every token other than EOF advances it by at least one character |
| Lexing.Classify | src/lexer.rs:43-68 | dispatching on a significant character always consumes it and stays within the input |
| Lexing.ScanIdentifier | src/lexer.rs:71-88 | the identifier scan never passes the end of input |
| Lexing.ScanNumber | src/lexer.rs:90-103 | the number scan never passes the end of input |
| Lexing.ScanComment | src/lexer.rs:54-64 | the comment scan never passes the end of input |
| LexerProperties.LeadingBlanksIrrelevant | src/lexer.rs:33-41 | lexing after some of the leading blanks gives the same token and cursor as lexing before them |
| LexerProperties.EofOnBlankRest | src/lexer.rs:25-41 | when only whitespace (or nothing) remains, the token is EOF and the cursor ends at the end of input |
| LexerProperties.EofOnlyAtEnd | src/lexer.rs:25-41 | EOF leaves the cursor at the end of input, and occurs only when the rest is blank or is blanks then an unterminated `#` comment |
| LexerProperties.IdentifierAt | src/lexer.rs:44-46 | after blanks, a letter starting an alphanumeric run yields IF or FOR when the run begins with `if` or `for`, otherwise IDENTIFIER of the whole run, with the cursor just after what was read |
| LexerProperties.NumberAt | src/lexer.rs:49-51 | after blanks, a numeric character starting a run of numerics and dots yields that whole run as NUMBER if it is a float literal, otherwise aborts; the cursor ends after the run |
| LexerProperties.CommentAt | src/lexer.rs:53-65 | after blanks, `#` consumes up to and including the first `\n`/`\r` and yields COMMENT, or yields EOF at the end of input |
| LexerProperties.CharacterAt | src/lexer.rs:67-68 | any other significant character is consumed alone and returned as CHARACTER |
| LexerProperties.IdentifierShape | src/lexer.rs:71-87 | an IDENTIFIER's name is exactly the characters consumed after the blanks: non-empty, starts with a letter, all alphanumeric, not followed by an alphanumeric, and not beginning with `if`/`for` |
| LexerProperties.IffyIsIfThenFy | src/lexer.rs:83-84 | `iffy` lexes as IF, then IDENTIFIER `fy`, then EOF |
| LexerProperties.ForestIsForThenEst | src/lexer.rs:83-84 | `forest` lexes as FOR, then IDENTIFIER `est` |
| LexerProperties.DecimalNumber | src/lexer.rs:90-102 | ` 3.14` lexes as one NUMBER `3.14` |
| LexerProperties.TwoDotsAbort | src/lexer.rs:90-102 | `1.2.3;` is scanned as one run `1.2.3`, which then fails to convert |
| LexerProperties.CommentBetweenNumbers | src/lexer.rs:53-65 | `1 # c\n2` lexes as NUMBER, COMMENT (through the line end), NUMBER, EOF |
| LexerProperties.UnterminatedComment | src/lexer.rs:61 | a comment that reaches the end of input yields EOF |
| Parsing.TokenPrecedence | src/parser.rs:112-121 | a character has non-zero precedence exactly when it is one of `< + - * =`; every precedence is at most 50, so `tok_prec + 1` fits the `u8` |
| Parsing.Precedence | src/parser.rs:93-98 | only a CHARACTER token ranks above zero, and only when it is an operator |
| Parsing.GetNext | src/parser.rs:87-90 | the token under the cursor when the cursor is inside the input, the out-of-bounds abort otherwise |
| Parsing.GetNextPrec | src/parser.rs:92-98 | the precedence of the token under the cursor, or the out-of-bounds abort |
| Parsing.Primary | src/parser.rs:37-50 | a successful primary consumes at least one token, stays within the input, and stores only operators of `< + - * =`; it never aborts for a missing operator |
| Parsing.Parens | src/parser.rs:52-56 | a successful parenthesis body stops inside the input on a token of precedence zero |
| Parsing.BinaryOp | src/parser.rs:58-85 | a successful result stops on a token whose precedence is below `prec`; from `prec >= 1`, every stored operator is one of `< + - * =` and the missing-operator abort cannot happen |
| Parsing.RightOperand | src/parser.rs:76-81 | the right operand consumes at least one token and stops before a token that binds no tighter than the operator |
| Parsing.Expr | src/parser.rs:32-35 | a successful expression stops inside the input on a token of precedence zero, with only valid operators |
| Parsing.TopLevel | src/parser.rs:24-30 | a successful parse stops inside the input on a token of precedence zero, so the cursor never reaches the end |
| Parsing.Parser.constructor | src/parser.rs:20-22 | the parser starts at cursor 0 on the given tokens |
| Parsing.Parser.Finished | src/parser.rs:107-109 | true exactly when the cursor equals the number of tokens, in which case `get_next` would abort |
| Parsing.Parser.Eat | src/parser.rs:100-105 | the cursor advances by exactly one and the result is `finished` after the move |
| Parsing.Parser.Parse | src/parser.rs:24-30 | the result and new cursor are those of `TopLevel` from the old cursor |
| Parsing.Parser.ParseExpression | src/parser.rs:32-35 | the result and new cursor are those of `Expr` |
| Parsing.Parser.ParsePrimary | src/parser.rs:37-50 | the result and new cursor are those of `Primary` |
| Parsing.Parser.ParseParens | src/parser.rs:52-56 | the result and new cursor are those of `Parens` |
| Parsing.Parser.ParseBinaryOp | src/parser.rs:58-85 | the result and new cursor are those of `BinaryOp` for the given precedence and left operand |
| ParserProperties.PrimaryCases | src/parser.rs:38-50 | IDENTIFIER/NUMBER give VARIABLE/NUMBER and consume one token; IF/FOR abort as unimplemented; any other non-`(` token aborts as an invalid primary; past the end, the out-of-bounds abort |
| ParserProperties.ParensYieldInner | src/parser.rs:42-56 | `(` yields the inner expression itself, with no wrapper node, and eats one more token of precedence zero |
| ParserProperties.ClosingTokenUnchecked | src/parser.rs:48 | `( x y` parses as `x`, with `y` eaten as the closing token |
| ParserProperties.BinaryOpStopsBelow | src/parser.rs:62-66 | if the next token ranks below `prec` on entry, the result is `lhs` unchanged and nothing is consumed |
| ParserProperties.LeafOperand | src/parser.rs:76-81 | a leaf followed by a token that binds no tighter is a right operand by itself |
| ParserProperties.BinaryOpRound | src/parser.rs:60-84 | an operator ranked at least `prec` followed by its right operand extends `lhs` by one BINARY node, and the loop continues after them |
| ParserProperties.BinaryOpStep | src/parser.rs:60-84 | a successful loop whose first token ranks at least `prec` consumed an operator character and a right operand and continued from the extended `lhs` |
| ParserProperties.EqualPrecedenceFoldsLeft | src/parser.rs:60-84 | a chain of operators of one precedence between leaves folds to the left and consumes the whole chain |
| ParserProperties.SubtractionFoldsLeft | src/parser.rs:60-84 | `1-2-3` parses as `(1-2)-3` |
| ParserProperties.ThreeOperands | src/parser.rs:76-83 | with three leaves, a tighter second operator takes the middle operand into a right sub-tree; otherwise the first pair folds first |
| ParserProperties.TighterSecondOperator | src/parser.rs:78-81 | after `A`, `op1 b op2 c` with `op2` tighter gives `A op1 (b op2 c)` |
| ParserProperties.LooserSecondOperator | src/parser.rs:78-83 | after `A`, `op1 b op2 c` with `op2` no tighter gives `(A op1 b) op2 c` |
| ParserProperties.MultiplicationBindsTighter | src/parser.rs:76-83 | `1+2*3` parses as `1+(2*3)` |
| ParserProperties.ParenthesesGroup | src/parser.rs:42-56 | `(a op1 b) op2 c` parses as `(a op1 b) op2 c` whatever the two precedences |
| ParserProperties.ParenthesesOverridePrecedence | src/parser.rs:42-56 | `(1+2)*3` parses as `(1+2)*3`, with no grouping node |
| ParserProperties.MissingOperandAborts | src/parser.rs:45 | `1 + ;` aborts on `;` as an invalid primary |
| ParserProperties.PrimaryYield | src/parser.rs:38-50 | a primary without parentheses reads back as exactly the token it consumed |
| ParserProperties.BinaryOpYield | src/parser.rs:58-85 | without parentheses, the result of the operator loop read back in order is `lhs` followed by exactly the tokens consumed |
| ParserProperties.RightOperandYield | src/parser.rs:76-81 | without parentheses, a right operand read back in order is exactly the tokens it consumed |
| ParserProperties.BinaryOpPrec | src/parser.rs:58-85 | without parentheses, from a well-bracketed `lhs` whose top binds no looser than the next operator, the loop's result is well bracketed (each node binds no tighter than its left operand's top and strictly looser than its right operand's top), and is `lhs` or is topped by an operator ranked at least `prec` |
| ParserProperties.RightOperandPrec | src/parser.rs:76-81 | without parentheses, a right operand is well bracketed and its top binds strictly tighter than the operator before it |
| ParserProperties.ExprPrec | src/parser.rs:32-35 | without parentheses, the parsed expression is well bracketed: equal operators nest to the left and tighter operators sit below looser ones, for any number of operands |
| ParserProperties.ExprYield | src/parser.rs:32-35 | without parentheses, the parsed expression read back in order is exactly the tokens consumed |
| ParserProperties.TopLevelSkipsOneSemicolon | src/parser.rs:26-29 | one leading `;` is skipped and the rest is an expression; a second `;` aborts as an invalid primary |
| ParserProperties.ParseAllEndsInAbort | src/parser.rs:102-109 | a loop of `parse` calls guarded by `finished` that starts before the end never stops through `finished` but always ends in an abort; on a stream ending in EOF, parsing at that EOF aborts with an invalid primary |

## Left out

- `src/main.rs` is not part of this model. It covers argument handling, file reading, the cast of each byte to a `char`, and printing tokens.
- `src/token.rs` is not part of this model. It declares an enum that nothing uses.
- Lexing.ScanNumber: the NUMBER token and the NUMBER expression carry the literal's text, not the `f64` it denotes. So `1` and `1.0` are different values here, and no rounding is modelled. Whether `parse::<f64>` succeeds is modelled by `IsFloatLiteral`: ASCII digits and dots only, at least one digit, at most one dot. This is Rust's float grammar restricted to the texts the scanner can build.
- CharClasses.IsAlphabetic: exact for code points below U+0100, and false above U+00FF. The program's driver only produces characters below U+0100. `CharClasses.IsNumeric` is limited the same way. `CharClasses.IsWhitespace` is the full Unicode White_Space set.
- Panic and `todo!` messages, and `Debug` formatting, are left out. Each abort is modelled only by its kind of failure value.
- The `FOR` and `IF` expression constructors are declared but never built, as in the source.
- The cursors are unbounded naturals, so `usize` overflow is not modelled; it would need an input of `usize::MAX` items. The precedence is a natural, not a `u8`; `Parsing.TokenPrecedence` proves that `tok_prec + 1` stays at most 51.
- The round-trip lemmas (`ExprYield` and the others) hold only when no `(` is involved. A parenthesis and its unchecked closing token leave no trace in the tree, so nothing can be read back from it.
