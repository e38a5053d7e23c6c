# Lexer, tokens and prefix nodes of the boba-js interpreter

This project is a Dafny model of the front end of the boba-js interpreter. It covers three parts:

- The token model: the closed set of token kinds, whose enum values are the very text an operator or delimiter denotes. It also covers the `createToken` record factory and the `lookupIdentifier` keyword table, where `fn` is FUNCTION and `let` is LET.
- The lexer. It is a cursor over the input string: `position`, `readPosition` and the current character `ch`, with the sentinel `0` at end of input. Each `nextToken` call skips whitespace and then dispatches on the current character. The dispatch produces:
  - one- and two-character operators;
  - double-quoted strings;
  - identifiers and integers, by maximal munch;
  - EOF;
  - ILLEGAL.
  The lexer is iterable, and its iterator keeps calling `nextToken` while the read position is inside the input.
- The `PrefixExpression` node of the syntax tree. Its operand is attached after construction, and its `toString` renders `(operator operand)`.

The project has five modules:

- `Tokens` (`tokens.dfy`) holds the token model.
- `Chars` (`chars.dfy`) holds the character classes of the lexer, the current-character slot `Ch = Char(c) | End` and the maximal-munch run `RunEnd`. It also models JavaScript's `substring` with its clamping of bounds.
- `ScanSpec` (`scan_spec.dfy`) describes the lexer on values:
  - `Step` is the token one `nextToken` call returns and the cursor it leaves.
  - `TokenStream` is every token up to and including EOF.
  - `Yielded` is what the iterator yields.
  - `UntilEof` is every token before EOF.
  The lemmas about these functions carry the lexer's properties.
- `Lexing` (`lexer.dfy`) is the `Lexer` class itself, with the source's fields and methods. Every method is proved against the `ScanSpec` and `Chars` functions, and the cursor invariant `Valid()` is kept by every method.
- `Ast` (`ast.dfy`) is the prefix node as a datatype, with its rendering and the lemmas about it.

Assumptions:

- The lexer uses the kinds EQ, NOT_EQ, STRING, COLON, LBRACKET and RBRACKET, which the enum in `token.ts` does not declare. They are added with the values `==`, `!=`, `STRING`, `:`, `[` and `]`.
- An operand that was never attached renders as `undefined`, as the optional chain in the template does. Presence of the operand is not made a precondition.

## Model

| member | source | states |
|---|---|---|
| Tokens.Tag | packages/interpreter/src/token.ts:3-34 | the enum value of each kind; it has no ensures, and `Tokens.TagRoundTrip` and `Tokens.TagInjective` carry its properties |
| Tokens.TagRoundTrip | packages/interpreter/src/token.ts:3-34 | every kind's enum value leads back to exactly that kind |
| Tokens.TagInjective | packages/interpreter/src/token.ts:12-29 | no two kinds share an enum value |
| Tokens.SingleCharKindIsTag | packages/interpreter/src/lexer/index.ts:106-163 | the dispatch selects kind k for character c exactly when k is a one-character operator or delimiter whose enum value is c |
| Tokens.SingleCharKind | packages/interpreter/src/lexer/index.ts:96-163 | the one-character `case` labels of the dispatch; it has no ensures, and `Tokens.SingleCharKindIsTag` ties each label to its kind's enum value |
| Tokens.CreateToken | packages/interpreter/src/token.ts:48-53 | the token holds exactly the given kind and literal |
| Tokens.LookupIdentifier | packages/interpreter/src/token.ts:55-60 | the lookup in the keyword table `Keywords` (token.ts:43-46, own keys only): the kind is IDENT, FUNCTION or LET; it is FUNCTION if and only if the word is `fn`, and LET if and only if the word is `let` |
| Tokens.LookupIsExact | packages/interpreter/src/token.ts:43-60 | case-sensitive exact lookup: `Let`, `lets`, `f`, `foobar` and the inherited names `toString` and `constructor` are IDENT |
| Chars.CharAt | packages/interpreter/src/lexer/index.ts:48-53 | the current character is the input character at the index, or the sentinel exactly when the index is past the end |
| Chars.IsLetter | packages/interpreter/src/lexer/index.ts:8-13 | `[A-Za-z_]` on a real character, false on the sentinel; it has no ensures, and `Chars.ClassesDisjoint` carries its properties |
| Chars.IsDigit | packages/interpreter/src/lexer/index.ts:17-24 | `[0-9]` on a real character, false on the sentinel as the explicit `ch === 0` guard demands; it has no ensures, and `Chars.ClassesDisjoint` carries its properties |
| Chars.IsWhitespace | packages/interpreter/src/lexer/index.ts:9-16 | the ECMAScript `\s` set on a real character, false on the sentinel; it has no ensures, and `Chars.ClassesDisjoint` and `ScanSpec.TokenStart` carry its properties |
| Chars.ClassesDisjoint | packages/interpreter/src/lexer/index.ts:8-24 | letters, digits and whitespace are pairwise disjoint, and the sentinel is in no class, not even in digits |
| Chars.RunEnd | packages/interpreter/src/lexer/index.ts:58-72 | the end of the run is never before its start and, when the run is non-empty, at most the length of the input; every character before it is in the class, and the character at it (or the sentinel) is not |
| Chars.RunEndUnique | packages/interpreter/src/lexer/index.ts:58-72 | any index with those two properties is the end of the run, so the longest run is well defined |
| Chars.RunEndProgress | packages/interpreter/src/lexer/index.ts:58-72 | a run that starts on a character in the class consumes at least one character |
| Chars.Substring | packages/interpreter/src/lexer/index.ts:63 | with ordered bounds inside the string it is the slice between them; with both bounds at or past the end it is empty |
| ScanSpec.TokenStart | packages/interpreter/src/lexer/index.ts:86-90 | the next token starts after a run of whitespace, on a character that is not whitespace |
| ScanSpec.Step | packages/interpreter/src/lexer/index.ts:92-180 | every call strictly advances the cursor; EOF leaves it past the end, and any other token leaves it at most one past the end |
| ScanSpec.Scan | packages/interpreter/src/lexer/index.ts:95-179 | the dispatch at a token start; it has no ensures, and `ScanSpec.Step` and the lemmas from `ScanSpec.StepEof` to `ScanSpec.IllegalToken` carry its properties |
| ScanSpec.StepEof | packages/interpreter/src/lexer/index.ts:164-166 | every literal is text, never the sentinel; EOF is returned exactly when only whitespace is left, with the empty literal |
| ScanSpec.EofIsSticky | packages/interpreter/src/lexer/index.ts:164-166 | after EOF, the next call returns EOF again |
| ScanSpec.StepLexeme | packages/interpreter/src/lexer/index.ts:92-180 | apart from strings and EOF, the literal is exactly the non-empty text consumed after the whitespace, and it holds no whitespace |
| ScanSpec.FixedTokenWidth | packages/interpreter/src/lexer/index.ts:96-163 | a character from the dispatch table gives a one-character kind, EQ or NOT_EQ, whose literal is its enum value and whose width is 1 or 2 |
| ScanSpec.TwoCharOperators | packages/interpreter/src/lexer/index.ts:96-121 | `=` or `!` followed by `=` gives EQ `==` or NOT_EQ `!=` of width 2; otherwise ASSIGN `=` or BANG `!` of width 1 |
| ScanSpec.MaximalMunch | packages/interpreter/src/lexer/index.ts:167-172 | identifiers and integers are a non-empty run of letters or digits, the character after it is outside the class, and an identifier's kind comes from the keyword table |
| ScanSpec.MunchDeterminesToken | packages/interpreter/src/lexer/index.ts:58-72 | conversely, any maximal run of letters or digits at the token start is exactly the token returned |
| ScanSpec.StringToken | packages/interpreter/src/lexer/index.ts:74-84 | a STRING literal is the quote-free text after the opening quote, up to the next quote or to the end of input, and the closing quote is consumed |
| ScanSpec.IllegalToken | packages/interpreter/src/lexer/index.ts:173-175 | ILLEGAL is returned exactly for a character outside the classes, the table and the quote; it carries that one character and consumes it |
| ScanSpec.TokenStream | packages/interpreter/src/lexer/index.ts:92-180 | successive calls return at least one token, the last one is EOF, and no earlier one is |
| ScanSpec.Yielded | packages/interpreter/src/lexer/index.ts:35-39 | what the iterator yields; it has no ensures, and `ScanSpec.YieldedIsPrefix`, `ScanSpec.YieldedLosesAtMostOne`, `ScanSpec.YieldedEofNeedsTrailingWhitespace`, `ScanSpec.CursorAtEndYieldsNothing` and `ScanSpec.LetFiveIterator` carry its properties |
| ScanSpec.YieldEnd | packages/interpreter/src/lexer/index.ts:35-39 | where the iterator leaves the cursor: never before where it started, with the read position at or past the end, and strictly ahead when the loop runs at least once |
| ScanSpec.YieldedIsPrefix | packages/interpreter/src/lexer/index.ts:35-39 | the iterator yields a prefix of the tokens successive calls return |
| ScanSpec.YieldedEofNeedsTrailingWhitespace | packages/interpreter/src/lexer/index.ts:35-39 | the iterator yields EOF only when the input ends in at least two whitespace characters |
| ScanSpec.TrailingWhitespaceYieldsEof | packages/interpreter/src/lexer/index.ts:35-39 | a cursor two or more characters before the end, followed only by whitespace, makes the iterator yield EOF |
| ScanSpec.TrailingWhitespaceYieldsEofFrom | packages/interpreter/src/lexer/index.ts:35-39 | on an input without a double quote that ends in two whitespace characters, from any cursor at least two characters before the end, the last token the iterator yields is EOF |
| ScanSpec.TrailingWhitespaceYieldsEofAtStart | packages/interpreter/src/lexer/index.ts:35-39 | the same from position 0: such an input makes the iterator yield EOF as its last token |
| ScanSpec.UnterminatedStringTakesTrailingWhitespace | packages/interpreter/src/lexer/index.ts:74-84 | `"a` followed by two spaces yields only the STRING `a  `, since the unterminated string takes in the trailing whitespace, and no EOF |
| ScanSpec.UntilEof | packages/interpreter/src/lexer/index.ts:35-39 | an iterator that stops on EOF never yields EOF |
| ScanSpec.UntilEofThenEof | packages/interpreter/src/lexer/index.ts:92-180 | the tokens before EOF, followed by EOF, are exactly the tokens successive calls return |
| ScanSpec.YieldedLosesAtMostOne | packages/interpreter/src/lexer/index.ts:35-39 | the iterator misses at most one of the tokens before EOF |
| ScanSpec.CursorAtEndYieldsNothing | packages/interpreter/src/lexer/index.ts:35-39 | with the cursor on the final character or past it, whatever that character is, the iterator yields nothing and the cursor stays; so a one-character input yields nothing |
| ScanSpec.FinalCharacterLost | packages/interpreter/src/lexer/index.ts:35-39 | with the cursor on a final character that is not whitespace, the iterator yields nothing, although `nextToken` would return a token there |
| ScanSpec.SingleCharTokenCount | packages/interpreter/src/lexer/index.ts:86-94 | on input made only of whitespace and one-character tokens, whitespace produces no token: there is one token per other character, then EOF |
| ScanSpec.LetFiveKeyword | packages/interpreter/src/lexer/index.ts:167-170 | `let five = 5;` starts with LET `let` |
| ScanSpec.LetFiveName | packages/interpreter/src/lexer/index.ts:167-170 | the bound name is IDENT `five` |
| ScanSpec.LetFiveTail | packages/interpreter/src/lexer/index.ts:96-178 | then come ASSIGN `=`, INT `5`, SEMICOLON `;` and EOF |
| ScanSpec.LetFiveStream | packages/interpreter/src/lexer/index.ts:35-39 | the tokens before EOF are LET, IDENT, ASSIGN, INT and SEMICOLON |
| ScanSpec.LetFiveIterator | packages/interpreter/src/lexer/index.ts:35-39 | the iterator as written yields only LET, IDENT, ASSIGN and INT |
| ScanSpec.LetFiveIteratorStops | packages/interpreter/src/lexer/index.ts:35-39 | the iterator leaves the cursor at 12, on the final `;`, so a direct `nextToken` call afterwards returns SEMICOLON |
| Lexing.Lexer.constructor | packages/interpreter/src/lexer/index.ts:27-33 | a new lexer has position 0, read position 1 and the first character (or the sentinel) as current character |
| Lexing.Lexer.ReadChar | packages/interpreter/src/lexer/index.ts:48-56 | the cursor moves to the old read position, the read position stays one ahead, and the current character is the one there or the sentinel |
| Lexing.Lexer.PeekChar | packages/interpreter/src/lexer/index.ts:41-46 | returns the character after the current one, or the sentinel, and changes nothing |
| Lexing.Lexer.ReadIdentifier | packages/interpreter/src/lexer/index.ts:58-64 | stops at the end of the run of letters and returns the text of that run |
| Lexing.Lexer.ReadNumber | packages/interpreter/src/lexer/index.ts:66-72 | stops at the end of the run of digits and returns the text of that run |
| Lexing.Lexer.ReadString | packages/interpreter/src/lexer/index.ts:74-84 | stops on the next quote or at the end of input and returns the text after the opening quote |
| Lexing.Lexer.SkipWhitespace | packages/interpreter/src/lexer/index.ts:86-90 | stops where the next token starts |
| Lexing.Lexer.NextToken | packages/interpreter/src/lexer/index.ts:92-94 | returns the token of `Step` and leaves the cursor where `Step` says, strictly ahead of where it was |
| Lexing.Lexer.ScanToken | packages/interpreter/src/lexer/index.ts:95-179 | the dispatch returns the token at the cursor and the position just past it |
| Lexing.Lexer.Iterate | packages/interpreter/src/lexer/index.ts:35-39 | collects exactly what the iterator yields and leaves the cursor exactly where `ScanSpec.YieldEnd` says, with the read position at or past the end |
| Lexing.Lexer.TokensBeforeEof | packages/interpreter/src/lexer/index.ts:35-39 | collects exactly the tokens before EOF and stops with the cursor past the end of input |
| Ast.NewPrefix | packages/interpreter/src/ast/nodes/prefix-expression.ts:5-6 | a new node holds the token and operator as given and no operand |
| Ast.SetRight | packages/interpreter/src/ast/nodes/prefix-expression.ts:5 | attaching the operand keeps the token and operator |
| Ast.TokenLiteral | packages/interpreter/src/ast/nodes/prefix-expression.ts:9-11 | the literal of the anchoring token, unchanged |
| Ast.Render | packages/interpreter/src/ast/nodes/prefix-expression.ts:12-14 | `toString`; it has no ensures, and the lemmas `Ast.RenderParenthesised`, `Ast.RenderWithOperand`, `Ast.RenderUnset`, `Ast.MinusFive`, `Ast.RenderBalanced` and `Ast.RenderNest` carry its properties |
| Ast.RenderParenthesised | packages/interpreter/src/ast/nodes/prefix-expression.ts:12-14 | a prefix node always renders starting with `(` and ending with `)` |
| Ast.RenderWithOperand | packages/interpreter/src/ast/nodes/prefix-expression.ts:12-14 | with an operand, the rendering is `(`, the operator, the operand's own rendering unchanged, then `)` |
| Ast.RenderUnset | packages/interpreter/src/ast/nodes/prefix-expression.ts:13 | without an operand, the rendering is `(`, the operator, `undefined`, then `)`, and nothing fails |
| Ast.MinusFive | packages/interpreter/src/ast/nodes/prefix-expression.ts:12-14 | MINUS applied to 5 renders `(-5)` |
| Ast.RenderBalanced | packages/interpreter/src/ast/nodes/prefix-expression.ts:12-14 | a tree whose operators and other expressions hold no parentheses renders with balanced parentheses |
| Ast.RenderNest | packages/interpreter/src/ast/nodes/prefix-expression.ts:12-14 | a chain of prefix nodes renders compositionally: each operator after an opening parenthesis, the operand, then one closing parenthesis per node |

## Left out

- Characters are Unicode scalar values. JavaScript strings are sequences of UTF-16 code units, so a character outside the Basic Multilingual Plane is one character here but two positions in the source.
- The regular expressions of `isLetter`, `isDigit` and `isWhitespace` are modelled as the character sets they denote. `\s` is the ECMAScript white space and line terminator set.
- The lexer starts with `ch = ''` before the constructor's first `readChar` overwrites it. Here the slot starts as the sentinel. The value is never observable.
- The iterator is a generator. `Lexing.Lexer.Iterate` collects everything it would yield, under the same loop condition. Lazy consumption, and interleaving with other calls on the same lexer, are not modelled.
- `input` is a public field in the source and could be reassigned from outside. Here it is a constant.
- `Lexing.Lexer.ScanToken` holds the `switch` of `nextToken`, so that the whitespace skip and the dispatch are separate methods. The cases and the trailing `readChar` are as in the source. `ScanSpec.Scan` tests the fixed-width characters before the double quote, whereas the source tests the quote between `]` and `:`. Both orders give the same result, because the cases are disjoint.
- The numeric sentinel literal `0` is modelled as `Sentinel`. The lexer never produces it (`ScanSpec.StepEof`).
- The `hasOwnProperty` helper is modelled as membership among the table's own keys. The helper itself is not part of this model.
- `expressionNode()` is an empty marker with no behaviour.
- The `Expression` interface, the other node kinds, the parser and the evaluator are not part of this model. Any other expression is a `Leaf` known by its token and by the text its `toString` returns.
- The parser assigns `right` in place on a `PrefixExpression` object. Here the node is a value and `Ast.SetRight` returns the updated node, so aliasing of nodes is not modelled.

## Findings

| source | as written | input that shows it | evidently intended | confidence | as-written member | corrected member |
|---|---|---|---|---|---|---|
| packages/interpreter/src/lexer/index.ts:35-39 | the iterator tests `readPosition < input.length` only between calls; when a call leaves the cursor on the final character, the test fails and the token that starts there is not yielded (a token reached by skipping whitespace within one call still is) | `let five = 5;` yields LET, IDENT, ASSIGN and INT, but no SEMICOLON | yield every token before EOF: LET, IDENT, ASSIGN, INT, SEMICOLON | medium, not executed | Lexing.Lexer.Iterate, ScanSpec.LetFiveIterator, ScanSpec.LetFiveIteratorStops | Lexing.Lexer.TokensBeforeEof, ScanSpec.LetFiveStream |

The iterator as written can also yield EOF. It does so only if the input ends in two whitespace characters (`ScanSpec.YieldedEofNeedsTrailingWhitespace`, for every input). From a cursor at least two characters before the end with only whitespace after it, EOF is the one token yielded (`ScanSpec.TrailingWhitespaceYieldsEof`). On an input without a double quote that ends in two whitespace characters, the iterator's last token is EOF from the start (`ScanSpec.TrailingWhitespaceYieldsEofAtStart`). An unterminated string is the exception: it takes in the trailing whitespace, so `"a` followed by two spaces yields only a STRING token (`ScanSpec.UnterminatedStringTakesTrailingWhitespace`). The iterator that stops on EOF never yields it (`ScanSpec.UntilEof`).
