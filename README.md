# ulesl front end and evaluator, modelled in Dafny

This project models the core of ulesl, a small scripting language written
in Rust. The model covers two generations of its code.

- **First generation.** `src/lexer.rs` turns UTF-8 bytes into tokens, with
  one character of pushback. `src/parser.rs` parses `var` declarations and
  assignments. `src/vm/mod.rs` and `src/vm/variant.rs` hold the variable
  store and literal evaluation.
- **Second generation.**
  - `src/parser/legacy.rs` is a parser with a single pushback slot.
  - `src/parser/mod.rs` is a parser with a `peek`/`advance`/`retain` cursor.
  - `src/parser/types.rs` and `src/parser/error.rs` hold their syntax tree
    and errors.
  - `src/common.rs` holds source locations.
  - `src/vm/types.rs` holds the function table entry.
  - `src/vm/builtins.rs` holds the builtin registry and the argument checks
    of the builtins.

The code that changes state step by step is modelled as classes whose
methods are proved equal to functions of the old state. This covers the
lexer, the three parsers, the old VM and the builtin registry. Lemmas then
state what those functions promise: the grammar, the cursor invariants, the
error cases, and the quirks of the source. The pure parts are datatypes,
functions and lemmas.

| file | module | source |
|---|---|---|
| wrappers.dfy | `Wrappers` | `Option` and `Result` |
| decimal.dfy | `Decimal` | machine integer ranges, decimal text, `str::parse::<i64>` |
| utf8.dfy | `Utf8` | UTF-8 per sections 3 and 4 of RFC 3629 (what `std::str::from_utf8` accepts) |
| lexer.dfy | `Lexer` | src/lexer.rs |
| parser_old.dfy | `OldParser` | src/parser.rs |
| vm_variant.dfy | `OldVariant` | src/vm/variant.rs |
| vm_old.dfy | `OldVm` | src/vm/mod.rs |
| common.dfy | `Common` | src/common.rs |
| tokens.dfy | `Tokens` | the second generation's token stream |
| ast.dfy | `Ast` | src/parser/types.rs |
| parser_error.dfy | `ParserErrors` | src/parser/error.rs |
| parser_legacy.dfy | `LegacyParser` | src/parser/legacy.rs |
| parser_cursor.dfy | `CursorParser` | src/parser/mod.rs |
| vm_types.dfy | `VmTypes` | src/vm/types.rs |
| builtins.dfy | `Builtins` | src/vm/builtins.rs |

## Model

| member | source | states |
|---|---|---|
| Decimal.NatToString | src/vm/builtins.rs:79 | the decimal rendering of a number is non-empty, all digits, and has no leading zero |
| Decimal.DigitsValueOfNatToString | src/common.rs:47-49 | reading a rendered number back gives the number |
| Decimal.NatToStringInjective | src/vm/builtins.rs:79 | two numbers with the same rendering are equal, so `command_arg{idx}` names distinct arguments distinctly |
| Decimal.ParseI64 | src/parser.rs:164 | `str::parse::<i64>` succeeds only on an optional sign followed by digits, and gives their signed value |
| Decimal.ParseI64OfI64ToString | src/parser.rs:164 | every `i64` parses back from its own rendering |
| Decimal.ParseI64Complete | src/parser.rs:164 | `str::parse::<i64>` succeeds exactly on an optional sign and one or more digits whose signed value lies in the `i64` range, leading zeros included, and gives that value |
| Decimal.ParseI64Examples | src/parser.rs:164 | `007` parses to 7, `+12` to 12 and `-0` to 0; a lone sign and the empty text are errors |
| Common.Location.Line | src/common.rs:30-32 | the one-based line is at least 1 |
| Common.Location.Column | src/common.rs:34-36 | the one-based column is at least 1 |
| Common.NewZ | src/common.rs:11-17 | `new_z` stores its parts unchanged, and `line()`/`column()` then return them plus one |
| Common.New | src/common.rs:19-28 | `new` needs a non-zero line and column, equals `new_z(line - 1, col - 1, file)`, and `line()`/`column()`/`file()` give back its arguments |
| Common.DisplayRoundTrip | src/common.rs:43-51 | the file, line and column can be read back from the `file:line:column` rendering |
| Common.DisplayInjective | src/common.rs:43-51 | two locations that render alike are equal |
| Utf8.SequenceLength | src/lexer.rs:286-296 | a lead byte announces at most four bytes |
| Utf8.ScalarValue | src/lexer.rs:313-317 | a well-formed sequence denotes a Unicode scalar value in the range its length covers, so the encoding is the shortest |
| Utf8.CharValue | src/lexer.rs:317 | the character a well-formed sequence decodes to, whose length the lead byte announces |
| Utf8.Encode | src/lexer.rs:313-317 | every character has a well-formed encoding that decodes back to it |
| Utf8.EncodeCharValue | src/lexer.rs:313-317 | a well-formed sequence is the encoding of the character it decodes to |
| Utf8.EncodeCharValueTwo | src/lexer.rs:313-317 | the same for two-byte sequences |
| Utf8.EncodeCharValueThree | src/lexer.rs:313-317 | the same for three-byte sequences |
| Utf8.EncodeCharValueFour | src/lexer.rs:313-317 | the same for four-byte sequences |
| Utf8.EncodeTwo | src/lexer.rs:313-317 | values from 0x80 to 0x7FF encode as a well-formed two-byte sequence that denotes them |
| Utf8.EncodeThree | src/lexer.rs:313-317 | scalar values from 0x800 to 0xFFFF encode as a well-formed three-byte sequence that denotes them |
| Utf8.EncodeFour | src/lexer.rs:313-317 | values from 0x10000 to 0x10FFFF encode as a well-formed four-byte sequence that denotes them |
| Utf8.FromUtf8 | src/lexer.rs:313 | decoding a byte sequence gives at most one character per byte, and at least one for non-empty input |
| Utf8.FromUtf8EncodeString | src/lexer.rs:313 | decoding the encoding of a string gives the string |
| Utf8.EncodeStringFromUtf8 | src/lexer.rs:313 | the bytes of a decodable sequence are the encoding of what it decodes to |
| Utf8.FromUtf8Step | src/lexer.rs:313-317 | a decodable sequence starts with one well-formed character of the length its lead byte announces, followed by a decodable rest |
| Utf8.FromUtf8Single | src/lexer.rs:313-317 | a single well-formed character decodes to that character |
| Utf8.FromUtf8AnnouncedLength | src/lexer.rs:298-317 | a sequence of the length its lead byte announces decodes exactly when it is well formed, and then to one character |
| Lexer.ModeFor | src/lexer.rs:69-82 | the first character selects no mode exactly when it is not a word start, digit, quote, operator start or newline |
| Lexer.SupplementaryCount | src/lexer.rs:286-296 | bits 5, 4 and 3 of a lead byte select 1, 2 or 3 continuation bytes, and `DecoderError` is returned for bytes 0xB8-0xBF and 0xF8-0xFF because bit 6 is not checked |
| Lexer.DecodeAt | src/lexer.rs:273-320 | reading a character: `EndOfFile` exactly at the end of the input; any other error is a decoding error; an ASCII byte decodes to itself; a missing continuation byte stops at the end of the input |
| Lexer.NextCharSpec | src/lexer.rs:267-322 | a buffered character is delivered first and the slot emptied; a failed read leaves the current character unchanged; `EndOfFile` leaves the reader at the end |
| Lexer.HandleWord | src/lexer.rs:140-150 | a word takes alphanumerics and `_` and ends at any other character |
| Lexer.HandleNumber | src/lexer.rs:153-166 | a number takes digits, returns `InvalidCharacter` for a letter or `_`, and ends at anything else |
| Lexer.HandleString | src/lexer.rs:168-196 | after the opening quote, every character is kept until the next `"`, which closes the string; the escape flag is never set |
| Lexer.CharUtf8Len | src/lexer.rs:298-311 | a character occupies one to four bytes |
| Lexer.Utf8Len | src/lexer.rs:298-311 | a string occupies at least as many bytes as it has characters |
| Lexer.Utf8LenEncoded | src/lexer.rs:298-311 | the byte length of a string is the length of its encoding |
| Lexer.Utf8LenAscii | src/lexer.rs:283-284 | an ASCII string occupies one byte per character |
| Lexer.HandleOperator | src/lexer.rs:198-241 | an operator never grows past 3 characters; `>>>` is the only 3-character form; the 2-character forms are a doubled `- + = / & \|`, `<=`, `>=` and `/*`; `-` followed by a digit switches to Number mode; `HandleOperatorGrows` shows each of these is built |
| Lexer.HandleOperatorGrows | src/lexer.rs:198-241 | from any buffer, the character is taken exactly when the buffer is empty, `-` meets a digit (switching to Number), a `- + = / & \|` is doubled, `<=`, `>=` or `/*` is completed, or `>>` meets `>`; each of these is built |
| Lexer.HandleOperatorReachable | src/lexer.rs:198-241 | from the operator starts `= ( ) ; #`, only `=`, `==`, `(`, `)`, `;` and `#` can be built, and only `==` takes a second character |
| Lexer.Handle | src/lexer.rs:243-245 | a line return completes at once |
| Lexer.Finalize | src/lexer.rs:247-265 | the token's kind follows its mode, and its content is the buffer, or `"\n"` for a line return |
| Lexer.SkipWhitespace | src/lexer.rs:63-67 | non-newline whitespace is skipped; on success the current character is not such whitespace |
| Lexer.SkipComment | src/lexer.rs:128-130 | a comment is skipped up to a newline, which is left as the current character |
| Lexer.TokenLoop | src/lexer.rs:85-112 | the token loop never moves the reader backwards; it passes on only decoding errors, and when it stops at the end of the input it is at the end |
| Lexer.ScanToken | src/lexer.rs:69-124 | scanning one token fails only with `InvalidCharacter` or a decoding error |
| Lexer.NextTokenSpec | src/lexer.rs:60-138 | every token consumes input, and `EndOfFile` leaves the reader at the end with nothing buffered |
| Lexer.EndOfFileIsFinal | src/lexer.rs:60-138 | after `EndOfFile`, `next_token` keeps returning `EndOfFile` |
| Lexer.DecodeAtEncode | src/lexer.rs:281-320 | the encoding of any character is read back as that character, consuming exactly its bytes |
| Lexer.DecodeAtOk | src/lexer.rs:281-320 | a character read successfully is exactly the encoding of the bytes consumed |
| Lexer.DecodeAtInvalid | src/lexer.rs:302-315 | `InvalidCodePoint` is returned exactly when the announced bytes are all present but do not form well-formed UTF-8 |
| Lexer.HandleKeeps | src/lexer.rs:140-245 | each handler keeps the token's shape and kind, and stops only on a character that ends the token |
| Lexer.TokenLoopShape | src/lexer.rs:85-120 | the loop's buffer has the shape of its kind, it stops on an ending character unless the input ran out, and an unclosed string ends only at the end of the input |
| Lexer.ScanTokenKind | src/lexer.rs:69-120 | a letter or `_` gives Identifier, a digit IntegerLiteral, `"` StringLiteral, `= ( ) ; #` Operator, a newline LineReturn, and anything else `InvalidCharacter` without moving; the content has the shape of its kind |
| Lexer.ScanTokenPushback | src/lexer.rs:85-124 | the character that ended a token is buffered, unless the end of input ended it; a line return buffers nothing |
| Lexer.NextTokenWellFormed | src/lexer.rs:60-138 | every token returned has the shape of its kind: identifiers are words, integer contents are only digits, strings start with `"` and hold no inner `"`; a `#` token is never returned |
| Lexer.TokenLoopGoesOn | src/lexer.rs:96-112 | when a handler does not complete, the loop reads a character and continues, even when the handler returned an error |
| Lexer.TokenLoopStops | src/lexer.rs:96-99 | when a handler completes, the loop stops without reading |
| Lexer.ScanTokenFrom | src/lexer.rs:114-124 | the token is finalised from the loop's mode and buffer, and the current character is buffered when the loop read one |
| Lexer.NextTokenDirect | src/lexer.rs:60-134 | after skipping whitespace, a token other than `#` is returned as scanned |
| Lexer.NextTokenComment | src/lexer.rs:126-133 | a `#` token is followed by skipping to the newline and then by the next token |
| Lexer.LetterInNumberDropped | src/lexer.rs:153-160 | the input `1a2 ` lexes as the integer `12`: the `InvalidCharacter` for `a` is ignored and the letter dropped |
| Lexer.BackslashDoesNotEscape | src/lexer.rs:174-186 | the input `"\" ` lexes as the string `"\"`: the escape branch is unreachable |
| Lexer.HashScanned | src/lexer.rs:198-233 | `#` followed by any ASCII character scans as the one-character operator `#`, with the next character buffered |
| Lexer.EmptyCommentKeepsNewline | src/lexer.rs:122-133 | after `#` followed directly by a newline, the newline is already current, so it is not consumed and a LineReturn follows |
| Lexer.CommentSkippedThroughNewline | src/lexer.rs:126-133 | `#a` followed by a newline and `b` gives the identifier `b`: the comment and its newline are consumed |
| Lexer.MinusIsInvalid | src/lexer.rs:326-336 | `-1` is rejected with `InvalidCharacter`: `-` does not start an operator, so Number mode is never reached through it |
| Lexer.Lexer.constructor | src/lexer.rs:48-58 | a new lexer starts at the beginning, with current character NUL and nothing buffered |
| Lexer.Lexer.NextChar | src/lexer.rs:267-322 | `next_char` does what `NextCharSpec` says of the old state |
| Lexer.Lexer.ReadSequence | src/lexer.rs:298-317 | reading the continuation bytes and decoding them does what `NextCharSpec` says of a read from the lead byte |
| Lexer.Lexer.SkipWhitespaceLoop | src/lexer.rs:65-67 | the whitespace loop does what `SkipWhitespace` says |
| Lexer.Lexer.SkipCommentLoop | src/lexer.rs:128-130 | the comment loop does what `SkipComment` says |
| Lexer.Lexer.TokenLoopRun | src/lexer.rs:85-112 | the token loop does what `TokenLoop` says |
| Lexer.Lexer.NextToken | src/lexer.rs:60-138 | `next_token` does what `NextTokenSpec` says of the old state |
| OldParser.Fetch | src/parser.rs:195-201 | `next_token` takes the stored token if there is one, and the slot is empty afterwards |
| OldParser.FetchAt | src/parser.rs:195-201 | reading several tokens in a row leaves the slot empty |
| OldParser.ExpectToken | src/parser.rs:203-221 | `expect_token` succeeds exactly when type and content match; otherwise it reports the token with the parser's source |
| OldParser.IsEndOfPackage | src/parser.rs:223-235 | end of input, a line return and `;` end a statement; other lexer errors are passed on; the token read is handed back |
| OldParser.ExpectEndOfPackageSpec | src/parser.rs:237-249 | a statement must be followed by a line return, `;` or the end of input; any other token is reported |
| OldParser.ParseBranchIdentifierExprSpec | src/parser.rs:171-183 | the identifier branch never leaves the parser's state out of range |
| OldParser.ParseExprSpec | src/parser.rs:158-169 | an expression never parses to a call, and leaves a token stored only when it succeeds |
| OldParser.ParseAssignRestSpec | src/parser.rs:145-151 | an assignment keeps the name it was given |
| OldParser.ParseVarAssignSpec | src/parser.rs:128-152 | the given name is kept, and a name that is read is never `var` |
| OldParser.StatementSpec | src/parser.rs:99-121 | `var` gives a declaration and any other identifier an assignment to that name; a token still stored afterwards means success or a panic |
| OldParser.NextPackageSpec | src/parser.rs:87-126 | a statement carries the parser's source and is a declaration or an assignment; a token still stored afterwards means the parse panicked |
| OldParser.StoreThenFetch | src/parser.rs:189-201 | a token stored in the empty slot is the next one delivered |
| OldParser.NextPackageNone | src/parser.rs:88-92 | `next_package` gives `Ok(None)` exactly when the input is at its end |
| OldParser.NextPackageNeedsIdentifier | src/parser.rs:94-97 | a statement that does not start with an identifier is rejected with that token |
| OldParser.IdentifierExprPushesBack | src/parser.rs:172-174 | an identifier followed by a terminator gives `Identifier`, with the terminator pushed back |
| OldParser.IntegerLiteralExpr | src/parser.rs:164 | an integer literal parses to its `i64` value |
| OldParser.IntegerLiteralOverflow | src/parser.rs:164 | an integer literal that does not parse gives `IntegerParsing` carrying its text |
| OldParser.ExprThenEnd | src/parser.rs:158-183 | an expression followed by the end of a statement is exactly a literal or identifier token followed by a terminator |
| OldParser.AssignRestThenEnd | src/parser.rs:145-151 | the rest of an assignment is exactly `=`, an expression and the end of the statement |
| OldParser.NextPackageOk | src/parser.rs:87-126 | a statement is parsed exactly when it starts with an identifier, its body parses and the end of the statement follows |
| OldParser.StatementVarDecl | src/parser.rs:99-100 | after `var`, the statement is a declaration exactly when `parse_var_assign` without a name succeeds |
| OldParser.VarAssignNamed | src/parser.rs:129-143 | a declared name must be an identifier other than `var` |
| OldParser.StatementVarSet | src/parser.rs:102-115 | after another identifier, the statement is an assignment exactly when `=` follows and the rest of the assignment parses |
| OldParser.VarDeclTokens | src/parser.rs:87-152 | a declaration is exactly `var`, a name other than `var`, `=`, an expression and the end of the statement |
| OldParser.VarSetTokens | src/parser.rs:87-152 | an assignment is exactly a name other than `var`, `=`, an expression and the end of the statement |
| OldParser.NextPackageStatementErr | src/parser.rs:99-121 | an error in the statement body is the error of `next_package` |
| OldParser.StatementCallPanics | src/parser.rs:154-156 | an identifier followed by `(` reaches `parse_func_call`, which panics |
| OldParser.StatementOtherRejected | src/parser.rs:104-120 | an identifier followed by a token other than `(` or `=` is rejected with that token |
| OldParser.CallStatementPanics | src/parser.rs:154-156 | a call statement panics in `next_package` |
| OldParser.StatementNeedsCallOrAssign | src/parser.rs:102-120 | `next_package` rejects an identifier followed by anything but `(` or `=`, reporting that follower |
| OldParser.Parser.constructor | src/parser.rs:83-85 | a new parser has an empty slot |
| OldParser.Parser.StoreToken | src/parser.rs:189-193 | storing needs an empty slot and fills it |
| OldParser.Parser.NextToken | src/parser.rs:195-201 | `next_token` does what `Fetch` says |
| OldParser.Parser.ExpectEndOfPackage | src/parser.rs:237-249 | `expect_end_of_package` does what its function says |
| OldParser.Parser.ParseFuncCall | src/parser.rs:154-156 | `parse_func_call` always panics |
| OldParser.Parser.ParseBranchIdentifierExpr | src/parser.rs:171-183 | the method does what its function says |
| OldParser.Parser.ParseExpr | src/parser.rs:158-169 | the method does what its function says |
| OldParser.Parser.ParseVarAssign | src/parser.rs:128-152 | the method does what its function says |
| OldParser.Parser.NextPackage | src/parser.rs:87-126 | the method does what its function says |
| OldVariant.GetTypeinfo | src/vm/variant.rs:44-53 | each value's tag is the one of its own form, in both directions |
| OldVariant.FromExpr | src/vm/variant.rs:55-64 | an integer literal becomes an Integer and a string literal a String, with the same payload |
| OldVariant.FromExprType | src/vm/variant.rs:44-64 | a converted literal has the tag of its literal kind |
| OldVariant.FromExprInjective | src/vm/variant.rs:55-64 | different literals convert to different values |
| OldVm.Declare | src/vm/mod.rs:89-101 | a declaration fails exactly when shadowing is off and the name is bound; otherwise it binds the name and leaves every other binding alone |
| OldVm.Assign | src/vm/mod.rs:103-116 | an assignment fails exactly when implicit variables are off and the name is unbound; otherwise it overwrites the binding; with implicit variables off, the bound names never change |
| OldVm.Lookup | src/vm/mod.rs:118-124 | `get_variable` gives the bound value exactly when the name is bound |
| OldVm.CallFunc | src/vm/mod.rs:126-130 | `call_func` always fails |
| OldVm.EvalExprMeaning | src/vm/mod.rs:80-87 | literals evaluate as `From<Expr>` converts them, and identifiers to their binding, failing exactly when unbound |
| OldVm.CallsFail | src/vm/mod.rs:126-130 | every call expression fails |
| OldVm.EvalArgsMeaning | src/vm/mod.rs:70-75 | arguments are evaluated left to right; evaluation succeeds exactly when every argument does, with one value per argument |
| OldVm.DeclareThenLookup | src/vm/mod.rs:89-124 | a declared name looks up to its value |
| OldVm.ExecKeepsNames | src/vm/mod.rs:52-62 | with implicit variables off, only a declaration adds a name, and exactly its own |
| OldVm.RedeclarationFails | src/vm/mod.rs:89-91 | with shadowing off, running a declaration twice fails the second time |
| OldVm.Vm.constructor | src/vm/mod.rs:43-50 | a new VM has no variables and no builtins, and both flags off |
| OldVm.Vm.NewVariable | src/vm/mod.rs:89-101 | `new_variable` does what `Declare` says and leaves the map unchanged on failure |
| OldVm.Vm.SetVariable | src/vm/mod.rs:103-116 | `set_variable` does what `Assign` says and leaves the map unchanged on failure |
| OldVm.Vm.GetVariable | src/vm/mod.rs:118-124 | `get_variable` does what `Lookup` says and changes nothing |
| OldVm.Vm.EvalExpr | src/vm/mod.rs:80-87 | `eval_expr` does what its function says |
| OldVm.Vm.EvalFuncCall | src/vm/mod.rs:70-78 | `eval_func_call`, with its argument loop, gives what `EvalFuncCallSpec` says, which with `CallsFail` is always an error |
| OldVm.Vm.EvalVarAssign | src/vm/mod.rs:64-68 | the value is evaluated before binding, so an evaluation error leaves the variables unchanged |
| OldVm.Vm.ExecPackage | src/vm/mod.rs:52-62 | `exec_package` runs the statement's form and leaves the variables unchanged on failure |
| Tokens.LexAt | src/parser/mod.rs:376-384 | reading past the last lexer result gives `EndOfFile` |
| Tokens.NextPos | src/parser/mod.rs:376-384 | a read moves one result forward, and stays at the end |
| Tokens.KindName | src/parser/mod.rs:291 | a kind's `Debug` name is non-empty |
| Tokens.KindNameInjective | src/parser/mod.rs:284-295 | distinct kinds have distinct names, so the expectation in an error tells which kind was wanted |
| Ast.NewLocated | src/parser/types.rs:11-15 | `LocatedType::new` stores the value and the location unchanged |
| Ast.LocatedRoundTrip | src/parser/types.rs:11-21 | `as_ref` gives back exactly the stored value, and a located value is its value and location |
| ParserErrors.FromParseIntError | src/parser/error.rs:23-27 | the conversion gives `IntegerParsing` with the same text and `Some` of the cause |
| ParserErrors.FromOperatorNotComparator | src/parser/error.rs:29-33 | the conversion gives `UnexpectedToken` with the same token, expecting `==, !=, <, <=, > or >=` |
| ParserErrors.EscapeChar | src/parser/error.rs:15 | `Debug` writes a quote, backslash, newline, return, tab or NUL as a backslash and a letter, and a printable character as itself |
| ParserErrors.Escape | src/parser/error.rs:15 | an escaped string is at least as long as the string |
| ParserErrors.EscapeInjective | src/parser/error.rs:15 | different strings escape differently |
| ParserErrors.DebugOptionInjective | src/parser/error.rs:15 | different expectations render differently |
| ParserErrors.Message | src/parser/error.rs:13-20 | a lexer error's message is the lexer's own message |
| ParserErrors.UnexpectedMessageDetermines | src/parser/error.rs:15-16 | for one location, the message determines the token's content given the expectation, and the expectation given the content |
| LegacyParser.Fetch | src/parser/legacy.rs:388-394 | `next_token` takes the stored token first and empties the slot; every token read brings the end one step nearer |
| LegacyParser.Store | src/parser/legacy.rs:382-386 | storing needs an empty slot and fills it without reading |
| LegacyParser.ExpectTokenType | src/parser/legacy.rs:409-415 | the check succeeds exactly on a token of the kind, and otherwise reports the token with no expectation |
| LegacyParser.ExpectTokenContent | src/parser/legacy.rs:401-407 | the check succeeds exactly on a token with the content, and otherwise reports the token |
| LegacyParser.ExpectToken | src/parser/legacy.rs:396-399 | the check succeeds exactly when kind and content both match |
| LegacyParser.IsEndOfPackage | src/parser/legacy.rs:417-433 | end of input and `;` end a statement; other lexer errors are passed on; the token read is handed back |
| LegacyParser.ExpectEndOfPackageSpec | src/parser/legacy.rs:435-449 | a statement must be followed by `;` or the end of input; any other token is reported |
| LegacyParser.NextPackageSpec | src/parser/legacy.rs:124-173 | a statement consumes input and carries the parser's source; with a token stored, the result is never "no statement"; `UnexpectedEndOfFile` is never reported |
| LegacyParser.PackageSpec | src/parser/legacy.rs:133-172 | the first token must be an identifier or a keyword; `let`, `fn` and `if` give a declaration, a function and an `if`; an identifier gives a call or an assignment of its own name; a statement parses exactly when `;` or the end of input follows its body; `IdentifierStatementDispatch` and `VarAssignTokens` give the tokens of a call, an assignment and a declaration |
| LegacyParser.HighLevelSpec | src/parser/legacy.rs:138-165 | the statement's form follows its first token, and a call or an assignment carries that token's name; after an identifier, `IdentifierStatementDispatch` gives the call on `(`, the assignment on `=` and the error on anything else |
| LegacyParser.ParseVarAssignSpec | src/parser/legacy.rs:175-193 | a given name is kept; with none, `VarAssignTokens` states the declaration is exactly an identifier, `=` and an expression |
| LegacyParser.AssignRestSpec | src/parser/legacy.rs:186-192 | the assignment keeps the name it was given; `VarAssignTokens` and `IdentifierStatementDispatch` state that it is `=` followed by an expression |
| LegacyParser.ParseFuncDeclSpec | src/parser/legacy.rs:195-240 | a function declaration never reports an unexpected end of file |
| LegacyParser.ArgLoopSpec | src/parser/legacy.rs:209-231 | the parameter loop never reports an unexpected end of file |
| LegacyParser.ParseIfStatementSpec | src/parser/legacy.rs:242-247 | an `if` statement never reports an unexpected end of file |
| LegacyParser.IfBlockSpec | src/parser/legacy.rs:244-246 | the block of an `if` never reports an unexpected end of file |
| LegacyParser.ParseStatementBlockSpec | src/parser/legacy.rs:249-274 | a block consumes no more than is left and never reports `UnexpectedEndOfFile`; `BlockNeedsBrace` and `BlockEmpty` state how it opens |
| LegacyParser.BlockLoopSpec | src/parser/legacy.rs:257-271 | the statement loop of a block consumes no more than is left and never reports `UnexpectedEndOfFile`; `BlockLoopClosed`, `BlockLoopStatement` and `BlockLoopKeepsOrder` state what it reads |
| LegacyParser.ParseFuncCallSpec | src/parser/legacy.rs:276-295 | a call keeps its given name and never reports `UnexpectedEndOfFile` |
| LegacyParser.CallRestSpec | src/parser/legacy.rs:287-294 | the call keeps the name it was given |
| LegacyParser.LiteralExpr | src/parser/legacy.rs:302-315 | only integer, string and bool literal tokens give a literal expression |
| LegacyParser.ParseExprSpec | src/parser/legacy.rs:297-316 | a successful expression consumes at least one token; `UnexpectedEndOfFile` is never reported |
| LegacyParser.ParseBranchIdentifierExprSpec | src/parser/legacy.rs:318-342 | the identifier branch consumes no more than is left and never reports `UnexpectedEndOfFile` |
| LegacyParser.ParseArraySpec | src/parser/legacy.rs:344-348 | an array expression parses to an `Array` |
| LegacyParser.ParseListSpec | src/parser/legacy.rs:350-376 | a list consumes no more than is left and never reports `UnexpectedEndOfFile`; `ListFirstElement`, `ListBadSeparator`, `ListCommaThenElement` and `ListDoubleCommaRejected` state its separators |
| LegacyParser.FetchAt | src/parser/legacy.rs:388-394 | reading several tokens in a row stays within the input |
| LegacyParser.NextPackageNone | src/parser/legacy.rs:125-131 | `next_package` gives `Ok(None)` exactly when the input is at its end |
| LegacyParser.IdentifierFollowers | src/parser/legacy.rs:318-342 | an identifier is an `Identifier` expression exactly when the end of input, `;`, `)`, `,` or `]` follows, which is then pushed back; a follower other than these and `(` is reported |
| LegacyParser.CallExprNamedParen | src/parser/legacy.rs:330-331 | a call expression is named `"("`, not after the identifier, and parses only when two `(` follow the identifier |
| LegacyParser.IdentifierExpr | src/parser/legacy.rs:312 | an expression starting with an identifier is the identifier branch |
| LegacyParser.IfIdentifierConditionRejected | src/parser/legacy.rs:242-247 | `if x {` is rejected at `{`: an identifier condition cannot be followed by a block |
| LegacyParser.IfConditionError | src/parser/legacy.rs:243 | an error in the condition is the error of the `if` statement |
| LegacyParser.ArgLoopRejectsComma | src/parser/legacy.rs:214-231 | a `,` in the parameter list is rejected, because `first_arg_token` is never cleared |
| LegacyParser.ArgLoopAdjacentParams | src/parser/legacy.rs:214-231 | parameters are taken one after another with no separator |
| LegacyParser.ListEmpty | src/parser/legacy.rs:355-359 | an immediate stop operator gives an empty list |
| LegacyParser.ListTrailingCommaRejected | src/parser/legacy.rs:361-371 | a trailing comma before the stop operator is rejected at the stop operator |
| LegacyParser.LiteralTokenExpr | src/parser/legacy.rs:297-316 | an expression that starts with anything but an identifier or `[` is decided by that token alone |
| LegacyParser.LiteralExprs | src/parser/legacy.rs:303-311 | an integer literal parses to its value; a bool literal is `true` or `false`, and any other text panics at the `unwrap` |
| LegacyParser.IdentifierStatementDispatch | src/parser/legacy.rs:146-164 | after an identifier: `(` gives a call of that name with the list up to `)`, `=` an assignment to it of the next expression, and any other token is reported |
| LegacyParser.VarAssignTokens | src/parser/legacy.rs:175-193 | after `let`, a declaration is exactly an identifier, `=` and an expression, and gives that name and that expression |
| LegacyParser.BlockNeedsBrace | src/parser/legacy.rs:250-253 | a block whose first token is not `{` is rejected with that token |
| LegacyParser.BlockLoopClosed | src/parser/legacy.rs:257-263 | a `}` where a statement would start ends the block with the statements read so far, and is consumed |
| LegacyParser.BlockEmpty | src/parser/legacy.rs:249-274 | `{` then `}` is the empty block, and both are consumed |
| LegacyParser.BlockLoopStatement | src/parser/legacy.rs:257-271 | any other token is handed back and starts the next statement, which is appended after the ones read so far; its error is the block's |
| LegacyParser.BlockLoopKeepsOrder | src/parser/legacy.rs:257-273 | the statements of a block keep the order in which they were read |
| LegacyParser.ListFirstElement | src/parser/legacy.rs:355-371 | the first element needs no `,`: its first token is handed back and parsed as an expression |
| LegacyParser.ListBadSeparator | src/parser/legacy.rs:360-364 | after an element, a token other than the stop operator and `,` is reported |
| LegacyParser.ListCommaThenElement | src/parser/legacy.rs:361-371 | after an element and one `,`, the next token is handed back and starts the next element, appended after the others |
| LegacyParser.ListDoubleCommaRejected | src/parser/legacy.rs:361-371 | two `,` in a row are rejected at the second, so elements are separated by exactly one `,` |
| LegacyParser.Parser.constructor | src/parser/legacy.rs:116-122 | a new parser starts at the first token with an empty slot |
| LegacyParser.Parser.StoreToken | src/parser/legacy.rs:382-386 | storing needs an empty slot and fills it |
| LegacyParser.Parser.NextToken | src/parser/legacy.rs:388-394 | `next_token` does what `Fetch` says |
| LegacyParser.Parser.ExpectEndOfPackage | src/parser/legacy.rs:435-449 | the method does what its function says |
| LegacyParser.Parser.NextPackage | src/parser/legacy.rs:124-173 | the method does what `NextPackageSpec` says, whose statement forms the lemmas above fix token by token |
| LegacyParser.Parser.ParseVarAssign | src/parser/legacy.rs:175-193 | the method does what `ParseVarAssignSpec` says: `VarAssignTokens` gives its tokens |
| LegacyParser.Parser.ParseFuncDecl | src/parser/legacy.rs:195-240 | the method and its parameter loop do what its function says |
| LegacyParser.Parser.ParseIfStatement | src/parser/legacy.rs:242-247 | the method does what its function says |
| LegacyParser.Parser.ParseStatementBlock | src/parser/legacy.rs:249-274 | the method and its statement loop do what `ParseStatementBlockSpec` and `BlockLoopSpec` say, whose grammar the block lemmas state |
| LegacyParser.Parser.ParseFuncCall | src/parser/legacy.rs:276-295 | the method does what its function says |
| LegacyParser.Parser.ParseExpr | src/parser/legacy.rs:297-316 | the method does what its function says |
| LegacyParser.Parser.ParseBranchIdentifierExpr | src/parser/legacy.rs:318-342 | the method does what its function says |
| LegacyParser.Parser.ParseArray | src/parser/legacy.rs:344-348 | the method does what its function says |
| LegacyParser.Parser.ParseList | src/parser/legacy.rs:350-376 | the method and its loop do what `ParseListSpec` says, whose separators the list lemmas state |
| CursorParser.ReadTokenSpec | src/parser/mod.rs:376-384 | `read_token` gives `None` exactly at the end of the input, passes on any other lexer error, and otherwise gives the lexer's token |
| CursorParser.PeekSpec | src/parser/mod.rs:347-355 | a peek returns the lookahead if there is one, without reading; otherwise what it reads becomes the lookahead; the current token and the retain flag are untouched |
| CursorParser.Retain | src/parser/mod.rs:357-359 | `retain_token` sets the flag and changes nothing else |
| CursorParser.AdvanceSpec | src/parser/mod.rs:361-374 | an advance clears the retain flag; with the flag set or a lookahead present it cannot fail and always consumes |
| CursorParser.PeekOrFailSpec | src/parser/mod.rs:329-335 | a successful `peek_or_fail` leaves the token as lookahead and consumes nothing |
| CursorParser.NextOrFailSpec | src/parser/mod.rs:337-345 | a successful `next_or_fail` makes the token current and consumes it |
| CursorParser.ExpectTokenType | src/parser/mod.rs:284-295 | the check succeeds exactly on a token of the kind, and otherwise reports the token, expecting the kind's `Debug` name |
| CursorParser.ExpectTokenContent | src/parser/mod.rs:306-317 | the check succeeds exactly on a token with the content, and otherwise reports it, expecting that content |
| CursorParser.ExpectToken | src/parser/mod.rs:298-303 | the check succeeds exactly when kind and content match; a wrong kind is reported before a wrong content |
| CursorParser.CheckFirst | src/parser/mod.rs:38-40 | a statement may start with an identifier, a keyword or `;` |
| CursorParser.NextPackageSpec | src/parser/mod.rs:31-91 | a statement consumes input and carries the parser's source |
| CursorParser.HighLevelSpec | src/parser/mod.rs:38-85 | `;` gives `Noop`; an identifier gives a call or an assignment, a keyword a declaration, a function or an `if`; a call is named after the first token |
| CursorParser.KeywordStatementSpec | src/parser/mod.rs:42-53 | `let`, `fn` and `if` give a declaration, a function and an `if`, and no other keyword gives a statement |
| CursorParser.IdentStatementSpec | src/parser/mod.rs:58-84 | an identifier statement is a call named after the identifier, or an assignment; `SetStatementTokens`, `CallStatementTokens` and `CallNeedsSemicolon` give its exact tokens, `;` included |
| CursorParser.VarDeclOrAssignSpec | src/parser/mod.rs:93-117 | a declaration or assignment consumes input; `DeclarationTokens` and `LetStatementTokens` state it is exactly `let`, a name, `=`, an expression and `;` |
| CursorParser.AssignRestSpec | src/parser/mod.rs:102-116 | the assignment keeps the name read, and consumes input; `AssignRestTokens` and `AssignNeedsSemicolon` state it is exactly `=`, an expression and `;`, and report a missing `;` with the token found |
| CursorParser.FuncDeclSpec | src/parser/mod.rs:119-139 | a function declaration consumes input; `FnStatementTokens` states it is exactly `fn`, a name, `(`, the parameters up to `)` and a block |
| CursorParser.IfStatementSpec | src/parser/mod.rs:141-152 | an `if` statement consumes input; `IfStatementTokens` states it is exactly `if`, a condition and a block |
| CursorParser.LiteralExprSpec | src/parser/mod.rs:162-176 | only `[` makes a literal expression read further |
| CursorParser.ExprSpec | src/parser/mod.rs:154-177 | a successful expression consumes input |
| CursorParser.BranchIdentifierExprSpec | src/parser/mod.rs:179-198 | the identifier branch gives an identifier or a call; `IdentifierExprTokens` states which follower gives which |
| CursorParser.ArraySpec | src/parser/mod.rs:200-204 | an array expression parses to an `Array` |
| CursorParser.ExprListSpec | src/parser/mod.rs:206-229 | an expression list consumes no more than is left |
| CursorParser.ExprListLoopSpec | src/parser/mod.rs:209-226 | the loop only appends to the expressions already parsed |
| CursorParser.ArgListSpec | src/parser/mod.rs:231-255 | a parameter list consumes no more than is left |
| CursorParser.ArgListLoopSpec | src/parser/mod.rs:234-252 | the parameter loop consumes no more than is left |
| CursorParser.BlockSpec | src/parser/mod.rs:257-281 | a block consumes no more than is left |
| CursorParser.BlockLoopSpec | src/parser/mod.rs:264-276 | the statement loop of a block consumes no more than is left |
| CursorParser.PeekIdempotent | src/parser/mod.rs:347-355 | a second peek returns the same token and changes nothing, so the lexer is read at most once |
| CursorParser.PeekThenNext | src/parser/mod.rs:329-345 | `next_or_fail` after `peek_or_fail` gives the peeked token without reading, and clears the lookahead |
| CursorParser.RetainRedelivers | src/parser/mod.rs:357-365 | after `retain_token`, `next_or_fail` gives the current token again and only clears the flag |
| CursorParser.CleanNext | src/parser/mod.rs:361-384 | with no lookahead and no retain, `next_or_fail` reads one result: its token, `UnexpectedEndOfFile` at the end, or the lexer error |
| CursorParser.Exhausted | src/parser/mod.rs:329-345 | at the end of the input, `peek_or_fail` and `next_or_fail` give `UnexpectedEndOfFile`, and `next_package` gives `Ok(None)` |
| CursorParser.Package | src/parser/mod.rs:87-90 | a parsed statement is wrapped with the source, and the cursor is left as it was |
| CursorParser.AsDecl | src/parser/mod.rs:44 | the declaration succeeds exactly when the assignment does |
| CursorParser.AsSet | src/parser/mod.rs:81 | the assignment statement succeeds exactly when the assignment does |
| CursorParser.NextPackageStep | src/parser/mod.rs:32-40 | after a peek finds a token, `next_package` is the statement that token starts |
| CursorParser.NextPackageNone | src/parser/mod.rs:32-36 | `next_package` gives `Ok(None)` exactly when the peek finds the end of the input |
| CursorParser.FirstTokenRejected | src/parser/mod.rs:38-40 | a first token that is not an identifier, a keyword or `;` is reported, expecting `;` for an operator and `Operator` otherwise |
| CursorParser.UnknownKeywordReported | src/parser/mod.rs:47-52 | an unknown keyword is reported through the current token, which is the one before it, or the parser panics when there is none |
| CursorParser.EmptyStatement | src/parser/mod.rs:54-57 | `;` is an empty statement that consumes the `;` |
| CursorParser.NextPackageKeyword | src/parser/mod.rs:42-53 | a statement starting with a keyword is the keyword statement |
| CursorParser.NextPackageIdentifier | src/parser/mod.rs:58-84 | a statement starting with an identifier is the identifier statement |
| CursorParser.HighLevelIdentifier | src/parser/mod.rs:58-84 | an identifier leads to the identifier statement |
| CursorParser.IdentifierFollower | src/parser/mod.rs:61-83 | an identifier must be followed by an operator, and by `(` or `=`: otherwise that token is reported, expecting `Operator` or `( or =` |
| CursorParser.AssignmentRereadsIdentifier | src/parser/mod.rs:79-81 | for `x =`, the identifier is retained and read again as the name, with `=` still ahead |
| CursorParser.DeclarationReadsName | src/parser/mod.rs:93-102 | after `let`, the name is read from the next token |
| CursorParser.ExprListEmpty | src/parser/mod.rs:210-215 | an immediate end operator gives an empty list, and is consumed |
| CursorParser.ExprAfterPeek | src/parser/mod.rs:157-162 | peeking before an expression does not change how it parses |
| CursorParser.ExprListTrailingComma | src/parser/mod.rs:217-225 | a trailing comma before the end operator is accepted |
| CursorParser.ExprListBadSeparator | src/parser/mod.rs:219-225 | any other separator is reported, expecting `,` (or `Operator` when it is not an operator) |
| CursorParser.ArgNotIdentifier | src/parser/mod.rs:235-241 | a parameter that is not an identifier is reported, expecting `Identifier` |
| CursorParser.ArgListTrailingComma | src/parser/mod.rs:241-251 | a trailing comma before the end operator is accepted in a parameter list too |
| CursorParser.ArgNamesAreIdentifiers | src/parser/mod.rs:234-252 | every parameter name is the text of an identifier token of the input, and the names already collected are kept |
| CursorParser.BlockUnclosed | src/parser/mod.rs:264-266 | the end of input inside a block gives `UnexpectedEndOfFile` |
| CursorParser.BlockClosed | src/parser/mod.rs:265-280 | a peeked `}` ends the block and is consumed |
| CursorParser.EmptyBlock | src/parser/mod.rs:257-281 | `{` `}` is an empty block |
| CursorParser.ReadsTokenAt | src/parser/mod.rs:337-374 | from a clean cursor, or one whose lookahead is the next result, `next_or_fail` delivers that token and leaves nothing held back |
| CursorParser.AssignRestTokens | src/parser/mod.rs:104-116 | the rest of a declaration or an assignment succeeds exactly on `=`, an expression and `;` |
| CursorParser.AssignNeedsSemicolon | src/parser/mod.rs:110-111 | after `=` and an expression, a token other than `;` is reported, expecting `;` (or `Operator`), and the end of the input gives its error |
| CursorParser.DeclarationTokens | src/parser/mod.rs:93-117 | after `let`, `parse_var_decl_or_assign` succeeds exactly on a name, `=`, an expression and `;` |
| CursorParser.NextPackageDeclaration | src/parser/mod.rs:42-44 | a declaration statement is a peeked `let` keyword followed by what `parse_var_decl_or_assign` reads |
| CursorParser.LetPeekedTokens | src/parser/mod.rs:93-117 | after a peeked `let`, the declaration is exactly a name, `=`, an expression and `;` |
| CursorParser.LetStatementTokens | src/parser/mod.rs:31-117 | `let x = e;` is exactly the keyword `let`, an identifier, `=`, an expression and `;` |
| CursorParser.NextPackageIdentStatement | src/parser/mod.rs:58-84 | only a first identifier makes a call or an assignment statement, through the identifier branch |
| CursorParser.NextPackageKeywordStatement | src/parser/mod.rs:42-53 | only a first keyword makes a declaration, a function or an `if`, through the keyword branch |
| CursorParser.AssignPeekedTokens | src/parser/mod.rs:58-117 | after an identifier, the assignment succeeds exactly on `=`, an expression and `;`, and assigns that identifier unless it is `let` |
| CursorParser.SetStatementTokens | src/parser/mod.rs:58-117 | `x = e;` is exactly an identifier other than `let`, `=`, an expression and `;` |
| CursorParser.CallPeekedTokens | src/parser/mod.rs:58-78 | after an identifier, the call succeeds exactly on `(`, the arguments up to `)` and `;`, and calls that identifier |
| CursorParser.CallStatementTokens | src/parser/mod.rs:58-78 | `f(a, b);` is exactly an identifier, `(`, the arguments up to `)` and `;` |
| CursorParser.CallNeedsSemicolon | src/parser/mod.rs:71-72 | after a call's `)`, a token other than `;` is reported, expecting `;` (or `Operator`), and the end of the input gives its error |
| CursorParser.FuncDeclPeekedTokens | src/parser/mod.rs:119-139 | after a peeked `fn`, a function is exactly a name, `(`, the parameters up to `)` and a block |
| CursorParser.FnStatementTokens | src/parser/mod.rs:119-139 | `fn f(a, b) { ... }` is exactly `fn`, a name, `(`, the parameters up to `)` and a block, and gives that name, those parameters and that block |
| CursorParser.IfPeekedTokens | src/parser/mod.rs:141-152 | after a peeked `if`, the statement is exactly a condition and a block |
| CursorParser.IfStatementTokens | src/parser/mod.rs:141-152 | `if c { ... }` is exactly `if`, a condition and a block, and gives that condition and that block |
| CursorParser.IdentifierExprTokens | src/parser/mod.rs:179-198 | an identifier followed by a token whose text is `(` is a call of the list up to `)`; followed by any other token it is the identifier alone, with that token still ahead; at the end of the input it is `UnexpectedEndOfFile` |
| CursorParser.Parser.constructor | src/parser/mod.rs:21-29 | a new parser has no current token, no lookahead and no retained token |
| CursorParser.Parser.ReadToken | src/parser/mod.rs:376-384 | the method does what its function says |
| CursorParser.Parser.PeekToken | src/parser/mod.rs:347-355 | the method does what its function says |
| CursorParser.Parser.RetainToken | src/parser/mod.rs:357-359 | the method sets the flag |
| CursorParser.Parser.AdvanceToken | src/parser/mod.rs:361-374 | the method does what its function says |
| CursorParser.Parser.PeekOrFail | src/parser/mod.rs:329-335 | the method does what its function says |
| CursorParser.Parser.NextOrFail | src/parser/mod.rs:337-345 | the method does what its function says |
| CursorParser.Parser.NextPackage | src/parser/mod.rs:31-91 | the method does what its function says |
| CursorParser.Parser.ParseVarDeclOrAssign | src/parser/mod.rs:93-117 | the method does what `VarDeclOrAssignSpec` says, whose tokens `DeclarationTokens` gives |
| CursorParser.Parser.ParseFuncDecl | src/parser/mod.rs:119-139 | the method does what `FuncDeclSpec` says, whose tokens `FnStatementTokens` gives |
| CursorParser.Parser.ParseIfStatement | src/parser/mod.rs:141-152 | the method does what `IfStatementSpec` says, whose tokens `IfStatementTokens` gives |
| CursorParser.Parser.ParseExpr | src/parser/mod.rs:154-177 | the method does what its function says |
| CursorParser.Parser.ParseBranchIdentifierExpr | src/parser/mod.rs:179-198 | the method does what `BranchIdentifierExprSpec` says, whose followers `IdentifierExprTokens` gives |
| CursorParser.Parser.ParseArray | src/parser/mod.rs:200-204 | the method does what its function says |
| CursorParser.Parser.ParseExprList | src/parser/mod.rs:206-229 | the method and its loop do what its function says |
| CursorParser.Parser.ParseArgList | src/parser/mod.rs:231-255 | the method and its loop do what its function says |
| CursorParser.Parser.ParseBlock | src/parser/mod.rs:257-281 | the method and its loop do what its function says |
| VmTypes.FromFuncDecl | src/vm/types.rs:21-32 | the entry's return type is always `Vary` |
| VmTypes.FuncDeclRoundTrip | src/vm/types.rs:21-32 | the declaration comes back from its entry, and an entry whose return type is `Vary` comes back from its declaration |
| VmTypes.FromFuncDeclKeeps | src/vm/types.rs:24-27 | the entry is keyed by the name and keeps the parameters and the block's statements, in order |
| VmTypes.FromFuncDeclInjective | src/vm/types.rs:21-32 | different declarations give different entries |
| Builtins.GetTypeinfo | src/vm/types.rs:9-19 | a value's tag is never `Vary` |
| Builtins.TypeinfoIsForm | src/vm/types.rs:9-19 | two values have the same tag exactly when they have the same form |
| Builtins.Register | src/vm/builtins.rs:13-15 | the name maps to the builtin, replacing any earlier entry, and other names are unchanged |
| Builtins.DefaultBuiltinsExactly | src/vm/builtins.rs:17-22 | the defaults add exactly `println`, `exec`, `env` and `typename`, each bound to its own function, and leave other entries alone |
| Builtins.SplitJoined | src/vm/builtins.rs:24-36 | the printed line gives back the shown arguments when none contains a space: one space between arguments, none elsewhere |
| Builtins.OptionsFromMeaning | src/vm/builtins.rs:47-57 | the options loop accepts exactly arrays of strings, and collects their texts in order |
| Builtins.CommandArgsMeaning | src/vm/builtins.rs:75-83 | the command arguments loop succeeds exactly when every argument is a string, and collects their texts in order |
| Builtins.CommandArgsFirstBad | src/vm/builtins.rs:75-80 | the first argument that is not a string is reported under `command_arg` and its own index |
| Builtins.CommandArgName | src/vm/builtins.rs:79 | the argument's name starts with `command_arg` and is followed by its index |
| Builtins.ExecNoArgs | src/vm/builtins.rs:39-43 | `exec` with no arguments fails with `wrong_arg_count(1, 0)` at the caller |
| Builtins.ExecOnlyOptions | src/vm/builtins.rs:59-63 | `exec` with only a valid options array fails with `wrong_arg_count(2, 1)` |
| Builtins.ExecBadOption | src/vm/builtins.rs:47-56 | an option that is not a string gives `invalid_value_type("String[]", "Vary[]")` for the argument `exec_opt`, before the other arguments are counted |
| Builtins.ExecRuns | src/vm/builtins.rs:38-117 | `exec` succeeds exactly on valid arguments, and then runs the command with its arguments in order, whatever the options; a spawn failure gives -1, and a process that ran gives its raw wait status |
| Builtins.ExecBadCommandArg | src/vm/builtins.rs:65-83 | the first command argument that is not a string is reported with its index counted after the command |
| Builtins.ZeroLocation | src/vm/builtins.rs:126 | the location used is zero-based line 0, column 0, with an empty file name |
| Builtins.EnvSpec | src/vm/builtins.rs:119-141 | `env` rejects any count but one at the zeroed location; a non-string argument is reported as `env_var` at the caller; otherwise the variable's value, or `Unit` when it is not set |
| Builtins.TypenameSpec | src/vm/builtins.rs:143-154 | `typename` rejects any count but one at the zeroed location, and otherwise names the argument's tag |
| Builtins.ArityErrorIgnoresCaller | src/vm/builtins.rs:124-127 | a wrong count for `env` is the same error whoever the caller is, while `exec` reports its count error at the caller |
| Builtins.TypenameSeparatesForms | src/vm/builtins.rs:153 | with distinct tag names, `typename` gives two values the same name exactly when they have the same form |
| Builtins.Vm.RegisterBuiltin | src/vm/builtins.rs:13-15 | `register_builtin` does what `Register` says to the registry |
| Builtins.Vm.RegisterDefaultBuiltins | src/vm/builtins.rs:17-22 | `register_default_builtins` adds the four defaults to the registry |
| Builtins.Vm.BuiltinPrintln | src/vm/builtins.rs:24-36 | `println` always returns `Unit`; the line printed is the shown arguments separated by single spaces, then a newline |
| Builtins.Vm.BuiltinExec | src/vm/builtins.rs:38-117 | `exec`, with its options loop and its command-argument loop, gives what `ExecSpec` says |

## Left out

- Reading input: `BufReader`/`Read` and the `unwrap` of a failed read in the lexer (src/lexer.rs:273-276, 303-304). The input is a byte sequence, so a read cannot fail.
- Unicode letters and digits: Unicode `is_alphabetic`/`is_numeric` are restricted to ASCII letters and digits, because the Unicode property tables are not part of this model. `is_whitespace` is the full White_Space list.
- UTF-8 decoding: `std::str::from_utf8` is specified by sections 3 and 4 of RFC 3629 (module `Utf8`), not by the standard library's code.
- The second generation's lexer is not part of this model. The parsers in src/parser/legacy.rs and src/parser/mod.rs read a finite sequence of lexer results, `Ok(token)` or `Err(error)`. Each token has a kind, content and a location. Reading past the end gives `EndOfFile`.
- Panics that input can reach become a model-only error `Panicked`. These are the `todo!()` of src/parser.rs:155, the `unwrap` of `current_token` in src/parser/mod.rs:49, and the `unwrap` of a bool literal's parse in src/parser/legacy.rs:311 and src/parser/mod.rs:173. The `assert!` of `store_token` is a precondition, and the model proves it never fires.
- `Location::new`'s `assert_ne!` checks are the precondition of `Common.New`.
- Common.Location.Line, Common.Location.Column: `line_z + 1` must not overflow `usize`, so both require the zero-based value to be below `usize::MAX`.
- OldVariant.FromExpr: the `todo!()` arms for `Identifier` and `FuncCall` (src/vm/variant.rs:60-61) are excluded by a precondition.
- The old VM's errors are `Err(())` in the source, so they are a unit error here. The `[VM DEBUG]` `println!` tracing (src/vm/mod.rs:95, 109, 127) is output only and is left out.
- The second generation's `VmVariant`, `VmError`, `try_native`, `caller_location`, `into_variant`, `Display` of values and of `VmType`, and the `Vm` that owns the registry are not part of this model. Builtins declares values, errors and a registry in the shape builtins.rs uses. `Display` is the parameter `show` of `println` and `typeName` of `typename`. The caller's location is a parameter.
- Builtins.Vm.BuiltinPrintln: writing to stdout is modelled as the returned text, not as output.
- Builtins.Vm.BuiltinExec: starting the process, waiting for it and decoding its exit status (src/vm/builtins.rs:85-116) are the parameter `spawn`, which gives a spawn failure or the raw wait status. The `expect` on `wait` and the message written to stderr on a spawn failure are left out. On non-Unix targets the status comes from `code()`/`success()`, which is not modelled.
- Builtins.EnvSpec: `std::env::var` is the parameter `lookup`. A variable whose value is not valid Unicode is treated like a missing one, giving `Unit` as the source does.
- `builtin_exec`'s options are checked but, as in the source, not used further.
- src/main.rs (the command-line driver) and src/vm/error.rs (an enum without operations) are not part of this model.
- ParserErrors.EscapeChar: `escape_debug` writes non-printable and grapheme-extending characters as `\u{…}`, which is not modelled. Every such character is written as itself. Only printable ASCII reaches it from the parsers' expected strings.
- The `Display` of `ParserError` is modelled for `UnexpectedToken` and the fixed messages. `thiserror`'s formatting beyond these templates is left out.
