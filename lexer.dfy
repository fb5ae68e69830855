/** The first-generation lexer (src/lexer.rs). It decodes its input one
    character at a time, keeps one character of pushback, and runs a small
    mode machine (word, number, string, operator, line return) to cut tokens.

    The behaviour of `next_token` is first given as functions over a
    `LexState` (cursor, current character, pushback slot); the class `Lexer`
    then implements it with the loops of the source and is proved equal to
    those functions. Properties of the lexer are lemmas about the functions. */
module Lexer {
  import opened Wrappers
  import opened Utf8

  datatype TokenType = IntegerLiteral | StringLiteral | Identifier | Operator | LineReturn

  datatype Token = Token(tokenType: TokenType, content: string)

  datatype Error =
    | InternalError
    | EndOfFile
    | UnexpectedEndOfFile
    | DecoderError
    | InvalidCodePoint
    | InvalidCharacter

  /** The lexer's mode; a string carries the flags (first, complete, escape). */
  datatype LexerMode =
    | Word
    | Number
    | String(first: bool, complete: bool, escape: bool)
    | Operator
    | LineReturn

  // ---------------------------------------------------------------------
  // Character classes

  /** `char::is_alphabetic`, restricted to ASCII letters. */
  predicate IsAlphabetic(c: char) {
    'a' <= c <= 'z' || 'A' <= c <= 'Z'
  }

  /** `char::is_numeric`, restricted to ASCII digits. */
  predicate IsNumeric(c: char) {
    '0' <= c <= '9'
  }

  predicate IsAlphanumeric(c: char) {
    IsAlphabetic(c) || IsNumeric(c)
  }

  /** A character that may continue a word. */
  predicate IsWordChar(c: char) {
    IsAlphanumeric(c) || c == '_'
  }

  /** `char::is_whitespace`: the Unicode White_Space property. */
  predicate IsWhitespace(c: char) {
    ('\t' <= c <= '\r') || c == ' ' || c == '\U{0085}' || c == '\U{00A0}' ||
    c == '\U{1680}' || ('\U{2000}' <= c <= '\U{200A}') || c == '\U{2028}' ||
    c == '\U{2029}' || c == '\U{202F}' || c == '\U{205F}' || c == '\U{3000}'
  }

  /** `is_operator`: the characters that start an operator token. */
  predicate IsOperator(c: char) {
    c == '=' || c == '(' || c == ')' || c == ';' || c == '#'
  }

  /** The mode the first character of a token selects, if any. */
  function ModeFor(c: char): (m: Option<LexerMode>)
    ensures m.None? <==> !(IsWordChar(c) && !IsNumeric(c)) && !IsNumeric(c) && c != '"' && !IsOperator(c) && c != '\n'
  {
    if IsAlphabetic(c) || c == '_' then Some(Word)
    else if IsNumeric(c) then Some(Number)
    else if c == '"' then Some(String(true, false, false))
    else if IsOperator(c) then Some(LexerMode.Operator)
    else if c == '\n' then Some(LexerMode.LineReturn)
    else None
  }

  /** The token type each mode produces. */
  function KindOf(mode: LexerMode): TokenType {
    match mode
    case Word => Identifier
    case Number => IntegerLiteral
    case String(_, _, _) => StringLiteral
    case Operator => TokenType.Operator
    case LineReturn => TokenType.LineReturn
  }

  // ---------------------------------------------------------------------
  // Reading one character

  /** The lexer's position in its input, the current character and the
      pushback slot. */
  datatype LexState = LexState(pos: nat, curr: char, buffered: Option<char>)

  /** What a step of the lexer returns, and the state after it. */
  datatype Step<T> = Step(result: Result<T, Error>, state: LexState)

  /** Characters still to come: unread bytes and the pushed-back one. */
  function Remaining(input: seq<byte>, st: LexState): nat
    requires st.pos <= |input|
  {
    |input| - st.pos + (if st.buffered.Some? then 1 else 0)
  }

  predicate IsDecodeError(e: Error) {
    e == UnexpectedEndOfFile || e == DecoderError || e == InvalidCodePoint
  }

  /** Whether bit `mask` of the byte is set (`c & mask != 0`). */
  predicate HasBit(c: byte, mask: nat)
    requires mask == 0x20 || mask == 0x10 || mask == 0x08
  {
    (c / mask) % 2 == 1
  }

  /** The number of continuation bytes a lead byte announces by its bits
      5, 4 and 3; `None` when all three are set. Bit 6 is not looked at. */
  function SupplementaryCount(c: byte): (k: Option<nat>)
    requires c >= 0x80
    ensures k.Some? ==> 1 <= k.value <= 3
    ensures k.None? <==> (0xB8 <= c <= 0xBF || 0xF8 <= c)
    ensures SequenceLength(c) >= 2 ==> k == Some(SequenceLength(c) - 1)
  {
    if !HasBit(c, 0x20) then Some(1)
    else if !HasBit(c, 0x10) then Some(2)
    else if !HasBit(c, 0x08) then Some(3)
    else None
  }

  /** The outcome of decoding at a position, and the position after it. */
  datatype Decoded = Decoded(outcome: Result<char, Error>, next: nat)

  /** How `next_char` decodes the bytes at `pos` when nothing is buffered. */
  function DecodeAt(input: seq<byte>, pos: nat): (d: Decoded)
    requires pos <= |input|
    ensures pos <= d.next <= |input|
    ensures d.outcome == Err(EndOfFile) <==> pos == |input|
    ensures d.outcome.Err? ==> d.outcome.error == EndOfFile || IsDecodeError(d.outcome.error)
    ensures d.outcome != Err(EndOfFile) ==> d.next > pos
    ensures d.outcome == Err(UnexpectedEndOfFile) ==> d.next == |input|
    ensures pos < |input| && input[pos] < 0x80 ==> d == Decoded(Ok(input[pos] as char), pos + 1)
  {
    if pos == |input| then Decoded(Err(EndOfFile), pos)
    else
      var c := input[pos];
      if c < 0x80 then Decoded(Ok(c as char), pos + 1)
      else match SupplementaryCount(c)
        case None => Decoded(Err(DecoderError), pos + 1)
        case Some(k) =>
          if pos + 1 + k > |input| then Decoded(Err(UnexpectedEndOfFile), |input|)
          else match FromUtf8(input[pos..pos + 1 + k])
            case None => Decoded(Err(InvalidCodePoint), pos + 1 + k)
            case Some(s) => Decoded(Ok(s[0]), pos + 1 + k)
  }

  /** `next_char`: the buffered character if there is one, else the next
      decoded character. On an error the current character is kept. */
  function NextCharSpec(input: seq<byte>, st: LexState): (r: Step<()>)
    requires st.pos <= |input|
    ensures r.state.pos <= |input| && r.state.buffered.None?
    ensures Remaining(input, r.state) <= Remaining(input, st)
    ensures r.result.Ok? ==> Remaining(input, r.state) < Remaining(input, st)
    ensures st.buffered.Some? ==> r == Step(Ok(()), LexState(st.pos, st.buffered.value, None))
    ensures r.result.Err? ==> r.state.curr == st.curr
    ensures r.result.Err? ==> r.result.error == EndOfFile || IsDecodeError(r.result.error)
    ensures r.result == Err(EndOfFile) ==> r.state == LexState(|input|, st.curr, None)
  {
    match st.buffered
    case Some(c) => Step(Ok(()), st.(curr := c, buffered := None))
    case None =>
      var d := DecodeAt(input, st.pos);
      match d.outcome
      case Ok(c) => Step(Ok(()), LexState(d.next, c, None))
      case Err(e) => Step(Err(e), LexState(d.next, st.curr, None))
  }

  // ---------------------------------------------------------------------
  // The mode handlers

  /** What a handler returns (`Ok(true)` once the token is complete) and the
      buffer and mode it leaves. */
  datatype Handled = Handled(res: Result<bool, Error>, buff: string, mode: LexerMode)

  /** `handle_word`: a word character is appended, anything else ends the
      word. */
  function HandleWord(buff: string, c: char): (h: Handled)
    ensures h.mode == Word && h.res.Ok?
    ensures h.res == Ok(true) <==> !IsWordChar(c)
    ensures h.buff == if IsWordChar(c) then buff + [c] else buff
  {
    if !IsAlphanumeric(c) && c != '_' then Handled(Ok(true), buff, Word)
    else Handled(Ok(false), buff + [c], Word)
  }

  /** `handle_number`: a digit is appended; a letter or `_` is rejected with
      `InvalidCharacter` and not appended; anything else ends the number. */
  function HandleNumber(buff: string, c: char): (h: Handled)
    ensures h.mode == Number
    ensures h.res == Err(InvalidCharacter) <==> IsAlphabetic(c) || c == '_'
    ensures h.res == Ok(false) <==> IsNumeric(c)
    ensures h.buff == if IsNumeric(c) then buff + [c] else buff
  {
    if !IsNumeric(c) then
      if IsAlphabetic(c) || c == '_' then Handled(Err(InvalidCharacter), buff, Number)
      else Handled(Ok(true), buff, Number)
    else Handled(Ok(false), buff + [c], Number)
  }

  /** `handle_string`. Every character up to and including the closing `"`
      is appended; the character after the closing quote completes the
      token. The branch that would set `escape` tests `c == '\\'` after
      `c == '"'` has been established, so it is never taken. */
  function HandleString(first: bool, complete: bool, escape: bool, buff: string, c: char): (h: Handled)
    ensures h.mode.String?
    ensures !escape ==> !h.mode.escape
    ensures complete ==> h.res == Ok(true) && h.buff == buff
    ensures !complete ==> h.res == Ok(false) && h.buff == buff + [c] && !h.mode.first
    ensures h.mode.complete <==> complete || (!first && !escape && c == '"')
  {
    if complete then Handled(Ok(true), buff, String(first, complete, escape))
    else if c != '"' || escape || first then Handled(Ok(false), buff + [c], String(false, complete, false))
    else if c == '\\' then Handled(Ok(false), buff + [c], String(first, complete, true))
    else Handled(Ok(false), buff + [c], String(first, true, escape))
  }

  /** The number of bytes UTF-8 spends on a character (the table in section
      3 of RFC 3629). */
  function CharUtf8Len(c: char): (n: nat)
    ensures 1 <= n <= 4
  {
    if c as int < 0x80 then 1
    else if c as int < 0x800 then 2
    else if c as int < 0x10000 then 3
    else 4
  }

  /** `String::len`: the length of a string in UTF-8 bytes. */
  function Utf8Len(s: string): (n: nat)
    ensures n >= |s|
  {
    if s == [] then 0 else CharUtf8Len(s[0]) + Utf8Len(s[1..])
  }

  /** `Utf8Len` is the length of the string's encoding. */
  lemma {:induction false} Utf8LenEncoded(s: string)
    ensures Utf8Len(s) == |EncodeString(s)|
    decreases |s|
  {
    if s != [] {
      Utf8LenEncoded(s[1..]);
    }
  }

  /** `handle_operator`. Operators are at most three characters long: the
      only three-character form is `>>>`; the two-character forms are a
      doubled `- + = / & |`, `<=`, `>=` and slash-star; `-` followed by a digit
      turns into a number. */
  function HandleOperator(buff: string, c: char): (h: Handled)
    ensures h.res.Ok?
    ensures h.res == Ok(false) ==> h.buff == buff + [c] && |h.buff| <= 3
    ensures h.res == Ok(true) ==> h.buff == buff && h.mode == LexerMode.Operator
    ensures h.res == Ok(false) && |h.buff| == 3 ==> h.buff == ">>>"
    ensures h.res == Ok(false) && |h.buff| == 2 && h.mode == LexerMode.Operator ==>
              ((h.buff[0] == h.buff[1] && h.buff[0] in "-+=/&|") || h.buff in {"<=", ">=", "/*"})
    ensures h.mode == Number ==> buff == "-" && IsNumeric(c)
    ensures h.mode == LexerMode.Operator || h.mode == Number
  {
    if buff == [] then Handled(Ok(false), [c], LexerMode.Operator)
    else if Utf8Len(buff) > 2 then Handled(Ok(true), buff, LexerMode.Operator)
    else if Utf8Len(buff) == 2 then
      if buff == ">>" && c == '>' then Handled(Ok(false), buff + [c], LexerMode.Operator)
      else Handled(Ok(true), buff, LexerMode.Operator)
    else
    assert buff == [buff[0]];
    if buff[0] == '-' && IsNumeric(c) then Handled(Ok(false), buff + [c], Number)
    else if buff[0] == c then
      if c in "-+=/&|" then Handled(Ok(false), buff + [c], LexerMode.Operator)
      else Handled(Ok(true), buff, LexerMode.Operator)
    else if (buff[0] == '<' && c == '=') || (buff[0] == '>' && c == '=') || (buff[0] == '/' && c == '*') then
      assert buff + [c] == [buff[0], c];
      Handled(Ok(false), buff + [c], LexerMode.Operator)
    else Handled(Ok(true), buff, LexerMode.Operator)
  }

  /** The handler of the current mode; `handle_line_return` completes at
      once. */
  function Handle(mode: LexerMode, buff: string, c: char): (h: Handled)
    ensures mode.LineReturn? ==> h == Handled(Ok(true), buff, mode)
  {
    match mode
    case Word => HandleWord(buff, c)
    case Number => HandleNumber(buff, c)
    case String(first, complete, escape) => HandleString(first, complete, escape, buff, c)
    case Operator => HandleOperator(buff, c)
    case LineReturn => Handled(Ok(true), buff, mode)
  }

  /** The `finalize_*` functions: the buffer becomes the token's content, a
      line return is always `"\n"`. */
  function Finalize(mode: LexerMode, buff: string): (t: Token)
    ensures t.tokenType == KindOf(mode)
    ensures t.content == if mode.LineReturn? then "\n" else buff
  {
    match mode
    case Word => Token(Identifier, buff)
    case Number => Token(IntegerLiteral, buff)
    case String(_, _, _) => Token(StringLiteral, buff)
    case Operator => Token(TokenType.Operator, buff)
    case LineReturn => Token(TokenType.LineReturn, "\n")
  }

  // ---------------------------------------------------------------------
  // next_token

  /** The loop skipping non-newline whitespace before a token. */
  function SkipWhitespace(input: seq<byte>, st: LexState): (r: Step<()>)
    requires st.pos <= |input|
    ensures r.state.pos <= |input|
    ensures Remaining(input, r.state) <= Remaining(input, st)
    ensures st.buffered.None? ==> r.state.buffered.None?
    ensures r.result.Ok? ==> !(IsWhitespace(r.state.curr) && r.state.curr != '\n')
    ensures r.result.Err? ==> r.result.error == EndOfFile || IsDecodeError(r.result.error)
    ensures r.result == Err(EndOfFile) ==> r.state.pos == |input| && r.state.buffered.None?
    decreases Remaining(input, st)
  {
    if IsWhitespace(st.curr) && st.curr != '\n' then
      var n := NextCharSpec(input, st);
      if n.result.Err? then Step(Err(n.result.error), n.state)
      else SkipWhitespace(input, n.state)
    else Step(Ok(()), st)
  }

  /** The loop skipping a comment up to a newline. */
  function SkipComment(input: seq<byte>, st: LexState): (r: Step<()>)
    requires st.pos <= |input|
    ensures r.state.pos <= |input|
    ensures Remaining(input, r.state) <= Remaining(input, st)
    ensures r.result.Ok? ==> r.state.curr == '\n'
    ensures r.result.Ok? && st.curr != '\n' ==> r.state.buffered.None?
    ensures r.result == Err(EndOfFile) ==> r.state.pos == |input| && r.state.buffered.None?
    decreases Remaining(input, st)
  {
    if st.curr != '\n' then
      var n := NextCharSpec(input, st);
      if n.result.Err? then Step(Err(n.result.error), n.state)
      else SkipComment(input, n.state)
    else Step(Ok(()), st)
  }

  /** The mode, the buffer and the `no_next_char` flag when the token loop
      stops. */
  datatype Scanned = Scanned(mode: LexerMode, buff: string, noNext: bool)

  /** The token loop: run the handler on the current character; stop when it
      reports the token complete, otherwise read the next character. An error
      from a handler is ignored. End of input stops the loop with
      `no_next_char` set; any other reading error ends `next_token`. */
  function TokenLoop(input: seq<byte>, mode: LexerMode, buff: string, noNext: bool, st: LexState): (r: Step<Scanned>)
    requires st.pos <= |input| && st.buffered.None?
    ensures r.state.pos <= |input| && r.state.buffered.None?
    ensures st.pos <= r.state.pos
    ensures r.result.Err? ==> IsDecodeError(r.result.error)
    ensures r.result.Ok? && r.result.value.noNext && r.state != st ==> r.state.pos == |input|
    ensures r.result.Ok? && noNext && !r.result.value.noNext ==> st.pos < r.state.pos
    decreases |input| - st.pos
  {
    var h := Handle(mode, buff, st.curr);
    if h.res == Ok(true) then Step(Ok(Scanned(h.mode, h.buff, noNext)), st)
    else
      var n := NextCharSpec(input, st);
      if n.result == Err(EndOfFile) then Step(Ok(Scanned(h.mode, h.buff, true)), n.state)
      else if n.result.Err? then Step(Err(n.result.error), n.state)
      else TokenLoop(input, h.mode, h.buff, false, n.state)
  }

  /** From the first character of a token to the token: pick the mode, run
      the token loop, finalize, and push back the character that ended the
      token unless end of input ended it. */
  function ScanToken(input: seq<byte>, st: LexState): (r: Step<Token>)
    requires st.pos <= |input| && st.buffered.None?
    ensures r.state.pos <= |input|
    ensures Remaining(input, r.state) <= Remaining(input, st)
    ensures r.result.Err? ==> r.result.error == InvalidCharacter || IsDecodeError(r.result.error)
  {
    match ModeFor(st.curr)
    case None => Step(Err(InvalidCharacter), st)
    case Some(mode) =>
      var l := TokenLoop(input, mode, [], true, st);
      match l.result
      case Err(e) => Step(Err(e), l.state)
      case Ok(s) =>
        var st' := if !s.noNext then l.state.(buffered := Some(l.state.curr)) else l.state;
        Step(Ok(Finalize(s.mode, s.buff)), st')
  }

  /** `next_token`: read a character, skip whitespace, scan a token; a `#`
      token starts a comment, which is skipped before the next token is
      returned instead. */
  function NextTokenSpec(input: seq<byte>, st: LexState): (r: Step<Token>)
    requires st.pos <= |input|
    ensures r.state.pos <= |input|
    ensures Remaining(input, r.state) <= Remaining(input, st)
    ensures r.result.Ok? ==> Remaining(input, r.state) < Remaining(input, st)
    ensures r.result == Err(EndOfFile) ==> r.state.pos == |input| && r.state.buffered.None?
    decreases Remaining(input, st)
  {
    var s1 := NextCharSpec(input, st);
    if s1.result.Err? then Step(Err(s1.result.error), s1.state)
    else
      var s2 := SkipWhitespace(input, s1.state);
      if s2.result.Err? then Step(Err(s2.result.error), s2.state)
      else
        var s3 := ScanToken(input, s2.state);
        if s3.result.Ok? && s3.result.value.content == "#" then
          var s4 := SkipComment(input, s3.state);
          if s4.result.Err? then Step(Err(s4.result.error), s4.state)
          else NextTokenSpec(input, s4.state)
        else s3
  }

  /** Once `next_token` has reported the end of the input it keeps doing
      so, and reading again changes nothing. */
  lemma EndOfFileIsFinal(input: seq<byte>, st: LexState)
    requires st.pos <= |input|
    requires NextTokenSpec(input, st).result == Err(EndOfFile)
    ensures NextTokenSpec(input, NextTokenSpec(input, st).state) == NextTokenSpec(input, st)
  {
    var q := NextTokenSpec(input, st).state;
    assert NextCharSpec(input, q) == Step(Err(EndOfFile), q);
  }

  // ---------------------------------------------------------------------
  // Decoding: the four outcomes of `next_char`

  /** The encoding of any character, wherever it stands in the input, is
      decoded to that character and consumed whole. */
  lemma DecodeAtEncode(input: seq<byte>, pos: nat, c: char)
    requires pos + |Encode(c)| <= |input| && input[pos..pos + |Encode(c)|] == Encode(c)
    ensures DecodeAt(input, pos) == Decoded(Ok(c), pos + |Encode(c)|)
  {
    var e := Encode(c);
    assert input[pos] == e[0];
    if |e| > 1 {
      assert SequenceLength(e[0]) == |e|;
      FromUtf8Single(e);
    }
  }

  /** Conversely, a character is decoded only from its own encoding. */
  lemma DecodeAtOk(input: seq<byte>, pos: nat)
    requires pos <= |input| && DecodeAt(input, pos).outcome.Ok?
    ensures var d := DecodeAt(input, pos); input[pos..d.next] == Encode(d.outcome.value)
  {
    var d := DecodeAt(input, pos);
    var c := input[pos];
    if c < 0x80 {
      assert input[pos..d.next] == [c];
    } else {
      var k := SupplementaryCount(c).value;
      var slice := input[pos..pos + 1 + k];
      assert slice[0] == c;
      assert slice[..SequenceLength(c)] == slice;
      EncodeCharValue(slice);
    }
  }

  /** Invalid UTF-8 is reported as `InvalidCodePoint` exactly when the lead
      byte announces a length, that many bytes are present, and they do not
      form a well-formed character. */
  lemma DecodeAtInvalid(input: seq<byte>, pos: nat)
    requires pos <= |input|
    ensures DecodeAt(input, pos).outcome == Err(InvalidCodePoint) <==>
      pos < |input| && input[pos] >= 0x80 && SupplementaryCount(input[pos]).Some? &&
      pos + 1 + SupplementaryCount(input[pos]).value <= |input| &&
      !IsUtf8Char(input[pos..pos + 1 + SupplementaryCount(input[pos]).value])
  {
    if pos < |input| && input[pos] >= 0x80 && SupplementaryCount(input[pos]).Some? {
      var k := SupplementaryCount(input[pos]).value;
      if pos + 1 + k <= |input| {
        var slice := input[pos..pos + 1 + k];
        if SequenceLength(slice[0]) == |slice| {
          FromUtf8AnnouncedLength(slice);
        } else {
          assert !IsUtf8Char(slice);
          assert FromUtf8(slice).None?;
        }
      }
    }
  }

  // ---------------------------------------------------------------------
  // The shape of tokens

  predicate IsWord(s: string) {
    |s| >= 1 && (IsAlphabetic(s[0]) || s[0] == '_') && forall i :: 0 <= i < |s| ==> IsWordChar(s[i])
  }

  predicate IsDigits(s: string) {
    |s| >= 1 && forall i :: 0 <= i < |s| ==> IsNumeric(s[i])
  }

  /** An opening quote and no other quote before the last character. */
  predicate IsQuoted(s: string) {
    |s| >= 1 && s[0] == '"' && forall i :: 1 <= i < |s| - 1 ==> s[i] != '"'
  }

  predicate IsClosed(s: string) {
    |s| >= 2 && s[|s| - 1] == '"'
  }

  /** The operators the lexer can produce, given the characters that start
      one. */
  predicate IsReachableOperator(s: string) {
    s in {"=", "==", "(", ")", ";", "#"}
  }

  /** What the token loop has built so far in each mode. */
  predicate InProgress(mode: LexerMode, buff: string) {
    match mode
    case Word => buff == [] || IsWord(buff)
    case Number => buff == [] || IsDigits(buff)
    case String(first, complete, escape) =>
      !escape && (first <==> buff == []) && (buff != [] ==> IsQuoted(buff)) && (complete <==> IsClosed(buff))
    case Operator => buff == [] || IsReachableOperator(buff)
    case LineReturn => buff == []
  }

  /** The character that stops a token in the given mode. */
  predicate Ends(mode: LexerMode, c: char) {
    match mode
    case Word => !IsWordChar(c)
    case Number => !IsNumeric(c) && !IsAlphabetic(c) && c != '_'
    case String(_, complete, _) => complete
    case _ => true
  }

  /** A token as the scanner produces it, `#` included. */
  predicate ScannedShape(t: Token) {
    match t.tokenType
    case Identifier => IsWord(t.content)
    case IntegerLiteral => IsDigits(t.content)
    case StringLiteral => IsQuoted(t.content)
    case Operator => IsReachableOperator(t.content)
    case LineReturn => t.content == "\n"
  }

  /** A token as `next_token` returns it: `#` never is. */
  predicate WellFormedToken(t: Token) {
    ScannedShape(t) && t.content != "#"
  }

  /** The UTF-8 length of an ASCII string is its length. */
  lemma {:induction false} Utf8LenAscii(s: string)
    requires forall i :: 0 <= i < |s| ==> s[i] < '\U{0080}'
    ensures Utf8Len(s) == |s|
    decreases |s|
  {
    if s != [] {
      Utf8LenAscii(s[1..]);
    }
  }

  /** From an operator start, the only operator that grows is `==`; the
      switch to a number (after `-`) can never happen. */
  lemma HandleOperatorReachable(buff: string, c: char)
    requires buff == [] ==> IsOperator(c)
    requires buff == [] || IsReachableOperator(buff)
    ensures var h := HandleOperator(buff, c);
      h.mode == LexerMode.Operator && IsReachableOperator(h.buff) &&
      (h.res == Ok(false) <==> buff == [] || (buff == "=" && c == '='))
  {
    if buff != [] {
      Utf8LenAscii(buff);
      if buff == "=" && c == '=' {
        assert buff + [c] == "==";
      }
    }
  }

  /** What `handle_operator` builds, from any buffer: the character is taken
      exactly when it starts an operator, turns `-` into a number, doubles one
      of `- + = / & |`, completes `<=`, `>=` or slash-star, or makes `>>>`. */
  lemma HandleOperatorGrows(buff: string, c: char)
    ensures var h := HandleOperator(buff, c);
      h.res == Ok(false) <==>
        buff == [] || (buff == "-" && IsNumeric(c)) || (buff == [c] && c in "-+=/&|") ||
        (buff in {"<", ">"} && c == '=') || (buff == "/" && c == '*') || (buff == ">>" && c == '>')
    ensures buff == "-" && IsNumeric(c) ==>
      HandleOperator(buff, c) == Handled(Ok(false), buff + [c], Number)
    ensures (buff == [c] && c in "-+=/&|") || (buff in {"<", ">"} && c == '=') ||
            (buff == "/" && c == '*') || (buff == ">>" && c == '>') ==>
      HandleOperator(buff, c) == Handled(Ok(false), buff + [c], LexerMode.Operator)
  {
    if buff != [] {
      assert Utf8Len(">>") == 2 by {
        assert ">>"[1..] == ">";
        assert ">"[1..] == [];
      }
      if |buff| == 1 {
        assert buff == [buff[0]] && buff[1..] == [];
        if buff[0] as int < 0x80 {
          assert Utf8Len(buff) == 1;
        }
      }
    }
  }

  /** One handler step keeps the shape of the buffer and the kind of token,
      and the first step always appends. */
  lemma HandleKeeps(mode: LexerMode, buff: string, c: char)
    requires InProgress(mode, buff)
    requires buff == [] ==> ModeFor(c) == Some(mode)
    ensures var h := Handle(mode, buff, c);
      InProgress(h.mode, h.buff) && KindOf(h.mode) == KindOf(mode) &&
      (!mode.LineReturn? ==> h.buff != []) &&
      (buff == [] && !mode.LineReturn? ==> h.res == Ok(false)) &&
      (h.res == Ok(true) ==> Ends(h.mode, c))
  {
    var h := Handle(mode, buff, c);
    match mode
    case Word =>
      if IsWordChar(c) {
        assert forall i :: 0 <= i < |h.buff| ==> IsWordChar(h.buff[i]);
      }
    case Number =>
      if IsNumeric(c) {
        assert forall i :: 0 <= i < |h.buff| ==> IsNumeric(h.buff[i]);
      }
    case String(first, complete, escape) =>
      if !complete {
        assert forall i :: 1 <= i < |h.buff| - 1 ==> h.buff[i] == buff[i];
      }
    case Operator =>
      HandleOperatorReachable(buff, c);
    case LineReturn =>
  }

  /** The token loop keeps the shape of the buffer and the kind of token. It
      ends either on a character that ends the token, which is then the
      current character, or at end of input; a string that is not closed
      ends only at end of input. */
  lemma {:induction false} TokenLoopShape(input: seq<byte>, mode: LexerMode, buff: string, noNext: bool, st: LexState)
    requires st.pos <= |input| && st.buffered.None?
    requires InProgress(mode, buff) && (buff == [] ==> ModeFor(st.curr) == Some(mode))
    ensures var l := TokenLoop(input, mode, buff, noNext, st);
      l.result.Ok? ==>
        var s := l.result.value;
        InProgress(s.mode, s.buff) && KindOf(s.mode) == KindOf(mode) &&
        (!mode.LineReturn? ==> s.buff != []) &&
        (!s.noNext ==> Ends(s.mode, l.state.curr)) &&
        (s.noNext && !mode.LineReturn? && buff == [] ==> l.state.pos == |input|) &&
        (s.mode.String? && !s.mode.complete ==> s.noNext && l.state.pos == |input|)
    decreases |input| - st.pos
  {
    var h := Handle(mode, buff, st.curr);
    HandleKeeps(mode, buff, st.curr);
    if h.res != Ok(true) {
      var n := NextCharSpec(input, st);
      if n.result.Ok? {
        TokenLoopShape(input, h.mode, h.buff, false, n.state);
      }
    }
  }

  /** The first character picks the kind of token: a letter or `_` an
      identifier, a digit a number, `"` a string, `= ( ) ; #` an operator, a
      newline a line return; any other character is `InvalidCharacter`, and
      only such a character is. What is scanned has the shape of its kind. */
  lemma ScanTokenKind(input: seq<byte>, st: LexState)
    requires st.pos <= |input| && st.buffered.None?
    ensures var r := ScanToken(input, st);
      (ModeFor(st.curr).None? <==> r.result == Err(InvalidCharacter)) &&
      (ModeFor(st.curr).None? ==> r.state == st) &&
      (r.result.Ok? ==> r.result.value.tokenType == KindOf(ModeFor(st.curr).value) && ScannedShape(r.result.value))
  {
    match ModeFor(st.curr)
    case None =>
    case Some(mode) =>
      TokenLoopShape(input, mode, [], true, st);
  }

  /** The character that ended a token is pushed back, unless end of input
      ended it; a line return reads nothing past the newline. A pushed-back
      character after an identifier or a number cannot continue it. */
  lemma ScanTokenPushback(input: seq<byte>, st: LexState)
    requires st.pos <= |input| && st.buffered.None?
    ensures var r := ScanToken(input, st);
      r.result.Ok? ==>
        var t := r.result.value;
        (t.tokenType == TokenType.LineReturn ==> r.state == st) &&
        (t.tokenType != TokenType.LineReturn ==>
           r.state.buffered == Some(r.state.curr) || (r.state.buffered.None? && r.state.pos == |input|)) &&
        (t.tokenType == Identifier && r.state.buffered.Some? ==> !IsWordChar(r.state.buffered.value)) &&
        (t.tokenType == IntegerLiteral && r.state.buffered.Some? ==> !IsWordChar(r.state.buffered.value)) &&
        (t.tokenType == StringLiteral && !IsClosed(t.content) ==> r.state.pos == |input|)
  {
    match ModeFor(st.curr)
    case None =>
    case Some(mode) =>
      TokenLoopShape(input, mode, [], true, st);
  }

  /** Every token `next_token` returns has the shape of its kind; in
      particular an operator is one of `=`, `==`, `(`, `)`, `;` and a `#`
      is never returned. */
  lemma {:induction false} NextTokenWellFormed(input: seq<byte>, st: LexState)
    requires st.pos <= |input|
    ensures var r := NextTokenSpec(input, st); r.result.Ok? ==> WellFormedToken(r.result.value)
    decreases Remaining(input, st)
  {
    var s1 := NextCharSpec(input, st);
    if s1.result.Ok? {
      var s2 := SkipWhitespace(input, s1.state);
      if s2.result.Ok? {
        ScanTokenKind(input, s2.state);
        var s3 := ScanToken(input, s2.state);
        if s3.result.Ok? && s3.result.value.content == "#" {
          var s4 := SkipComment(input, s3.state);
          if s4.result.Ok? {
            NextTokenWellFormed(input, s4.state);
          }
        }
      }
    }
  }

  // ---------------------------------------------------------------------
  // Behaviour on concrete inputs

  /** One turn of the token loop that does not complete the token. */
  lemma TokenLoopGoesOn(input: seq<byte>, mode: LexerMode, buff: string, noNext: bool, st: LexState, next: LexState)
    requires st.pos <= |input| && st.buffered.None?
    requires Handle(mode, buff, st.curr).res != Ok(true)
    requires NextCharSpec(input, st) == Step(Ok(()), next)
    ensures var h := Handle(mode, buff, st.curr);
      TokenLoop(input, mode, buff, noNext, st) == TokenLoop(input, h.mode, h.buff, false, next)
  {
  }

  /** The turn of the token loop that completes the token. */
  lemma TokenLoopStops(input: seq<byte>, mode: LexerMode, buff: string, noNext: bool, st: LexState)
    requires st.pos <= |input| && st.buffered.None?
    requires Handle(mode, buff, st.curr).res == Ok(true)
    ensures var h := Handle(mode, buff, st.curr);
      TokenLoop(input, mode, buff, noNext, st) == Step(Ok(Scanned(h.mode, h.buff, noNext)), st)
  {
  }

  /** A token scanned from a character that starts one. */
  lemma ScanTokenFrom(input: seq<byte>, st: LexState, mode: LexerMode, l: Step<Scanned>)
    requires st.pos <= |input| && st.buffered.None?
    requires ModeFor(st.curr) == Some(mode)
    requires TokenLoop(input, mode, [], true, st) == l && l.result.Ok?
    ensures var s := l.result.value;
      ScanToken(input, st)
        == Step(Ok(Finalize(s.mode, s.buff)), if !s.noNext then l.state.(buffered := Some(l.state.curr)) else l.state)
  {
  }

  /** `next_token` when the first character read is not whitespace and the
      token scanned from it is not `#`. */
  lemma NextTokenDirect(input: seq<byte>, st: LexState, first: LexState)
    requires st.pos <= |input|
    requires NextCharSpec(input, st) == Step(Ok(()), first)
    requires !IsWhitespace(first.curr) || first.curr == '\n'
    requires var r := ScanToken(input, first); !(r.result.Ok? && r.result.value.content == "#")
    ensures NextTokenSpec(input, st) == ScanToken(input, first)
  {
  }

  /** `next_token` when the first character read is not whitespace and
      starts a `#` comment. */
  lemma NextTokenComment(input: seq<byte>, st: LexState, first: LexState, after: LexState)
    requires st.pos <= |input|
    requires NextCharSpec(input, st) == Step(Ok(()), first)
    requires !IsWhitespace(first.curr) || first.curr == '\n'
    requires var r := ScanToken(input, first); r.result.Ok? && r.result.value.content == "#"
    requires SkipComment(input, ScanToken(input, first).state) == Step(Ok(()), after)
    ensures NextTokenSpec(input, st) == NextTokenSpec(input, after)
  {
  }

  /** `1a2 ` lexes as the number `12`: the letter is rejected by the number
      handler, the error is ignored, and the letter is lost. */
  lemma LetterInNumberDropped(input: seq<byte>)
    requires input == [0x31, 0x61, 0x32, 0x20]
    ensures NextTokenSpec(input, LexState(0, '\0', None)).result == Ok(Token(IntegerLiteral, "12"))
  {
    var last := LexState(4, ' ', None);
    TokenLoopStops(input, Number, "12", false, last);
    assert "1" + ['2'] == "12";
    TokenLoopGoesOn(input, Number, "1", false, LexState(3, '2', None), last);
    TokenLoopGoesOn(input, Number, "1", false, LexState(2, 'a', None), LexState(3, '2', None));
    assert [] + ['1'] == "1";
    TokenLoopGoesOn(input, Number, [], true, LexState(1, '1', None), LexState(2, 'a', None));
    ScanTokenFrom(input, LexState(1, '1', None), Number, Step(Ok(Scanned(Number, "12", false)), last));
    NextTokenDirect(input, LexState(0, '\0', None), LexState(1, '1', None));
  }

  /** A backslash does not escape a quote: `"\"` is a complete string of
      three characters. */
  lemma BackslashDoesNotEscape(input: seq<byte>)
    requires input == [0x22, 0x5C, 0x22, 0x20]
    ensures NextTokenSpec(input, LexState(0, '\0', None)).result == Ok(Token(StringLiteral, "\"\\\""))
  {
    var q, b, closed := "\"", "\"\\", "\"\\\"";
    var last := LexState(4, ' ', None);
    var done := Step(Ok(Scanned(String(false, true, false), closed, false)), last);
    TokenLoopStops(input, String(false, true, false), closed, false, last);
    assert b + ['"'] == closed;
    TokenLoopGoesOn(input, String(false, false, false), b, false, LexState(3, '"', None), last);
    assert q + ['\\'] == b;
    TokenLoopGoesOn(input, String(false, false, false), q, false, LexState(2, '\\', None), LexState(3, '"', None));
    assert [] + ['"'] == q;
    TokenLoopGoesOn(input, String(true, false, false), [], true, LexState(1, '"', None), LexState(2, '\\', None));
    ScanTokenFrom(input, LexState(1, '"', None), String(true, false, false), done);
    assert closed != "#";
    NextTokenDirect(input, LexState(0, '\0', None), LexState(1, '"', None));
  }

  /** The `#` operator scanned from `#` followed by the character `next`
      at position 2. */
  lemma HashScanned(input: seq<byte>, next: char)
    requires |input| >= 2 && input[0] == 0x23 && input[1] < 0x80 && input[1] as char == next
    ensures ScanToken(input, LexState(1, '#', None)) == Step(Ok(Token(TokenType.Operator, "#")), LexState(2, next, Some(next)))
  {
    Utf8LenAscii("#");
    var at := LexState(2, next, None);
    TokenLoopStops(input, LexerMode.Operator, "#", false, at);
    assert [] + ['#'] == "#";
    TokenLoopGoesOn(input, LexerMode.Operator, [], true, LexState(1, '#', None), at);
    ScanTokenFrom(input, LexState(1, '#', None), LexerMode.Operator,
                  Step(Ok(Scanned(LexerMode.Operator, "#", false)), at));
  }

  /** An empty comment `#` directly followed by a newline leaves the newline
      to be read again: the next token is a line return. */
  lemma EmptyCommentKeepsNewline(input: seq<byte>)
    requires input == [0x23, 0x0A]
    ensures NextTokenSpec(input, LexState(0, '\0', None)).result == Ok(Token(TokenType.LineReturn, "\n"))
  {
    var nl := LexState(2, '\n', Some('\n'));
    HashScanned(input, '\n');
    assert SkipComment(input, nl) == Step(Ok(()), nl);
    NextTokenComment(input, LexState(0, '\0', None), LexState(1, '#', None), nl);
    var line := LexState(2, '\n', None);
    TokenLoopStops(input, LexerMode.LineReturn, [], true, line);
    ScanTokenFrom(input, line, LexerMode.LineReturn, Step(Ok(Scanned(LexerMode.LineReturn, [], true)), line));
    NextTokenDirect(input, nl, line);
  }

  /** A comment with text is skipped through its newline, and the token after
      it is returned. */
  lemma CommentSkippedThroughNewline(input: seq<byte>)
    requires input == [0x23, 0x61, 0x0A, 0x62]
    ensures NextTokenSpec(input, LexState(0, '\0', None)).result == Ok(Token(Identifier, "b"))
  {
    var newline := LexState(3, '\n', None);
    HashScanned(input, 'a');
    assert SkipComment(input, LexState(2, 'a', None)) == Step(Ok(()), newline);
    assert SkipComment(input, LexState(2, 'a', Some('a'))) == Step(Ok(()), newline);
    NextTokenComment(input, LexState(0, '\0', None), LexState(1, '#', None), newline);
    var b := LexState(4, 'b', None);
    assert NextCharSpec(input, b) == Step(Err(EndOfFile), b);
    assert [] + ['b'] == "b";
    ScanTokenFrom(input, b, Word, Step(Ok(Scanned(Word, "b", true)), b));
    NextTokenDirect(input, newline, b);
  }

  /** `-` does not start a token, so a negative literal is an invalid
      character. */
  lemma MinusIsInvalid(input: seq<byte>)
    requires input == [0x2D, 0x31]
    ensures NextTokenSpec(input, LexState(0, '\0', None)).result == Err(InvalidCharacter)
  {
    assert NextCharSpec(input, LexState(0, '\0', None)) == Step(Ok(()), LexState(1, '-', None));
    assert ModeFor('-').None?;
    NextTokenDirect(input, LexState(0, '\0', None), LexState(1, '-', None));
  }

  // ---------------------------------------------------------------------
  // The lexer object

  class Lexer {
    /** The bytes the reader delivers. */
    const input: seq<byte>
    var pos: nat
    var currChar: char
    var bufferedChar: Option<char>

    predicate Valid()
      reads this
    {
      pos <= |input|
    }

    function State(): LexState
      reads this
    {
      LexState(pos, currChar, bufferedChar)
    }

    /** `Lexer::new`: at the start of the input, current character `'\0'`,
        nothing buffered. */
    constructor (input: seq<byte>)
      ensures Valid() && this.input == input
      ensures State() == LexState(0, '\0', None)
    {
      this.input := input;
      pos := 0;
      currChar := '\0';
      bufferedChar := None;
    }

    /** `next_char`, reading byte by byte. */
    method NextChar() returns (r: Result<(), Error>)
      requires Valid()
      modifies this
      ensures Valid()
      ensures Step(r, State()) == NextCharSpec(input, old(State()))
    {
      if bufferedChar.Some? {
        currChar := bufferedChar.value;
        bufferedChar := None;
        return Ok(());
      }
      if pos == |input| {
        return Err(EndOfFile);
      }
      var c := input[pos];
      pos := pos + 1;
      if c < 0x80 {
        currChar := c as char;
        return Ok(());
      }
      var supByteCount: nat;
      if !HasBit(c, 0x20) {
        supByteCount := 1;
      } else if !HasBit(c, 0x10) {
        supByteCount := 2;
      } else if !HasBit(c, 0x08) {
        supByteCount := 3;
      } else {
        return Err(DecoderError);
      }
      assert SupplementaryCount(c) == Some(supByteCount);
      r := ReadSequence(supByteCount);
    }

    /** The rest of `next_char` once a lead byte announcing `supByteCount`
        continuation bytes has been read: read them one by one and decode
        the whole sequence. */
    method ReadSequence(supByteCount: nat) returns (r: Result<(), Error>)
      requires 1 <= pos <= |input| && bufferedChar.None?
      requires input[pos - 1] >= 0x80 && SupplementaryCount(input[pos - 1]) == Some(supByteCount)
      modifies this
      ensures Valid()
      ensures Step(r, State()) == NextCharSpec(input, old(State()).(pos := old(pos) - 1))
    {
      ghost var start := pos - 1;
      ghost var d := DecodeAt(input, start);
      var stringBuf := [input[pos - 1]];
      var i := 0;
      while i < supByteCount
        invariant i <= supByteCount
        invariant pos == start + 1 + i <= |input|
        invariant stringBuf == input[start..pos]
        invariant currChar == old(currChar) && bufferedChar.None?
      {
        if pos == |input| {
          assert d == Decoded(Err(UnexpectedEndOfFile), |input|);
          return Err(UnexpectedEndOfFile);
        }
        assert input[start..pos + 1] == input[start..pos] + [input[pos]];
        stringBuf := stringBuf + [input[pos]];
        pos := pos + 1;
        i := i + 1;
      }
      var decoded := FromUtf8(stringBuf);
      if decoded.None? {
        assert d == Decoded(Err(InvalidCodePoint), pos);
        return Err(InvalidCodePoint);
      }
      assert d == Decoded(Ok(decoded.value[0]), pos);
      currChar := decoded.value[0];
      return Ok(());
    }

    /** The loop of `next_token` that skips whitespace other than newlines. */
    method SkipWhitespaceLoop() returns (r: Result<(), Error>)
      requires Valid()
      modifies this
      ensures Valid()
      ensures Step(r, State()) == SkipWhitespace(input, old(State()))
    {
      while IsWhitespace(currChar) && currChar != '\n'
        invariant Valid()
        invariant SkipWhitespace(input, State()) == SkipWhitespace(input, old(State()))
        decreases Remaining(input, State())
      {
        ghost var before := State();
        var e := NextChar();
        if e.Err? {
          assert SkipWhitespace(input, before) == Step(e, State());
          return e;
        }
      }
      return Ok(());
    }

    /** The loop of `next_token` that skips a comment up to a newline. */
    method SkipCommentLoop() returns (r: Result<(), Error>)
      requires Valid()
      modifies this
      ensures Valid()
      ensures Step(r, State()) == SkipComment(input, old(State()))
    {
      while currChar != '\n'
        invariant Valid()
        invariant SkipComment(input, State()) == SkipComment(input, old(State()))
        decreases Remaining(input, State())
      {
        ghost var before := State();
        var e := NextChar();
        if e.Err? {
          assert SkipComment(input, before) == Step(e, State());
          return e;
        }
      }
      return Ok(());
    }

    /** The token loop of `next_token`, from the mode the first character
        selected and an empty buffer. */
    method TokenLoopRun(mode0: LexerMode) returns (r: Result<Scanned, Error>)
      requires Valid() && bufferedChar.None?
      modifies this
      ensures Valid()
      ensures Step(r, State()) == TokenLoop(input, mode0, [], true, old(State()))
    {
      var buff: string := "";
      var mode := mode0;
      var noNextChar := true;
      while true
        invariant Valid() && bufferedChar.None?
        invariant TokenLoop(input, mode, buff, noNextChar, State()) == TokenLoop(input, mode0, [], true, old(State()))
        decreases |input| - pos
      {
        ghost var before := State();
        ghost var was := TokenLoop(input, mode, buff, noNextChar, before);
        var h := Handle(mode, buff, currChar);
        buff, mode := h.buff, h.mode;
        if h.res == Ok(true) {
          assert was == Step(Ok(Scanned(mode, buff, noNextChar)), State());
          return Ok(Scanned(mode, buff, noNextChar));
        }
        var e := NextChar();
        if e.Err? {
          if e.error == EndOfFile {
            assert was == Step(Ok(Scanned(mode, buff, true)), State());
            return Ok(Scanned(mode, buff, true));
          }
          assert was == Step(Err(e.error), State());
          return Err(e.error);
        }
        noNextChar := false;
      }
    }

    /** `next_token`. */
    method NextToken() returns (r: Result<Token, Error>)
      requires Valid()
      modifies this
      ensures Valid()
      ensures Step(r, State()) == NextTokenSpec(input, old(State()))
      decreases Remaining(input, State())
    {
      var e := NextChar();
      if e.Err? {
        return Err(e.error);
      }
      e := SkipWhitespaceLoop();
      if e.Err? {
        return Err(e.error);
      }
      var first := ModeFor(currChar);
      if first.None? {
        return Err(InvalidCharacter);
      }
      var scanned := TokenLoopRun(first.value);
      if scanned.Err? {
        return Err(scanned.error);
      }
      var token := Finalize(scanned.value.mode, scanned.value.buff);
      if !scanned.value.noNext {
        bufferedChar := Some(currChar);
      }
      if token.content == "#" {
        e := SkipCommentLoop();
        if e.Err? {
          return Err(e.error);
        }
        r := NextToken();
        return;
      }
      return Ok(token);
    }
  }
}
