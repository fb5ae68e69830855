/** The second generation's parser errors (src/parser/error.rs; the same
    enum, without the comparator conversion, is declared again in
    src/parser/legacy.rs and used by both parsers) and the messages their
    `Display` implementation prints. */
module ParserErrors {
  import opened Wrappers
  import opened Decimal
  import opened Common
  import opened Tokens

  /** `ParserError`. `Panicked` is not a variant of the source: it stands for
      an `unwrap` or `assert!` that input can reach, which aborts the program
      there. */
  datatype ParserError =
    | Lexer(err: LexError)
    | UnexpectedToken(token: Token, expected: Option<string>)
    | IntegerParsing(text: string, cause: Option<ParseIntError>)
    | UnexpectedEndOfFile
    | Panicked

  /** `From<(String, ParseIntError)>`: the text that failed and why. */
  function FromParseIntError(text: string, cause: ParseIntError): (e: ParserError)
    ensures e.IntegerParsing? && e.text == text && e.cause == Some(cause)
  {
    IntegerParsing(text, Some(cause))
  }

  /** What the comparator conversion says was expected. */
  const COMPARATORS: string := "==, !=, <, <=, > or >="

  /** `From<OperatorNotComparator>`: the offending operator token, reported
      as one where a comparator was expected. */
  function FromOperatorNotComparator(token: Token): (e: ParserError)
    ensures e.UnexpectedToken? && e.token == token && e.expected == Some(COMPARATORS)
  {
    UnexpectedToken(token, Some(COMPARATORS))
  }

  /** Characters `Debug` escapes with a backslash, and the letter that
      follows it. */
  predicate IsEscaped(c: char) {
    c == '"' || c == '\\' || c == '\n' || c == '\r' || c == '\t' || c == '\0'
  }

  function EscapeLetter(c: char): char
    requires IsEscaped(c)
  {
    match c
    case '"' => '"'
    case '\\' => '\\'
    case '\n' => 'n'
    case '\r' => 'r'
    case '\t' => 't'
    case '\0' => '0'
  }

  function EscapeChar(c: char): (r: string)
    ensures IsEscaped(c) ==> r == ['\\', EscapeLetter(c)]
    ensures !IsEscaped(c) ==> r == [c]
  {
    if IsEscaped(c) then ['\\', EscapeLetter(c)] else [c]
  }

  /** The body of a string's `Debug` rendering. */
  function Escape(s: string): (r: string)
    ensures |r| >= |s|
  {
    if s == [] then [] else EscapeChar(s[0]) + Escape(s[1..])
  }

  /** The `Debug` rendering of an `Option<String>`, as `{:?}` prints it. */
  function DebugOption(o: Option<string>): string {
    match o
    case None => "None"
    case Some(s) => "Some(\"" + Escape(s) + "\")"
  }

  /** Escaping loses nothing: distinct strings escape differently. */
  lemma {:induction false} EscapeInjective(a: string, b: string)
    requires Escape(a) == Escape(b)
    ensures a == b
  {
    if a != [] && b != [] {
      var ea, eb := EscapeChar(a[0]), EscapeChar(b[0]);
      var ra, rb := Escape(a[1..]), Escape(b[1..]);
      assert ea + ra == eb + rb;
      assert ea[0] == (ea + ra)[0] && eb[0] == (eb + rb)[0];
      if IsEscaped(a[0]) {
        assert (ea + ra)[1] == ea[1];
        assert IsEscaped(b[0]);
        assert (eb + rb)[1] == eb[1];
        assert EscapeLetter(a[0]) == EscapeLetter(b[0]);
      } else {
        assert !IsEscaped(b[0]);
      }
      assert a[0] == b[0];
      assert ra == (ea + ra)[|ea|..];
      assert rb == (eb + rb)[|eb|..];
      EscapeInjective(a[1..], b[1..]);
      assert a == [a[0]] + a[1..] && b == [b[0]] + b[1..];
    }
  }

  /** Distinct expectations render differently. */
  lemma DebugOptionInjective(a: Option<string>, b: Option<string>)
    requires DebugOption(a) == DebugOption(b)
    ensures a == b
  {
    if a.Some? && b.Some? {
      var da, db := DebugOption(a), DebugOption(b);
      assert Escape(a.value) == da[6..|da| - 2];
      assert Escape(b.value) == db[6..|db| - 2];
      EscapeInjective(a.value, b.value);
    }
  }

  /** A location `Display` can print (one-based numbers fit in a `usize`). */
  predicate Printable(loc: Location) {
    loc.lineZ < USIZE_MAX && loc.colZ < USIZE_MAX
  }

  /** The message of an unexpected token. */
  function UnexpectedMessage(token: Token, expected: Option<string>): string
    requires Printable(token.location)
  {
    token.location.Display() + ": unexpected token \"" + token.content + "\", expected: "
      + DebugOption(expected)
  }

  /** `Display` for every variant but `Lexer`, whose message is the lexer
      error's own, given here as `lexerMessage`. */
  function Message(e: ParserError, lexerMessage: string): (m: string)
    requires e.UnexpectedToken? ==> Printable(e.token.location)
    requires !e.Panicked?
    ensures e.Lexer? ==> m == lexerMessage
  {
    match e
    case Lexer(_) => lexerMessage
    case UnexpectedToken(token, expected) => UnexpectedMessage(token, expected)
    case IntegerParsing(text, _) => "Invalid number: \"" + text + "\""
    case UnexpectedEndOfFile => "Unexpected End of File"
  }

  /** The message names the token's text and what was expected: two
      messages at one location with one expectation are equal only for the
      same text, and with one text only for the same expectation. */
  lemma UnexpectedMessageDetermines(t1: Token, e1: Option<string>, t2: Token, e2: Option<string>)
    requires Printable(t1.location) && t1.location == t2.location
    requires UnexpectedMessage(t1, e1) == UnexpectedMessage(t2, e2)
    ensures e1 == e2 ==> t1.content == t2.content
    ensures t1.content == t2.content ==> e1 == e2
  {
    var head := t1.location.Display() + ": unexpected token \"";
    var mid := "\", expected: ";
    var m := UnexpectedMessage(t1, e1);
    assert m == head + t1.content + mid + DebugOption(e1);
    assert m == head + t2.content + mid + DebugOption(e2);
    if e1 == e2 {
      var tail := mid + DebugOption(e1);
      assert t1.content == m[|head|..|m| - |tail|];
      assert t2.content == m[|head|..|m| - |tail|];
    }
    if t1.content == t2.content {
      var front := head + t1.content + mid;
      assert DebugOption(e1) == m[|front|..];
      assert DebugOption(e2) == m[|front|..];
      DebugOptionInjective(e1, e2);
    }
  }
}
