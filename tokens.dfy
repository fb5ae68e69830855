/** The tokens the second-generation parsers read (src/parser/legacy.rs,
    src/parser/mod.rs). The lexer that produces them is not part of this
    model: its output is taken as a given sequence of results, one per call
    of `next_token`, with the end of the input after the last one. */
module Tokens {
  import opened Wrappers
  import opened Common

  /** The token kinds these parsers test for. */
  datatype TokenType =
    | IntegerLiteral
    | StringLiteral
    | BoolLiteral
    | Identifier
    | Keyword
    | SpecialInstruction
    | Operator

  datatype Token = Token(tokenType: TokenType, content: string, location: Location)

  /** The lexer's errors: the end of the input, which parsers treat as a
      result, and any other failure, which they pass on. */
  datatype LexError = EndOfFile | LexFailure(code: nat)

  /** The lexer's results, in order. */
  type TokenStream = seq<Result<Token, LexError>>

  /** `next_token` when `pos` results have been read: the next one, or the
      end of the input once they are used up. */
  function LexAt(tokens: TokenStream, pos: nat): (r: Result<Token, LexError>)
    ensures pos >= |tokens| ==> r == Err(EndOfFile)
  {
    if pos < |tokens| then tokens[pos] else Err(EndOfFile)
  }

  /** The position after a read: reading past the end stays at the end. */
  function NextPos(tokens: TokenStream, pos: nat): (p: nat)
    requires pos <= |tokens|
    ensures p <= |tokens|
    ensures pos < |tokens| ==> p == pos + 1
    ensures pos == |tokens| ==> p == pos
  {
    if pos < |tokens| then pos + 1 else pos
  }

  /** The `Debug` rendering of a kind, as `format!("{:?}")` prints it. */
  function KindName(k: TokenType): (s: string)
    ensures |s| > 0
  {
    match k
    case IntegerLiteral => "IntegerLiteral"
    case StringLiteral => "StringLiteral"
    case BoolLiteral => "BoolLiteral"
    case Identifier => "Identifier"
    case Keyword => "Keyword"
    case SpecialInstruction => "SpecialInstruction"
    case Operator => "Operator"
  }

  /** Distinct kinds are named differently, so an error message tells which
      kind was expected. */
  lemma KindNameInjective(a: TokenType, b: TokenType)
    requires KindName(a) == KindName(b)
    ensures a == b
  {
  }
}
