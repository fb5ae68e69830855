/** The second generation's first parser (src/parser/legacy.rs): a
    recursive-descent parser over the lexer's tokens with a one-token
    pushback slot, producing the syntax tree of `Ast`.

    Each parsing routine is first given as a function of the token source
    (the lexer's position and the pushback slot), returning its result with
    the source it leaves behind; the class `Parser` runs the same steps on
    mutable state, and each of its methods is proved equal to its function. */
module LegacyParser {
  import opened Wrappers
  import opened Decimal
  import opened Tokens
  import opened Ast
  import opened ParserErrors

  /** What a parser reads: the lexer's results and the source text each
      package records. */
  datatype Input = Input(tokens: TokenStream, source: string)

  /** The token source: results read so far, and the pushback slot. */
  datatype Src = Src(pos: nat, stored: Option<Token>)

  predicate Fits(input: Input, s: Src) {
    s.pos <= |input.tokens|
  }

  /** Tokens still to come, counting the one in the slot. Every routine
      leaves at most as many as it found. */
  function Pend(input: Input, s: Src): nat
    requires Fits(input, s)
  {
    |input.tokens| - s.pos + (if s.stored.Some? then 1 else 0)
  }

  datatype Fetched = Fetched(result: Result<Token, LexError>, src: Src)

  /** `next_token`: the stored token if there is one, else the lexer's next
      result. */
  function Fetch(input: Input, s: Src): (f: Fetched)
    requires Fits(input, s)
    ensures Fits(input, f.src) && f.src.stored.None?
    ensures f.result.Ok? ==> Pend(input, f.src) == Pend(input, s) - 1
    ensures f.result.Err? ==> Pend(input, f.src) <= Pend(input, s)
    ensures s.stored.Some? ==> f == Fetched(Ok(s.stored.value), Src(s.pos, None))
  {
    match s.stored
    case Some(t) => Fetched(Ok(t), Src(s.pos, None))
    case None => Fetched(LexAt(input.tokens, s.pos), Src(NextPos(input.tokens, s.pos), None))
  }

  /** `store_token`, which asserts the slot is empty. */
  function Store(s: Src, t: Token): (r: Src)
    requires s.stored.None?
    ensures r.pos == s.pos && r.stored == Some(t)
  {
    Src(s.pos, Some(t))
  }

  datatype Parsed<T> = Parsed(result: Result<T, ParserError>, src: Src)

  /** `unexpected_token`: nothing is said about what was expected. */
  function Unexpected(tk: Token): ParserError {
    UnexpectedToken(tk, None)
  }

  /** `expect_token_type`. */
  function ExpectTokenType(tk: Token, ty: TokenType): (r: Result<(), ParserError>)
    ensures r.Ok? <==> tk.tokenType == ty
    ensures r.Err? ==> r.error == Unexpected(tk)
  {
    if tk.tokenType != ty then Err(Unexpected(tk)) else Ok(())
  }

  /** `expect_token_content`. */
  function ExpectTokenContent(tk: Token, content: string): (r: Result<(), ParserError>)
    ensures r.Ok? <==> tk.content == content
    ensures r.Err? ==> r.error == Unexpected(tk)
  {
    if tk.content != content then Err(Unexpected(tk)) else Ok(())
  }

  /** `expect_token`: both checks, the kind's error first. */
  function ExpectToken(tk: Token, ty: TokenType, content: string): (r: Result<(), ParserError>)
    ensures r.Ok? <==> tk.tokenType == ty && tk.content == content
    ensures r.Err? ==> r.error == Unexpected(tk)
  {
    var byType := ExpectTokenType(tk, ty);
    var byContent := ExpectTokenContent(tk, content);
    if byType.Err? then byType else byContent
  }

  /** A lexer error passed on; `?` wraps it in `ParserError::Lexer`. */
  function LexFail<T>(f: Fetched): Parsed<T>
    requires f.result.Err?
  {
    Parsed(Err(Lexer(f.result.error)), f.src)
  }

  /** `is_end_of_package`: the end of input, or a `;` (handed back). */
  function IsEndOfPackage(r: Result<Token, LexError>): (e: Result<(bool, Option<Token>), ParserError>)
    ensures e.Ok? ==> e.value.0 || e.value.1.Some?
    ensures e.Err? <==> r.Err? && r.error != EndOfFile
    ensures e.Err? ==> e.error == Lexer(r.error)
    ensures r == Err(EndOfFile) ==> e == Ok((true, None))
    ensures r.Ok? ==> e == Ok((r.value.tokenType == Operator && r.value.content == ";", Some(r.value)))
  {
    match r
    case Err(EndOfFile) => Ok((true, None))
    case Err(err) => Err(Lexer(err))
    case Ok(tk) =>
      if tk.tokenType == Operator && tk.content == ";" then Ok((true, Some(tk)))
      else Ok((false, Some(tk)))
  }

  /** The operator `;`. */
  predicate IsSemicolon(tk: Token) {
    tk.tokenType == Operator && tk.content == ";"
  }

  /** What may follow a statement: `;` or the end of the input. */
  predicate EndsPackage(r: Result<Token, LexError>) {
    r == Err(EndOfFile) || (r.Ok? && IsSemicolon(r.value))
  }

  /** `expect_end_of_package`: a `;` or the end of the input. */
  function ExpectEndOfPackageSpec(input: Input, s: Src): (p: Parsed<()>)
    requires Fits(input, s)
    ensures Fits(input, p.src) && p.src == Fetch(input, s).src
    ensures p.result.Ok? <==> EndsPackage(Fetch(input, s).result)
    ensures p.result.Err? && Fetch(input, s).result.Ok? ==> p.result.error == Unexpected(Fetch(input, s).result.value)
    ensures p.result.Err? ==> p.result.error != UnexpectedEndOfFile
  {
    var f := Fetch(input, s);
    match f.result
    case Err(EndOfFile) => Parsed(Ok(()), f.src)
    case Err(err) => Parsed(Err(Lexer(err)), f.src)
    case Ok(tk) =>
      if tk.tokenType == Operator && tk.content == ";" then Parsed(Ok(()), f.src)
      else Parsed(Err(Unexpected(tk)), f.src)
  }

  /** `bool::from_str`. */
  function ParseBool(s: string): Option<bool> {
    if s == "true" then Some(true) else if s == "false" then Some(false) else None
  }

  /** `next_package`: `Ok(None)` at the end of the input, otherwise one
      statement followed by `;` or the end of the input. */
  function NextPackageSpec(input: Input, s: Src): (p: Parsed<Option<ParsedPackage>>)
    requires Fits(input, s)
    ensures Fits(input, p.src) && Pend(input, p.src) <= Pend(input, s)
    ensures p.result.Ok? && p.result.value.Some? ==> Pend(input, p.src) < Pend(input, s)
    ensures p.result.Ok? && p.result.value.Some? ==> p.result.value.value.source == input.source
    ensures s.stored.Some? ==> !(p.result.Ok? && p.result.value.None?)
    ensures p.result.Err? ==> p.result.error != UnexpectedEndOfFile
    decreases Pend(input, s), 0
  {
    var f := Fetch(input, s);
    if f.result == Err(EndOfFile) then Parsed(Ok(None), f.src)
    else if f.result.Err? then LexFail(f)
    else PackageSpec(input, f.result.value, f.src)
  }

  /** What `next_package` does after reading its first token `init`: an
      identifier or a keyword, the statement it starts, and then `;` or the
      end of the input. */
  function PackageSpec(input: Input, init: Token, s: Src): (p: Parsed<Option<ParsedPackage>>)
    requires Fits(input, s)
    ensures Fits(input, p.src) && Pend(input, p.src) <= Pend(input, s)
    ensures p.result.Ok? ==> p.result.value.Some? && p.result.value.value.source == input.source
    ensures p.result.Err? ==> p.result.error != UnexpectedEndOfFile
    ensures init.tokenType !in {TokenType.Identifier, Keyword} ==> p == Parsed(Err(Unexpected(init)), s)
    ensures p.result.Ok? ==>
              var parsed := p.result.value.value.parsed;
              && (parsed.VarDecl? <==> init.tokenType == Keyword && init.content == "let")
              && (parsed.FuncDecl? <==> init.tokenType == Keyword && init.content == "fn")
              && (parsed.If? <==> init.tokenType == Keyword && init.content == "if")
              && (parsed.FuncCall? || parsed.VarSet? <==> init.tokenType == TokenType.Identifier)
              && (parsed.FuncCall? ==> parsed.call.name == init.content)
              && (parsed.VarSet? ==> parsed.assign.name == init.content)
              && !parsed.Noop?
    ensures init.tokenType in {TokenType.Identifier, Keyword} && HighLevelSpec(input, init, s).result.Ok? ==>
              (p.result.Ok? <==> EndsPackage(Fetch(input, HighLevelSpec(input, init, s).src).result))
    decreases Pend(input, s), 4
  {
    if init.tokenType != TokenType.Identifier && init.tokenType != Keyword then
      Parsed(Err(Unexpected(init)), s)
    else
      var h := HighLevelSpec(input, init, s);
      if h.result.Err? then Parsed(Err(h.result.error), h.src)
      else
        var e := ExpectEndOfPackageSpec(input, h.src);
        if e.result.Err? then Parsed(Err(e.result.error), e.src)
        else Parsed(Ok(Some(ParsedPackage(input.source, h.result.value))), e.src)
  }

  /** The statement `next_package` builds after its first token `init`, an
      identifier or a keyword. */
  function HighLevelSpec(input: Input, init: Token, s: Src): (p: Parsed<ParsedHighLevel>)
    requires Fits(input, s)
    ensures Fits(input, p.src) && Pend(input, p.src) <= Pend(input, s)
    ensures p.result.Err? ==> p.result.error != UnexpectedEndOfFile
    ensures p.result.Ok? ==> !p.result.value.Noop?
    ensures p.result.Ok? ==> (p.result.value.VarDecl? <==> init.tokenType == Keyword && init.content == "let")
    ensures p.result.Ok? ==> (p.result.value.FuncDecl? <==> init.tokenType == Keyword && init.content == "fn")
    ensures p.result.Ok? ==> (p.result.value.If? <==> init.tokenType == Keyword && init.content == "if")
    ensures p.result.Ok? && p.result.value.FuncCall? ==> p.result.value.call.name == init.content
    ensures p.result.Ok? && p.result.value.VarSet? ==> p.result.value.assign.name == init.content
    decreases Pend(input, s), 3
  {
    if init.tokenType == Keyword then
      if init.content == "let" then
        var a := ParseVarAssignSpec(input, None, s);
        if a.result.Err? then Parsed(Err(a.result.error), a.src)
        else Parsed(Ok(VarDecl(a.result.value)), a.src)
      else if init.content == "fn" then
        var d := ParseFuncDeclSpec(input, s);
        if d.result.Err? then Parsed(Err(d.result.error), d.src)
        else Parsed(Ok(ParsedHighLevel.FuncDecl(d.result.value)), d.src)
      else if init.content == "if" then
        var i := ParseIfStatementSpec(input, s);
        if i.result.Err? then Parsed(Err(i.result.error), i.src)
        else Parsed(Ok(If(i.result.value)), i.src)
      else Parsed(Err(Unexpected(init)), s)
    else
      var d := Fetch(input, s);
      if d.result.Err? then LexFail(d)
      else if d.result.value.tokenType != Operator then Parsed(Err(Unexpected(d.result.value)), d.src)
      else
        var discr := d.result.value;
        var stored := Store(d.src, discr);
        if discr.content == "(" then
          var c := ParseFuncCallSpec(input, Some(init.content), stored);
          if c.result.Err? then Parsed(Err(c.result.error), c.src)
          else Parsed(Ok(ParsedHighLevel.FuncCall(c.result.value)), c.src)
        else if discr.content == "=" then
          var a := ParseVarAssignSpec(input, Some(init.content), stored);
          if a.result.Err? then Parsed(Err(a.result.error), a.src)
          else Parsed(Ok(VarSet(a.result.value)), a.src)
        else
          var g := Fetch(input, stored);
          Parsed(Err(Unexpected(g.result.value)), g.src)
  }

  /** `parse_var_assign`: the name (given, or an identifier token), `=`, and
      an expression. */
  function ParseVarAssignSpec(input: Input, name: Option<string>, s: Src): (p: Parsed<VarAssign>)
    requires Fits(input, s)
    ensures Fits(input, p.src) && Pend(input, p.src) <= Pend(input, s)
    ensures p.result.Err? ==> p.result.error != UnexpectedEndOfFile
    ensures p.result.Ok? && name.Some? ==> p.result.value.name == name.value
    decreases Pend(input, s), 1
  {
    if name.Some? then AssignRestSpec(input, name.value, s)
    else
      var n := Fetch(input, s);
      if n.result.Err? then LexFail(n)
      else if n.result.value.tokenType != TokenType.Identifier then Parsed(Err(Unexpected(n.result.value)), n.src)
      else AssignRestSpec(input, n.result.value.content, n.src)
  }

  /** `parse_var_assign` once the name is known. */
  function AssignRestSpec(input: Input, name: string, s: Src): (p: Parsed<VarAssign>)
    requires Fits(input, s)
    ensures Fits(input, p.src) && Pend(input, p.src) <= Pend(input, s)
    ensures p.result.Err? ==> p.result.error != UnexpectedEndOfFile
    ensures p.result.Ok? ==> p.result.value.name == name
    decreases Pend(input, s), 0
  {
    var f := Fetch(input, s);
    if f.result.Err? then LexFail(f)
    else
      var x := ExpectToken(f.result.value, Operator, "=");
      if x.Err? then Parsed(Err(x.error), f.src)
      else
        var e := ParseExprSpec(input, f.src);
        if e.result.Err? then Parsed(Err(e.result.error), e.src)
        else Parsed(Ok(VarAssign(name, e.result.value)), e.src)
  }

  /** `parse_func_decl`: a name, `(`, the parameters, and a block. */
  function ParseFuncDeclSpec(input: Input, s: Src): (p: Parsed<Ast.FuncDecl>)
    requires Fits(input, s)
    ensures Fits(input, p.src) && Pend(input, p.src) <= Pend(input, s)
    ensures p.result.Err? ==> p.result.error != UnexpectedEndOfFile
    decreases Pend(input, s), 0
  {
    var n := Fetch(input, s);
    if n.result.Err? then LexFail(n)
    else if n.result.value.tokenType != TokenType.Identifier then Parsed(Err(Unexpected(n.result.value)), n.src)
    else
      var o := Fetch(input, n.src);
      if o.result.Err? then LexFail(o)
      else if o.result.value.content != "(" then Parsed(Err(Unexpected(o.result.value)), o.src)
      else
        var a := ArgLoopSpec(input, true, [], o.src);
        if a.result.Err? then Parsed(Err(a.result.error), a.src)
        else
          var b := ParseStatementBlockSpec(input, a.src);
          if b.result.Err? then Parsed(Err(b.result.error), b.src)
          else Parsed(Ok(Ast.FuncDecl.FuncDecl(n.result.value.content, a.result.value, b.result.value)), b.src)
  }

  /** The parameter loop of `parse_func_decl` from the parameters `args`
      read so far. `firstArgToken` is never cleared, so the comma branch is
      never taken from the start. */
  function ArgLoopSpec(input: Input, firstArgToken: bool, args: seq<string>, s: Src): (p: Parsed<seq<string>>)
    requires Fits(input, s)
    ensures Fits(input, p.src) && Pend(input, p.src) <= Pend(input, s)
    ensures p.result.Err? ==> p.result.error != UnexpectedEndOfFile
    decreases Pend(input, s)
  {
    var f := Fetch(input, s);
    if f.result.Err? then LexFail(f)
    else if f.result.value.content == ")" then Parsed(Ok(args), f.src)
    else if !firstArgToken && f.result.value.content != "," then Parsed(Err(Unexpected(f.result.value)), f.src)
    else
      var g := if firstArgToken then f else Fetch(input, f.src);
      if g.result.Err? then LexFail(g)
      else if g.result.value.tokenType != TokenType.Identifier then Parsed(Err(Unexpected(g.result.value)), g.src)
      else
        ArgLoopSpec(input, firstArgToken, args + [g.result.value.content], g.src)
  }

  /** `parse_if_statement`: a condition and a block. */
  function ParseIfStatementSpec(input: Input, s: Src): (p: Parsed<IfStatement>)
    requires Fits(input, s)
    ensures Fits(input, p.src) && Pend(input, p.src) <= Pend(input, s)
    ensures p.result.Err? ==> p.result.error != UnexpectedEndOfFile
    decreases Pend(input, s), 2
  {
    var e := ParseExprSpec(input, s);
    if e.result.Err? then Parsed(Err(e.result.error), e.src)
    else IfBlockSpec(input, e.result.value, e.src)
  }

  /** `parse_if_statement` once the condition `val` is read: the block. */
  function IfBlockSpec(input: Input, val: Expr, s: Src): (p: Parsed<IfStatement>)
    requires Fits(input, s)
    ensures Fits(input, p.src) && Pend(input, p.src) <= Pend(input, s)
    ensures p.result.Err? ==> p.result.error != UnexpectedEndOfFile
    decreases Pend(input, s), 1
  {
    var b := ParseStatementBlockSpec(input, s);
    if b.result.Err? then Parsed(Err(b.result.error), b.src)
    else Parsed(Ok(IfStatement(val, b.result.value)), b.src)
  }

  /** `parse_statement_block`: `{`, then statements up to `}`. */
  function ParseStatementBlockSpec(input: Input, s: Src): (p: Parsed<StatementBlock>)
    requires Fits(input, s)
    ensures Fits(input, p.src) && Pend(input, p.src) <= Pend(input, s)
    ensures p.result.Err? ==> p.result.error != UnexpectedEndOfFile
    decreases Pend(input, s), 0
  {
    var f := Fetch(input, s);
    if f.result.Err? then LexFail(f)
    else if f.result.value.content != "{" then Parsed(Err(Unexpected(f.result.value)), f.src)
    else BlockLoopSpec(input, [], f.src)
  }

  /** The loop of `parse_statement_block` from the statements read so far:
      each token that is not `}` is handed back and a package parsed from
      it. */
  function BlockLoopSpec(input: Input, statements: seq<ParsedPackage>, s: Src): (p: Parsed<StatementBlock>)
    requires Fits(input, s)
    ensures Fits(input, p.src) && Pend(input, p.src) <= Pend(input, s)
    ensures p.result.Err? ==> p.result.error != UnexpectedEndOfFile
    decreases Pend(input, s), 1
  {
    var f := Fetch(input, s);
    if f.result.Err? then LexFail(f)
    else if f.result.value.content == "}" then Parsed(Ok(StatementBlock(statements)), f.src)
    else
      var n := NextPackageSpec(input, Store(f.src, f.result.value));
      if n.result.Err? then Parsed(Err(n.result.error), n.src)
      else BlockLoopSpec(input, statements + [n.result.value.value], n.src)
  }

  /** `parse_func_call`: the name (given, or an identifier token), `(`, and
      the arguments up to `)`. */
  function ParseFuncCallSpec(input: Input, name: Option<string>, s: Src): (p: Parsed<FuncCallExpr>)
    requires Fits(input, s)
    ensures Fits(input, p.src) && Pend(input, p.src) <= Pend(input, s)
    ensures p.result.Err? ==> p.result.error != UnexpectedEndOfFile
    ensures p.result.Ok? && name.Some? ==> p.result.value.name == name.value
    decreases Pend(input, s), 1
  {
    if name.Some? then CallRestSpec(input, name.value, s)
    else
      var n := Fetch(input, s);
      if n.result.Err? then LexFail(n)
      else if n.result.value.tokenType != TokenType.Identifier then Parsed(Err(Unexpected(n.result.value)), n.src)
      else CallRestSpec(input, n.result.value.content, n.src)
  }

  /** `parse_func_call` once the name is known. */
  function CallRestSpec(input: Input, name: string, s: Src): (p: Parsed<FuncCallExpr>)
    requires Fits(input, s)
    ensures Fits(input, p.src) && Pend(input, p.src) <= Pend(input, s)
    ensures p.result.Err? ==> p.result.error != UnexpectedEndOfFile
    ensures p.result.Ok? ==> p.result.value.name == name
    decreases Pend(input, s), 0
  {
    var f := Fetch(input, s);
    if f.result.Err? then LexFail(f)
    else
      var x := ExpectToken(f.result.value, Operator, "(");
      if x.Err? then Parsed(Err(x.error), f.src)
      else
        var l := ParseListSpec(input, ")", true, [], f.src);
        if l.result.Err? then Parsed(Err(l.result.error), l.src)
        else Parsed(Ok(FuncCallExpr(name, l.result.value)), l.src)
  }

  /** `parse_expr` on a token that starts neither an identifier expression
      nor an array: a literal, or an error. */
  function LiteralExpr(t: Token): (r: Result<Expr, ParserError>)
    ensures r.Err? ==> r.error != UnexpectedEndOfFile
    ensures r.Ok? ==> t.tokenType in {IntegerLiteral, TokenType.StringLiteral, TokenType.BoolLiteral}
  {
    match t.tokenType
    case IntegerLiteral =>
      (match ParseI64(t.content)
       case Ok(v) => Ok(IntLiteral(v))
       case Err(err) => Err(FromParseIntError(t.content, err)))
    case StringLiteral => Ok(Expr.StringLiteral(t.content))
    case BoolLiteral =>
      (match ParseBool(t.content)
       case Some(b) => Ok(Expr.BoolLiteral(b))
       case None => Err(Panicked))
    case _ => Err(Unexpected(t))
  }

  /** `parse_expr`: a literal, an identifier (and what may follow it), or
      an array. */
  function ParseExprSpec(input: Input, s: Src): (p: Parsed<Expr>)
    requires Fits(input, s)
    ensures Fits(input, p.src) && Pend(input, p.src) <= Pend(input, s)
    ensures p.result.Ok? ==> Pend(input, p.src) < Pend(input, s)
    ensures p.result.Err? ==> p.result.error != UnexpectedEndOfFile
    decreases Pend(input, s), 0
  {
    var f := Fetch(input, s);
    if f.result.Err? then LexFail(f)
    else
      var t := f.result.value;
      if t.tokenType == TokenType.Identifier then ParseBranchIdentifierExprSpec(input, t, f.src)
      else if t.tokenType == Operator && t.content == "[" then ParseArraySpec(input, f.src)
      else Parsed(LiteralExpr(t), f.src)
  }

  /** `parse_branch_identifier_expr`: after an identifier, the end of the
      input or `;` ends the expression (the `;` is handed back), `(` starts
      a call, and `)`, `,` or `]` end it too (handed back). */
  function ParseBranchIdentifierExprSpec(input: Input, identifier: Token, s: Src): (p: Parsed<Expr>)
    requires Fits(input, s)
    ensures Fits(input, p.src) && Pend(input, p.src) <= Pend(input, s)
    ensures p.result.Err? ==> p.result.error != UnexpectedEndOfFile
    decreases Pend(input, s), 0
  {
    var f := Fetch(input, s);
    var e := IsEndOfPackage(f.result);
    if e.Err? then Parsed(Err(e.error), f.src)
    else if e.value.0 then
      Parsed(Ok(Expr.Identifier(identifier.content)),
             if e.value.1.Some? then Store(f.src, e.value.1.value) else f.src)
    else
      var tk := e.value.1.value;
      if tk.tokenType == Operator && tk.content == "(" then
        var c := ParseFuncCallSpec(input, Some(tk.content), f.src);
        if c.result.Err? then Parsed(Err(c.result.error), c.src)
        else Parsed(Ok(Expr.FuncCall(c.result.value)), c.src)
      else if tk.tokenType == Operator && (tk.content == ")" || tk.content == "," || tk.content == "]") then
        Parsed(Ok(Expr.Identifier(identifier.content)), Store(f.src, tk))
      else Parsed(Err(Unexpected(tk)), f.src)
  }

  /** `parse_array`: the elements up to `]`. */
  function ParseArraySpec(input: Input, s: Src): (p: Parsed<Expr>)
    requires Fits(input, s)
    ensures Fits(input, p.src) && Pend(input, p.src) <= Pend(input, s)
    ensures p.result.Err? ==> p.result.error != UnexpectedEndOfFile
    ensures p.result.Ok? ==> p.result.value.Array?
    decreases Pend(input, s), 2
  {
    var l := ParseListSpec(input, "]", true, [], s);
    if l.result.Err? then Parsed(Err(l.result.error), l.src)
    else Parsed(Ok(Array(ArrayExpr(l.result.value))), l.src)
  }

  /** The loop of `parse_list` from the elements `args` read so far: the
      operator `stopOp` ends the list; before every element but the first
      comes a `,`. */
  function ParseListSpec(input: Input, stopOp: string, first: bool, args: seq<Expr>, s: Src): (p: Parsed<seq<Expr>>)
    requires Fits(input, s)
    ensures Fits(input, p.src) && Pend(input, p.src) <= Pend(input, s)
    ensures p.result.Err? ==> p.result.error != UnexpectedEndOfFile
    decreases Pend(input, s), 1
  {
    var f := Fetch(input, s);
    if f.result.Err? then LexFail(f)
    else
      var tk := f.result.value;
      if tk.tokenType == Operator && tk.content == stopOp then Parsed(Ok(args), f.src)
      else
        var x := if first then Ok(()) else ExpectToken(tk, Operator, ",");
        if x.Err? then Parsed(Err(x.error), f.src)
        else
          var g := if first then f else Fetch(input, f.src);
          if g.result.Err? then LexFail(g)
          else
            var e := ParseExprSpec(input, Store(g.src, g.result.value));
            if e.result.Err? then Parsed(Err(e.result.error), e.src)
            else
              ParseListSpec(input, stopOp, false, args + [e.result.value], e.src)
  }

  /** The token `k` reads after `s`. */
  function FetchAt(input: Input, s: Src, k: nat): (f: Fetched)
    requires Fits(input, s)
    ensures Fits(input, f.src)
  {
    if k == 0 then Fetch(input, s) else Fetch(input, FetchAt(input, s, k - 1).src)
  }

  /** `next_package` reports the end of the input exactly when the first
      read finds it; every other outcome is a statement or an error. */
  lemma NextPackageNone(input: Input, s: Src)
    requires Fits(input, s)
    ensures NextPackageSpec(input, s).result == Ok(None) <==> Fetch(input, s).result == Err(EndOfFile)
  {
  }

  /** What may follow an identifier in an expression: the end of the input
      and `;`, `)`, `,` or `]` end it (a token is handed back), `(` makes it
      a call, and anything else is an error. */
  lemma IdentifierFollowers(input: Input, identifier: Token, s: Src)
    requires Fits(input, s)
    ensures var f := Fetch(input, s);
            var p := ParseBranchIdentifierExprSpec(input, identifier, s);
            && (p.result == Ok(Expr.Identifier(identifier.content)) <==>
                  f.result == Err(EndOfFile)
                  || (f.result.Ok? && f.result.value.tokenType == Operator
                      && f.result.value.content in {";", ")", ",", "]"}))
            && (f.result.Ok? && p.result == Ok(Expr.Identifier(identifier.content)) ==>
                  p.src == Store(f.src, f.result.value))
            && (f.result.Ok? && !(f.result.value.tokenType == Operator
                                  && f.result.value.content in {";", ")", ",", "]", "("}) ==>
                  p.result == Err(Unexpected(f.result.value)))
  {
  }

  /** A call inside an expression is named after the `(` that opened it,
      not after the identifier, and needs a second `(` after the first. */
  lemma CallExprNamedParen(input: Input, identifier: Token, s: Src)
    requires Fits(input, s)
    requires ParseBranchIdentifierExprSpec(input, identifier, s).result.Ok?
    requires ParseBranchIdentifierExprSpec(input, identifier, s).result.value.FuncCall?
    ensures ParseBranchIdentifierExprSpec(input, identifier, s).result.value.call.name == "("
    ensures FetchAt(input, s, 0).result.Ok? && FetchAt(input, s, 0).result.value.content == "("
    ensures FetchAt(input, s, 1).result.Ok? && FetchAt(input, s, 1).result.value.tokenType == Operator
            && FetchAt(input, s, 1).result.value.content == "("
  {
    var f := Fetch(input, s);
    var c := ParseFuncCallSpec(input, Some("("), f.src);
    assert c == CallRestSpec(input, "(", f.src);
  }

  /** An identifier starts an expression whose end `parse_branch_identifier_expr`
      decides. */
  lemma IdentifierExpr(input: Input, s: Src)
    requires Fits(input, s)
    requires Fetch(input, s).result.Ok? && Fetch(input, s).result.value.tokenType == TokenType.Identifier
    ensures ParseExprSpec(input, s)
            == ParseBranchIdentifierExprSpec(input, Fetch(input, s).result.value, Fetch(input, s).src)
  {
    var f := Fetch(input, s);
    var t := f.result.value;
    assert t.tokenType.Identifier?;
  }

  /** An identifier as the condition of `if` is rejected at the `{` that
      follows it. */
  lemma IfIdentifierConditionRejected(input: Input, s: Src)
    requires Fits(input, s)
    requires FetchAt(input, s, 0).result.Ok? && FetchAt(input, s, 0).result.value.tokenType == TokenType.Identifier
    requires FetchAt(input, s, 1).result.Ok? && FetchAt(input, s, 1).result.value.content == "{"
    ensures ParseIfStatementSpec(input, s).result == Err(Unexpected(FetchAt(input, s, 1).result.value))
  {
    var f := Fetch(input, s);
    var g := Fetch(input, f.src);
    assert FetchAt(input, s, 1) == g;
    var b := ParseBranchIdentifierExprSpec(input, f.result.value, f.src);
    assert b.result == Err(Unexpected(g.result.value)) by {
      var c := g.result.value.content;
      assert c[0] == '{';
      assert c != ";" && c != "(" && c != ")" && c != "," && c != "]";
      assert IsEndOfPackage(g.result) == Ok((false, Some(g.result.value)));
    }
    IdentifierExpr(input, s);
    IfConditionError(input, s);
  }

  /** A condition that fails to parse fails the `if`. */
  lemma IfConditionError(input: Input, s: Src)
    requires Fits(input, s)
    requires ParseExprSpec(input, s).result.Err?
    ensures ParseIfStatementSpec(input, s).result == Err(ParseExprSpec(input, s).result.error)
  {
  }

  /** With `firstArgToken` set, as `parse_func_decl` leaves it, a `,`
      between parameters is rejected... */
  lemma ArgLoopRejectsComma(input: Input, args: seq<string>, s: Src)
    requires Fits(input, s)
    requires Fetch(input, s).result.Ok? && Fetch(input, s).result.value.content == ","
    requires Fetch(input, s).result.value.tokenType != TokenType.Identifier
    ensures ArgLoopSpec(input, true, args, s).result == Err(Unexpected(Fetch(input, s).result.value))
  {
  }

  /** ...and parameters written one after the other are accepted. */
  lemma ArgLoopAdjacentParams(input: Input, args: seq<string>, s: Src)
    requires Fits(input, s)
    requires Fetch(input, s).result.Ok? && Fetch(input, s).result.value.tokenType == TokenType.Identifier
    requires Fetch(input, s).result.value.content != ")"
    ensures ArgLoopSpec(input, true, args, s)
            == ArgLoopSpec(input, true, args + [Fetch(input, s).result.value.content], Fetch(input, s).src)
  {
  }

  /** A list closed straight away is empty. */
  lemma ListEmpty(input: Input, stopOp: string, s: Src)
    requires Fits(input, s)
    requires Fetch(input, s).result.Ok? && Fetch(input, s).result.value.tokenType == Operator
    requires Fetch(input, s).result.value.content == stopOp
    ensures ParseListSpec(input, stopOp, true, [], s) == Parsed(Ok([]), Fetch(input, s).src)
  {
  }

  /** A `,` straight before the closing operator is an error at that
      operator. */
  lemma ListTrailingCommaRejected(input: Input, stopOp: string, args: seq<Expr>, s: Src)
    requires Fits(input, s)
    requires stopOp in {")", "]"}
    requires FetchAt(input, s, 0).result.Ok? && FetchAt(input, s, 0).result.value.tokenType == Operator
    requires FetchAt(input, s, 0).result.value.content == ","
    requires FetchAt(input, s, 1).result.Ok? && FetchAt(input, s, 1).result.value.tokenType == Operator
    requires FetchAt(input, s, 1).result.value.content == stopOp
    ensures ParseListSpec(input, stopOp, false, args, s).result == Err(Unexpected(FetchAt(input, s, 1).result.value))
  {
    var g := FetchAt(input, s, 1);
    assert Fetch(input, Store(g.src, g.result.value)).result == g.result;
  }

  /** A token that is neither an identifier nor `[` is an expression on
      its own, or an error. */
  lemma LiteralTokenExpr(input: Input, s: Src)
    requires Fits(input, s) && Fetch(input, s).result.Ok?
    requires Fetch(input, s).result.value.tokenType != TokenType.Identifier
    requires Fetch(input, s).result.value.tokenType != Operator || Fetch(input, s).result.value.content != "["
    ensures ParseExprSpec(input, s) == Parsed(LiteralExpr(Fetch(input, s).result.value), Fetch(input, s).src)
  {
  }

  /** An integer literal reads back as the number that prints as it; a
      boolean literal must be `true` or `false`, or the parser aborts. */
  lemma LiteralExprs(t: Token, v: i64)
    ensures t.tokenType == IntegerLiteral && t.content == I64ToString(v) ==> LiteralExpr(t) == Ok(IntLiteral(v))
    ensures t.tokenType == TokenType.BoolLiteral ==>
              LiteralExpr(t) == (if t.content == "true" then Ok(Expr.BoolLiteral(true))
                                 else if t.content == "false" then Ok(Expr.BoolLiteral(false))
                                 else Err(Panicked))
  {
    ParseI64OfI64ToString(v);
  }

  /** After the identifier that starts a statement: `(` makes a call of
      that name with the list up to `)`, `=` an assignment to it of the
      expression that follows, and any other token is reported (an
      operator after being handed back and read again). */
  lemma IdentifierStatementDispatch(input: Input, init: Token, s: Src)
    requires Fits(input, s) && init.tokenType == TokenType.Identifier
    requires Fetch(input, s).result.Ok?
    ensures var d := Fetch(input, s);
            var t := d.result.value;
            var h := HighLevelSpec(input, init, s);
            && (t.tokenType == Operator && t.content == "(" ==>
                  var l := ParseListSpec(input, ")", true, [], d.src);
                  h == (if l.result.Ok? then Parsed(Ok(ParsedHighLevel.FuncCall(FuncCallExpr(init.content, l.result.value))), l.src)
                        else Parsed(Err(l.result.error), l.src)))
            && (t.tokenType == Operator && t.content == "=" ==>
                  var e := ParseExprSpec(input, d.src);
                  h == (if e.result.Ok? then Parsed(Ok(VarSet(VarAssign(init.content, e.result.value))), e.src)
                        else Parsed(Err(e.result.error), e.src)))
            && (!(t.tokenType == Operator && (t.content == "(" || t.content == "=")) ==>
                  h == Parsed(Err(Unexpected(t)), d.src))
  {
    var d := Fetch(input, s);
    var t := d.result.value;
    assert Fetch(input, Store(d.src, t)) == Fetched(Ok(t), d.src);
    if t.tokenType == Operator && t.content == "(" {
      assert ParseFuncCallSpec(input, Some(init.content), Store(d.src, t)) == CallRestSpec(input, init.content, Store(d.src, t));
    } else if t.tokenType == Operator && t.content == "=" {
      assert ParseVarAssignSpec(input, Some(init.content), Store(d.src, t)) == AssignRestSpec(input, init.content, Store(d.src, t));
    }
  }

  /** After `let`, a declaration is exactly an identifier, `=` and an
      expression. */
  lemma VarAssignTokens(input: Input, s: Src, name: string, e: Expr)
    requires Fits(input, s)
    ensures ParseVarAssignSpec(input, None, s).result == Ok(VarAssign(name, e))
      <==> (&& FetchAt(input, s, 0).result.Ok?
            && FetchAt(input, s, 0).result.value.tokenType == TokenType.Identifier
            && FetchAt(input, s, 0).result.value.content == name
            && FetchAt(input, s, 1).result.Ok?
            && FetchAt(input, s, 1).result.value.tokenType == Operator
            && FetchAt(input, s, 1).result.value.content == "="
            && ParseExprSpec(input, FetchAt(input, s, 1).src).result == Ok(e))
  {
    var n := Fetch(input, s);
    assert FetchAt(input, s, 0) == n;
    if n.result.Ok? && n.result.value.tokenType == TokenType.Identifier {
      assert FetchAt(input, s, 1) == Fetch(input, n.src);
      assert ParseVarAssignSpec(input, None, s) == AssignRestSpec(input, n.result.value.content, n.src);
    }
  }

  /** A block must open with `{`: any other first token is reported. */
  lemma BlockNeedsBrace(input: Input, s: Src)
    requires Fits(input, s) && Fetch(input, s).result.Ok? && Fetch(input, s).result.value.content != "{"
    ensures ParseStatementBlockSpec(input, s) == Parsed(Err(Unexpected(Fetch(input, s).result.value)), Fetch(input, s).src)
  {
  }

  /** A `}` where a statement would start ends the block with the
      statements read so far, and is consumed. */
  lemma BlockLoopClosed(input: Input, statements: seq<ParsedPackage>, s: Src)
    requires Fits(input, s) && Fetch(input, s).result.Ok? && Fetch(input, s).result.value.content == "}"
    ensures BlockLoopSpec(input, statements, s) == Parsed(Ok(StatementBlock(statements)), Fetch(input, s).src)
  {
  }

  /** `{` then `}` is the empty block, and both are consumed. */
  lemma BlockEmpty(input: Input, s: Src)
    requires Fits(input, s)
    requires FetchAt(input, s, 0).result.Ok? && FetchAt(input, s, 0).result.value.content == "{"
    requires FetchAt(input, s, 1).result.Ok? && FetchAt(input, s, 1).result.value.content == "}"
    ensures ParseStatementBlockSpec(input, s) == Parsed(Ok(StatementBlock([])), FetchAt(input, s, 1).src)
  {
    var f := Fetch(input, s);
    assert FetchAt(input, s, 1) == Fetch(input, f.src);
    BlockLoopClosed(input, [], f.src);
  }

  /** Any other token is handed back and starts the next statement, which
      follows those read so far; its error is the block's. */
  lemma BlockLoopStatement(input: Input, statements: seq<ParsedPackage>, s: Src)
    requires Fits(input, s) && Fetch(input, s).result.Ok? && Fetch(input, s).result.value.content != "}"
    ensures var f := Fetch(input, s);
            var n := PackageSpec(input, f.result.value, f.src);
            BlockLoopSpec(input, statements, s)
              == (if n.result.Ok? then BlockLoopSpec(input, statements + [n.result.value.value], n.src)
                  else Parsed(Err(n.result.error), n.src))
  {
    var f := Fetch(input, s);
    assert NextPackageSpec(input, Store(f.src, f.result.value)) == PackageSpec(input, f.result.value, f.src);
  }

  /** A block keeps the statements read before it, in order, ahead of the
      ones it reads. */
  lemma {:induction false} BlockLoopKeepsOrder(input: Input, statements: seq<ParsedPackage>, s: Src)
    requires Fits(input, s)
    ensures var p := BlockLoopSpec(input, statements, s);
            p.result.Ok? ==> |p.result.value.statements| >= |statements|
                             && p.result.value.statements[..|statements|] == statements
    decreases Pend(input, s)
  {
    var f := Fetch(input, s);
    if f.result.Ok? && f.result.value.content != "}" {
      BlockLoopStatement(input, statements, s);
      var n := PackageSpec(input, f.result.value, f.src);
      if n.result.Ok? {
        var more := statements + [n.result.value.value];
        BlockLoopKeepsOrder(input, more, n.src);
        var p := BlockLoopSpec(input, more, n.src);
        if p.result.Ok? {
          assert p.result.value.statements[..|statements|] == p.result.value.statements[..|more|][..|statements|];
        }
      }
    }
  }

  /** The first element of a list is the expression its first token
      starts, handed back; no `,` comes before it. */
  lemma ListFirstElement(input: Input, stopOp: string, s: Src)
    requires Fits(input, s) && Fetch(input, s).result.Ok?
    requires !(Fetch(input, s).result.value.tokenType == Operator && Fetch(input, s).result.value.content == stopOp)
    ensures var f := Fetch(input, s);
            var e := ParseExprSpec(input, Store(f.src, f.result.value));
            ParseListSpec(input, stopOp, true, [], s)
              == (if e.result.Ok? then ParseListSpec(input, stopOp, false, [e.result.value], e.src)
                  else Parsed(Err(e.result.error), e.src))
  {
    var f := Fetch(input, s);
    var e := ParseExprSpec(input, Store(f.src, f.result.value));
    if e.result.Ok? {
      assert [] + [e.result.value] == [e.result.value];
    }
  }

  /** After an element, a token other than the closing operator and `,` is
      reported. */
  lemma ListBadSeparator(input: Input, stopOp: string, args: seq<Expr>, s: Src)
    requires Fits(input, s) && Fetch(input, s).result.Ok?
    requires !(Fetch(input, s).result.value.tokenType == Operator && Fetch(input, s).result.value.content == stopOp)
    requires !(Fetch(input, s).result.value.tokenType == Operator && Fetch(input, s).result.value.content == ",")
    ensures ParseListSpec(input, stopOp, false, args, s) == Parsed(Err(Unexpected(Fetch(input, s).result.value)), Fetch(input, s).src)
  {
  }

  /** After an element and a `,`, the next token is handed back and starts
      the next element, which follows those read so far. */
  lemma ListCommaThenElement(input: Input, stopOp: string, args: seq<Expr>, s: Src)
    requires Fits(input, s) && stopOp != ","
    requires FetchAt(input, s, 0).result.Ok? && FetchAt(input, s, 0).result.value.tokenType == Operator
    requires FetchAt(input, s, 0).result.value.content == ","
    requires FetchAt(input, s, 1).result.Ok?
    ensures var g := FetchAt(input, s, 1);
            var e := ParseExprSpec(input, Store(g.src, g.result.value));
            ParseListSpec(input, stopOp, false, args, s)
              == (if e.result.Ok? then ParseListSpec(input, stopOp, false, args + [e.result.value], e.src)
                  else Parsed(Err(e.result.error), e.src))
  {
    var f := Fetch(input, s);
    assert FetchAt(input, s, 1) == Fetch(input, f.src);
  }

  /** Two `,` in a row are reported at the second: elements are separated
      by exactly one. */
  lemma ListDoubleCommaRejected(input: Input, stopOp: string, args: seq<Expr>, s: Src)
    requires Fits(input, s) && stopOp != ","
    requires FetchAt(input, s, 0).result.Ok? && FetchAt(input, s, 0).result.value.tokenType == Operator
    requires FetchAt(input, s, 0).result.value.content == ","
    requires FetchAt(input, s, 1).result.Ok? && FetchAt(input, s, 1).result.value.tokenType == Operator
    requires FetchAt(input, s, 1).result.value.content == ","
    ensures ParseListSpec(input, stopOp, false, args, s).result == Err(Unexpected(FetchAt(input, s, 1).result.value))
  {
    var g := FetchAt(input, s, 1);
    ListCommaThenElement(input, stopOp, args, s);
    assert Fetch(input, Store(g.src, g.result.value)).result == g.result;
    assert g.result.value.content != "[";
  }

  /** `Parser`: the lexer (its results `tokens` and how many have been
      read), the source text packages record, and the pushback slot. */
  class Parser {
    const tokens: TokenStream
    const source: string
    var pos: nat
    var storedToken: Option<Token>

    /** What this parser reads. */
    function Given(): Input {
      Input(tokens, source)
    }

    predicate Valid()
      reads this
    {
      pos <= |tokens|
    }

    /** The token source in its current state. */
    function Source(): Src
      reads this
    {
      Src(pos, storedToken)
    }

    /** `Parser::new`: nothing read, nothing stored. */
    constructor (tokens: TokenStream, source: string)
      ensures this.tokens == tokens && this.source == source
      ensures Source() == Src(0, None) && Valid()
    {
      this.tokens := tokens;
      this.source := source;
      pos := 0;
      storedToken := None;
    }

    /** `store_token`: the slot must be empty. */
    method StoreToken(tk: Token)
      requires storedToken.None?
      modifies this
      ensures storedToken == Some(tk) && pos == old(pos)
    {
      storedToken := Some(tk);
    }

    /** `next_token`: the stored token, else the lexer's next result. */
    method NextToken() returns (r: Result<Token, LexError>)
      requires Valid()
      modifies this
      ensures Valid()
      ensures Fetched(r, Source()) == Fetch(Given(), old(Source()))
    {
      if storedToken.Some? {
        r := Ok(storedToken.value);
        storedToken := None;
        return;
      }
      r := LexAt(tokens, pos);
      pos := NextPos(tokens, pos);
    }

    /** `expect_end_of_package`. */
    method ExpectEndOfPackage() returns (r: Result<(), ParserError>)
      requires Valid()
      modifies this
      ensures Valid()
      ensures Parsed(r, Source()) == ExpectEndOfPackageSpec(Given(), old(Source()))
    {
      var tk := NextToken();
      if tk.Err? {
        if tk.error == EndOfFile {
          return Ok(());
        }
        return Err(Lexer(tk.error));
      }
      if tk.value.tokenType == Operator && tk.value.content == ";" {
        return Ok(());
      }
      return Err(Unexpected(tk.value));
    }

    /** `next_package`. */
    method NextPackage() returns (r: Result<Option<ParsedPackage>, ParserError>)
      requires Valid()
      modifies this
      ensures Valid()
      ensures Parsed(r, Source()) == NextPackageSpec(Given(), old(Source()))
      decreases Pend(Given(), Source()), 0
    {
      var initToken := NextToken();
      if initToken.Err? {
        if initToken.error == EndOfFile {
          return Ok(None);
        }
        return Err(Lexer(initToken.error));
      }
      var init := initToken.value;
      ghost var afterInit := Source();
      var tktypeIdent := ExpectTokenType(init, TokenType.Identifier);
      var tktypeKeyword := ExpectTokenType(init, Keyword);
      if tktypeIdent.Err? && tktypeKeyword.Err? {
        return Err(tktypeKeyword.error);
      }
      var highLevel: ParsedHighLevel;
      if init.tokenType == Keyword {
        if init.content == "let" {
          var a := ParseVarAssign(None);
          if a.Err? {
            return Err(a.error);
          }
          highLevel := VarDecl(a.value);
        } else if init.content == "fn" {
          var d := ParseFuncDecl();
          if d.Err? {
            return Err(d.error);
          }
          highLevel := ParsedHighLevel.FuncDecl(d.value);
        } else if init.content == "if" {
          var i := ParseIfStatement();
          if i.Err? {
            return Err(i.error);
          }
          highLevel := If(i.value);
        } else {
          return Err(Unexpected(init));
        }
      } else {
        var discrTk := NextToken();
        if discrTk.Err? {
          return Err(Lexer(discrTk.error));
        }
        if discrTk.value.tokenType != Operator {
          return Err(Unexpected(discrTk.value));
        }
        var discrContent := discrTk.value.content;
        StoreToken(discrTk.value);
        if discrContent == "(" {
          var c := ParseFuncCall(Some(init.content));
          if c.Err? {
            return Err(c.error);
          }
          highLevel := ParsedHighLevel.FuncCall(c.value);
        } else if discrContent == "=" {
          var a := ParseVarAssign(Some(init.content));
          if a.Err? {
            return Err(a.error);
          }
          highLevel := VarSet(a.value);
        } else {
          // The stored token comes straight back, so this read cannot fail.
          var tk := NextToken();
          return Err(Unexpected(tk.value));
        }
      }
      assert HighLevelSpec(Given(), init, afterInit) == Parsed(Ok(highLevel), Source());
      var end := ExpectEndOfPackage();
      if end.Err? {
        return Err(end.error);
      }
      return Ok(Some(ParsedPackage(source, highLevel)));
    }

    /** `parse_var_assign`. */
    method ParseVarAssign(name: Option<string>) returns (r: Result<VarAssign, ParserError>)
      requires Valid()
      modifies this
      ensures Valid()
      ensures Parsed(r, Source()) == ParseVarAssignSpec(Given(), name, old(Source()))
      decreases Pend(Given(), Source()), 1
    {
      var varName: string;
      if name.Some? {
        varName := name.value;
      } else {
        var nameTk := NextToken();
        if nameTk.Err? {
          return Err(Lexer(nameTk.error));
        }
        var x := ExpectTokenType(nameTk.value, TokenType.Identifier);
        if x.Err? {
          return Err(x.error);
        }
        varName := nameTk.value.content;
      }
      ghost var afterName := Source();
      var assignTk := NextToken();
      if assignTk.Err? {
        return Err(Lexer(assignTk.error));
      }
      var x := ExpectToken(assignTk.value, Operator, "=");
      if x.Err? {
        return Err(x.error);
      }
      var val := ParseExpr();
      if val.Err? {
        return Err(val.error);
      }
      r := Ok(VarAssign(varName, val.value));
      assert Parsed(r, Source()) == AssignRestSpec(Given(), varName, afterName);
    }

    /** `parse_func_decl`. */
    method ParseFuncDecl() returns (r: Result<Ast.FuncDecl, ParserError>)
      requires Valid()
      modifies this
      ensures Valid()
      ensures Parsed(r, Source()) == ParseFuncDeclSpec(Given(), old(Source()))
      decreases Pend(Given(), Source()), 0
    {
      var funcIdentifierTk := NextToken();
      if funcIdentifierTk.Err? {
        return Err(Lexer(funcIdentifierTk.error));
      }
      var x := ExpectTokenType(funcIdentifierTk.value, TokenType.Identifier);
      if x.Err? {
        return Err(x.error);
      }
      var funcIdent := funcIdentifierTk.value.content;
      var tk := NextToken();
      if tk.Err? {
        return Err(Lexer(tk.error));
      }
      x := ExpectTokenContent(tk.value, "(");
      if x.Err? {
        return Err(x.error);
      }
      ghost var afterParen := Source();
      var args: seq<string> := [];
      var firstArgToken := true;
      while true
        invariant Valid()
        invariant firstArgToken
        invariant ArgLoopSpec(Given(), firstArgToken, args, Source()) == ArgLoopSpec(Given(), true, [], afterParen)
        invariant Pend(Given(), Source()) <= Pend(Given(), afterParen)
        decreases Pend(Given(), Source())
      {
        var nextToken := NextToken();
        if nextToken.Err? {
          return Err(Lexer(nextToken.error));
        }
        if nextToken.value.content == ")" {
          break;
        }
        if !firstArgToken {
          // The `,` check of the source sits here; `firstArgToken` is never
          // cleared, so it is never reached.
          assert false;
        }
        var ident := ExpectTokenType(nextToken.value, TokenType.Identifier);
        if ident.Err? {
          return Err(ident.error);
        }
        args := args + [nextToken.value.content];
      }
      ghost var afterArgs := Source();
      var block := ParseStatementBlock();
      if block.Err? {
        return Err(block.error);
      }
      return Ok(Ast.FuncDecl.FuncDecl(funcIdent, args, block.value));
    }

    /** `parse_if_statement`. */
    method ParseIfStatement() returns (r: Result<IfStatement, ParserError>)
      requires Valid()
      modifies this
      ensures Valid()
      ensures Parsed(r, Source()) == ParseIfStatementSpec(Given(), old(Source()))
      decreases Pend(Given(), Source()), 1
    {
      var val := ParseExpr();
      if val.Err? {
        return Err(val.error);
      }
      ghost var afterVal := Source();
      var block := ParseStatementBlock();
      if block.Err? {
        return Err(block.error);
      }
      r := Ok(IfStatement(val.value, block.value));
      assert Parsed(r, Source()) == IfBlockSpec(Given(), val.value, afterVal);
    }

    /** `parse_statement_block`. */
    method ParseStatementBlock() returns (r: Result<StatementBlock, ParserError>)
      requires Valid()
      modifies this
      ensures Valid()
      ensures Parsed(r, Source()) == ParseStatementBlockSpec(Given(), old(Source()))
      decreases Pend(Given(), Source()), 0
    {
      var tk := NextToken();
      if tk.Err? {
        return Err(Lexer(tk.error));
      }
      var x := ExpectTokenContent(tk.value, "{");
      if x.Err? {
        return Err(x.error);
      }
      ghost var afterBrace := Source();
      var statements: seq<ParsedPackage> := [];
      while true
        invariant Valid()
        invariant BlockLoopSpec(Given(), statements, Source()) == BlockLoopSpec(Given(), [], afterBrace)
        invariant Pend(Given(), Source()) <= Pend(Given(), afterBrace)
        decreases Pend(Given(), Source())
      {
        var nextTk := NextToken();
        if nextTk.Err? {
          return Err(Lexer(nextTk.error));
        }
        if nextTk.value.content == "}" {
          break;
        }
        StoreToken(nextTk.value);
        // A token is stored, so `next_package` never reports the end of the
        // input here.
        var pkg := NextPackage();
        if pkg.Err? {
          return Err(pkg.error);
        }
        statements := statements + [pkg.value.value];
      }
      return Ok(StatementBlock(statements));
    }

    /** `parse_func_call`. */
    method ParseFuncCall(funcIdentifier: Option<string>) returns (r: Result<FuncCallExpr, ParserError>)
      requires Valid()
      modifies this
      ensures Valid()
      ensures Parsed(r, Source()) == ParseFuncCallSpec(Given(), funcIdentifier, old(Source()))
      decreases Pend(Given(), Source()), 1
    {
      var name: string;
      if funcIdentifier.Some? {
        name := funcIdentifier.value;
      } else {
        var funcIdentifierTk := NextToken();
        if funcIdentifierTk.Err? {
          return Err(Lexer(funcIdentifierTk.error));
        }
        var x := ExpectTokenType(funcIdentifierTk.value, TokenType.Identifier);
        if x.Err? {
          return Err(x.error);
        }
        name := funcIdentifierTk.value.content;
      }
      ghost var afterName := Source();
      var parentheseTk := NextToken();
      if parentheseTk.Err? {
        return Err(Lexer(parentheseTk.error));
      }
      var x := ExpectToken(parentheseTk.value, Operator, "(");
      if x.Err? {
        return Err(x.error);
      }
      var args := ParseList(")");
      if args.Err? {
        return Err(args.error);
      }
      r := Ok(FuncCallExpr(name, args.value));
      assert Parsed(r, Source()) == CallRestSpec(Given(), name, afterName);
    }

    /** `parse_expr`. */
    method ParseExpr() returns (r: Result<Expr, ParserError>)
      requires Valid()
      modifies this
      ensures Valid()
      ensures Parsed(r, Source()) == ParseExprSpec(Given(), old(Source()))
      decreases Pend(Given(), Source()), 0
    {
      var exprStart := NextToken();
      if exprStart.Err? {
        return Err(Lexer(exprStart.error));
      }
      var t := exprStart.value;
      match t.tokenType
      case IntegerLiteral =>
        var v := ParseI64(t.content);
        if v.Err? {
          return Err(FromParseIntError(t.content, v.error));
        }
        return Ok(IntLiteral(v.value));
      case StringLiteral =>
        return Ok(Expr.StringLiteral(t.content));
      case BoolLiteral =>
        var b := ParseBool(t.content);
        if b.None? {
          return Err(Panicked);
        }
        return Ok(Expr.BoolLiteral(b.value));
      case Identifier =>
        r := ParseBranchIdentifierExpr(t);
      case Operator =>
        if t.content == "[" {
          r := ParseArray();
        } else {
          return Err(Unexpected(t));
        }
      case _ =>
        return Err(Unexpected(t));
    }

    /** `parse_branch_identifier_expr`. */
    method ParseBranchIdentifierExpr(identifier: Token) returns (r: Result<Expr, ParserError>)
      requires Valid()
      modifies this
      ensures Valid()
      ensures Parsed(r, Source()) == ParseBranchIdentifierExprSpec(Given(), identifier, old(Source()))
      decreases Pend(Given(), Source()), 0
    {
      var tk := NextToken();
      var e := IsEndOfPackage(tk);
      if e.Err? {
        return Err(e.error);
      }
      var (atEnd, next) := e.value;
      if atEnd {
        if next.Some? {
          StoreToken(next.value);
        }
        return Ok(Expr.Identifier(identifier.content));
      }
      var nextTk := next.value;
      if nextTk.tokenType == Operator && nextTk.content == "(" {
        var call := ParseFuncCall(Some(nextTk.content));
        if call.Err? {
          return Err(call.error);
        }
        return Ok(Expr.FuncCall(call.value));
      }
      if nextTk.tokenType == Operator && (nextTk.content == ")" || nextTk.content == "," || nextTk.content == "]") {
        StoreToken(nextTk);
        return Ok(Expr.Identifier(identifier.content));
      }
      return Err(Unexpected(nextTk));
    }

    /** `parse_array`. */
    method ParseArray() returns (r: Result<Expr, ParserError>)
      requires Valid()
      modifies this
      ensures Valid()
      ensures Parsed(r, Source()) == ParseArraySpec(Given(), old(Source()))
      decreases Pend(Given(), Source()), 2
    {
      var args := ParseList("]");
      if args.Err? {
        return Err(args.error);
      }
      return Ok(Array(ArrayExpr(args.value)));
    }

    /** `parse_list`. */
    method ParseList(stopOp: string) returns (r: Result<seq<Expr>, ParserError>)
      requires Valid()
      modifies this
      ensures Valid()
      ensures Parsed(r, Source()) == ParseListSpec(Given(), stopOp, true, [], old(Source()))
      decreases Pend(Given(), Source()), 1
    {
      ghost var start := Source();
      var args: seq<Expr> := [];
      var first := true;
      while true
        invariant Valid()
        invariant ParseListSpec(Given(), stopOp, first, args, Source()) == ParseListSpec(Given(), stopOp, true, [], start)
        invariant Pend(Given(), Source()) <= Pend(Given(), start)
        decreases Pend(Given(), Source())
      {
        var tk := NextToken();
        if tk.Err? {
          return Err(Lexer(tk.error));
        }
        var t := tk.value;
        if t.tokenType == Operator && t.content == stopOp {
          break;
        }
        if !first {
          var x := ExpectToken(t, Operator, ",");
          if x.Err? {
            return Err(x.error);
          }
          tk := NextToken();
          if tk.Err? {
            return Err(Lexer(tk.error));
          }
          t := tk.value;
        } else {
          first := false;
        }
        StoreToken(t);
        var e := ParseExpr();
        if e.Err? {
          return Err(e.error);
        }
        args := args + [e.value];
      }
      return Ok(args);
    }
  }
}
