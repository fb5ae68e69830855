/** The first-generation parser (src/parser.rs). A statement is a `var`
    declaration, an assignment or a call, ended by a newline, a `;` or the
    end of the input. The parser pulls tokens from the lexer one at a time
    and can push one token back.

    The source is specified by functions over the token source (the lexer's
    state and the pushback slot); the class `Parser` runs the same steps on
    a `Lexer` object and each of its methods is proved equal to its
    specification function. */
module OldParser {
  import opened Wrappers
  import opened Decimal
  import opened Utf8
  import opened Lexer

  // ---------------------------------------------------------------------
  // The syntax tree of this generation

  datatype FuncCallExpr = FuncCallExpr(name: string, args: seq<Expr>)

  datatype VarAssign = VarAssign(name: string, val: Expr)

  datatype Expr =
    | IntLiteral(i: i64)
    | StringLiteral(s: string)
    | Identifier(id: string)
    | FuncCall(call: FuncCallExpr)

  datatype ParsedHighLevel =
    | VarDecl(decl: VarAssign)
    | VarSet(assign: VarAssign)
    | FuncCall(call: FuncCallExpr)

  datatype ParsedPackage = ParsedPackage(source: string, parsed: ParsedHighLevel)

  /** `ParserError`. `Panicked` stands for the `todo!()` of `parse_func_call`,
      which aborts the program in the source. */
  datatype ParserError =
    | LexerError(err: Error)
    | UnexpectedToken(token: Token, source: string)
    | IntegerParsing(text: string, cause: Option<ParseIntError>)
    | Panicked

  // ---------------------------------------------------------------------
  // The token source

  /** The lexer's state and the pushback slot `stored_token`. */
  datatype Src = Src(lex: LexState, stored: Option<Token>)

  predicate Fits(input: seq<byte>, s: Src) {
    s.lex.pos <= |input|
  }

  datatype Fetched = Fetched(result: Result<Token, Error>, src: Src)

  /** `next_token`: the stored token if there is one, else the lexer's next
      token; either way the slot is empty afterwards. */
  function Fetch(input: seq<byte>, s: Src): (f: Fetched)
    requires Fits(input, s)
    ensures Fits(input, f.src) && f.src.stored.None?
  {
    match s.stored
    case Some(t) => Fetched(Ok(t), Src(s.lex, None))
    case None =>
      var st := NextTokenSpec(input, s.lex);
      Fetched(st.result, Src(st.state, None))
  }

  /** The `k`-th token (from 0) the source delivers. */
  function FetchAt(input: seq<byte>, s: Src, k: nat): (f: Fetched)
    requires Fits(input, s)
    ensures Fits(input, f.src) && f.src.stored.None?
  {
    if k == 0 then Fetch(input, s) else Fetch(input, FetchAt(input, s, k - 1).src)
  }

  /** What a parsing step returns and the source after it. */
  datatype Parsed<T> = Parsed(result: Result<T, ParserError>, src: Src)

  // ---------------------------------------------------------------------
  // Token checks

  /** A newline or a `;` ends a statement. */
  predicate IsTerminator(t: Token) {
    t.tokenType == TokenType.LineReturn || (t.tokenType == TokenType.Operator && t.content == ";")
  }

  /** What may follow a statement: a terminator or the end of the input. */
  predicate EndsPackage(r: Result<Token, Error>) {
    r == Err(EndOfFile) || (r.Ok? && IsTerminator(r.value))
  }

  /** A token read with `?` and then rejected by `unexpected_token`. */
  function Unexpected(source: string, r: Result<Token, Error>): (e: ParserError) {
    if r.Err? then LexerError(r.error) else UnexpectedToken(r.value, source)
  }

  /** `expect_token`: the token has the given type and content. */
  function ExpectToken(source: string, tk: Token, tokenType: TokenType, content: string): (r: Result<(), ParserError>)
    ensures r.Ok? <==> tk.tokenType == tokenType && tk.content == content
    ensures r.Err? ==> r.error == UnexpectedToken(tk, source)
  {
    if tk.tokenType != tokenType then Err(UnexpectedToken(tk, source))
    else if tk.content != content then Err(UnexpectedToken(tk, source))
    else Ok(())
  }

  /** `is_end_of_package`: whether the token (or the end of the input) ends
      a statement, handing the token back. It never answers `(false, None)`,
      so the `panic!` for that answer cannot be reached. */
  function IsEndOfPackage(r: Result<Token, Error>): (e: Result<(bool, Option<Token>), ParserError>)
    ensures e.Err? <==> r.Err? && r.error != EndOfFile
    ensures e.Err? ==> e.error == LexerError(r.error)
    ensures e.Ok? ==> (e.value.0 <==> EndsPackage(r))
    ensures e.Ok? ==> (e.value.1.Some? <==> r.Ok?) && (r.Ok? ==> e.value.1 == Some(r.value))
  {
    if r.Err? then
      if r.error == EndOfFile then Ok((true, None)) else Err(LexerError(r.error))
    else if IsTerminator(r.value) then Ok((true, Some(r.value)))
    else Ok((false, Some(r.value)))
  }

  // ---------------------------------------------------------------------
  // The grammar, as functions over the token source

  /** `expect_end_of_package`. */
  function ExpectEndOfPackageSpec(input: seq<byte>, source: string, s: Src): (p: Parsed<()>)
    requires Fits(input, s)
    ensures Fits(input, p.src) && p.src == Fetch(input, s).src
    ensures p.result.Ok? <==> EndsPackage(Fetch(input, s).result)
    ensures p.result.Err? ==> p.result.error == Unexpected(source, Fetch(input, s).result)
  {
    var f := Fetch(input, s);
    if f.result.Err? then
      if f.result.error == EndOfFile then Parsed(Ok(()), f.src)
      else Parsed(Err(LexerError(f.result.error)), f.src)
    else if IsTerminator(f.result.value) then Parsed(Ok(()), f.src)
    else Parsed(Err(UnexpectedToken(f.result.value, source)), f.src)
  }

  /** `parse_branch_identifier_expr`: an identifier is a whole expression when
      a terminator (pushed back) or the end of the input follows it; `(`
      starts a call, which is not written yet; anything else is rejected. */
  function ParseBranchIdentifierExprSpec(input: seq<byte>, source: string, identifier: Token, s: Src): (p: Parsed<Expr>)
    requires Fits(input, s)
    ensures Fits(input, p.src)
  {
    var f := Fetch(input, s);
    var e := IsEndOfPackage(f.result);
    if e.Err? then Parsed(Err(e.error), f.src)
    else if e.value.0 then
      Parsed(Ok(Expr.Identifier(identifier.content)), Src(f.src.lex, e.value.1))
    else
      var tk := e.value.1.value;
      if tk.tokenType == TokenType.Operator && tk.content == "(" then
        Parsed(Err(Panicked), f.src)
      else Parsed(Err(UnexpectedToken(tk, source)), f.src)
  }

  /** `parse_expr`: an integer literal (parsed as `i64`), a string literal, or
      an expression starting with an identifier. */
  function ParseExprSpec(input: seq<byte>, source: string, s: Src): (p: Parsed<Expr>)
    requires Fits(input, s)
    ensures Fits(input, p.src)
    ensures p.result.Ok? ==> !p.result.value.FuncCall?
    ensures p.src.stored.Some? ==> p.result.Ok?
  {
    var f := Fetch(input, s);
    if f.result.Err? then Parsed(Err(LexerError(f.result.error)), f.src)
    else
      var t := f.result.value;
      match t.tokenType
      case IntegerLiteral =>
        (match ParseI64(t.content)
         case Ok(v) => Parsed(Ok(IntLiteral(v)), f.src)
         case Err(err) => Parsed(Err(IntegerParsing(t.content, Some(err))), f.src))
      case StringLiteral => Parsed(Ok(Expr.StringLiteral(t.content)), f.src)
      case Identifier => ParseBranchIdentifierExprSpec(input, source, t, f.src)
      case _ => Parsed(Err(UnexpectedToken(t, source)), f.src)
  }

  /** The part of `parse_var_assign` after the name: `=` and an expression. */
  function ParseAssignRestSpec(input: seq<byte>, source: string, name: string, s: Src): (p: Parsed<VarAssign>)
    requires Fits(input, s)
    ensures Fits(input, p.src)
    ensures p.result.Ok? ==> p.result.value.name == name
    ensures p.src.stored.Some? ==> p.result.Ok?
  {
    var f := Fetch(input, s);
    if f.result.Err? then Parsed(Err(LexerError(f.result.error)), f.src)
    else
      var x := ExpectToken(source, f.result.value, TokenType.Operator, "=");
      if x.Err? then Parsed(Err(x.error), f.src)
      else
        var e := ParseExprSpec(input, source, f.src);
        if e.result.Err? then Parsed(Err(e.result.error), e.src)
        else Parsed(Ok(VarAssign(name, e.result.value)), e.src)
  }

  /** `parse_var_assign`: with no name given, the name is read first and
      must be an identifier other than `var`. */
  function ParseVarAssignSpec(input: seq<byte>, source: string, name: Option<string>, s: Src): (p: Parsed<VarAssign>)
    requires Fits(input, s)
    ensures Fits(input, p.src)
    ensures p.result.Ok? && name.Some? ==> p.result.value.name == name.value
    ensures p.result.Ok? && name.None? ==> p.result.value.name != "var"
    ensures p.src.stored.Some? ==> p.result.Ok?
  {
    if name.Some? then ParseAssignRestSpec(input, source, name.value, s)
    else
      var f := Fetch(input, s);
      if f.result.Err? then Parsed(Err(LexerError(f.result.error)), f.src)
      else if f.result.value.tokenType != TokenType.Identifier || f.result.value.content == "var" then
        Parsed(Err(UnexpectedToken(f.result.value, source)), f.src)
      else ParseAssignRestSpec(input, source, f.result.value.content, f.src)
  }

  /** The statement of `next_package` once its first token, an identifier,
      has been read: `var` starts a declaration; otherwise an operator must
      follow, which is pushed back, and `(` starts a call and `=` an
      assignment. */
  function StatementSpec(input: seq<byte>, source: string, init: Token, s: Src): (p: Parsed<ParsedHighLevel>)
    requires Fits(input, s)
    ensures Fits(input, p.src)
    ensures p.result.Ok? ==> (p.result.value.VarDecl? <==> init.content == "var")
    ensures p.result.Ok? && !p.result.value.VarDecl? ==> p.result.value.VarSet? && p.result.value.assign.name == init.content
    ensures p.src.stored.Some? ==> p.result.Ok? || p.result == Err(Panicked)
  {
    if init.content == "var" then
      var a := ParseVarAssignSpec(input, source, None, s);
      if a.result.Err? then Parsed(Err(a.result.error), a.src)
      else Parsed(Ok(VarDecl(a.result.value)), a.src)
    else
      var d := Fetch(input, s);
      if d.result.Err? then Parsed(Err(LexerError(d.result.error)), d.src)
      else if d.result.value.tokenType != TokenType.Operator then
        Parsed(Err(UnexpectedToken(d.result.value, source)), d.src)
      else
        var stored := Src(d.src.lex, Some(d.result.value));
        if d.result.value.content == "(" then
          Parsed(Err(Panicked), stored)
        else if d.result.value.content == "=" then
          var a := ParseVarAssignSpec(input, source, Some(init.content), stored);
          if a.result.Err? then Parsed(Err(a.result.error), a.src)
          else Parsed(Ok(VarSet(a.result.value)), a.src)
        else
          var g := Fetch(input, stored);
          Parsed(Err(Unexpected(source, g.result)), g.src)
  }

  /** `next_package`: `None` at the end of the input; otherwise a statement
      starting with an identifier and followed by a terminator or the end of
      the input. */
  function NextPackageSpec(input: seq<byte>, source: string, s: Src): (p: Parsed<Option<ParsedPackage>>)
    requires Fits(input, s)
    ensures Fits(input, p.src)
    ensures p.result.Ok? && p.result.value.Some? ==> p.result.value.value.source == source
    ensures p.result.Ok? && p.result.value.Some? ==> p.result.value.value.parsed.VarDecl? || p.result.value.value.parsed.VarSet?
    ensures p.src.stored.Some? ==> p.result == Err(Panicked)
  {
    var f := Fetch(input, s);
    if f.result.Err? then
      if f.result.error == EndOfFile then Parsed(Ok(None), f.src)
      else Parsed(Err(LexerError(f.result.error)), f.src)
    else if f.result.value.tokenType != TokenType.Identifier then
      Parsed(Err(UnexpectedToken(f.result.value, source)), f.src)
    else
      var h := StatementSpec(input, source, f.result.value, f.src);
      if h.result.Err? then Parsed(Err(h.result.error), h.src)
      else
        var e := ExpectEndOfPackageSpec(input, source, h.src);
        if e.result.Err? then Parsed(Err(e.result.error), e.src)
        else Parsed(Ok(Some(ParsedPackage(source, h.result.value))), e.src)
  }

  // ---------------------------------------------------------------------
  // Properties of the grammar

  /** The expression a single token denotes on its own. */
  predicate ExprToken(t: Token, e: Expr) {
    match t.tokenType
    case IntegerLiteral => ParseI64(t.content).Ok? && e == IntLiteral(ParseI64(t.content).value)
    case StringLiteral => e == Expr.StringLiteral(t.content)
    case Identifier => e == Expr.Identifier(t.content)
    case _ => false
  }

  /** A token stored in the empty slot is the next one delivered, and the
      source is then as before. */
  lemma StoreThenFetch(input: seq<byte>, s: Src, t: Token)
    requires Fits(input, s) && s.stored.None?
    ensures Fetch(input, Src(s.lex, Some(t))) == Fetched(Ok(t), s)
  {
  }

  /** `next_package` yields `None` exactly when the input is exhausted. */
  lemma NextPackageNone(input: seq<byte>, source: string, s: Src)
    requires Fits(input, s)
    ensures NextPackageSpec(input, source, s).result == Ok(None) <==> Fetch(input, s).result == Err(EndOfFile)
  {
  }

  /** A statement must start with an identifier. */
  lemma NextPackageNeedsIdentifier(input: seq<byte>, source: string, s: Src)
    requires Fits(input, s)
    requires Fetch(input, s).result.Ok? && Fetch(input, s).result.value.tokenType != TokenType.Identifier
    ensures NextPackageSpec(input, source, s).result == Err(UnexpectedToken(Fetch(input, s).result.value, source))
  {
  }

  /** An identifier followed by a terminator is a whole expression, and the
      terminator is pushed back for the statement's end to read. */
  lemma IdentifierExprPushesBack(input: seq<byte>, source: string, identifier: Token, s: Src)
    requires Fits(input, s)
    requires Fetch(input, s).result.Ok? && IsTerminator(Fetch(input, s).result.value)
    ensures ParseBranchIdentifierExprSpec(input, source, identifier, s)
         == Parsed(Ok(Expr.Identifier(identifier.content)), Src(Fetch(input, s).src.lex, Some(Fetch(input, s).result.value)))
  {
  }

  /** An integer literal reads back as the number it prints. */
  lemma IntegerLiteralExpr(input: seq<byte>, source: string, s: Src, v: i64)
    requires Fits(input, s)
    requires Fetch(input, s).result == Ok(Token(TokenType.IntegerLiteral, I64ToString(v)))
    ensures ParseExprSpec(input, source, s).result == Ok(IntLiteral(v))
  {
    ParseI64OfI64ToString(v);
  }

  /** An integer literal out of the `i64` range is reported with its text. */
  lemma IntegerLiteralOverflow(input: seq<byte>, source: string, s: Src, t: Token)
    requires Fits(input, s)
    requires Fetch(input, s).result == Ok(t) && t.tokenType == TokenType.IntegerLiteral
    requires ParseI64(t.content).Err?
    ensures ParseExprSpec(input, source, s).result == Err(IntegerParsing(t.content, Some(ParseIntError)))
  {
  }

  /** One token denoting `e` on its own, then a terminator or the end of
      the input. */
  predicate ExprEnds(input: seq<byte>, s: Src, e: Expr)
    requires Fits(input, s)
  {
    var f := Fetch(input, s);
    f.result.Ok? && ExprToken(f.result.value, e) && EndsPackage(Fetch(input, f.src).result)
  }

  /** An expression followed by the end of its statement is exactly one
      token that denotes the expression on its own, then a terminator or the
      end of the input. */
  lemma ExprThenEnd(input: seq<byte>, source: string, s: Src, e: Expr)
    requires Fits(input, s)
    ensures var p := ParseExprSpec(input, source, s);
      (p.result == Ok(e) && ExpectEndOfPackageSpec(input, source, p.src).result == Ok(()))
      <==> ExprEnds(input, s, e)
  {
    var f0 := Fetch(input, s);
    if f0.result.Ok? && f0.result.value.tokenType == TokenType.Identifier {
      var f1 := Fetch(input, f0.src);
      if f1.result == Err(EndOfFile) {
        EndOfFileIsFinal(input, f0.src.lex);
        assert Fetch(input, f1.src) == f1;
      }
    }
  }

  /** The same for the part of an assignment after its name. */
  lemma AssignRestThenEnd(input: seq<byte>, source: string, name: string, s: Src, a: VarAssign)
    requires Fits(input, s)
    ensures var p := ParseAssignRestSpec(input, source, name, s);
      (p.result == Ok(a) && ExpectEndOfPackageSpec(input, source, p.src).result == Ok(()))
      <==> (a.name == name && Fetch(input, s).result == Ok(Token(TokenType.Operator, "="))
            && ExprEnds(input, Fetch(input, s).src, a.val))
  {
    ExprThenEnd(input, source, Fetch(input, s).src, a.val);
  }

  /** A package is parsed exactly when an identifier comes first, the
      statement after it is parsed and the statement's end follows. */
  lemma NextPackageOk(input: seq<byte>, source: string, s: Src, st: ParsedHighLevel)
    requires Fits(input, s)
    ensures var f := Fetch(input, s);
      NextPackageSpec(input, source, s).result == Ok(Some(ParsedPackage(source, st)))
      <==> (f.result.Ok? && f.result.value.tokenType == TokenType.Identifier
            && StatementSpec(input, source, f.result.value, f.src).result == Ok(st)
            && ExpectEndOfPackageSpec(input, source, StatementSpec(input, source, f.result.value, f.src).src).result == Ok(()))
  {
  }

  /** After `var`, a statement is the assignment that follows, read with
      its name. */
  lemma StatementVarDecl(input: seq<byte>, source: string, init: Token, s: Src, a: VarAssign)
    requires Fits(input, s) && init.content == "var"
    ensures var p := StatementSpec(input, source, init, s);
      var q := ParseVarAssignSpec(input, source, None, s);
      (p.result == Ok(VarDecl(a)) && ExpectEndOfPackageSpec(input, source, p.src).result == Ok(()))
      <==> (q.result == Ok(a) && ExpectEndOfPackageSpec(input, source, q.src).result == Ok(()))
  {
  }

  /** An assignment read with its name is a name other than `var`, then the
      rest of the assignment. */
  lemma VarAssignNamed(input: seq<byte>, source: string, s: Src, a: VarAssign)
    requires Fits(input, s)
    ensures var q := ParseVarAssignSpec(input, source, None, s);
      var f := Fetch(input, s);
      (q.result == Ok(a) && ExpectEndOfPackageSpec(input, source, q.src).result == Ok(()))
      <==> (f.result.Ok? && f.result.value.tokenType == TokenType.Identifier && f.result.value.content != "var"
            && ParseAssignRestSpec(input, source, f.result.value.content, f.src).result == Ok(a)
            && ExpectEndOfPackageSpec(input, source, ParseAssignRestSpec(input, source, f.result.value.content, f.src).src).result == Ok(()))
  {
  }

  /** After a name other than `var`, a statement is an assignment exactly
      when `=` follows; the `=` is pushed back and read again. */
  lemma StatementVarSet(input: seq<byte>, source: string, init: Token, s: Src, a: VarAssign)
    requires Fits(input, s) && init.content != "var"
    ensures var p := StatementSpec(input, source, init, s);
      var d := Fetch(input, s);
      var stored := Src(d.src.lex, if d.result.Ok? then Some(d.result.value) else None);
      (p.result == Ok(VarSet(a)) && ExpectEndOfPackageSpec(input, source, p.src).result == Ok(()))
      <==> (d.result == Ok(Token(TokenType.Operator, "="))
            && ParseAssignRestSpec(input, source, init.content, stored).result == Ok(a)
            && ExpectEndOfPackageSpec(input, source, ParseAssignRestSpec(input, source, init.content, stored).src).result == Ok(()))
  {
    var d := Fetch(input, s);
    if d.result.Ok? && d.result.value.tokenType == TokenType.Operator && d.result.value.content == "=" {
      var c := d.result.value.content;
      assert c[0] == '=' && c != "(";
    }
  }

  /** A declaration is exactly `var`, a name other than `var`, `=`, a
      one-token expression and the end of the statement. */
  lemma VarDeclTokens(input: seq<byte>, source: string, s: Src, name: string, e: Expr)
    requires Fits(input, s)
    ensures NextPackageSpec(input, source, s).result == Ok(Some(ParsedPackage(source, VarDecl(VarAssign(name, e)))))
      <==> (FetchAt(input, s, 0).result == Ok(Token(TokenType.Identifier, "var"))
            && FetchAt(input, s, 1).result == Ok(Token(TokenType.Identifier, name)) && name != "var"
            && FetchAt(input, s, 2).result == Ok(Token(TokenType.Operator, "="))
            && ExprEnds(input, FetchAt(input, s, 2).src, e))
  {
    var a := VarAssign(name, e);
    var f0 := Fetch(input, s);
    var f1 := Fetch(input, f0.src);
    assert FetchAt(input, s, 0) == f0 && FetchAt(input, s, 1) == f1;
    assert FetchAt(input, s, 2) == Fetch(input, f1.src);
    NextPackageOk(input, source, s, VarDecl(a));
    if f0.result.Ok? && f0.result.value.tokenType == TokenType.Identifier && f0.result.value.content == "var" {
      StatementVarDecl(input, source, f0.result.value, f0.src, a);
      VarAssignNamed(input, source, f0.src, a);
      if f1.result.Ok? && f1.result.value.tokenType == TokenType.Identifier && f1.result.value.content != "var" {
        AssignRestThenEnd(input, source, f1.result.value.content, f1.src, a);
      }
    }
  }

  /** An assignment is exactly a name other than `var`, `=`, a one-token
      expression and the end of the statement. */
  lemma VarSetTokens(input: seq<byte>, source: string, s: Src, name: string, e: Expr)
    requires Fits(input, s)
    ensures NextPackageSpec(input, source, s).result == Ok(Some(ParsedPackage(source, VarSet(VarAssign(name, e)))))
      <==> (FetchAt(input, s, 0).result == Ok(Token(TokenType.Identifier, name)) && name != "var"
            && FetchAt(input, s, 1).result == Ok(Token(TokenType.Operator, "="))
            && ExprEnds(input, FetchAt(input, s, 1).src, e))
  {
    var a := VarAssign(name, e);
    var f0 := Fetch(input, s);
    var f1 := Fetch(input, f0.src);
    assert FetchAt(input, s, 0) == f0 && FetchAt(input, s, 1) == f1;
    NextPackageOk(input, source, s, VarSet(a));
    if f0.result.Ok? && f0.result.value.tokenType == TokenType.Identifier && f0.result.value.content != "var" {
      StatementVarSet(input, source, f0.result.value, f0.src, a);
      if f1.result == Ok(Token(TokenType.Operator, "=")) {
        var stored := Src(f1.src.lex, Some(f1.result.value));
        StoreThenFetch(input, f1.src, f1.result.value);
        AssignRestThenEnd(input, source, f0.result.value.content, stored, a);
      }
    }
  }

  /** A statement that fails fails its package with the same error. */
  lemma NextPackageStatementErr(input: seq<byte>, source: string, s: Src, init: Token, rest: Src, e: ParserError)
    requires Fits(input, s) && Fits(input, rest)
    requires Fetch(input, s) == Fetched(Ok(init), rest) && init.tokenType == TokenType.Identifier
    requires StatementSpec(input, source, init, rest).result == Err(e)
    ensures NextPackageSpec(input, source, s).result == Err(e)
  {
  }

  /** After a name other than `var`, `(` aborts. */
  lemma StatementCallPanics(input: seq<byte>, source: string, init: Token, s: Src)
    requires Fits(input, s) && init.content != "var"
    requires Fetch(input, s).result == Ok(Token(TokenType.Operator, "("))
    ensures StatementSpec(input, source, init, s).result == Err(Panicked)
  {
    var c := Fetch(input, s).result.value.content;
    assert c[0] == '(';
  }

  /** After a name other than `var`, a token other than `(` and `=` is
      rejected. */
  lemma StatementOtherRejected(input: seq<byte>, source: string, init: Token, s: Src, t: Token)
    requires Fits(input, s) && init.content != "var"
    requires Fetch(input, s).result == Ok(t)
    requires t.tokenType != TokenType.Operator || (t.content != "(" && t.content != "=")
    ensures StatementSpec(input, source, init, s).result == Err(UnexpectedToken(t, source))
  {
    if t.tokenType == TokenType.Operator {
      StoreThenFetch(input, Fetch(input, s).src, t);
    }
  }

  /** A statement starting with a call aborts: `parse_func_call` is not
      written. */
  lemma CallStatementPanics(input: seq<byte>, source: string, s: Src, name: Token, rest: Src)
    requires Fits(input, s) && Fits(input, rest)
    requires Fetch(input, s) == Fetched(Ok(name), rest)
    requires name.tokenType == TokenType.Identifier && name.content != "var"
    requires Fetch(input, rest).result == Ok(Token(TokenType.Operator, "("))
    ensures NextPackageSpec(input, source, s).result == Err(Panicked)
  {
    StatementCallPanics(input, source, name, rest);
    NextPackageStatementErr(input, source, s, name, rest, Panicked);
  }

  /** After a name other than `var`, any token but `(` and `=` is rejected,
      and that token is the one reported. */
  lemma StatementNeedsCallOrAssign(input: seq<byte>, source: string, s: Src, name: Token, rest: Src, t: Token)
    requires Fits(input, s) && Fits(input, rest)
    requires Fetch(input, s) == Fetched(Ok(name), rest)
    requires name.tokenType == TokenType.Identifier && name.content != "var"
    requires Fetch(input, rest).result == Ok(t)
    requires t.tokenType != TokenType.Operator || (t.content != "(" && t.content != "=")
    ensures NextPackageSpec(input, source, s).result == Err(UnexpectedToken(t, source))
  {
    StatementOtherRejected(input, source, name, rest, t);
    NextPackageStatementErr(input, source, s, name, rest, UnexpectedToken(t, source));
  }

  // ---------------------------------------------------------------------
  // The parser object

  class Parser {
    const lexer: Lexer
    const source: string
    var storedToken: Option<Token>

    predicate Valid()
      reads this, lexer
    {
      lexer.Valid()
    }

    /** The token source this parser reads from. */
    function Source(): Src
      reads this, lexer
    {
      Src(lexer.State(), storedToken)
    }

    /** `Parser::new`: nothing stored. */
    constructor (lexer: Lexer, source: string)
      requires lexer.Valid()
      ensures this.lexer == lexer && this.source == source
      ensures storedToken.None? && Valid()
    {
      this.lexer := lexer;
      this.source := source;
      storedToken := None;
    }

    /** `store_token`: the slot must be empty. */
    method StoreToken(tk: Token)
      requires storedToken.None?
      modifies this
      ensures storedToken == Some(tk)
    {
      storedToken := Some(tk);
    }

    /** `next_token`. */
    method NextToken() returns (r: Result<Token, Error>)
      requires Valid()
      modifies this, lexer
      ensures Valid()
      ensures Fetched(r, Source()) == Fetch(lexer.input, old(Source()))
    {
      if storedToken.Some? {
        r := Ok(storedToken.value);
        storedToken := None;
        return;
      }
      r := lexer.NextToken();
    }

    /** `expect_end_of_package`. */
    method ExpectEndOfPackage() returns (r: Result<(), ParserError>)
      requires Valid()
      modifies this, lexer
      ensures Valid()
      ensures Parsed(r, Source()) == ExpectEndOfPackageSpec(lexer.input, source, old(Source()))
    {
      var tk := NextToken();
      if tk.Err? {
        if tk.error == EndOfFile {
          return Ok(());
        }
        return Err(LexerError(tk.error));
      }
      if IsTerminator(tk.value) {
        return Ok(());
      }
      return Err(UnexpectedToken(tk.value, source));
    }

    /** `parse_func_call`: `todo!()`. */
    method ParseFuncCall(funcIdentifier: Option<string>) returns (r: Result<FuncCallExpr, ParserError>)
      ensures r == Err(Panicked)
    {
      return Err(Panicked);
    }

    /** `parse_branch_identifier_expr`. */
    method ParseBranchIdentifierExpr(identifier: Token) returns (r: Result<Expr, ParserError>)
      requires Valid()
      modifies this, lexer
      ensures Valid()
      ensures Parsed(r, Source()) == ParseBranchIdentifierExprSpec(lexer.input, source, identifier, old(Source()))
    {
      var tk := NextToken();
      var e := IsEndOfPackage(tk);
      if e.Err? {
        return Err(e.error);
      }
      var (atEnd, next) := e.value;
      if atEnd {
        if next.Some? {
          StoreToken(next.value);
        }
        return Ok(Expr.Identifier(identifier.content));
      }
      var nextTk := next.value;
      if nextTk.tokenType == TokenType.Operator && nextTk.content == "(" {
        var call := ParseFuncCall(Some(nextTk.content));
        return Err(call.error);
      }
      return Err(UnexpectedToken(nextTk, source));
    }

    /** `parse_expr`. */
    method ParseExpr() returns (r: Result<Expr, ParserError>)
      requires Valid()
      modifies this, lexer
      ensures Valid()
      ensures Parsed(r, Source()) == ParseExprSpec(lexer.input, source, old(Source()))
    {
      var start := NextToken();
      if start.Err? {
        return Err(LexerError(start.error));
      }
      var t := start.value;
      match t.tokenType
      case IntegerLiteral =>
        var v := ParseI64(t.content);
        if v.Err? {
          return Err(IntegerParsing(t.content, Some(v.error)));
        }
        return Ok(IntLiteral(v.value));
      case StringLiteral =>
        return Ok(Expr.StringLiteral(t.content));
      case Identifier =>
        r := ParseBranchIdentifierExpr(t);
      case _ =>
        return Err(UnexpectedToken(t, source));
    }

    /** `parse_var_assign`. */
    method ParseVarAssign(name: Option<string>) returns (r: Result<VarAssign, ParserError>)
      requires Valid()
      modifies this, lexer
      ensures Valid()
      ensures Parsed(r, Source()) == ParseVarAssignSpec(lexer.input, source, name, old(Source()))
    {
      var varName: string;
      if name.Some? {
        varName := name.value;
      } else {
        var nameTk := NextToken();
        if nameTk.Err? {
          return Err(LexerError(nameTk.error));
        }
        if nameTk.value.tokenType != TokenType.Identifier || nameTk.value.content == "var" {
          return Err(UnexpectedToken(nameTk.value, source));
        }
        varName := nameTk.value.content;
      }
      ghost var afterName := Source();
      var assignTk := NextToken();
      if assignTk.Err? {
        return Err(LexerError(assignTk.error));
      }
      var x := ExpectToken(source, assignTk.value, TokenType.Operator, "=");
      if x.Err? {
        return Err(x.error);
      }
      var val := ParseExpr();
      if val.Err? {
        return Err(val.error);
      }
      assert Parsed(Ok(VarAssign(varName, val.value)), Source())
          == ParseAssignRestSpec(lexer.input, source, varName, afterName);
      return Ok(VarAssign(varName, val.value));
    }

    /** `next_package`. */
    method NextPackage() returns (r: Result<Option<ParsedPackage>, ParserError>)
      requires Valid()
      modifies this, lexer
      ensures Valid()
      ensures Parsed(r, Source()) == NextPackageSpec(lexer.input, source, old(Source()))
    {
      var initToken := NextToken();
      if initToken.Err? {
        if initToken.error == EndOfFile {
          return Ok(None);
        }
        return Err(LexerError(initToken.error));
      }
      var init := initToken.value;
      if init.tokenType != TokenType.Identifier {
        return Err(UnexpectedToken(init, source));
      }
      ghost var afterInit := Source();
      var highLevel: ParsedHighLevel;
      if init.content == "var" {
        var a := ParseVarAssign(None);
        if a.Err? {
          return Err(a.error);
        }
        highLevel := VarDecl(a.value);
      } else {
        var discr := NextToken();
        if discr.Err? {
          return Err(LexerError(discr.error));
        }
        var discrTk := discr.value;
        if discrTk.tokenType != TokenType.Operator {
          return Err(UnexpectedToken(discrTk, source));
        }
        StoreToken(discrTk);
        if discrTk.content == "(" {
          var call := ParseFuncCall(Some(init.content));
          return Err(call.error);
        } else if discrTk.content == "=" {
          var a := ParseVarAssign(Some(init.content));
          if a.Err? {
            return Err(a.error);
          }
          highLevel := VarSet(a.value);
        } else {
          var tk := NextToken();
          return Err(Unexpected(source, tk));
        }
      }
      assert Parsed(Ok(highLevel), Source()) == StatementSpec(lexer.input, source, init, afterInit);
      var end := ExpectEndOfPackage();
      if end.Err? {
        return Err(end.error);
      }
      return Ok(Some(ParsedPackage(source, highLevel)));
    }
  }
}
