/** The second generation's current parser (src/parser/mod.rs): a
    recursive-descent parser that reads the lexer through a cursor with a
    current token, a one-token lookahead filled by `peek_token`, and a flag
    `retain_last_token` that makes the next advance deliver the current
    token again.

    As for the other parsers, each routine is first a function of the
    cursor, returning its result with the cursor it leaves behind; the class
    `Parser` runs the same steps on mutable fields, and each of its methods
    is proved equal to its function. */
module CursorParser {
  import opened Wrappers
  import opened Decimal
  import opened Tokens
  import opened Ast
  import opened ParserErrors
  import LegacyParser

  /** What a parser reads: the lexer's results and the source text each
      package records. */
  datatype Input = Input(tokens: TokenStream, source: string)

  /** The cursor: how many lexer results have been read, `current_token`,
      `lookahead_token` and `retain_last_token`. */
  datatype Cur = Cur(pos: nat, current: Option<Token>, lookahead: Option<Token>, retain: bool)

  predicate Fits(input: Input, c: Cur) {
    c.pos <= |input.tokens|
  }

  /** Tokens the cursor can still deliver: unread results, the lookahead,
      and the current token when it is retained. */
  function Pend(input: Input, c: Cur): nat
    requires Fits(input, c)
  {
    |input.tokens| - c.pos + (if c.lookahead.Some? then 1 else 0) + (if c.retain then 1 else 0)
  }

  /** A cursor that holds nothing back: its next token is the lexer's next
      result. */
  predicate Clean(c: Cur) {
    c.lookahead.None? && !c.retain
  }

  datatype Parsed<T> = Parsed(result: Result<T, ParserError>, cur: Cur)

  // ---------------------------------------------------------------------
  // The cursor

  /** `read_token`: the lexer's next result; the end of the input is
      `None`, any other lexer error is passed on. */
  function ReadTokenSpec(input: Input, c: Cur): (p: Parsed<Option<Token>>)
    requires Fits(input, c)
    ensures Fits(input, p.cur) && p.cur == c.(pos := NextPos(input.tokens, c.pos))
    ensures p.result == Ok(None) <==> LexAt(input.tokens, c.pos) == Err(EndOfFile)
    ensures p.result.Err? <==> LexAt(input.tokens, c.pos).Err? && LexAt(input.tokens, c.pos) != Err(EndOfFile)
    ensures p.result.Err? ==> p.result.error == Lexer(LexAt(input.tokens, c.pos).error)
    ensures p.result.Ok? && p.result.value.Some? ==> LexAt(input.tokens, c.pos) == Ok(p.result.value.value)
  {
    var result := LexAt(input.tokens, c.pos);
    var next := c.(pos := NextPos(input.tokens, c.pos));
    if result == Err(EndOfFile) then Parsed(Ok(None), next)
    else if result.Err? then Parsed(Err(Lexer(result.error)), next)
    else Parsed(Ok(Some(result.value)), next)
  }

  /** `peek_token`: the lookahead if there is one, else the lexer's next
      result, kept as the lookahead. */
  function PeekSpec(input: Input, c: Cur): (p: Parsed<Option<Token>>)
    requires Fits(input, c)
    ensures Fits(input, p.cur) && Pend(input, p.cur) <= Pend(input, c)
    ensures p.cur.current == c.current && p.cur.retain == c.retain
    ensures p.result.Ok? ==> p.cur.lookahead == p.result.value
    ensures p.result.Ok? && p.result.value.Some? ==> Pend(input, p.cur) == Pend(input, c)
    ensures c.lookahead.Some? ==> p == Parsed(Ok(c.lookahead), c)
  {
    if c.lookahead.Some? then Parsed(Ok(c.lookahead), c)
    else
      var r := ReadTokenSpec(input, c);
      if r.result.Err? then Parsed(Err(r.result.error), r.cur)
      else Parsed(Ok(r.result.value), r.cur.(lookahead := r.result.value))
  }

  /** `retain_token`. */
  function Retain(c: Cur): (r: Cur)
    ensures r.retain && r.pos == c.pos && r.current == c.current && r.lookahead == c.lookahead
  {
    c.(retain := true)
  }

  /** `advance_token`: a retained token stays current and only the flag is
      cleared; otherwise the lookahead, or else the lexer's next result,
      becomes current (`None` at the end of the input). */
  function AdvanceSpec(input: Input, c: Cur): (p: Parsed<()>)
    requires Fits(input, c)
    ensures Fits(input, p.cur) && Pend(input, p.cur) <= Pend(input, c)
    ensures p.result.Ok? ==> !p.cur.retain
    ensures p.result.Err? || p.cur.current.Some? ==> Pend(input, p.cur) < Pend(input, c)
    ensures c.retain || c.lookahead.Some? ==> p.result.Ok? && Pend(input, p.cur) < Pend(input, c)
  {
    if c.retain then Parsed(Ok(()), c.(retain := false))
    else if c.lookahead.Some? then Parsed(Ok(()), c.(current := c.lookahead, lookahead := None))
    else
      var r := ReadTokenSpec(input, c);
      if r.result.Err? then Parsed(Err(r.result.error), r.cur)
      else Parsed(Ok(()), r.cur.(current := r.result.value))
  }

  /** `peek_or_fail`: the end of the input is an error. */
  function PeekOrFailSpec(input: Input, c: Cur): (p: Parsed<Token>)
    requires Fits(input, c)
    ensures Fits(input, p.cur) && Pend(input, p.cur) <= Pend(input, c)
    ensures p.cur.current == c.current && p.cur.retain == c.retain
    ensures p.result.Ok? ==> p.cur.lookahead == Some(p.result.value)
    ensures p.result.Ok? ==> Pend(input, p.cur) == Pend(input, c)
  {
    var k := PeekSpec(input, c);
    if k.result.Err? then Parsed(Err(k.result.error), k.cur)
    else if k.result.value.None? then Parsed(Err(UnexpectedEndOfFile), k.cur)
    else Parsed(Ok(k.result.value.value), k.cur)
  }

  /** `next_or_fail`: advance and return the current token; the end of the
      input is an error. */
  function NextOrFailSpec(input: Input, c: Cur): (p: Parsed<Token>)
    requires Fits(input, c)
    ensures Fits(input, p.cur) && Pend(input, p.cur) <= Pend(input, c)
    ensures p.result.Ok? ==> Pend(input, p.cur) < Pend(input, c)
    ensures p.result.Ok? ==> p.cur.current == Some(p.result.value) && !p.cur.retain
  {
    var a := AdvanceSpec(input, c);
    if a.result.Err? then Parsed(Err(a.result.error), a.cur)
    else if a.cur.current.None? then Parsed(Err(UnexpectedEndOfFile), a.cur)
    else Parsed(Ok(a.cur.current.value), a.cur)
  }

  // ---------------------------------------------------------------------
  // Token checks

  /** `expect_token_type`: the error names the expected kind as `Debug`
      prints it. */
  function ExpectTokenType(tk: Token, ty: TokenType): (r: Result<(), ParserError>)
    ensures r.Ok? <==> tk.tokenType == ty
    ensures r.Err? ==> r.error == UnexpectedToken(tk, Some(KindName(ty)))
  {
    if tk.tokenType != ty then Err(UnexpectedToken(tk, Some(KindName(ty)))) else Ok(())
  }

  /** `expect_token_content`: the error names the expected text. */
  function ExpectTokenContent(tk: Token, content: string): (r: Result<(), ParserError>)
    ensures r.Ok? <==> tk.content == content
    ensures r.Err? ==> r.error == UnexpectedToken(tk, Some(content))
  {
    if tk.content != content then Err(UnexpectedToken(tk, Some(content))) else Ok(())
  }

  /** `expect_token`: `Result::and` of both checks, so a wrong kind is the
      error reported even when the text is wrong too. */
  function ExpectToken(tk: Token, ty: TokenType, content: string): (r: Result<(), ParserError>)
    ensures r.Ok? <==> tk.tokenType == ty && tk.content == content
    ensures r.Err? && tk.tokenType != ty ==> r.error == UnexpectedToken(tk, Some(KindName(ty)))
    ensures r.Err? && tk.tokenType == ty ==> r.error == UnexpectedToken(tk, Some(content))
  {
    var byType := ExpectTokenType(tk, ty);
    var byContent := ExpectTokenContent(tk, content);
    if byType.Err? then byType else byContent
  }

  /** The operator token `op`. */
  predicate IsOp(tk: Token, op: string) {
    tk.tokenType == Operator && tk.content == op
  }

  /** The check on the first token of a statement: an identifier, a
      keyword, or else `expect_token(Operator, ";")`, whose error is the one
      reported. */
  function CheckFirst(tk: Token): (r: Result<(), ParserError>)
    ensures r.Ok? <==> tk.tokenType == TokenType.Identifier || tk.tokenType == Keyword || IsOp(tk, ";")
  {
    var ident := ExpectTokenType(tk, TokenType.Identifier);
    var keyword := ExpectTokenType(tk, Keyword);
    if ident.Ok? then ident else if keyword.Ok? then keyword else ExpectToken(tk, Operator, ";")
  }

  /** The error of an unknown keyword: `current_token`, the token before
      the keyword, unwrapped; with no token before it the program aborts. */
  function UnknownKeyword(c: Cur): (e: ParserError) {
    if c.current.Some? then UnexpectedToken(c.current.value, Some("statement or function declaration"))
    else Panicked
  }

  // ---------------------------------------------------------------------
  // The grammar, as functions of the cursor

  /** `next_package`: `Ok(None)` when the peek finds the end of the input,
      otherwise the statement its first token starts. */
  function NextPackageSpec(input: Input, c: Cur): (p: Parsed<Option<ParsedPackage>>)
    requires Fits(input, c)
    ensures Fits(input, p.cur) && Pend(input, p.cur) <= Pend(input, c)
    ensures p.result.Ok? && p.result.value.Some? ==> Pend(input, p.cur) < Pend(input, c)
    ensures p.result.Ok? && p.result.value.Some? ==> p.result.value.value.source == input.source
    decreases Pend(input, c), 9
  {
    var k := PeekSpec(input, c);
    if k.result.Err? then Parsed(Err(k.result.error), k.cur)
    else if k.result.value.None? then Parsed(Ok(None), k.cur)
    else
      var h := HighLevelSpec(input, k.result.value.value, k.cur);
      if h.result.Err? then Parsed(Err(h.result.error), h.cur)
      else Parsed(Ok(Some(ParsedPackage(input.source, h.result.value))), h.cur)
  }

  /** The statement `next_package` builds from its peeked first token
      `token`: a keyword starts a declaration, a function or an `if`; `;`
      is an empty statement; an identifier starts a call or an
      assignment. */
  function HighLevelSpec(input: Input, token: Token, c: Cur): (p: Parsed<ParsedHighLevel>)
    requires Fits(input, c) && c.lookahead == Some(token)
    ensures Fits(input, p.cur) && Pend(input, p.cur) <= Pend(input, c)
    ensures p.result.Ok? ==> Pend(input, p.cur) < Pend(input, c)
    ensures p.result.Ok? ==> (p.result.value.Noop? <==> IsOp(token, ";"))
    ensures p.result.Ok? ==> (p.result.value.FuncCall? || p.result.value.VarSet? <==> token.tokenType == TokenType.Identifier)
    ensures p.result.Ok? ==> (p.result.value.VarDecl? || p.result.value.FuncDecl? || p.result.value.If? <==> token.tokenType == Keyword)
    ensures p.result.Ok? && p.result.value.FuncCall? ==> p.result.value.call.name == token.content
    decreases Pend(input, c), 8
  {
    var x := CheckFirst(token);
    if x.Err? then Parsed(Err(x.error), c)
    else if token.tokenType == Keyword then KeywordStatementSpec(input, token, c)
    else if token.tokenType == Operator then
      var a := AdvanceSpec(input, c);
      Parsed(Ok(Noop), a.cur)
    else IdentStatementSpec(input, token, c)
  }

  /** The keyword branch of `next_package`: `let`, `fn` and `if`, each
      parsed from the keyword on. */
  function KeywordStatementSpec(input: Input, token: Token, c: Cur): (p: Parsed<ParsedHighLevel>)
    requires Fits(input, c) && c.lookahead == Some(token)
    ensures Fits(input, p.cur) && Pend(input, p.cur) <= Pend(input, c)
    ensures p.result.Ok? ==> Pend(input, p.cur) < Pend(input, c)
    ensures p.result.Ok? ==> (p.result.value.VarDecl? <==> token.content == "let")
    ensures p.result.Ok? ==> (p.result.value.FuncDecl? <==> token.content == "fn")
    ensures p.result.Ok? ==> (p.result.value.If? <==> token.content == "if")
    ensures p.result.Ok? ==> p.result.value.VarDecl? || p.result.value.FuncDecl? || p.result.value.If?
    decreases Pend(input, c), 7
  {
    if token.content == "let" then
      var v := VarDeclOrAssignSpec(input, c);
      if v.result.Err? then Parsed(Err(v.result.error), v.cur)
      else Parsed(Ok(VarDecl(v.result.value)), v.cur)
    else if token.content == "fn" then
      var d := FuncDeclSpec(input, c);
      if d.result.Err? then Parsed(Err(d.result.error), d.cur)
      else Parsed(Ok(ParsedHighLevel.FuncDecl(d.result.value)), d.cur)
    else if token.content == "if" then
      var i := IfStatementSpec(input, c);
      if i.result.Err? then Parsed(Err(i.result.error), i.cur)
      else Parsed(Ok(If(i.result.value)), i.cur)
    else Parsed(Err(UnknownKeyword(c)), c)
  }

  /** The identifier branch of `next_package`: the identifier is consumed
      and the next token peeked; `(` starts a call ended by `;`, and `=`
      retains the identifier so that the assignment reads it again. */
  function IdentStatementSpec(input: Input, token: Token, c: Cur): (p: Parsed<ParsedHighLevel>)
    requires Fits(input, c) && c.lookahead.Some?
    ensures Fits(input, p.cur) && Pend(input, p.cur) <= Pend(input, c)
    ensures p.result.Ok? ==> Pend(input, p.cur) < Pend(input, c)
    ensures p.result.Ok? ==> p.result.value.FuncCall? || p.result.value.VarSet?
    ensures p.result.Ok? && p.result.value.FuncCall? ==> p.result.value.call.name == token.content
    decreases Pend(input, c), 6
  {
    var a := AdvanceSpec(input, c);
    var d := PeekOrFailSpec(input, a.cur);
    if d.result.Err? then Parsed(Err(d.result.error), d.cur)
    else
      var disc := d.result.value;
      var x := ExpectTokenType(disc, Operator);
      if x.Err? then Parsed(Err(x.error), d.cur)
      else if disc.content == "(" then
        var b := AdvanceSpec(input, d.cur);
        var l := ExprListSpec(input, ")", b.cur);
        if l.result.Err? then Parsed(Err(l.result.error), l.cur)
        else
          var e := NextOrFailSpec(input, l.cur);
          if e.result.Err? then Parsed(Err(e.result.error), e.cur)
          else
            var y := ExpectToken(e.result.value, Operator, ";");
            if y.Err? then Parsed(Err(y.error), e.cur)
            else Parsed(Ok(ParsedHighLevel.FuncCall(FuncCallExpr(token.content, l.result.value))), e.cur)
      else if disc.content == "=" then
        var v := VarDeclOrAssignSpec(input, Retain(d.cur));
        if v.result.Err? then Parsed(Err(v.result.error), v.cur)
        else Parsed(Ok(VarSet(v.result.value)), v.cur)
      else Parsed(Err(UnexpectedToken(disc, Some("( or ="))), d.cur)
  }

  /** `parse_var_decl_or_assign`: an optional `let`, an identifier, `=`, an
      expression and `;`. */
  function VarDeclOrAssignSpec(input: Input, c: Cur): (p: Parsed<VarAssign>)
    requires Fits(input, c)
    ensures Fits(input, p.cur) && Pend(input, p.cur) <= Pend(input, c)
    ensures p.result.Ok? ==> Pend(input, p.cur) < Pend(input, c)
    decreases Pend(input, c), 5
  {
    var n := NextOrFailSpec(input, c);
    if n.result.Err? then Parsed(Err(n.result.error), n.cur)
    else
      var m := if n.result.value.content == "let" then NextOrFailSpec(input, n.cur) else n;
      if m.result.Err? then Parsed(Err(m.result.error), m.cur)
      else
        var name := m.result.value;
        var x := ExpectTokenType(name, TokenType.Identifier);
        if x.Err? then Parsed(Err(x.error), m.cur)
        else AssignRestSpec(input, name.content, m.cur)
  }

  /** `parse_var_decl_or_assign` once the name is read: `=`, an expression
      and `;`. */
  function AssignRestSpec(input: Input, name: string, c: Cur): (p: Parsed<VarAssign>)
    requires Fits(input, c)
    ensures Fits(input, p.cur) && Pend(input, p.cur) <= Pend(input, c)
    ensures p.result.Ok? ==> Pend(input, p.cur) < Pend(input, c)
    ensures p.result.Ok? ==> p.result.value.name == name
    decreases Pend(input, c), 4
  {
    var a := NextOrFailSpec(input, c);
    if a.result.Err? then Parsed(Err(a.result.error), a.cur)
    else
      var x := ExpectToken(a.result.value, Operator, "=");
      if x.Err? then Parsed(Err(x.error), a.cur)
      else
        var v := ExprSpec(input, a.cur);
        if v.result.Err? then Parsed(Err(v.result.error), v.cur)
        else
          var e := NextOrFailSpec(input, v.cur);
          if e.result.Err? then Parsed(Err(e.result.error), e.cur)
          else
            var y := ExpectToken(e.result.value, Operator, ";");
            if y.Err? then Parsed(Err(y.error), e.cur)
            else Parsed(Ok(VarAssign(name, v.result.value)), e.cur)
  }

  /** `parse_func_decl`: `fn`, a name, `(`, the parameters and a block. */
  function FuncDeclSpec(input: Input, c: Cur): (p: Parsed<Ast.FuncDecl>)
    requires Fits(input, c)
    ensures Fits(input, p.cur) && Pend(input, p.cur) <= Pend(input, c)
    ensures p.result.Ok? ==> Pend(input, p.cur) < Pend(input, c)
    decreases Pend(input, c), 5
  {
    var k := NextOrFailSpec(input, c);
    if k.result.Err? then Parsed(Err(k.result.error), k.cur)
    else
      var x := ExpectToken(k.result.value, Keyword, "fn");
      if x.Err? then Parsed(Err(x.error), k.cur)
      else
        var n := NextOrFailSpec(input, k.cur);
        if n.result.Err? then Parsed(Err(n.result.error), n.cur)
        else
          var y := ExpectTokenType(n.result.value, TokenType.Identifier);
          if y.Err? then Parsed(Err(y.error), n.cur)
          else
            var o := NextOrFailSpec(input, n.cur);
            if o.result.Err? then Parsed(Err(o.result.error), o.cur)
            else
              var z := ExpectToken(o.result.value, Operator, "(");
              if z.Err? then Parsed(Err(z.error), o.cur)
              else
                var a := ArgListSpec(input, ")", o.cur);
                if a.result.Err? then Parsed(Err(a.result.error), a.cur)
                else
                  var b := BlockSpec(input, a.cur);
                  if b.result.Err? then Parsed(Err(b.result.error), b.cur)
                  else Parsed(Ok(Ast.FuncDecl.FuncDecl(n.result.value.content, a.result.value, b.result.value)), b.cur)
  }

  /** `parse_if_statement`: `if`, a condition and a block. */
  function IfStatementSpec(input: Input, c: Cur): (p: Parsed<IfStatement>)
    requires Fits(input, c)
    ensures Fits(input, p.cur) && Pend(input, p.cur) <= Pend(input, c)
    ensures p.result.Ok? ==> Pend(input, p.cur) < Pend(input, c)
    decreases Pend(input, c), 5
  {
    var k := NextOrFailSpec(input, c);
    if k.result.Err? then Parsed(Err(k.result.error), k.cur)
    else
      var x := ExpectToken(k.result.value, Keyword, "if");
      if x.Err? then Parsed(Err(x.error), k.cur)
      else
        var v := ExprSpec(input, k.cur);
        if v.result.Err? then Parsed(Err(v.result.error), v.cur)
        else
          var b := BlockSpec(input, v.cur);
          if b.result.Err? then Parsed(Err(b.result.error), b.cur)
          else Parsed(Ok(IfStatement(v.result.value, b.result.value)), b.cur)
  }

  /** `parse_expr` on a token that is not an identifier, once consumed: a
      literal, an array after `[`, or an error. */
  function LiteralExprSpec(input: Input, t: Token, c: Cur): (p: Parsed<Expr>)
    requires Fits(input, c)
    ensures Fits(input, p.cur) && Pend(input, p.cur) <= Pend(input, c)
    ensures !IsOp(t, "[") ==> p.cur == c
    decreases Pend(input, c), 6
  {
    match t.tokenType
    case IntegerLiteral =>
      (match ParseI64(t.content)
       case Ok(v) => Parsed(Ok(IntLiteral(v)), c)
       case Err(err) => Parsed(Err(FromParseIntError(t.content, err)), c))
    case StringLiteral => Parsed(Ok(Expr.StringLiteral(t.content)), c)
    case BoolLiteral =>
      (match LegacyParser.ParseBool(t.content)
       case Some(b) => Parsed(Ok(Expr.BoolLiteral(b)), c)
       case None => Parsed(Err(Panicked), c))
    case Operator =>
      if t.content == "[" then ArraySpec(input, c)
      else Parsed(Err(UnexpectedToken(t, Some("expression"))), c)
    case _ => Parsed(Err(UnexpectedToken(t, Some("expression"))), c)
  }

  /** `parse_expr`: an identifier is left for `parse_branch_identifier_expr`
      to read; any other token is consumed and read as a literal or `[`. */
  function ExprSpec(input: Input, c: Cur): (p: Parsed<Expr>)
    requires Fits(input, c)
    ensures Fits(input, p.cur) && Pend(input, p.cur) <= Pend(input, c)
    ensures p.result.Ok? ==> Pend(input, p.cur) < Pend(input, c)
    decreases Pend(input, c), 2
  {
    var k := PeekOrFailSpec(input, c);
    if k.result.Err? then Parsed(Err(k.result.error), k.cur)
    else if k.result.value.tokenType == TokenType.Identifier then BranchIdentifierExprSpec(input, k.cur)
    else
      var n := NextOrFailSpec(input, k.cur);
      if n.result.Err? then Parsed(Err(n.result.error), n.cur)
      else LiteralExprSpec(input, n.result.value, n.cur)
  }

  /** `parse_branch_identifier_expr`: the identifier, then a peek; `(` (of
      any kind) makes a call of the arguments up to `)`, anything else
      leaves the identifier alone and the peeked token unread. */
  function BranchIdentifierExprSpec(input: Input, c: Cur): (p: Parsed<Expr>)
    requires Fits(input, c)
    ensures Fits(input, p.cur) && Pend(input, p.cur) <= Pend(input, c)
    ensures p.result.Ok? ==> Pend(input, p.cur) < Pend(input, c)
    ensures p.result.Ok? ==> p.result.value.Identifier? || p.result.value.FuncCall?
    decreases Pend(input, c), 1
  {
    var n := NextOrFailSpec(input, c);
    if n.result.Err? then Parsed(Err(n.result.error), n.cur)
    else
      var identifier := n.result.value;
      var k := PeekOrFailSpec(input, n.cur);
      if k.result.Err? then Parsed(Err(k.result.error), k.cur)
      else if k.result.value.content == "(" then
        var a := AdvanceSpec(input, k.cur);
        var l := ExprListSpec(input, ")", a.cur);
        if l.result.Err? then Parsed(Err(l.result.error), l.cur)
        else Parsed(Ok(Expr.FuncCall(FuncCallExpr(identifier.content, l.result.value))), l.cur)
      else Parsed(Ok(Expr.Identifier(identifier.content)), k.cur)
  }

  /** `parse_array`: the elements up to `]`. */
  function ArraySpec(input: Input, c: Cur): (p: Parsed<Expr>)
    requires Fits(input, c)
    ensures Fits(input, p.cur) && Pend(input, p.cur) <= Pend(input, c)
    ensures p.result.Ok? ==> p.result.value.Array?
    decreases Pend(input, c), 5
  {
    var l := ExprListSpec(input, "]", c);
    if l.result.Err? then Parsed(Err(l.result.error), l.cur)
    else Parsed(Ok(Array(ArrayExpr(l.result.value))), l.cur)
  }

  /** `parse_expr_list`. */
  function ExprListSpec(input: Input, endOp: string, c: Cur): (p: Parsed<seq<Expr>>)
    requires Fits(input, c)
    ensures Fits(input, p.cur) && Pend(input, p.cur) <= Pend(input, c)
    decreases Pend(input, c), 4
  {
    ExprListLoopSpec(input, endOp, [], c)
  }

  /** The loop of `parse_expr_list` from the expressions `exprs` read so
      far: a peeked `endOp` is consumed and ends the list; otherwise an
      expression, then `endOp` or `,`. */
  function ExprListLoopSpec(input: Input, endOp: string, exprs: seq<Expr>, c: Cur): (p: Parsed<seq<Expr>>)
    requires Fits(input, c)
    ensures Fits(input, p.cur) && Pend(input, p.cur) <= Pend(input, c)
    ensures p.result.Ok? ==> |p.result.value| >= |exprs| && p.result.value[..|exprs|] == exprs
    decreases Pend(input, c), 3
  {
    var k := PeekOrFailSpec(input, c);
    if k.result.Err? then Parsed(Err(k.result.error), k.cur)
    else if IsOp(k.result.value, endOp) then
      var a := AdvanceSpec(input, k.cur);
      Parsed(Ok(exprs), a.cur)
    else
      var e := ExprSpec(input, k.cur);
      if e.result.Err? then Parsed(Err(e.result.error), e.cur)
      else
        var n := NextOrFailSpec(input, e.cur);
        if n.result.Err? then Parsed(Err(n.result.error), n.cur)
        else if IsOp(n.result.value, endOp) then Parsed(Ok(exprs + [e.result.value]), n.cur)
        else
          var x := ExpectToken(n.result.value, Operator, ",");
          if x.Err? then Parsed(Err(x.error), n.cur)
          else
            var q := ExprListLoopSpec(input, endOp, exprs + [e.result.value], n.cur);
            assert q.result.Ok? ==> q.result.value[..|exprs|] == (q.result.value[..|exprs| + 1])[..|exprs|];
            q
  }

  /** `parse_arg_list`. */
  function ArgListSpec(input: Input, endOp: string, c: Cur): (p: Parsed<seq<string>>)
    requires Fits(input, c)
    ensures Fits(input, p.cur) && Pend(input, p.cur) <= Pend(input, c)
    decreases Pend(input, c), 1
  {
    ArgListLoopSpec(input, endOp, [], c)
  }

  /** The loop of `parse_arg_list` from the names `idents` read so far:
      `endOp` ends the list; otherwise an identifier, then `endOp` or
      `,`. */
  function ArgListLoopSpec(input: Input, endOp: string, idents: seq<string>, c: Cur): (p: Parsed<seq<string>>)
    requires Fits(input, c)
    ensures Fits(input, p.cur) && Pend(input, p.cur) <= Pend(input, c)
    decreases Pend(input, c), 0
  {
    var n := NextOrFailSpec(input, c);
    if n.result.Err? then Parsed(Err(n.result.error), n.cur)
    else if IsOp(n.result.value, endOp) then Parsed(Ok(idents), n.cur)
    else
      var x := ExpectTokenType(n.result.value, TokenType.Identifier);
      if x.Err? then Parsed(Err(x.error), n.cur)
      else
        var m := NextOrFailSpec(input, n.cur);
        if m.result.Err? then Parsed(Err(m.result.error), m.cur)
        else if IsOp(m.result.value, endOp) then Parsed(Ok(idents + [n.result.value.content]), m.cur)
        else
          var y := ExpectToken(m.result.value, Operator, ",");
          if y.Err? then Parsed(Err(y.error), m.cur)
          else ArgListLoopSpec(input, endOp, idents + [n.result.value.content], m.cur)
  }

  /** `parse_block`: `{`, then statements up to a peeked `}`, which is
      consumed. */
  function BlockSpec(input: Input, c: Cur): (p: Parsed<StatementBlock>)
    requires Fits(input, c)
    ensures Fits(input, p.cur) && Pend(input, p.cur) <= Pend(input, c)
    decreases Pend(input, c), 0
  {
    var n := NextOrFailSpec(input, c);
    if n.result.Err? then Parsed(Err(n.result.error), n.cur)
    else
      var x := ExpectToken(n.result.value, Operator, "{");
      if x.Err? then Parsed(Err(x.error), n.cur)
      else BlockLoopSpec(input, [], n.cur)
  }

  /** The loop of `parse_block` from the statements read so far. The peek
      has found a token when `next_package` runs, so its `None` (an
      `UnexpectedEndOfFile`) cannot happen. */
  function BlockLoopSpec(input: Input, statements: seq<ParsedPackage>, c: Cur): (p: Parsed<StatementBlock>)
    requires Fits(input, c)
    ensures Fits(input, p.cur) && Pend(input, p.cur) <= Pend(input, c)
    decreases Pend(input, c), 10
  {
    var k := PeekOrFailSpec(input, c);
    if k.result.Err? then Parsed(Err(k.result.error), k.cur)
    else if IsOp(k.result.value, "}") then
      var a := AdvanceSpec(input, k.cur);
      Parsed(Ok(StatementBlock(statements)), a.cur)
    else
      var n := NextPackageSpec(input, k.cur);
      if n.result.Err? then Parsed(Err(n.result.error), n.cur)
      else if n.result.value.None? then Parsed(Err(UnexpectedEndOfFile), n.cur)
      else BlockLoopSpec(input, statements + [n.result.value.value], n.cur)
  }

  // ---------------------------------------------------------------------
  // Properties of the cursor

  /** Peeking twice reads the lexer once: the second peek returns the same
      token and leaves the cursor as the first left it. */
  lemma PeekIdempotent(input: Input, c: Cur)
    requires Fits(input, c)
    ensures var k := PeekSpec(input, c);
      k.result.Ok? && k.result.value.Some? ==> PeekSpec(input, k.cur) == k
  {
  }

  /** The peeked token is the one the next advance makes current, with no
      lexer read, unless a retained token comes first. */
  lemma PeekThenNext(input: Input, c: Cur)
    requires Fits(input, c) && !c.retain
    ensures var k := PeekOrFailSpec(input, c);
      k.result.Ok? ==> NextOrFailSpec(input, k.cur) == Parsed(k.result, k.cur.(current := Some(k.result.value), lookahead := None))
  {
  }

  /** A retained current token is delivered again, and nothing else moves. */
  lemma RetainRedelivers(input: Input, c: Cur, t: Token)
    requires Fits(input, c) && c.current == Some(t)
    ensures NextOrFailSpec(input, Retain(c)) == Parsed(Ok(t), c.(retain := false))
  {
  }

  /** Through a cursor that holds nothing back, the parser reads the
      lexer's results in order: a token, the end of the input as
      `UnexpectedEndOfFile`, or the lexer's own error. */
  lemma CleanNext(input: Input, c: Cur)
    requires Fits(input, c) && Clean(c)
    ensures var n := NextOrFailSpec(input, c);
      && n.cur.pos == NextPos(input.tokens, c.pos) && Clean(n.cur)
      && n.result == (match LexAt(input.tokens, c.pos)
                      case Ok(t) => Ok(t)
                      case Err(EndOfFile) => Err(UnexpectedEndOfFile)
                      case Err(e) => Err(Lexer(e)))
  {
  }

  /** At the end of the input a peek or a read fails with
      `UnexpectedEndOfFile`, and `next_package` finds nothing. */
  lemma Exhausted(input: Input, c: Cur)
    requires Fits(input, c) && Clean(c) && c.pos == |input.tokens|
    ensures PeekOrFailSpec(input, c) == Parsed(Err(UnexpectedEndOfFile), c)
    ensures NextOrFailSpec(input, c) == Parsed(Err(UnexpectedEndOfFile), c.(current := None))
    ensures NextPackageSpec(input, c) == Parsed(Ok(None), c)
  {
  }

  // ---------------------------------------------------------------------
  // Properties of statements

  /** A statement's parse wrapped as a package. */
  function Package(input: Input, h: Parsed<ParsedHighLevel>): (p: Parsed<Option<ParsedPackage>>)
    ensures p.cur == h.cur
    ensures p.result.Ok? <==> h.result.Ok?
  {
    if h.result.Err? then Parsed(Err(h.result.error), h.cur)
    else Parsed(Ok(Some(ParsedPackage(input.source, h.result.value))), h.cur)
  }

  /** A declaration's parse as a statement. */
  function AsDecl(v: Parsed<VarAssign>): (p: Parsed<ParsedHighLevel>)
    ensures p.cur == v.cur && (p.result.Ok? <==> v.result.Ok?)
  {
    if v.result.Ok? then Parsed(Ok(VarDecl(v.result.value)), v.cur) else Parsed(Err(v.result.error), v.cur)
  }

  /** An assignment's parse as a statement. */
  function AsSet(v: Parsed<VarAssign>): (p: Parsed<ParsedHighLevel>)
    ensures p.cur == v.cur && (p.result.Ok? <==> v.result.Ok?)
  {
    if v.result.Ok? then Parsed(Ok(VarSet(v.result.value)), v.cur) else Parsed(Err(v.result.error), v.cur)
  }

  /** `next_package` is its peek followed by the statement the peeked
      token starts. */
  lemma NextPackageStep(input: Input, c: Cur, t: Token)
    requires Fits(input, c) && PeekSpec(input, c).result == Ok(Some(t))
    ensures PeekSpec(input, c).cur.lookahead == Some(t)
    ensures NextPackageSpec(input, c) == Package(input, HighLevelSpec(input, t, PeekSpec(input, c).cur))
  {
  }

  /** `next_package` finds nothing exactly when its peek finds the end of
      the input. */
  lemma NextPackageNone(input: Input, c: Cur)
    requires Fits(input, c)
    ensures NextPackageSpec(input, c).result == Ok(None) <==> PeekSpec(input, c).result == Ok(None)
  {
  }

  /** A first token that is not an identifier, a keyword or `;` is
      rejected with the error of the check for `;`: its kind first, then
      its text. */
  lemma FirstTokenRejected(input: Input, t: Token, c: Cur)
    requires Fits(input, c) && c.lookahead == Some(t)
    requires t.tokenType != TokenType.Identifier && t.tokenType != Keyword && !IsOp(t, ";")
    ensures HighLevelSpec(input, t, c)
      == Parsed(Err(UnexpectedToken(t, Some(if t.tokenType == Operator then ";" else "Operator"))), c)
  {
  }

  /** A keyword other than `let`, `fn` and `if` is reported through the
      token before it, which is only peeked past; with none the program
      aborts. */
  lemma UnknownKeywordReported(input: Input, t: Token, c: Cur)
    requires Fits(input, c) && c.lookahead == Some(t)
    requires t.tokenType == Keyword && t.content != "let" && t.content != "fn" && t.content != "if"
    ensures HighLevelSpec(input, t, c).result
      == Err(if c.current.Some? then UnexpectedToken(c.current.value, Some("statement or function declaration")) else Panicked)
  {
  }

  /** `;` alone is an empty statement, and it is consumed. */
  lemma EmptyStatement(input: Input, t: Token, c: Cur)
    requires Fits(input, c) && !c.retain && c.lookahead == Some(t) && IsOp(t, ";")
    ensures HighLevelSpec(input, t, c) == Parsed(Ok(Noop), c.(current := Some(t), lookahead := None))
  {
  }

  /** A statement that starts with a keyword is the keyword's branch. */
  lemma NextPackageKeyword(input: Input, c: Cur, t: Token)
    requires Fits(input, c) && PeekSpec(input, c).result == Ok(Some(t)) && t.tokenType == Keyword
    ensures PeekSpec(input, c).cur.lookahead == Some(t)
    ensures NextPackageSpec(input, c) == Package(input, KeywordStatementSpec(input, t, PeekSpec(input, c).cur))
  {
    NextPackageStep(input, c, t);
  }

  /** A statement that starts with an identifier is the identifier's
      branch. */
  lemma NextPackageIdentifier(input: Input, c: Cur, t: Token)
    requires Fits(input, c) && PeekSpec(input, c).result == Ok(Some(t)) && t.tokenType == TokenType.Identifier
    ensures PeekSpec(input, c).cur.lookahead == Some(t)
    ensures NextPackageSpec(input, c) == Package(input, IdentStatementSpec(input, t, PeekSpec(input, c).cur))
  {
    NextPackageStep(input, c, t);
    HighLevelIdentifier(input, t, PeekSpec(input, c).cur);
  }

  /** An identifier passes the first-token check and takes the identifier
      branch. */
  lemma HighLevelIdentifier(input: Input, t: Token, c: Cur)
    requires Fits(input, c) && c.lookahead == Some(t) && t.tokenType == TokenType.Identifier
    ensures HighLevelSpec(input, t, c) == IdentStatementSpec(input, t, c)
  {
  }

  /** After an identifier that starts a statement, the next token must be
      an operator, and that operator `(` or `=`. */
  lemma IdentifierFollower(input: Input, ident: Token, c: Cur, disc: Token)
    requires Fits(input, c) && !c.retain && c.lookahead == Some(ident)
    requires LexAt(input.tokens, c.pos) == Ok(disc)
    ensures disc.tokenType != Operator ==>
      IdentStatementSpec(input, ident, c).result == Err(UnexpectedToken(disc, Some("Operator")))
    ensures disc.tokenType == Operator && disc.content != "(" && disc.content != "=" ==>
      IdentStatementSpec(input, ident, c).result == Err(UnexpectedToken(disc, Some("( or =")))
  {
  }

  /** `x = e;`: the identifier is retained and read again as the name, the
      peeked `=` is read next, and the rest is parsed as in a declaration. */
  lemma AssignmentRereadsIdentifier(input: Input, ident: Token, c: Cur, disc: Token)
    requires Fits(input, c) && !c.retain && c.lookahead == Some(ident)
    requires ident.tokenType == TokenType.Identifier && ident.content != "let"
    requires LexAt(input.tokens, c.pos) == Ok(disc) && IsOp(disc, "=")
    ensures IdentStatementSpec(input, ident, c) == AsSet(AssignRestSpec(input, ident.content, Cur(c.pos + 1, Some(ident), Some(disc), false)))
  {
    var d := PeekOrFailSpec(input, AdvanceSpec(input, c).cur);
    assert d == Parsed(Ok(disc), Cur(c.pos + 1, Some(ident), Some(disc), false));
    assert NextOrFailSpec(input, Retain(d.cur)) == Parsed(Ok(ident), d.cur);
  }

  /** `let x = e;`: the keyword and the name are read, and the rest is
      parsed as in an assignment. */
  lemma DeclarationReadsName(input: Input, letTk: Token, c: Cur, name: Token)
    requires Fits(input, c) && !c.retain && c.lookahead == Some(letTk) && letTk.content == "let"
    requires LexAt(input.tokens, c.pos) == Ok(name) && name.tokenType == TokenType.Identifier
    ensures KeywordStatementSpec(input, letTk, c) == AsDecl(AssignRestSpec(input, name.content, Cur(c.pos + 1, Some(name), None, false)))
  {
    var n := NextOrFailSpec(input, c);
    assert n == Parsed(Ok(letTk), Cur(c.pos, Some(letTk), None, false));
    assert NextOrFailSpec(input, n.cur) == Parsed(Ok(name), Cur(c.pos + 1, Some(name), None, false));
    assert VarDeclOrAssignSpec(input, c) == AssignRestSpec(input, name.content, Cur(c.pos + 1, Some(name), None, false));
  }

  // ---------------------------------------------------------------------
  // Properties of lists and blocks

  /** An expression list whose first token is the closing operator is
      empty, and the operator is consumed. */
  lemma ExprListEmpty(input: Input, endOp: string, c: Cur, t: Token)
    requires Fits(input, c) && !c.retain && PeekOrFailSpec(input, c).result == Ok(t) && IsOp(t, endOp)
    ensures ExprListSpec(input, endOp, c) == Parsed(Ok([]), PeekOrFailSpec(input, c).cur.(current := Some(t), lookahead := None))
  {
  }

  /** `parse_expr` peeks before it reads, so a peek before it changes
      nothing. */
  lemma ExprAfterPeek(input: Input, c: Cur)
    requires Fits(input, c)
    ensures var k := PeekOrFailSpec(input, c);
      k.result.Ok? ==> ExprSpec(input, k.cur) == ExprSpec(input, c)
  {
    var k := PeekOrFailSpec(input, c);
    if k.result.Ok? {
      assert PeekOrFailSpec(input, k.cur) == k;
    }
  }

  /** A `,` after the last element is accepted: the closing operator after
      it ends the list. */
  lemma ExprListTrailingComma(input: Input, endOp: string, exprs: seq<Expr>, c: Cur, t: Token,
                              e: Expr, d: Cur, comma: Token, d2: Cur, close: Token)
    requires Fits(input, c) && endOp != ","
    requires PeekOrFailSpec(input, c).result == Ok(t) && !IsOp(t, endOp)
    requires ExprSpec(input, c) == Parsed(Ok(e), d) && Fits(input, d)
    requires NextOrFailSpec(input, d) == Parsed(Ok(comma), d2) && IsOp(comma, ",") && Fits(input, d2)
    requires Clean(d2) && LexAt(input.tokens, d2.pos) == Ok(close) && IsOp(close, endOp)
    ensures ExprListLoopSpec(input, endOp, exprs, c) == Parsed(Ok(exprs + [e]), Cur(d2.pos + 1, Some(close), None, false))
  {
    ExprAfterPeek(input, c);
  }

  /** After an element, a token that is neither `,` nor the closing
      operator is rejected: its kind first, then its text. */
  lemma ExprListBadSeparator(input: Input, endOp: string, exprs: seq<Expr>, c: Cur, t: Token,
                             e: Expr, d: Cur, sep: Token)
    requires Fits(input, c)
    requires PeekOrFailSpec(input, c).result == Ok(t) && !IsOp(t, endOp)
    requires ExprSpec(input, c) == Parsed(Ok(e), d) && Fits(input, d)
    requires NextOrFailSpec(input, d).result == Ok(sep) && !IsOp(sep, endOp) && !IsOp(sep, ",")
    ensures ExprListLoopSpec(input, endOp, exprs, c).result
      == Err(UnexpectedToken(sep, Some(if sep.tokenType == Operator then "," else "Operator")))
  {
    ExprAfterPeek(input, c);
  }

  /** A parameter must be an identifier. */
  lemma ArgNotIdentifier(input: Input, endOp: string, idents: seq<string>, c: Cur, t: Token)
    requires Fits(input, c) && NextOrFailSpec(input, c).result == Ok(t)
    requires !IsOp(t, endOp) && t.tokenType != TokenType.Identifier
    ensures ArgListLoopSpec(input, endOp, idents, c).result == Err(UnexpectedToken(t, Some("Identifier")))
  {
  }

  /** A `,` after the last parameter is accepted. */
  lemma ArgListTrailingComma(input: Input, endOp: string, idents: seq<string>, c: Cur,
                             name: Token, d: Cur, comma: Token, d2: Cur, close: Token, d3: Cur)
    requires Fits(input, c) && endOp != ","
    requires NextOrFailSpec(input, c) == Parsed(Ok(name), d) && Fits(input, d)
    requires !IsOp(name, endOp) && name.tokenType == TokenType.Identifier
    requires NextOrFailSpec(input, d) == Parsed(Ok(comma), d2) && IsOp(comma, ",") && Fits(input, d2)
    requires NextOrFailSpec(input, d2) == Parsed(Ok(close), d3) && IsOp(close, endOp)
    ensures ArgListLoopSpec(input, endOp, idents, c) == Parsed(Ok(idents + [name.content]), d3)
  {
  }

  /** The identifier tokens among the results from position `from` on. */
  predicate IdentifierFrom(tokens: TokenStream, from: nat, name: string) {
    exists j :: from <= j < |tokens| && tokens[j].Ok? && tokens[j].value.tokenType == TokenType.Identifier && tokens[j].value.content == name
  }

  /** Read through a cursor that holds nothing back, every parameter name
      the list adds is the text of an identifier token of the input. */
  lemma {:induction false} ArgNamesAreIdentifiers(input: Input, endOp: string, idents: seq<string>, c: Cur)
    requires Fits(input, c) && Clean(c)
    ensures var p := ArgListLoopSpec(input, endOp, idents, c);
      p.result.Ok? ==>
        && |p.result.value| >= |idents| && p.result.value[..|idents|] == idents
        && forall i :: |idents| <= i < |p.result.value| ==> IdentifierFrom(input.tokens, c.pos, p.result.value[i])
    decreases Pend(input, c)
  {
    var p := ArgListLoopSpec(input, endOp, idents, c);
    var n := NextOrFailSpec(input, c);
    CleanNext(input, c);
    if n.result.Ok? && !IsOp(n.result.value, endOp) && n.result.value.tokenType == TokenType.Identifier {
      assert input.tokens[c.pos] == Ok(n.result.value);
      assert IdentifierFrom(input.tokens, c.pos, n.result.value.content);
      var m := NextOrFailSpec(input, n.cur);
      CleanNext(input, n.cur);
      var more := idents + [n.result.value.content];
      if m.result.Ok? && !IsOp(m.result.value, endOp) && m.result.value.tokenType == Operator && m.result.value.content == "," {
        assert p == ArgListLoopSpec(input, endOp, more, m.cur);
        ArgNamesAreIdentifiers(input, endOp, more, m.cur);
        if p.result.Ok? {
          var r := p.result.value;
          assert r[..|idents|] == r[..|more|][..|idents|];
          forall i | |idents| <= i < |r|
            ensures IdentifierFrom(input.tokens, c.pos, r[i])
          {
            if i == |idents| {
              assert r[i] == r[..|more|][i];
            } else {
              var j :| m.cur.pos <= j < |input.tokens| && input.tokens[j].Ok? && input.tokens[j].value.tokenType == TokenType.Identifier && input.tokens[j].value.content == r[i];
              assert c.pos <= j;
            }
          }
        }
      }
    }
  }

  /** A block without its `}` ends in `UnexpectedEndOfFile`. */
  lemma BlockUnclosed(input: Input, statements: seq<ParsedPackage>, c: Cur)
    requires Fits(input, c) && Clean(c) && c.pos == |input.tokens|
    ensures BlockLoopSpec(input, statements, c) == Parsed(Err(UnexpectedEndOfFile), c)
  {
  }

  /** A peeked `}` ends the block with the statements read so far, and is
      consumed. */
  lemma BlockClosed(input: Input, statements: seq<ParsedPackage>, c: Cur, t: Token)
    requires Fits(input, c) && !c.retain && PeekOrFailSpec(input, c).result == Ok(t) && IsOp(t, "}")
    ensures BlockLoopSpec(input, statements, c)
      == Parsed(Ok(StatementBlock(statements)), PeekOrFailSpec(input, c).cur.(current := Some(t), lookahead := None))
  {
  }

  /** `{` then `}` is the empty block. */
  lemma EmptyBlock(input: Input, c: Cur, open: Token, close: Token)
    requires Fits(input, c) && Clean(c)
    requires LexAt(input.tokens, c.pos) == Ok(open) && IsOp(open, "{")
    requires LexAt(input.tokens, c.pos + 1) == Ok(close) && IsOp(close, "}")
    ensures BlockSpec(input, c) == Parsed(Ok(StatementBlock([])), Cur(c.pos + 2, Some(close), None, false))
  {
    var n := NextOrFailSpec(input, c);
    assert n == Parsed(Ok(open), Cur(c.pos + 1, Some(open), None, false));
    BlockClosed(input, [], n.cur, close);
  }

  // ---------------------------------------------------------------------
  // Statements token by token

  /** The lexer's result at `pos` is a token of kind `ty` and text
      `content`. */
  predicate TokenAt(input: Input, pos: nat, ty: TokenType, content: string) {
    LexAt(input.tokens, pos).Ok? && LexAt(input.tokens, pos).value.tokenType == ty
    && LexAt(input.tokens, pos).value.content == content
  }

  /** The next token the cursor delivers is `;`. */
  predicate ThenSemicolon(input: Input, c: Cur)
    requires Fits(input, c)
  {
    var n := NextOrFailSpec(input, c);
    n.result.Ok? && IsOp(n.result.value, ";")
  }

  /** `=` at `pos`, then the expression `e`, then `;`. */
  predicate EqualsExprSemicolon(input: Input, pos: nat, e: Expr) {
    && TokenAt(input, pos, Operator, "=")
    && var v := ExprSpec(input, Cur(pos + 1, Some(LexAt(input.tokens, pos).value), None, false));
       v.result == Ok(e) && ThenSemicolon(input, v.cur)
  }

  /** From a cursor that holds nothing back at `pos`, or one whose
      lookahead is the lexer's result at `pos`, the next read delivers that
      result and leaves a clean cursor. */
  lemma ReadsTokenAt(input: Input, c: Cur, pos: nat)
    requires Fits(input, c) && !c.retain && pos < |input.tokens| && input.tokens[pos].Ok?
    requires (c.lookahead.None? && c.pos == pos) || (c.lookahead == Some(input.tokens[pos].value) && c.pos == pos + 1)
    ensures NextOrFailSpec(input, c) == Parsed(Ok(input.tokens[pos].value), Cur(pos + 1, Some(input.tokens[pos].value), None, false))
  {
  }

  /** The rest of a declaration or an assignment, from a cursor whose next
      token is the lexer's result at `pos`, succeeds exactly on `=`, an
      expression and `;`. */
  lemma AssignRestTokens(input: Input, name: string, c: Cur, pos: nat, e: Expr)
    requires Fits(input, c) && !c.retain && pos < |input.tokens|
    requires (c.lookahead.None? && c.pos == pos) || (input.tokens[pos].Ok? && c.lookahead == Some(input.tokens[pos].value) && c.pos == pos + 1)
    ensures AssignRestSpec(input, name, c).result == Ok(VarAssign(name, e)) <==> EqualsExprSemicolon(input, pos, e)
  {
    if input.tokens[pos].Ok? {
      ReadsTokenAt(input, c, pos);
    }
  }

  /** After `=` and an expression, a token other than `;` is reported with
      its kind first, then its text; the end of the input or a lexer error
      is passed on. */
  lemma AssignNeedsSemicolon(input: Input, name: string, c: Cur, e: Expr, d: Cur)
    requires Fits(input, c) && Fits(input, d)
    requires NextOrFailSpec(input, c).result.Ok? && IsOp(NextOrFailSpec(input, c).result.value, "=")
    requires ExprSpec(input, NextOrFailSpec(input, c).cur) == Parsed(Ok(e), d)
    ensures var n := NextOrFailSpec(input, d);
      && (n.result.Ok? && !IsOp(n.result.value, ";") ==>
            AssignRestSpec(input, name, c)
              == Parsed(Err(UnexpectedToken(n.result.value, Some(if n.result.value.tokenType == Operator then ";" else "Operator"))), n.cur))
      && (n.result.Err? ==> AssignRestSpec(input, name, c) == Parsed(Err(n.result.error), n.cur))
  {
  }

  /** `parse_var_decl_or_assign` from a cursor whose next token is `let`
      at `pos`: it succeeds exactly on an identifier, `=`, an expression
      and `;`. */
  lemma DeclarationTokens(input: Input, c: Cur, pos: nat, name: string, e: Expr)
    requires Fits(input, c) && !c.retain && pos < |input.tokens|
    requires input.tokens[pos].Ok? && input.tokens[pos].value.content == "let"
    requires (c.lookahead.None? && c.pos == pos) || (c.lookahead == Some(input.tokens[pos].value) && c.pos == pos + 1)
    ensures VarDeclOrAssignSpec(input, c).result == Ok(VarAssign(name, e))
      <==> (TokenAt(input, pos + 1, TokenType.Identifier, name) && EqualsExprSemicolon(input, pos + 2, e))
  {
    ReadsTokenAt(input, c, pos);
    var n := Cur(pos + 1, Some(input.tokens[pos].value), None, false);
    if pos + 1 < |input.tokens| && input.tokens[pos + 1].Ok? {
      ReadsTokenAt(input, n, pos + 1);
      var nameTk := input.tokens[pos + 1].value;
      if nameTk.tokenType == TokenType.Identifier {
        assert VarDeclOrAssignSpec(input, c) == AssignRestSpec(input, nameTk.content, Cur(pos + 2, Some(nameTk), None, false));
        if pos + 2 < |input.tokens| {
          AssignRestTokens(input, nameTk.content, Cur(pos + 2, Some(nameTk), None, false), pos + 2, e);
        }
      }
    }
  }

  /** A declaration statement is `let`, peeked, and what
      `parse_var_decl_or_assign` reads from there. */
  lemma NextPackageDeclaration(input: Input, c: Cur, a: VarAssign)
    requires Fits(input, c)
    ensures NextPackageSpec(input, c).result == Ok(Some(ParsedPackage(input.source, VarDecl(a))))
      <==> (var k := PeekSpec(input, c);
            && k.result.Ok? && k.result.value.Some?
            && k.result.value.value.tokenType == Keyword && k.result.value.value.content == "let"
            && VarDeclOrAssignSpec(input, k.cur).result == Ok(a))
  {
    var k := PeekSpec(input, c);
    if k.result.Ok? && k.result.value.Some? {
      var t := k.result.value.value;
      NextPackageStep(input, c, t);
      var h := HighLevelSpec(input, t, k.cur);
      if t.tokenType == Keyword {
        NextPackageKeyword(input, c, t);
        if t.content == "let" {
          assert KeywordStatementSpec(input, t, k.cur) == AsDecl(VarDeclOrAssignSpec(input, k.cur));
        }
      } else {
        assert h.result.Ok? ==> !h.result.value.VarDecl?;
      }
    }
  }

  /** After a peeked `let`, the declaration is an identifier, `=`, an
      expression and `;`. */
  lemma LetPeekedTokens(input: Input, c: Cur, name: string, e: Expr)
    requires Fits(input, c) && Clean(c) && TokenAt(input, c.pos, Keyword, "let")
    ensures VarDeclOrAssignSpec(input, PeekSpec(input, c).cur).result == Ok(VarAssign(name, e))
      <==> (TokenAt(input, c.pos + 1, TokenType.Identifier, name) && EqualsExprSemicolon(input, c.pos + 2, e))
  {
    var k := PeekSpec(input, c);
    assert c.pos < |input.tokens| && input.tokens[c.pos].Ok?;
    assert k.cur == Cur(c.pos + 1, c.current, Some(input.tokens[c.pos].value), false);
    DeclarationTokens(input, k.cur, c.pos, name, e);
  }

  /** `let x = e;` is exactly the keyword `let`, an identifier, `=`, an
      expression and `;`. */
  lemma LetStatementTokens(input: Input, c: Cur, name: string, e: Expr)
    requires Fits(input, c) && Clean(c)
    ensures NextPackageSpec(input, c).result == Ok(Some(ParsedPackage(input.source, VarDecl(VarAssign(name, e)))))
      <==> (TokenAt(input, c.pos, Keyword, "let") && TokenAt(input, c.pos + 1, TokenType.Identifier, name)
            && EqualsExprSemicolon(input, c.pos + 2, e))
  {
    var k := PeekSpec(input, c);
    var first := k.result.Ok? && k.result.value.Some?
                 && k.result.value.value.tokenType == Keyword && k.result.value.value.content == "let";
    assert first <==> TokenAt(input, c.pos, Keyword, "let");
    NextPackageDeclaration(input, c, VarAssign(name, e));
    if first {
      LetPeekedTokens(input, c, name, e);
    }
  }

  /** A statement that starts with an identifier is the identifier's
      branch on the peeked token; no other first token makes a call or an
      assignment. */
  lemma NextPackageIdentStatement(input: Input, c: Cur, h: ParsedHighLevel)
    requires Fits(input, c) && (h.FuncCall? || h.VarSet?)
    ensures NextPackageSpec(input, c).result == Ok(Some(ParsedPackage(input.source, h)))
      <==> (var k := PeekSpec(input, c);
            && k.result.Ok? && k.result.value.Some?
            && k.result.value.value.tokenType == TokenType.Identifier
            && IdentStatementSpec(input, k.result.value.value, k.cur).result == Ok(h))
  {
    var k := PeekSpec(input, c);
    if k.result.Ok? && k.result.value.Some? {
      var t := k.result.value.value;
      NextPackageStep(input, c, t);
      if t.tokenType == TokenType.Identifier {
        NextPackageIdentifier(input, c, t);
      }
    }
  }

  /** A statement that starts with a keyword is the keyword's branch on
      the peeked token; no other first token makes a declaration, a
      function or an `if`. */
  lemma NextPackageKeywordStatement(input: Input, c: Cur, h: ParsedHighLevel)
    requires Fits(input, c) && (h.VarDecl? || h.FuncDecl? || h.If?)
    ensures NextPackageSpec(input, c).result == Ok(Some(ParsedPackage(input.source, h)))
      <==> (var k := PeekSpec(input, c);
            && k.result.Ok? && k.result.value.Some?
            && k.result.value.value.tokenType == Keyword
            && KeywordStatementSpec(input, k.result.value.value, k.cur).result == Ok(h))
  {
    var k := PeekSpec(input, c);
    if k.result.Ok? && k.result.value.Some? {
      var t := k.result.value.value;
      NextPackageStep(input, c, t);
      if t.tokenType == Keyword {
        NextPackageKeyword(input, c, t);
      }
    }
  }

  /** After an identifier peeked from a clean cursor, the assignment
      branch succeeds exactly on `=`, an expression and `;`, and assigns
      that identifier unless it is `let`. */
  lemma AssignPeekedTokens(input: Input, c: Cur, name: string, e: Expr)
    requires Fits(input, c) && Clean(c) && c.pos < |input.tokens| && input.tokens[c.pos].Ok?
    requires input.tokens[c.pos].value.tokenType == TokenType.Identifier
    ensures var t := input.tokens[c.pos].value;
      (IdentStatementSpec(input, t, PeekSpec(input, c).cur).result == Ok(VarSet(VarAssign(name, e))))
        <==> (name == t.content && name != "let" && EqualsExprSemicolon(input, c.pos + 1, e))
  {
    var t := input.tokens[c.pos].value;
    var kc := PeekSpec(input, c).cur;
    assert kc == Cur(c.pos + 1, c.current, Some(t), false);
    if c.pos + 1 < |input.tokens| && input.tokens[c.pos + 1].Ok? {
      var disc := input.tokens[c.pos + 1].value;
      var d := Cur(c.pos + 2, Some(t), Some(disc), false);
      if IsOp(disc, "=") {
        if t.content != "let" {
          AssignmentRereadsIdentifier(input, t, kc, disc);
          AssignRestTokens(input, t.content, d, c.pos + 1, e);
        } else {
          assert NextOrFailSpec(input, Retain(d)) == Parsed(Ok(t), d);
          assert NextOrFailSpec(input, d).result == Ok(disc);
          assert VarDeclOrAssignSpec(input, Retain(d)).result.Err?;
        }
      }
    }
  }

  /** `x = e;` is exactly an identifier other than `let`, `=`, an
      expression and `;`; the identifier `let` would be read again as the
      keyword. */
  lemma SetStatementTokens(input: Input, c: Cur, name: string, e: Expr)
    requires Fits(input, c) && Clean(c)
    ensures NextPackageSpec(input, c).result == Ok(Some(ParsedPackage(input.source, VarSet(VarAssign(name, e)))))
      <==> (TokenAt(input, c.pos, TokenType.Identifier, name) && name != "let"
            && EqualsExprSemicolon(input, c.pos + 1, e))
  {
    var k := PeekSpec(input, c);
    var first := k.result.Ok? && k.result.value.Some? && k.result.value.value.tokenType == TokenType.Identifier;
    assert first <==> c.pos < |input.tokens| && input.tokens[c.pos].Ok? && input.tokens[c.pos].value.tokenType == TokenType.Identifier;
    NextPackageIdentStatement(input, c, VarSet(VarAssign(name, e)));
    if first {
      AssignPeekedTokens(input, c, name, e);
    }
  }

  /** A call statement's argument list, read from just after its `(` at
      `pos`. */
  function CallArgs(input: Input, pos: nat): (l: Parsed<seq<Expr>>)
    requires pos < |input.tokens| && input.tokens[pos].Ok?
    ensures Fits(input, l.cur)
  {
    ExprListSpec(input, ")", Cur(pos + 1, Some(input.tokens[pos].value), None, false))
  }

  /** After an identifier peeked from a clean cursor, the call branch
      succeeds exactly on `(`, the arguments up to `)` and `;`, and calls
      that identifier. */
  lemma CallPeekedTokens(input: Input, c: Cur, call: FuncCallExpr)
    requires Fits(input, c) && Clean(c) && c.pos < |input.tokens| && input.tokens[c.pos].Ok?
    requires input.tokens[c.pos].value.tokenType == TokenType.Identifier
    ensures var t := input.tokens[c.pos].value;
      (IdentStatementSpec(input, t, PeekSpec(input, c).cur).result == Ok(ParsedHighLevel.FuncCall(call)))
        <==> (call.name == t.content && TokenAt(input, c.pos + 1, Operator, "(")
              && CallArgs(input, c.pos + 1).result == Ok(call.args) && ThenSemicolon(input, CallArgs(input, c.pos + 1).cur))
  {
    var t := input.tokens[c.pos].value;
    var kc := PeekSpec(input, c).cur;
    assert kc == Cur(c.pos + 1, c.current, Some(t), false);
    if c.pos + 1 < |input.tokens| && input.tokens[c.pos + 1].Ok? {
      var disc := input.tokens[c.pos + 1].value;
      var d := Cur(c.pos + 2, Some(t), Some(disc), false);
      assert PeekOrFailSpec(input, AdvanceSpec(input, kc).cur) == Parsed(Ok(disc), d);
      assert AdvanceSpec(input, d).cur == Cur(c.pos + 2, Some(disc), None, false);
    }
  }

  /** `f(a, b);` is exactly an identifier, `(`, the arguments up to `)` and
      `;`. */
  lemma CallStatementTokens(input: Input, c: Cur, call: FuncCallExpr)
    requires Fits(input, c) && Clean(c)
    ensures NextPackageSpec(input, c).result == Ok(Some(ParsedPackage(input.source, ParsedHighLevel.FuncCall(call))))
      <==> (TokenAt(input, c.pos, TokenType.Identifier, call.name) && TokenAt(input, c.pos + 1, Operator, "(")
            && CallArgs(input, c.pos + 1).result == Ok(call.args) && ThenSemicolon(input, CallArgs(input, c.pos + 1).cur))
  {
    var k := PeekSpec(input, c);
    var first := k.result.Ok? && k.result.value.Some? && k.result.value.value.tokenType == TokenType.Identifier;
    assert first <==> c.pos < |input.tokens| && input.tokens[c.pos].Ok? && input.tokens[c.pos].value.tokenType == TokenType.Identifier;
    NextPackageIdentStatement(input, c, ParsedHighLevel.FuncCall(call));
    if first {
      CallPeekedTokens(input, c, call);
    }
  }

  /** After a call's `)`, a token other than `;` is reported with its kind
      first, then its text; the end of the input or a lexer error is
      passed on. */
  lemma CallNeedsSemicolon(input: Input, c: Cur, name: string)
    requires Fits(input, c) && Clean(c)
    requires TokenAt(input, c.pos, TokenType.Identifier, name) && TokenAt(input, c.pos + 1, Operator, "(")
    requires CallArgs(input, c.pos + 1).result.Ok?
    ensures var n := NextOrFailSpec(input, CallArgs(input, c.pos + 1).cur);
      && (n.result.Ok? && !IsOp(n.result.value, ";") ==>
            NextPackageSpec(input, c).result
              == Err(UnexpectedToken(n.result.value, Some(if n.result.value.tokenType == Operator then ";" else "Operator"))))
      && (n.result.Err? ==> NextPackageSpec(input, c).result == Err(n.result.error))
  {
    var t := input.tokens[c.pos].value;
    var kc := PeekSpec(input, c).cur;
    NextPackageIdentifier(input, c, t);
    var disc := input.tokens[c.pos + 1].value;
    var d := Cur(c.pos + 2, Some(t), Some(disc), false);
    assert PeekOrFailSpec(input, AdvanceSpec(input, kc).cur) == Parsed(Ok(disc), d);
    assert AdvanceSpec(input, d).cur == Cur(c.pos + 2, Some(disc), None, false);
  }

  /** After `fn` peeked from a clean cursor, a function is exactly a
      name, `(`, the parameters up to `)` and a block. */
  lemma FuncDeclPeekedTokens(input: Input, c: Cur, d: Ast.FuncDecl)
    requires Fits(input, c) && Clean(c) && TokenAt(input, c.pos, Keyword, "fn")
    ensures FuncDeclSpec(input, PeekSpec(input, c).cur).result == Ok(d)
      <==> (&& TokenAt(input, c.pos + 1, TokenType.Identifier, d.name) && TokenAt(input, c.pos + 2, Operator, "(")
            && var a := ArgListSpec(input, ")", Cur(c.pos + 3, Some(LexAt(input.tokens, c.pos + 2).value), None, false));
               a.result == Ok(d.args) && BlockSpec(input, a.cur).result == Ok(d.block))
  {
    var kc := PeekSpec(input, c).cur;
    assert kc == Cur(c.pos + 1, c.current, Some(input.tokens[c.pos].value), false);
    ReadsTokenAt(input, kc, c.pos);
    var k1 := Cur(c.pos + 1, Some(input.tokens[c.pos].value), None, false);
    if c.pos + 1 < |input.tokens| && input.tokens[c.pos + 1].Ok? {
      ReadsTokenAt(input, k1, c.pos + 1);
      var n1 := Cur(c.pos + 2, Some(input.tokens[c.pos + 1].value), None, false);
      if c.pos + 2 < |input.tokens| && input.tokens[c.pos + 2].Ok? {
        ReadsTokenAt(input, n1, c.pos + 2);
      }
    }
  }

  /** `fn f(a, b) { ... }` is exactly the keyword `fn`, a name, `(`, the
      parameters up to `)` and a block. */
  lemma FnStatementTokens(input: Input, c: Cur, d: Ast.FuncDecl)
    requires Fits(input, c) && Clean(c)
    ensures NextPackageSpec(input, c).result == Ok(Some(ParsedPackage(input.source, ParsedHighLevel.FuncDecl(d))))
      <==> (&& TokenAt(input, c.pos, Keyword, "fn")
            && TokenAt(input, c.pos + 1, TokenType.Identifier, d.name) && TokenAt(input, c.pos + 2, Operator, "(")
            && var a := ArgListSpec(input, ")", Cur(c.pos + 3, Some(LexAt(input.tokens, c.pos + 2).value), None, false));
               a.result == Ok(d.args) && BlockSpec(input, a.cur).result == Ok(d.block))
  {
    var k := PeekSpec(input, c);
    var first := k.result.Ok? && k.result.value.Some? && k.result.value.value.tokenType == Keyword;
    assert first && k.result.value.value.content == "fn" <==> TokenAt(input, c.pos, Keyword, "fn");
    NextPackageKeywordStatement(input, c, ParsedHighLevel.FuncDecl(d));
    if first && k.result.value.value.content == "fn" {
      var t := k.result.value.value;
      var f := FuncDeclSpec(input, k.cur);
      assert KeywordStatementSpec(input, t, k.cur).result == Ok(ParsedHighLevel.FuncDecl(d)) <==> f.result == Ok(d);
      FuncDeclPeekedTokens(input, c, d);
    }
  }

  /** After `if` peeked from a clean cursor, the statement is exactly a
      condition and a block. */
  lemma IfPeekedTokens(input: Input, c: Cur, i: IfStatement)
    requires Fits(input, c) && Clean(c) && TokenAt(input, c.pos, Keyword, "if")
    ensures IfStatementSpec(input, PeekSpec(input, c).cur).result == Ok(i)
      <==> (var v := ExprSpec(input, Cur(c.pos + 1, Some(LexAt(input.tokens, c.pos).value), None, false));
            v.result == Ok(i.val) && BlockSpec(input, v.cur).result == Ok(i.block))
  {
    var kc := PeekSpec(input, c).cur;
    assert kc == Cur(c.pos + 1, c.current, Some(input.tokens[c.pos].value), false);
    ReadsTokenAt(input, kc, c.pos);
  }

  /** `if c { ... }` is exactly the keyword `if`, a condition and a
      block. */
  lemma IfStatementTokens(input: Input, c: Cur, i: IfStatement)
    requires Fits(input, c) && Clean(c)
    ensures NextPackageSpec(input, c).result == Ok(Some(ParsedPackage(input.source, If(i))))
      <==> (&& TokenAt(input, c.pos, Keyword, "if")
            && var v := ExprSpec(input, Cur(c.pos + 1, Some(LexAt(input.tokens, c.pos).value), None, false));
               v.result == Ok(i.val) && BlockSpec(input, v.cur).result == Ok(i.block))
  {
    var k := PeekSpec(input, c);
    var first := k.result.Ok? && k.result.value.Some? && k.result.value.value.tokenType == Keyword;
    assert first && k.result.value.value.content == "if" <==> TokenAt(input, c.pos, Keyword, "if");
    NextPackageKeywordStatement(input, c, If(i));
    if first && k.result.value.value.content == "if" {
      var t := k.result.value.value;
      var f := IfStatementSpec(input, k.cur);
      assert KeywordStatementSpec(input, t, k.cur).result == Ok(If(i)) <==> f.result == Ok(i);
      IfPeekedTokens(input, c, i);
    }
  }

  /** An identifier that starts an expression: followed by a token whose
      text is `(`, it is a call of the list up to `)`; followed by any
      other token, it is the identifier alone, with that token peeked and
      still to be read; at the end of the input, `UnexpectedEndOfFile`. */
  lemma IdentifierExprTokens(input: Input, c: Cur)
    requires Fits(input, c) && Clean(c) && c.pos < |input.tokens| && input.tokens[c.pos].Ok?
    requires input.tokens[c.pos].value.tokenType == TokenType.Identifier
    ensures var id := input.tokens[c.pos].value;
            var next := LexAt(input.tokens, c.pos + 1);
            var p := ExprSpec(input, c);
            && (next.Ok? && next.value.content == "(" ==>
                  var l := ExprListSpec(input, ")", Cur(c.pos + 2, Some(next.value), None, false));
                  p == (if l.result.Ok? then Parsed(Ok(Expr.FuncCall(FuncCallExpr(id.content, l.result.value))), l.cur)
                        else Parsed(Err(l.result.error), l.cur)))
            && (next.Ok? && next.value.content != "(" ==>
                  p == Parsed(Ok(Expr.Identifier(id.content)), Cur(c.pos + 2, Some(id), Some(next.value), false)))
            && (next == Err(EndOfFile) ==> p.result == Err(UnexpectedEndOfFile))
  {
    var id := input.tokens[c.pos].value;
    var k := PeekOrFailSpec(input, c);
    assert k == Parsed(Ok(id), Cur(c.pos + 1, c.current, Some(id), false));
    assert ExprSpec(input, c) == BranchIdentifierExprSpec(input, k.cur);
    ReadsTokenAt(input, k.cur, c.pos);
  }

  // ---------------------------------------------------------------------
  // The parser

  class Parser {
    const tokens: TokenStream
    const source: string
    var pos: nat
    var currentToken: Option<Token>
    var lookaheadToken: Option<Token>
    var retainLastToken: bool

    /** What this parser reads. */
    function Given(): Input {
      Input(tokens, source)
    }

    predicate Valid()
      reads this
    {
      pos <= |tokens|
    }

    /** The cursor in its current state. */
    function State(): Cur
      reads this
    {
      Cur(pos, currentToken, lookaheadToken, retainLastToken)
    }

    /** `Parser::new`: nothing read, no token current or looked ahead. */
    constructor (tokens: TokenStream, source: string)
      ensures this.tokens == tokens && this.source == source
      ensures State() == Cur(0, None, None, false) && Valid()
    {
      this.tokens := tokens;
      this.source := source;
      pos := 0;
      currentToken := None;
      lookaheadToken := None;
      retainLastToken := false;
    }

    /** `read_token`. */
    method ReadToken() returns (r: Result<Option<Token>, ParserError>)
      requires Valid()
      modifies this
      ensures Valid()
      ensures Parsed(r, State()) == ReadTokenSpec(Given(), old(State()))
    {
      var result := LexAt(tokens, pos);
      pos := NextPos(tokens, pos);
      if result == Err(EndOfFile) {
        return Ok(None);
      }
      if result.Err? {
        return Err(Lexer(result.error));
      }
      return Ok(Some(result.value));
    }

    /** `peek_token`. */
    method PeekToken() returns (r: Result<Option<Token>, ParserError>)
      requires Valid()
      modifies this
      ensures Valid()
      ensures Parsed(r, State()) == PeekSpec(Given(), old(State()))
    {
      if lookaheadToken.Some? {
        return Ok(lookaheadToken);
      }
      var tk := ReadToken();
      if tk.Err? {
        return Err(tk.error);
      }
      lookaheadToken := tk.value;
      return Ok(lookaheadToken);
    }

    /** `retain_token`. */
    method RetainToken()
      modifies this
      ensures State() == Retain(old(State()))
    {
      retainLastToken := true;
    }

    /** `advance_token`. */
    method AdvanceToken() returns (r: Result<(), ParserError>)
      requires Valid()
      modifies this
      ensures Valid()
      ensures Parsed(r, State()) == AdvanceSpec(Given(), old(State()))
    {
      if retainLastToken {
        retainLastToken := false;
        return Ok(());
      }
      if lookaheadToken.Some? {
        currentToken := lookaheadToken;
        lookaheadToken := None;
        return Ok(());
      }
      var tk := ReadToken();
      if tk.Err? {
        return Err(tk.error);
      }
      currentToken := tk.value;
      return Ok(());
    }

    /** `peek_or_fail`. */
    method PeekOrFail() returns (r: Result<Token, ParserError>)
      requires Valid()
      modifies this
      ensures Valid()
      ensures Parsed(r, State()) == PeekOrFailSpec(Given(), old(State()))
    {
      var tk := PeekToken();
      if tk.Err? {
        return Err(tk.error);
      }
      if tk.value.None? {
        return Err(UnexpectedEndOfFile);
      }
      return Ok(tk.value.value);
    }

    /** `next_or_fail`. */
    method NextOrFail() returns (r: Result<Token, ParserError>)
      requires Valid()
      modifies this
      ensures Valid()
      ensures Parsed(r, State()) == NextOrFailSpec(Given(), old(State()))
    {
      var a := AdvanceToken();
      if a.Err? {
        return Err(a.error);
      }
      if currentToken.None? {
        return Err(UnexpectedEndOfFile);
      }
      return Ok(currentToken.value);
    }

    /** `next_package`. */
    method NextPackage() returns (r: Result<Option<ParsedPackage>, ParserError>)
      requires Valid()
      modifies this
      ensures Valid()
      ensures Parsed(r, State()) == NextPackageSpec(Given(), old(State()))
      decreases Pend(Given(), State()), 9
    {
      ghost var start := State();
      var peeked := PeekToken();
      if peeked.Err? {
        return Err(peeked.error);
      }
      if peeked.value.None? {
        return Ok(None);
      }
      var token := peeked.value.value;
      ghost var afterPeek := State();
      NextPackageStep(Given(), start, token);
      var x := CheckFirst(token);
      if x.Err? {
        return Err(x.error);
      }
      var highLevel: ParsedHighLevel;
      if token.tokenType == Keyword {
        assert HighLevelSpec(Given(), token, afterPeek) == KeywordStatementSpec(Given(), token, afterPeek);
        if token.content == "let" {
          var a := ParseVarDeclOrAssign();
          if a.Err? {
            return Err(a.error);
          }
          highLevel := VarDecl(a.value);
        } else if token.content == "fn" {
          var d := ParseFuncDecl();
          if d.Err? {
            return Err(d.error);
          }
          highLevel := ParsedHighLevel.FuncDecl(d.value);
        } else if token.content == "if" {
          var i := ParseIfStatement();
          if i.Err? {
            return Err(i.error);
          }
          highLevel := If(i.value);
        } else {
          return Err(UnknownKeyword(State()));
        }
      } else if token.tokenType == Operator {
        // The token was peeked, so this advance cannot fail.
        var advanced := AdvanceToken();
        highLevel := Noop;
      } else {
        assert HighLevelSpec(Given(), token, afterPeek) == IdentStatementSpec(Given(), token, afterPeek);
        var advanced := AdvanceToken();
        var discTk := PeekOrFail();
        if discTk.Err? {
          return Err(discTk.error);
        }
        var disc := discTk.value;
        var y := ExpectTokenType(disc, Operator);
        if y.Err? {
          return Err(y.error);
        }
        if disc.content == "(" {
          advanced := AdvanceToken();
          var args := ParseExprList(")");
          if args.Err? {
            return Err(args.error);
          }
          var endTk := NextOrFail();
          if endTk.Err? {
            return Err(endTk.error);
          }
          var z := ExpectToken(endTk.value, Operator, ";");
          if z.Err? {
            return Err(z.error);
          }
          highLevel := ParsedHighLevel.FuncCall(FuncCallExpr(token.content, args.value));
        } else if disc.content == "=" {
          RetainToken();
          var a := ParseVarDeclOrAssign();
          if a.Err? {
            return Err(a.error);
          }
          highLevel := VarSet(a.value);
        } else {
          return Err(UnexpectedToken(disc, Some("( or =")));
        }
      }
      assert HighLevelSpec(Given(), token, afterPeek) == Parsed(Ok(highLevel), State());
      return Ok(Some(ParsedPackage(source, highLevel)));
    }

    /** `parse_var_decl_or_assign`. */
    method ParseVarDeclOrAssign() returns (r: Result<VarAssign, ParserError>)
      requires Valid()
      modifies this
      ensures Valid()
      ensures Parsed(r, State()) == VarDeclOrAssignSpec(Given(), old(State()))
      decreases Pend(Given(), State()), 5
    {
      var nextTk := NextOrFail();
      if nextTk.Err? {
        return Err(nextTk.error);
      }
      var nameTk := nextTk;
      if nextTk.value.content == "let" {
        nameTk := NextOrFail();
        if nameTk.Err? {
          return Err(nameTk.error);
        }
      }
      var x := ExpectTokenType(nameTk.value, TokenType.Identifier);
      if x.Err? {
        return Err(x.error);
      }
      var name := nameTk.value.content;
      ghost var afterName := State();
      var assignTk := NextOrFail();
      if assignTk.Err? {
        return Err(assignTk.error);
      }
      x := ExpectToken(assignTk.value, Operator, "=");
      if x.Err? {
        return Err(x.error);
      }
      var val := ParseExpr();
      if val.Err? {
        return Err(val.error);
      }
      var endTk := NextOrFail();
      if endTk.Err? {
        return Err(endTk.error);
      }
      x := ExpectToken(endTk.value, Operator, ";");
      if x.Err? {
        return Err(x.error);
      }
      r := Ok(VarAssign(name, val.value));
      assert Parsed(r, State()) == AssignRestSpec(Given(), name, afterName);
    }

    /** `parse_func_decl`. */
    method ParseFuncDecl() returns (r: Result<Ast.FuncDecl, ParserError>)
      requires Valid()
      modifies this
      ensures Valid()
      ensures Parsed(r, State()) == FuncDeclSpec(Given(), old(State()))
      decreases Pend(Given(), State()), 5
    {
      var fnTk := NextOrFail();
      if fnTk.Err? {
        return Err(fnTk.error);
      }
      var x := ExpectToken(fnTk.value, Keyword, "fn");
      if x.Err? {
        return Err(x.error);
      }
      var nameTk := NextOrFail();
      if nameTk.Err? {
        return Err(nameTk.error);
      }
      x := ExpectTokenType(nameTk.value, TokenType.Identifier);
      if x.Err? {
        return Err(x.error);
      }
      var parenTk := NextOrFail();
      if parenTk.Err? {
        return Err(parenTk.error);
      }
      x := ExpectToken(parenTk.value, Operator, "(");
      if x.Err? {
        return Err(x.error);
      }
      var args := ParseArgList(")");
      if args.Err? {
        return Err(args.error);
      }
      var block := ParseBlock();
      if block.Err? {
        return Err(block.error);
      }
      return Ok(Ast.FuncDecl.FuncDecl(nameTk.value.content, args.value, block.value));
    }

    /** `parse_if_statement`. */
    method ParseIfStatement() returns (r: Result<IfStatement, ParserError>)
      requires Valid()
      modifies this
      ensures Valid()
      ensures Parsed(r, State()) == IfStatementSpec(Given(), old(State()))
      decreases Pend(Given(), State()), 5
    {
      var ifTk := NextOrFail();
      if ifTk.Err? {
        return Err(ifTk.error);
      }
      var x := ExpectToken(ifTk.value, Keyword, "if");
      if x.Err? {
        return Err(x.error);
      }
      var cond := ParseExpr();
      if cond.Err? {
        return Err(cond.error);
      }
      var block := ParseBlock();
      if block.Err? {
        return Err(block.error);
      }
      return Ok(IfStatement(cond.value, block.value));
    }

    /** `parse_expr`. */
    method ParseExpr() returns (r: Result<Expr, ParserError>)
      requires Valid()
      modifies this
      ensures Valid()
      ensures Parsed(r, State()) == ExprSpec(Given(), old(State()))
      decreases Pend(Given(), State()), 2
    {
      var peeked := PeekOrFail();
      if peeked.Err? {
        return Err(peeked.error);
      }
      if peeked.value.tokenType == TokenType.Identifier {
        r := ParseBranchIdentifierExpr();
        return;
      }
      var tk := NextOrFail();
      if tk.Err? {
        return Err(tk.error);
      }
      var t := tk.value;
      match t.tokenType
      case IntegerLiteral =>
        var v := ParseI64(t.content);
        if v.Err? {
          return Err(FromParseIntError(t.content, v.error));
        }
        return Ok(IntLiteral(v.value));
      case StringLiteral =>
        return Ok(Expr.StringLiteral(t.content));
      case BoolLiteral =>
        var b := LegacyParser.ParseBool(t.content);
        if b.None? {
          return Err(Panicked);
        }
        return Ok(Expr.BoolLiteral(b.value));
      case Operator =>
        if t.content == "[" {
          r := ParseArray();
        } else {
          return Err(UnexpectedToken(t, Some("expression")));
        }
      case _ =>
        return Err(UnexpectedToken(t, Some("expression")));
    }

    /** `parse_branch_identifier_expr`. */
    method ParseBranchIdentifierExpr() returns (r: Result<Expr, ParserError>)
      requires Valid()
      modifies this
      ensures Valid()
      ensures Parsed(r, State()) == BranchIdentifierExprSpec(Given(), old(State()))
      decreases Pend(Given(), State()), 1
    {
      var identifier := NextOrFail();
      if identifier.Err? {
        return Err(identifier.error);
      }
      var peeked := PeekOrFail();
      if peeked.Err? {
        return Err(peeked.error);
      }
      if peeked.value.content == "(" {
        // The token was peeked, so this advance cannot fail.
        var advanced := AdvanceToken();
        var args := ParseExprList(")");
        if args.Err? {
          return Err(args.error);
        }
        return Ok(Expr.FuncCall(FuncCallExpr(identifier.value.content, args.value)));
      }
      return Ok(Expr.Identifier(identifier.value.content));
    }

    /** `parse_array`. */
    method ParseArray() returns (r: Result<Expr, ParserError>)
      requires Valid()
      modifies this
      ensures Valid()
      ensures Parsed(r, State()) == ArraySpec(Given(), old(State()))
      decreases Pend(Given(), State()), 5
    {
      var elements := ParseExprList("]");
      if elements.Err? {
        return Err(elements.error);
      }
      return Ok(Array(ArrayExpr(elements.value)));
    }

    /** `parse_expr_list`. */
    method ParseExprList(endOp: string) returns (r: Result<seq<Expr>, ParserError>)
      requires Valid()
      modifies this
      ensures Valid()
      ensures Parsed(r, State()) == ExprListSpec(Given(), endOp, old(State()))
      decreases Pend(Given(), State()), 4
    {
      ghost var start := State();
      var exprs: seq<Expr> := [];
      while true
        invariant Valid()
        invariant ExprListLoopSpec(Given(), endOp, exprs, State()) == ExprListLoopSpec(Given(), endOp, [], start)
        invariant Pend(Given(), State()) <= Pend(Given(), start)
        decreases Pend(Given(), State())
      {
        var tk := PeekOrFail();
        if tk.Err? {
          return Err(tk.error);
        }
        if IsOp(tk.value, endOp) {
          // The token was peeked, so this advance cannot fail.
          var advanced := AdvanceToken();
          break;
        }
        var e := ParseExpr();
        if e.Err? {
          return Err(e.error);
        }
        exprs := exprs + [e.value];
        var endTk := NextOrFail();
        if endTk.Err? {
          return Err(endTk.error);
        }
        if IsOp(endTk.value, endOp) {
          break;
        }
        var x := ExpectToken(endTk.value, Operator, ",");
        if x.Err? {
          return Err(x.error);
        }
      }
      return Ok(exprs);
    }

    /** `parse_arg_list`. */
    method ParseArgList(endOp: string) returns (r: Result<seq<string>, ParserError>)
      requires Valid()
      modifies this
      ensures Valid()
      ensures Parsed(r, State()) == ArgListSpec(Given(), endOp, old(State()))
      decreases Pend(Given(), State()), 1
    {
      ghost var start := State();
      var idents: seq<string> := [];
      while true
        invariant Valid()
        invariant ArgListLoopSpec(Given(), endOp, idents, State()) == ArgListLoopSpec(Given(), endOp, [], start)
        invariant Pend(Given(), State()) <= Pend(Given(), start)
        decreases Pend(Given(), State())
      {
        var tk := NextOrFail();
        if tk.Err? {
          return Err(tk.error);
        }
        if IsOp(tk.value, endOp) {
          break;
        }
        var x := ExpectTokenType(tk.value, TokenType.Identifier);
        if x.Err? {
          return Err(x.error);
        }
        idents := idents + [tk.value.content];
        var endTk := NextOrFail();
        if endTk.Err? {
          return Err(endTk.error);
        }
        if IsOp(endTk.value, endOp) {
          break;
        }
        x := ExpectToken(endTk.value, Operator, ",");
        if x.Err? {
          return Err(x.error);
        }
      }
      return Ok(idents);
    }

    /** `parse_block`. */
    method ParseBlock() returns (r: Result<StatementBlock, ParserError>)
      requires Valid()
      modifies this
      ensures Valid()
      ensures Parsed(r, State()) == BlockSpec(Given(), old(State()))
      decreases Pend(Given(), State()), 0
    {
      var tk := NextOrFail();
      if tk.Err? {
        return Err(tk.error);
      }
      var x := ExpectToken(tk.value, Operator, "{");
      if x.Err? {
        return Err(x.error);
      }
      ghost var afterBrace := State();
      var statements: seq<ParsedPackage> := [];
      while true
        invariant Valid()
        invariant BlockLoopSpec(Given(), statements, State()) == BlockLoopSpec(Given(), [], afterBrace)
        invariant Pend(Given(), State()) <= Pend(Given(), afterBrace)
        decreases Pend(Given(), State())
      {
        var peeked := PeekOrFail();
        if peeked.Err? {
          return Err(peeked.error);
        }
        if IsOp(peeked.value, "}") {
          break;
        }
        var pkg := NextPackage();
        if pkg.Err? {
          return Err(pkg.error);
        }
        if pkg.value.None? {
          // A token was peeked, so `next_package` cannot find the end here.
          assert false;
        }
        statements := statements + [pkg.value.value];
      }
      // The `}` was peeked, so this advance cannot fail.
      var advanced := AdvanceToken();
      return Ok(StatementBlock(statements));
    }
  }
}
