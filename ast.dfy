/** The syntax tree of the second generation (src/parser/types.rs; the same
    declarations are repeated in src/parser/legacy.rs, and src/parser/mod.rs
    uses those). Every statement kind that owns statements does so through
    one `StatementBlock`, so a tree is always finite: the datatypes below are
    inductive. */
module Ast {
  import opened Decimal
  import opened Common

  /** `LocatedType<T>`: a value with the location it came from. */
  datatype LocatedType<T> = LocatedType(inner: T, location: Location)

  /** `LocatedType::new`. */
  function NewLocated<T>(inner: T, location: Location): (l: LocatedType<T>)
    ensures l.inner == inner && l.location == location
  {
    LocatedType(inner, location)
  }

  /** `as_ref`: the wrapped value. */
  function AsRef<T>(l: LocatedType<T>): T {
    l.inner
  }

  /** Wrapping and unwrapping give back the value, and a located value is
      determined by its parts. */
  lemma LocatedRoundTrip<T>(inner: T, location: Location, l: LocatedType<T>)
    ensures AsRef(NewLocated(inner, location)) == inner
    ensures NewLocated(AsRef(l), l.location) == l
  {
  }

  datatype IfStatement = IfStatement(val: Expr, block: StatementBlock)

  datatype FuncCallExpr = FuncCallExpr(name: string, args: seq<Expr>)

  datatype ArrayExpr = ArrayExpr(args: seq<Expr>)

  datatype VarAssign = VarAssign(name: string, val: Expr)

  datatype FuncDecl = FuncDecl(name: string, args: seq<string>, block: StatementBlock)

  datatype StatementBlock = StatementBlock(statements: seq<ParsedPackage>)

  datatype Expr =
    | IntLiteral(i: i64)
    | StringLiteral(s: string)
    | BoolLiteral(b: bool)
    | Identifier(id: string)
    | FuncCall(call: FuncCallExpr)
    | Array(array: ArrayExpr)

  datatype ParsedHighLevel =
    | Noop
    | VarDecl(decl: VarAssign)
    | VarSet(assign: VarAssign)
    | FuncDecl(func: FuncDecl)
    | FuncCall(call: FuncCallExpr)
    | If(ifStatement: IfStatement)

  datatype ParsedPackage = ParsedPackage(source: string, parsed: ParsedHighLevel)
}
