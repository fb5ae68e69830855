/** Runtime values of the first-generation VM (src/vm/variant.rs): a value
    and its type tag, and the conversion of literal expressions. */
module OldVariant {
  import opened Decimal
  import OldParser

  /** `VmType`. */
  datatype VmType = Unit | Integer | String | Array

  /** `VmVariant`. */
  datatype VmVariant =
    | Unit
    | Integer(i: i64)
    | String(s: string)
    | Array(items: seq<VmVariant>)

  /** `get_typeinfo`: the tag of each value. */
  function GetTypeinfo(v: VmVariant): (t: VmType)
    ensures t == VmType.Unit <==> v.Unit?
    ensures t == VmType.Integer <==> v.Integer?
    ensures t == VmType.String <==> v.String?
    ensures t == VmType.Array <==> v.Array?
  {
    match v
    case Unit => VmType.Unit
    case Integer(_) => VmType.Integer
    case String(_) => VmType.String
    case Array(_) => VmType.Array
  }

  /** The expressions `From<Expr>` converts; identifiers and calls reach a
      `todo!()`. */
  predicate IsLiteral(e: OldParser.Expr) {
    e.IntLiteral? || e.StringLiteral?
  }

  /** `From<Expr> for VmVariant` on literals. */
  function FromExpr(e: OldParser.Expr): (v: VmVariant)
    requires IsLiteral(e)
    ensures e.IntLiteral? ==> v == VmVariant.Integer(e.i)
    ensures e.StringLiteral? ==> v == VmVariant.String(e.s)
  {
    match e
    case IntLiteral(i) => VmVariant.Integer(i)
    case StringLiteral(s) => VmVariant.String(s)
  }

  /** The conversion keeps the kind of literal as the type tag... */
  lemma FromExprType(e: OldParser.Expr)
    requires IsLiteral(e)
    ensures GetTypeinfo(FromExpr(e)) == if e.IntLiteral? then VmType.Integer else VmType.String
  {
  }

  /** ...and loses nothing: distinct literals give distinct values. */
  lemma FromExprInjective(a: OldParser.Expr, b: OldParser.Expr)
    requires IsLiteral(a) && IsLiteral(b)
    requires FromExpr(a) == FromExpr(b)
    ensures a == b
  {
  }
}
