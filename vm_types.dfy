/** The second generation's value types and function table entries
    (src/vm/types.rs). */
module VmTypes {
  import opened Ast

  /** `VmType`: the type tags of values, with `Vary` for "any type". */
  datatype VmType = Vary | Unit | Bool | Integer | String | Array

  /** `FunctionData`: a declared function's parameters, body and return
      type. */
  datatype FunctionData = FunctionData(args: seq<string>, packages: seq<ParsedPackage>, returnType: VmType)

  /** `From<FuncDecl> for (String, FunctionData)`: the name becomes the
      key; the parameters and the block's statements are kept in order, and
      the return type is always `Vary`. */
  function FromFuncDecl(d: Ast.FuncDecl): (entry: (string, FunctionData))
    ensures entry.1.returnType == Vary
  {
    (d.name, FunctionData(d.args, d.block.statements, Vary))
  }

  /** The declaration an entry of the function table was made from. */
  function ToFuncDecl(entry: (string, FunctionData)): (d: Ast.FuncDecl) {
    Ast.FuncDecl.FuncDecl(entry.0, entry.1.args, StatementBlock(entry.1.packages))
  }

  /** The conversion loses nothing: the declaration comes back from its
      entry, and an entry whose return type is `Vary` comes back from its
      declaration. */
  lemma FuncDeclRoundTrip(d: Ast.FuncDecl, entry: (string, FunctionData))
    ensures ToFuncDecl(FromFuncDecl(d)) == d
    ensures entry.1.returnType == Vary ==> FromFuncDecl(ToFuncDecl(entry)) == entry
  {
  }

  /** The entry is keyed by the declaration's name, and holds its
      parameters and statements in order. */
  lemma FromFuncDeclKeeps(d: Ast.FuncDecl)
    ensures var entry := FromFuncDecl(d);
      && entry.0 == d.name
      && |entry.1.args| == |d.args| && (forall i :: 0 <= i < |d.args| ==> entry.1.args[i] == d.args[i])
      && |entry.1.packages| == |d.block.statements|
      && (forall i :: 0 <= i < |d.block.statements| ==> entry.1.packages[i] == d.block.statements[i])
  {
  }

  /** Different declarations give different entries. */
  lemma FromFuncDeclInjective(a: Ast.FuncDecl, b: Ast.FuncDecl)
    ensures FromFuncDecl(a) == FromFuncDecl(b) ==> a == b
  {
    FuncDeclRoundTrip(a, FromFuncDecl(a));
    FuncDeclRoundTrip(b, FromFuncDecl(b));
  }
}
