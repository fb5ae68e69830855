/** The builtin functions of the second generation's VM
    (src/vm/builtins.rs): the registry that maps names to builtins, and the
    argument checks of `println`, `exec`, `env` and `typename`.

    The second generation's value type, its error type and the VM that
    holds the registry are not part of this model; the declarations below
    give them the shape builtins.rs relies on. What the builtins do outside
    the interpreter (printing, starting a process, reading the environment)
    is passed in as a function: `show` for `Display`, `spawn` for starting
    and waiting for a process, `lookup` for `std::env::var`, and `typeName`
    for `VmType`'s `Display`. */
module Builtins {
  import opened Wrappers
  import opened Decimal
  import opened Common
  import VmTypes

  /** A value: one form per type tag of `VmType` other than `Vary`. */
  datatype Variant =
    | Unit
    | Bool(b: bool)
    | Integer(i: i64)
    | String(s: string)
    | Array(items: seq<Variant>)

  /** `get_typeinfo`: the tag of a value's form. */
  function GetTypeinfo(v: Variant): (t: VmTypes.VmType)
    ensures t != VmTypes.Vary
  {
    match v
    case Unit => VmTypes.Unit
    case Bool(_) => VmTypes.Bool
    case Integer(_) => VmTypes.Integer
    case String(_) => VmTypes.String
    case Array(_) => VmTypes.Array
  }

  /** Two values have the same tag exactly when they have the same form. */
  lemma TypeinfoIsForm(a: Variant, b: Variant)
    ensures GetTypeinfo(a) == GetTypeinfo(b) <==>
      (a.Unit? && b.Unit?) || (a.Bool? && b.Bool?) || (a.Integer? && b.Integer?)
      || (a.String? && b.String?) || (a.Array? && b.Array?)
  {
  }

  /** What went wrong: a wrong number of arguments, a value of the wrong
      type named by text, or a conversion to a native value that failed. */
  datatype ErrorKind =
    | WrongArgCount(expectedCount: nat, gotCount: nat)
    | InvalidValueType(expectedName: string, gotName: string)
    | NotNative(expectedType: VmTypes.VmType, gotType: VmTypes.VmType)

  /** Where it went wrong: nowhere in particular, in a call, or in one
      argument of a call. */
  datatype ErrorContext =
    | NoContext
    | InFuncCall(location: Location, funcName: string)
    | InFuncArg(location: Location, funcName: string, argName: string)

  datatype VmError = VmError(kind: ErrorKind, context: ErrorContext)

  /** `with_context_func_call` / `with_context_func_arg`. */
  function WithContext(e: VmError, context: ErrorContext): (r: VmError)
    ensures r.kind == e.kind && r.context == context
  {
    e.(context := context)
  }

  /** `try_native::<Vec<VmVariant>>`: the elements of an array. */
  function TryNativeArray(v: Variant): (r: Result<seq<Variant>, VmError>)
    ensures r.Ok? <==> v.Array?
  {
    if v.Array? then Ok(v.items) else Err(VmError(NotNative(VmTypes.Array, GetTypeinfo(v)), NoContext))
  }

  /** `try_native::<String>`: the text of a string. */
  function TryNativeString(v: Variant): (r: Result<string, VmError>)
    ensures r.Ok? <==> v.String?
  {
    if v.String? then Ok(v.s) else Err(VmError(NotNative(VmTypes.String, GetTypeinfo(v)), NoContext))
  }

  /** The texts of values that are all strings. */
  function Strings(vs: seq<Variant>): (r: seq<string>)
    requires forall k :: 0 <= k < |vs| ==> vs[k].String?
    ensures |r| == |vs| && forall k :: 0 <= k < |vs| ==> r[k] == vs[k].s
  {
    if vs == [] then [] else [vs[0].s] + Strings(vs[1..])
  }

  // ---------------------------------------------------------------------
  // The registry

  /** The builtin functions of the source. */
  datatype Builtin = Println | Exec | Env | Typename

  /** `register_builtin` on the registry: `name` now maps to `builtin`,
      replacing any earlier entry. */
  function Register(builtins: map<string, Builtin>, name: string, builtin: Builtin): (r: map<string, Builtin>)
    ensures name in r && r[name] == builtin
    ensures forall n :: n != name ==> (n in r <==> n in builtins)
    ensures forall n :: n != name && n in builtins ==> r[n] == builtins[n]
  {
    builtins[name := builtin]
  }

  /** `register_default_builtins` on the registry. */
  function DefaultBuiltins(builtins: map<string, Builtin>): map<string, Builtin> {
    Register(Register(Register(Register(builtins, "println", Println), "exec", Exec), "env", Env), "typename", Typename)
  }

  /** The default builtins are exactly `println`, `exec`, `env` and
      `typename`, each bound to its own function, and every other entry is
      left alone. */
  lemma DefaultBuiltinsExactly(builtins: map<string, Builtin>)
    ensures DefaultBuiltins(builtins).Keys == builtins.Keys + {"println", "exec", "env", "typename"}
    ensures DefaultBuiltins(map[]).Keys == {"println", "exec", "env", "typename"}
    ensures var d := DefaultBuiltins(builtins);
      d["println"] == Println && d["exec"] == Exec && d["env"] == Env && d["typename"] == Typename
    ensures forall n :: n in builtins && n != "println" && n != "exec" && n != "env" && n != "typename" ==>
      DefaultBuiltins(builtins)[n] == builtins[n]
  {
    var c := "typename";
    assert c[0] == 't';
    var e := "env";
    assert e[0] == 'e' && e[1] == 'n';
    var x := "exec";
    assert x[0] == 'e' && x[1] == 'x';
    var p := "println";
    assert p[0] == 'p';
  }

  // ---------------------------------------------------------------------
  // println

  /** Texts separated by single spaces. */
  function Joined(items: seq<string>): string {
    if items == [] then ""
    else if |items| == 1 then items[0]
    else items[0] + " " + Joined(items[1..])
  }

  /** The texts `show` gives for `args`. */
  function Shown(args: seq<Variant>, show: Variant -> string): (r: seq<string>)
    ensures |r| == |args| && forall k :: 0 <= k < |args| ==> r[k] == show(args[k])
  {
    if args == [] then [] else [show(args[0])] + Shown(args[1..], show)
  }

  /** Adding a text at the end adds a space and the text. */
  lemma {:induction false} JoinedSnoc(items: seq<string>, last: string)
    requires items != []
    ensures Joined(items + [last]) == Joined(items) + " " + last
    decreases |items|
  {
    if |items| == 1 {
      assert items + [last] == [items[0], last];
    } else {
      assert (items + [last])[1..] == items[1..] + [last];
      JoinedSnoc(items[1..], last);
    }
  }

  /** The pieces of a text between its spaces. */
  function SplitSpaces(s: string): (r: seq<string>)
    ensures |r| >= 1
  {
    if s == [] then [""]
    else
      var rest := SplitSpaces(s[1..]);
      if s[0] == ' ' then [""] + rest else [[s[0]] + rest[0]] + rest[1..]
  }

  predicate NoSpace(s: string) {
    forall k :: 0 <= k < |s| ==> s[k] != ' '
  }

  /** A text without spaces, followed by a space and more, splits into that
      text and the pieces of the rest. */
  lemma {:induction false} SplitSpacesPiece(a: string, b: string)
    requires NoSpace(a)
    ensures SplitSpaces(a + " " + b) == [a] + SplitSpaces(b)
    ensures SplitSpaces(a) == [a]
    decreases |a|
  {
    if a == [] {
      assert a + " " + b == [' '] + b;
      assert (a + " " + b)[1..] == b;
    } else {
      SplitSpacesPiece(a[1..], b);
      assert (a + " " + b)[1..] == a[1..] + " " + b;
      assert [a[0]] + a[1..] == a;
    }
  }

  /** The line `println` prints gives back the shown arguments when none
      of them contains a space: one space between two arguments, none
      elsewhere. */
  lemma {:induction false} SplitJoined(items: seq<string>)
    requires items != [] && forall k :: 0 <= k < |items| ==> NoSpace(items[k])
    ensures SplitSpaces(Joined(items)) == items
    decreases |items|
  {
    if |items| == 1 {
      SplitSpacesPiece(items[0], "");
    } else {
      SplitJoined(items[1..]);
      SplitSpacesPiece(items[0], Joined(items[1..]));
      assert [items[0]] + items[1..] == items;
    }
  }

  // ---------------------------------------------------------------------
  // exec

  /** What `exec` asks the system to run: a program and its arguments. */
  datatype Command = Command(program: string, args: seq<string>)

  /** How starting the process went: it could not be spawned, or it ran
      and `wait` returned this raw status. */
  datatype SpawnOutcome = SpawnFailed | Exited(rawStatus: i32)

  /** The options loop of `builtin_exec` from element `i`, with the options
      `acc` collected so far: every element must be a string. */
  function OptionsFrom(elems: seq<Variant>, i: nat, acc: seq<string>): Option<seq<string>>
    requires i <= |elems|
    decreases |elems| - i
  {
    if i == |elems| then Some(acc)
    else if elems[i].String? then OptionsFrom(elems, i + 1, acc + [elems[i].s])
    else None
  }

  /** The options loop accepts exactly arrays of strings, and collects
      their texts in order. */
  lemma {:induction false} OptionsFromMeaning(elems: seq<Variant>, i: nat, acc: seq<string>)
    requires i <= |elems|
    ensures OptionsFrom(elems, i, acc).Some? <==> forall k :: i <= k < |elems| ==> elems[k].String?
    ensures OptionsFrom(elems, i, acc).Some? ==> OptionsFrom(elems, i, acc).value == acc + Strings(elems[i..])
    decreases |elems| - i
  {
    if i < |elems| && elems[i].String? {
      OptionsFromMeaning(elems, i + 1, acc + [elems[i].s]);
      assert elems[i..][1..] == elems[i + 1..];
    }
  }

  /** The name `exec` gives its `idx`-th command argument in errors. */
  function CommandArgName(idx: nat): (n: string)
    ensures |n| > 11 && n[..11] == "command_arg"
  {
    "command_arg" + NatToString(idx)
  }

  /** The command-argument loop of `builtin_exec` from argument `i`, with
      the texts `acc` collected so far. */
  function CommandArgsFrom(caller: Location, name: string, rest: seq<Variant>, i: nat, acc: seq<string>): Result<seq<string>, VmError>
    requires i <= |rest|
    decreases |rest| - i
  {
    if i == |rest| then Ok(acc)
    else
      var a := TryNativeString(rest[i]);
      if a.Err? then Err(WithContext(a.error, InFuncArg(caller, name, CommandArgName(i))))
      else CommandArgsFrom(caller, name, rest, i + 1, acc + [a.value])
  }

  /** The command-argument loop succeeds exactly when every argument is a
      string, and then collects their texts in order. */
  lemma {:induction false} CommandArgsMeaning(caller: Location, name: string, rest: seq<Variant>, i: nat, acc: seq<string>)
    requires i <= |rest|
    ensures CommandArgsFrom(caller, name, rest, i, acc).Ok? <==> forall k :: i <= k < |rest| ==> rest[k].String?
    ensures CommandArgsFrom(caller, name, rest, i, acc).Ok? ==>
      CommandArgsFrom(caller, name, rest, i, acc).value == acc + Strings(rest[i..])
    decreases |rest| - i
  {
    if i < |rest| && rest[i].String? {
      CommandArgsMeaning(caller, name, rest, i + 1, acc + [rest[i].s]);
      assert rest[i..][1..] == rest[i + 1..];
    }
  }

  /** The first command argument `k` that is not a string is reported under
      its own index. */
  lemma {:induction false} CommandArgsFirstBad(caller: Location, name: string, rest: seq<Variant>, i: nat, acc: seq<string>, k: nat)
    requires i <= k < |rest| && !rest[k].String? && forall j :: i <= j < k ==> rest[j].String?
    ensures CommandArgsFrom(caller, name, rest, i, acc)
      == Err(VmError(NotNative(VmTypes.String, GetTypeinfo(rest[k])), InFuncArg(caller, name, CommandArgName(k))))
    decreases k - i
  {
    if i < k {
      CommandArgsFirstBad(caller, name, rest, i + 1, acc + [rest[i].s], k);
    }
  }

  /** `builtin_exec`: the options array, the command and its arguments are
      checked in that order; the options are checked but not passed on; a
      process that cannot be spawned gives -1, one that ran gives its raw
      wait status. */
  function ExecSpec(caller: Location, name: string, args: seq<Variant>, spawn: Command -> SpawnOutcome): Result<Variant, VmError> {
    if args == [] then Err(VmError(WrongArgCount(1, 0), InFuncCall(caller, name)))
    else
      var elems := TryNativeArray(args[0]);
      if elems.Err? then Err(elems.error)
      else if OptionsFrom(elems.value, 0, []).None? then
        Err(VmError(InvalidValueType("String[]", "Vary[]"), InFuncArg(caller, name, "exec_opt")))
      else if |args| == 1 then Err(VmError(WrongArgCount(2, 1), InFuncCall(caller, name)))
      else
        var command := TryNativeString(args[1]);
        if command.Err? then Err(WithContext(command.error, InFuncArg(caller, name, "command")))
        else
          var cmdArgs := CommandArgsFrom(caller, name, args[2..], 0, []);
          if cmdArgs.Err? then Err(cmdArgs.error)
          else
            match spawn(Command(command.value, cmdArgs.value))
            case SpawnFailed => Ok(Integer(-1))
            case Exited(status) => Ok(Integer(status))
  }

  /** Arguments `exec` accepts: an array of strings, then a command and its
      arguments, all strings. */
  predicate ExecArgsValid(args: seq<Variant>) {
    && |args| >= 2
    && args[0].Array? && (forall k :: 0 <= k < |args[0].items| ==> args[0].items[k].String?)
    && forall k :: 1 <= k < |args| ==> args[k].String?
  }

  /** Without arguments, `exec` asks for one. */
  lemma ExecNoArgs(caller: Location, name: string, spawn: Command -> SpawnOutcome)
    ensures ExecSpec(caller, name, [], spawn) == Err(VmError(WrongArgCount(1, 0), InFuncCall(caller, name)))
  {
  }

  /** With only a valid options array, `exec` asks for two arguments. */
  lemma ExecOnlyOptions(caller: Location, name: string, options: seq<Variant>, spawn: Command -> SpawnOutcome)
    requires forall k :: 0 <= k < |options| ==> options[k].String?
    ensures ExecSpec(caller, name, [Array(options)], spawn) == Err(VmError(WrongArgCount(2, 1), InFuncCall(caller, name)))
  {
    OptionsFromMeaning(options, 0, []);
  }

  /** An option that is not a string is rejected, naming the argument
      `exec_opt`, before the count of the other arguments is checked. */
  lemma ExecBadOption(caller: Location, name: string, args: seq<Variant>, k: nat, spawn: Command -> SpawnOutcome)
    requires |args| >= 1 && args[0].Array? && k < |args[0].items| && !args[0].items[k].String?
    ensures ExecSpec(caller, name, args, spawn)
      == Err(VmError(InvalidValueType("String[]", "Vary[]"), InFuncArg(caller, name, "exec_opt")))
  {
    OptionsFromMeaning(args[0].items, 0, []);
  }

  /** `exec` succeeds exactly on valid arguments, and then runs the
      command with its arguments in order, whatever the options: a process
      that cannot be spawned gives -1 instead of an error. */
  lemma ExecRuns(caller: Location, name: string, args: seq<Variant>, spawn: Command -> SpawnOutcome)
    ensures ExecSpec(caller, name, args, spawn).Ok? <==> ExecArgsValid(args)
    ensures ExecArgsValid(args) ==>
      var outcome := spawn(Command(args[1].s, Strings(args[2..])));
      ExecSpec(caller, name, args, spawn) == Ok(Integer(if outcome.SpawnFailed? then -1 else outcome.rawStatus))
  {
    if |args| >= 1 && args[0].Array? {
      OptionsFromMeaning(args[0].items, 0, []);
      assert args[0].items[0..] == args[0].items;
    }
    if |args| >= 2 {
      CommandArgsMeaning(caller, name, args[2..], 0, []);
      assert args[2..][0..] == args[2..];
      if ExecArgsValid(args) {
        assert forall k :: 0 <= k < |args[2..]| ==> args[2..][k] == args[k + 2];
        assert forall k :: 0 <= k < |args[2..]| ==> args[2..][k].String?;
        var cmdArgs := CommandArgsFrom(caller, name, args[2..], 0, []);
        assert [] + Strings(args[2..]) == Strings(args[2..]);
        assert cmdArgs == Ok(Strings(args[2..]));
        assert OptionsFrom(args[0].items, 0, []).Some?;
        assert TryNativeString(args[1]) == Ok(args[1].s);
      }
    }
  }

  /** The first command argument that is not a string is reported under
      its index, counted from the first argument after the command. */
  lemma ExecBadCommandArg(caller: Location, name: string, args: seq<Variant>, k: nat, spawn: Command -> SpawnOutcome)
    requires |args| >= 2 && args[0].Array? && (forall j :: 0 <= j < |args[0].items| ==> args[0].items[j].String?)
    requires args[1].String?
    requires 2 <= k < |args| && !args[k].String? && forall j :: 2 <= j < k ==> args[j].String?
    ensures ExecSpec(caller, name, args, spawn)
      == Err(VmError(NotNative(VmTypes.String, GetTypeinfo(args[k])), InFuncArg(caller, name, CommandArgName(k - 2))))
  {
    OptionsFromMeaning(args[0].items, 0, []);
    assert forall j :: 0 <= j < k - 2 ==> args[2..][j] == args[j + 2];
    CommandArgsFirstBad(caller, name, args[2..], 0, [], k - 2);
  }

  // ---------------------------------------------------------------------
  // env and typename

  /** The location `env` and `typename` report a wrong argument count at:
      `Location::new_z(0, 0, "")`, whoever the caller is. */
  function ZeroLocation(): (loc: Location)
    ensures loc.lineZ == 0 && loc.colZ == 0 && loc.Line() == 1 && loc.Column() == 1 && loc.File() == ""
  {
    NewZ(0, 0, "")
  }

  /** `builtin_env`: one string argument, the name of an environment
      variable; its value, or `Unit` when `lookup` finds none. */
  function EnvSpec(caller: Location, funcName: string, args: seq<Variant>, lookup: string -> Option<string>): (r: Result<Variant, VmError>)
    ensures |args| != 1 ==> r == Err(VmError(WrongArgCount(1, |args|), InFuncCall(ZeroLocation(), funcName)))
    ensures r.Ok? <==> |args| == 1 && args[0].String?
    ensures |args| == 1 && !args[0].String? ==>
      r == Err(VmError(NotNative(VmTypes.String, GetTypeinfo(args[0])), InFuncArg(caller, funcName, "env_var")))
    ensures r.Ok? ==> r.value == (if lookup(args[0].s).Some? then String(lookup(args[0].s).value) else Unit)
  {
    if |args| != 1 then Err(VmError(WrongArgCount(1, |args|), InFuncCall(ZeroLocation(), funcName)))
    else
      var envName := TryNativeString(args[0]);
      if envName.Err? then Err(WithContext(envName.error, InFuncArg(caller, funcName, "env_var")))
      else match lookup(envName.value)
        case Some(v) => Ok(String(v))
        case None => Ok(Unit)
  }

  /** `builtin_typename`: one argument, whose type tag is returned as
      text. */
  function TypenameSpec(funcName: string, args: seq<Variant>, typeName: VmTypes.VmType -> string): (r: Result<Variant, VmError>)
    ensures |args| != 1 ==> r == Err(VmError(WrongArgCount(1, |args|), InFuncCall(ZeroLocation(), funcName)))
    ensures r.Ok? <==> |args| == 1
    ensures r.Ok? ==> r.value.String? && r.value.s == typeName(GetTypeinfo(args[0]))
  {
    if |args| != 1 then Err(VmError(WrongArgCount(1, |args|), InFuncCall(ZeroLocation(), funcName)))
    else Ok(String(typeName(GetTypeinfo(args[0]))))
  }

  /** A wrong argument count of `env` or `typename` is reported at the
      zeroed location, so the error is the same whoever calls; `exec`
      reports its own at the caller. */
  lemma ArityErrorIgnoresCaller(c1: Location, c2: Location, funcName: string, args: seq<Variant>,
                                lookup: string -> Option<string>, spawn: Command -> SpawnOutcome)
    requires |args| != 1
    ensures EnvSpec(c1, funcName, args, lookup) == EnvSpec(c2, funcName, args, lookup)
    ensures EnvSpec(c1, funcName, args, lookup).error.context.location == ZeroLocation()
    ensures ExecSpec(c1, funcName, [], spawn).error.context.location == c1
  {
  }

  /** When the tag names are distinct, `typename` tells values of different
      forms apart and gives values of one form the same name. */
  lemma TypenameSeparatesForms(funcName: string, a: Variant, b: Variant, typeName: VmTypes.VmType -> string)
    requires forall t1, t2 :: typeName(t1) == typeName(t2) ==> t1 == t2
    ensures TypenameSpec(funcName, [a], typeName) == TypenameSpec(funcName, [b], typeName) <==> GetTypeinfo(a) == GetTypeinfo(b)
  {
    var ra := TypenameSpec(funcName, [a], typeName);
    var rb := TypenameSpec(funcName, [b], typeName);
    if ra == rb {
      assert typeName(GetTypeinfo(a)) == typeName(GetTypeinfo(b));
    }
  }

  // ---------------------------------------------------------------------
  // The VM's registry and the builtins with loops

  /** The part of the VM the builtins use: its registry. */
  class Vm {
    var builtins: map<string, Builtin>

    /** `register_builtin`. */
    method RegisterBuiltin(name: string, builtin: Builtin)
      modifies this
      ensures builtins == Register(old(builtins), name, builtin)
    {
      builtins := builtins[name := builtin];
    }

    /** `register_default_builtins`. */
    method RegisterDefaultBuiltins()
      modifies this
      ensures builtins == DefaultBuiltins(old(builtins))
    {
      RegisterBuiltin("println", Println);
      RegisterBuiltin("exec", Exec);
      RegisterBuiltin("env", Env);
      RegisterBuiltin("typename", Typename);
    }

    /** `builtin_println`: the arguments as `show` renders them, separated
        by spaces and followed by a newline; the result is always `Unit`. */
    method BuiltinPrintln(name: string, args: seq<Variant>, show: Variant -> string) returns (r: Result<Variant, VmError>, printed: string)
      ensures r == Ok(Unit)
      ensures printed == Joined(Shown(args, show)) + "\n"
    {
      printed := "";
      if args != [] {
        printed := show(args[0]);
      }
      var i := 1;
      while i < |args|
        invariant 1 <= i && (args != [] ==> i <= |args|)
        invariant printed == Joined(Shown(args, show)[..if args == [] then 0 else i])
      {
        JoinedSnoc(Shown(args, show)[..i], show(args[i]));
        assert Shown(args, show)[..i + 1] == Shown(args, show)[..i] + [show(args[i])];
        printed := printed + " " + show(args[i]);
        i := i + 1;
      }
      assert Shown(args, show)[..if args == [] then 0 else i] == Shown(args, show);
      printed := printed + "\n";
      return Ok(Unit), printed;
    }

    /** `builtin_exec`. */
    method BuiltinExec(caller: Location, name: string, args: seq<Variant>, spawn: Command -> SpawnOutcome) returns (r: Result<Variant, VmError>)
      ensures r == ExecSpec(caller, name, args, spawn)
    {
      if |args| == 0 {
        return Err(VmError(WrongArgCount(1, 0), InFuncCall(caller, name)));
      }
      var rest := args[1..];
      var elems := TryNativeArray(args[0]);
      if elems.Err? {
        return Err(elems.error);
      }
      var options: seq<string> := [];
      var i := 0;
      while i < |elems.value|
        invariant i <= |elems.value|
        invariant OptionsFrom(elems.value, i, options) == OptionsFrom(elems.value, 0, [])
      {
        var elem := elems.value[i];
        if !elem.String? {
          return Err(VmError(InvalidValueType("String[]", "Vary[]"), InFuncArg(caller, name, "exec_opt")));
        }
        options := options + [elem.s];
        i := i + 1;
      }
      if |rest| == 0 {
        return Err(VmError(WrongArgCount(2, 1), InFuncCall(caller, name)));
      }
      var command := TryNativeString(rest[0]);
      if command.Err? {
        return Err(WithContext(command.error, InFuncArg(caller, name, "command")));
      }
      rest := rest[1..];
      assert rest == args[2..];
      var cmdArgs: seq<string> := [];
      var idx := 0;
      while idx < |rest|
        invariant idx <= |rest|
        invariant CommandArgsFrom(caller, name, rest, idx, cmdArgs) == CommandArgsFrom(caller, name, rest, 0, [])
      {
        var cmdArg := TryNativeString(rest[idx]);
        if cmdArg.Err? {
          return Err(WithContext(cmdArg.error, InFuncArg(caller, name, CommandArgName(idx))));
        }
        cmdArgs := cmdArgs + [cmdArg.value];
        idx := idx + 1;
      }
      var outcome := spawn(Command(command.value, cmdArgs));
      if outcome.SpawnFailed? {
        return Ok(Integer(-1));
      }
      return Ok(Integer(outcome.rawStatus));
    }
  }
}
