/**
Which value a Terraform variable ends up with. tofu reads -var and -var-file arguments from
left to right and a later one wins; the controller's options are compared with a lookup in
layers: the variable map, then the last variable file defining the key, then the last var.
*/
module Precedence {
  import opened Common
  import opened Options
  import opened Parameters
  import C = ClusterResolve

  /** The variables a file of the given format defines. */
  type Parser = (Bytes, bool) -> map<string, string>

  function Find(s: string, c: char): nat
  {
    if s == "" || s[0] == c then 0 else 1 + Find(s[1..], c)
  }

  lemma {:induction false} FindFirst(s: string, c: char)
    ensures Find(s, c) <= |s|
    ensures c !in s[..Find(s, c)]
    ensures Find(s, c) < |s| ==> s[Find(s, c)] == c
    ensures c in s ==> Find(s, c) < |s|
  {
    if s != "" && s[0] != c {
      FindFirst(s[1..], c);
      assert s[..Find(s, c)] == [s[0]] + s[1..][..Find(s[1..], c)];
    }
  }

  /** "key=value" is cut at its first '='; without one tofu refuses it. */
  function Cut(s: string): Option<(string, string)> {
    var i := Find(s, '=');
    if i < |s| then Some((s[..i], s[i + 1..])) else None
  }

  lemma {:induction false} FindPast(k: string, rest: string)
    requires '=' !in k
    ensures Find(k + "=" + rest, '=') == |k|
  {
    var s := k + "=" + rest;
    if k != "" {
      assert s[0] == k[0] && s[1..] == k[1..] + "=" + rest;
      FindPast(k[1..], rest);
    }
  }

  /** A -var argument gives back its key and value exactly when the key has no '='. */
  lemma CutExact(k: string, v: string)
    ensures Cut(k + "=" + v) == Some((k, v)) <==> '=' !in k
  {
    var s := k + "=" + v;
    if '=' in k {
      FindFirst(k, '=');
      FindFirst(s, '=');
      assert s[Find(k, '=')] == '=' && s[..Find(k, '=')] == k[..Find(k, '=')];
    } else {
      FindPast(k, v);
      assert s[..|k|] == k && s[|k| + 1..] == v;
    }
  }

  /** The key and value that tofu reads from the argument made for a variable. */
  function AsRead(v: Var): Var {
    match Cut(v.key + "=" + v.val)
    case Some((k, val)) => Var(k, val)
    case None => v
  }

  /** They are the variable's own exactly when its key has no '='; a key that is read never has one. */
  lemma AsReadExact(v: Var)
    ensures AsRead(v) == v <==> '=' !in v.key
    ensures Cut(v.key + "=" + v.val) == Some((AsRead(v).key, AsRead(v).val))
    ensures '=' !in AsRead(v).key
  {
    var s := v.key + "=" + v.val;
    CutExact(v.key, v.val);
    FindFirst(s, '=');
    assert s[|v.key|] == '=';
  }

  function AllAsRead(vars: seq<Var>): (r: seq<Var>)
    ensures |r| == |vars| && forall i :: 0 <= i < |vars| ==> r[i] == AsRead(vars[i])
  {
    seq(|vars|, i requires 0 <= i < |vars| => AsRead(vars[i]))
  }

  const VAR := "-var="
  const VAR_FILE := "-var-file="

  /** One argument's effect on the variables defined so far. */
  function ReadArg(m: map<string, string>, arg: string, files: Files, parse: Parser): map<string, string> {
    if HasPrefix(arg, VAR) then
      match Cut(arg[|VAR|..])
      case None => m
      case Some((k, v)) => m[k := v]
    else if HasPrefix(arg, VAR_FILE) then
      var name := arg[|VAR_FILE|..];
      m + (if name in files then parse(files[name], IsJSONName(name)) else map[])
    else m
  }

  function ReadArgs(args: seq<string>, files: Files, parse: Parser): map<string, string> {
    if args == [] then map[]
    else ReadArg(ReadArgs(args[..|args| - 1], files, parse), args[|args| - 1], files, parse)
  }

  lemma ReadArgsSnoc(args: seq<string>, arg: string, files: Files, parse: Parser)
    ensures ReadArgs(args + [arg], files, parse) == ReadArg(ReadArgs(args, files, parse), arg, files, parse)
  {
    assert (args + [arg])[..|args|] == args;
  }

  lemma ReadVar(m: map<string, string>, v: Var, files: Files, parse: Parser)
    ensures ReadArg(m, "-var=" + v.key + "=" + v.val, files, parse) == m[AsRead(v).key := AsRead(v).val]
  {
    var arg := "-var=" + v.key + "=" + v.val;
    assert arg == VAR + (v.key + "=" + v.val);
    assert arg[..|VAR|] == VAR && arg[|VAR|..] == v.key + "=" + v.val;
    AsReadExact(v);
  }

  lemma ReadVarFile(m: map<string, string>, name: string, files: Files, parse: Parser)
    requires name in files
    ensures ReadArg(m, "-var-file=" + name, files, parse) == m + parse(files[name], IsJSONName(name))
  {
    var arg := "-var-file=" + name;
    assert arg[4] == '-' && VAR[4] == '=';
    assert arg[..|VAR_FILE|] == VAR_FILE && arg[|VAR_FILE|..] == name;
    assert !HasPrefix(arg, VAR) by {
      assert arg[..|VAR|][4] == arg[4];
    }
  }

  /** The layers: a later option hides what earlier ones say about its keys. */
  function Layer(m: map<string, string>, o: TofuOption, parse: Parser): map<string, string> {
    match o
    case WithArgs(_) => m
    case WithVar(k, v) => m[AsRead(Var(k, v)).key := AsRead(Var(k, v)).val]
    case WithVarFile(data, format) => m + parse(data, format == JSON)
  }

  function Layers(os: seq<TofuOption>, parse: Parser): map<string, string> {
    if os == [] then map[] else Layer(Layers(os[..|os| - 1], parse), os[|os| - 1], parse)
  }

  predicate Variables(os: seq<TofuOption>) {
    forall i :: 0 <= i < |os| ==> !os[i].WithArgs?
  }

  /** Reading the argument strings and written files gives exactly the layers. */
  lemma {:induction false} ArgumentsMeanLayers(os: seq<TofuOption>, files: Files, parse: Parser)
    requires Variables(os)
    requires Holds(files, VarFilesOf(os))
    ensures ReadArgs(ArgsOf(os), files, parse) == Layers(os, parse)
  {
    if os != [] {
      var before, o := os[..|os| - 1], os[|os| - 1];
      PrefixOptions(os, |os| - 1);
      assert Holds(files, VarFilesOf(before)) by {
        forall i | 0 <= i < |VarFilesOf(before)|
          ensures VarFilesOf(before)[i] == VarFilesOf(os)[i]
        {
        }
      }
      ArgumentsMeanLayers(before, files, parse);
      var n := |VarFilesOf(before)|;
      ReadArgsSnoc(ArgsOf(before), ArgsOfOne(o, n)[0], files, parse);
      match o {
        case WithVar(k, v) => ReadVar(Layers(before, parse), Var(k, v), files, parse);
        case WithVarFile(data, format) =>
          assert VarFilesOf(os)[n] == VarFile(data, FileName(n, format));
          FormatFromName(n, format);
          ReadVarFile(Layers(before, parse), FileName(n, format), files, parse);
      }
    }
  }

  // ---- The layered lookup -------------------------------------------------------------

  function Lookup(m: map<string, string>, key: string): Option<string> {
    if key in m then Some(m[key]) else None
  }

  /** The value of the last var with this key. */
  function LastVar(vars: seq<Var>, key: string): Option<string> {
    if vars == [] then None
    else if vars[|vars| - 1].key == key then Some(vars[|vars| - 1].val)
    else LastVar(vars[..|vars| - 1], key)
  }

  /** The value from the last variable file that defines this key. */
  function LastFile(fileOptions: seq<TofuOption>, parse: Parser, key: string): Option<string> {
    if fileOptions == [] then None
    else
      var o := fileOptions[|fileOptions| - 1];
      if o.WithVarFile? && key in parse(o.data, o.format == JSON)
      then Some(parse(o.data, o.format == JSON)[key])
      else LastFile(fileOptions[..|fileOptions| - 1], parse, key)
  }

  function Either(first: Option<string>, second: Option<string>): Option<string> {
    if first.Some? then first else second
  }

  /** The value of a key as the layers promise it, for parameters whose options resolve. */
  function Layered(keys: Keys, p: Parameters<ClusterRef>, parse: Parser, key: string): Option<string>
    requires C.OptionList(keys, p).Ok?
  {
    Either(LastFile(C.VarMapOption(keys, p.varMap).value, parse, key),
           Either(LastFile(C.VarFileOptions(keys, p.varFiles).value, parse, key), LastVar(AllAsRead(p.vars), key)))
  }

  lemma {:induction false} LayersOfVars(vars: seq<Var>, parse: Parser, key: string)
    ensures Lookup(Layers(C.VarOptions(vars), parse), key) == LastVar(AllAsRead(vars), key)
  {
    if vars != [] {
      assert AllAsRead(vars)[..|vars| - 1] == AllAsRead(vars[..|vars| - 1]);
      var os := C.VarOptions(vars);
      assert os[..|os| - 1] == C.VarOptions(vars[..|vars| - 1]);
      LayersOfVars(vars[..|vars| - 1], parse, key);
    }
  }

  predicate OnlyFiles(os: seq<TofuOption>) {
    forall i :: 0 <= i < |os| ==> os[i].WithVarFile?
  }

  lemma {:induction false} LayersOfFiles(before: seq<TofuOption>, os: seq<TofuOption>, parse: Parser, key: string)
    requires OnlyFiles(os)
    ensures Lookup(Layers(before + os, parse), key)
         == Either(LastFile(os, parse, key), Lookup(Layers(before, parse), key))
  {
    if os == [] {
      assert before + os == before;
    } else {
      assert (before + os)[..|before + os| - 1] == before + os[..|os| - 1];
      LayersOfFiles(before, os[..|os| - 1], parse, key);
    }
  }

  lemma {:induction false} VarFileOptionsAreFiles(keys: Keys, vfs: seq<VarFileRef<ClusterRef>>)
    requires C.VarFileOptions(keys, vfs).Ok?
    ensures OnlyFiles(C.VarFileOptions(keys, vfs).value)
  {
    if vfs != [] {
      VarFileOptionsAreFiles(keys, vfs[..|vfs| - 1]);
    }
  }

  /** What tofu makes of the options' argument strings and files, before a command's extra arguments. */
  function Effective(keys: Keys, p: Parameters<ClusterRef>, files: Files, parse: Parser, key: string): Option<string>
    requires C.OptionList(keys, p).Ok?
  {
    Lookup(ReadArgs(ArgsOf(C.OptionList(keys, p).value), files, parse), key)
  }

  /**
  Key by key that is the value in the variable map, else in the last variable file that has
  the key, else in the last var that is read under this key.
  */
  lemma VariablePrecedence(keys: Keys, p: Parameters<ClusterRef>, files: Files, parse: Parser, key: string)
    requires C.OptionList(keys, p).Ok? && Holds(files, VarFilesOf(C.OptionList(keys, p).value))
    ensures Effective(keys, p, files, parse, key) == Layered(keys, p, parse, key)
  {
    var os := C.OptionList(keys, p).value;
    var vars, fs := C.VarOptions(p.vars), C.VarFileOptions(keys, p.varFiles).value;
    var m := C.VarMapOption(keys, p.varMap).value;
    VarFileOptionsAreFiles(keys, p.varFiles);
    assert Variables(os);
    ArgumentsMeanLayers(os, files, parse);
    LayersOfFiles(vars + fs, m, parse, key);
    LayersOfFiles(vars, fs, parse, key);
    LayersOfVars(p.vars, parse, key);
  }

  lemma {:induction false} FilesAfterVars(vars: seq<Var>, os: seq<TofuOption>)
    ensures VarFilesOf(C.VarOptions(vars) + os) == VarFilesOf(os)
  {
    var all := C.VarOptions(vars) + os;
    if os == [] {
      assert all == C.VarOptions(vars);
      C.VarsMakeNoFiles(vars);
    } else {
      assert all[..|all| - 1] == C.VarOptions(vars) + os[..|os| - 1];
      FilesAfterVars(vars, os[..|os| - 1]);
    }
  }

  /** Other vars ask for the same variable files. */
  lemma SameFiles(keys: Keys, p: Parameters<ClusterRef>, vars: seq<Var>)
    requires C.OptionList(keys, p).Ok?
    ensures C.OptionList(keys, p.(vars := vars)).Ok?
    ensures VarFilesOf(C.OptionList(keys, p.(vars := vars)).value) == VarFilesOf(C.OptionList(keys, p).value)
  {
    var fs, m := C.VarFileOptions(keys, p.varFiles).value, C.VarMapOption(keys, p.varMap).value;
    assert C.VarOptions(vars) + fs + m == C.VarOptions(vars) + (fs + m);
    assert C.VarOptions(p.vars) + fs + m == C.VarOptions(p.vars) + (fs + m);
    FilesAfterVars(vars, fs + m);
    FilesAfterVars(p.vars, fs + m);
  }

  /** A variable file or the variable map has the key. */
  predicate InFiles(keys: Keys, p: Parameters<ClusterRef>, parse: Parser, key: string)
    requires C.OptionList(keys, p).Ok?
  {
    || LastFile(C.VarMapOption(keys, p.varMap).value, parse, key).Some?
    || LastFile(C.VarFileOptions(keys, p.varFiles).value, parse, key).Some?
  }

  /** Some vars that give the key another value than these do. */
  function OtherVars(vars: seq<Var>, key: string): seq<Var> {
    [Var(key, if LastVar(AllAsRead(vars), key) == Some("a") then "b" else "a")]
  }

  lemma OtherVarsDiffer(vars: seq<Var>, key: string)
    requires '=' !in key
    ensures LastVar(AllAsRead(OtherVars(vars, key)), key) != LastVar(AllAsRead(vars), key)
  {
    var v := OtherVars(vars, key)[0];
    AsReadExact(v);
    assert AllAsRead([v]) == [v];
  }

  lemma {:induction false} NeverRead(vars: seq<Var>, key: string)
    requires '=' in key
    ensures LastVar(AllAsRead(vars), key) == None
  {
    if vars != [] {
      AsReadExact(vars[|vars| - 1]);
      assert AllAsRead(vars)[..|vars| - 1] == AllAsRead(vars[..|vars| - 1]);
      NeverRead(vars[..|vars| - 1], key);
    }
  }

  /**
  Explicit vars do not take precedence: no choice of vars makes a difference to what tofu reads
  for a key exactly when a variable file or the variable map has it (or no -var can name it).
  */
  lemma ExplicitVarsYieldToFiles(keys: Keys, p: Parameters<ClusterRef>, files: Files, parse: Parser, key: string)
    requires C.OptionList(keys, p).Ok? && Holds(files, VarFilesOf(C.OptionList(keys, p).value))
    ensures (forall vars: seq<Var> :: C.OptionList(keys, p.(vars := vars)).Ok?
               && Effective(keys, p.(vars := vars), files, parse, key) == Effective(keys, p, files, parse, key))
        <==> InFiles(keys, p, parse, key) || '=' in key
  {
    VariablePrecedence(keys, p, files, parse, key);
    if InFiles(keys, p, parse, key) || '=' in key {
      forall vars: seq<Var>
        ensures C.OptionList(keys, p.(vars := vars)).Ok?
          && Effective(keys, p.(vars := vars), files, parse, key) == Effective(keys, p, files, parse, key)
      {
        SameFiles(keys, p, vars);
        VariablePrecedence(keys, p.(vars := vars), files, parse, key);
        if '=' in key {
          NeverRead(vars, key);
          NeverRead(p.vars, key);
        }
      }
    } else {
      var other := OtherVars(p.vars, key);
      OtherVarsDiffer(p.vars, key);
      SameFiles(keys, p, other);
      VariablePrecedence(keys, p.(vars := other), files, parse, key);
      assert Effective(keys, p.(vars := other), files, parse, key) != Effective(keys, p, files, parse, key);
    }
  }
}
