/** Environment and options of the cluster-scoped controller. */
module ClusterResolve {
  import opened Common
  import opened Results
  import opened Options
  import opened Parameters

  const ERR_VAR_RESOLUTION := "cannot resolve variables"
  const ERR_VAR_FILE := "cannot get tfvars"
  const ERR_VAR_MAP := "cannot get tfvars from var map"

  // ---- Environment --------------------------------------------------------------------

  /** The value given directly, else the one behind the reference; with neither it is empty. */
  function RuntimeValue(keys: Keys, e: EnvVar<ClusterRef>): Result<string, Error> {
    if e.val != "" then Ok(e.val)
    else if e.configMapKeyRef.Some? then
      var r := e.configMapKeyRef.value;
      var nn := NamespacedName(r.namespace, r.name);
      if nn !in keys.configMaps then Err(Wrap(ERR_VAR_RESOLUTION, NotFound("ConfigMap", r.namespace, r.name)))
      else if r.key !in keys.configMaps[nn]
      then Err(Wrap(ERR_VAR_RESOLUTION,
                    Leaf("couldn't find key " + r.key + " in ConfigMap " + r.namespace + "/" + r.name)))
      else Ok(keys.configMaps[nn][r.key])
    else if e.secretKeyRef.Some? then
      var r := e.secretKeyRef.value;
      var nn := NamespacedName(r.namespace, r.name);
      if nn !in keys.secrets then Err(Wrap(ERR_VAR_RESOLUTION, NotFound("Secret", r.namespace, r.name)))
      else if r.key !in keys.secrets[nn]
      then Err(Wrap(ERR_VAR_RESOLUTION,
                    Leaf("couldn't find key " + r.key + " in Secret " + r.namespace + "/" + r.name)))
      else Ok(keys.secrets[nn][r.key])
    else Ok("")
  }

  /** The one entry of an environment variable, "NAME=value". */
  function EnvEntry(keys: Keys): EnvVar<ClusterRef> -> Result<seq<string>, Error> {
    (e: EnvVar<ClusterRef>) =>
      match RuntimeValue(keys, e)
      case Err(error) => Err(error)
      case Ok(val) => Ok([e.name + "=" + val])
  }

  function EnvList(keys: Keys, env: seq<EnvVar<ClusterRef>>): Result<seq<string>, Error> {
    Collect(EnvEntry(keys), env)
  }

  /** Entry i of the list is variable i's, one for each; otherwise the first error is given. */
  lemma EnvListMeaning(keys: Keys, env: seq<EnvVar<ClusterRef>>)
    ensures match EnvList(keys, env)
      case Ok(list) =>
        |list| == |env| && forall i :: 0 <= i < |env| ==>
          RuntimeValue(keys, env[i]).Ok? && list[i] == env[i].name + "=" + RuntimeValue(keys, env[i]).value
      case Err(e) =>
        exists k :: 0 <= k < |env| && RuntimeValue(keys, env[k]) == Err(e)
          && forall i :: 0 <= i < k ==> RuntimeValue(keys, env[i]).Ok?
  {
    CollectMeaning(EnvEntry(keys), env);
    if EnvList(keys, env).Ok? {
      CollectSingles(EnvEntry(keys), env);
      forall i | 0 <= i < |env|
        ensures RuntimeValue(keys, env[i]).Ok?
        ensures EnvList(keys, env).value[i] == env[i].name + "=" + RuntimeValue(keys, env[i]).value
      {
        assert EnvEntry(keys)(env[i]) == Ok([EnvList(keys, env).value[i]]);
      }
    } else {
      var e := EnvList(keys, env).error;
      var k :| 0 <= k < |env| && EnvEntry(keys)(env[k]) == Err(e)
        && forall i :: 0 <= i < k ==> EnvEntry(keys)(env[i]).Ok?;
      assert RuntimeValue(keys, env[k]) == Err(e);
      assert forall i :: 0 <= i < k ==> EnvEntry(keys)(env[i]).Ok? ==> RuntimeValue(keys, env[i]).Ok?;
    }
  }

  /** The loop of Connect that fills the environment slice in place. */
  method ResolveEnv(keys: Keys, env: seq<EnvVar<ClusterRef>>) returns (r: Result<seq<string>, Error>)
    ensures r == EnvList(keys, env)
  {
    var envs := new string[|env|](_ => "");
    var idx := 0;
    while idx < |env|
      invariant 0 <= idx <= |env|
      invariant EnvList(keys, env[..idx]) == Ok(envs[..idx])
    {
      var e := env[idx];
      var runtimeVal := e.val;
      if runtimeVal == "" {
        if e.configMapKeyRef.Some? {
          var ref := e.configMapKeyRef.value;
          var nn := NamespacedName(ref.namespace, ref.name);
          if nn !in keys.configMaps {
            CollectStops(EnvEntry(keys), env, idx);
            return Err(Wrap(ERR_VAR_RESOLUTION, NotFound("ConfigMap", ref.namespace, ref.name)));
          }
          if ref.key !in keys.configMaps[nn] {
            CollectStops(EnvEntry(keys), env, idx);
            return Err(Wrap(ERR_VAR_RESOLUTION,
                            Leaf("couldn't find key " + ref.key + " in ConfigMap " + ref.namespace + "/" + ref.name)));
          }
          runtimeVal := keys.configMaps[nn][ref.key];
        } else if e.secretKeyRef.Some? {
          var ref := e.secretKeyRef.value;
          var nn := NamespacedName(ref.namespace, ref.name);
          if nn !in keys.secrets {
            CollectStops(EnvEntry(keys), env, idx);
            return Err(Wrap(ERR_VAR_RESOLUTION, NotFound("Secret", ref.namespace, ref.name)));
          }
          if ref.key !in keys.secrets[nn] {
            CollectStops(EnvEntry(keys), env, idx);
            return Err(Wrap(ERR_VAR_RESOLUTION,
                            Leaf("couldn't find key " + ref.key + " in Secret " + ref.namespace + "/" + ref.name)));
          }
          runtimeVal := keys.secrets[nn][ref.key];
        }
      }
      CollectNext(EnvEntry(keys), env, idx);
      envs[idx] := e.name + "=" + runtimeVal;
      idx := idx + 1;
      assert envs[..idx] == envs[..idx - 1] + [envs[idx - 1]];
    }
    assert env[..idx] == env && envs[..idx] == envs[..];
    r := Ok(envs[..]);
  }

  // ---- Options ------------------------------------------------------------------------

  function FormatOf(format: Option<string>): FileFormat {
    if format == Some(FORMAT_JSON) then JSON else HCL
  }

  /** The option of one varFile; a source of neither kind gives none. */
  function VarFileOption(keys: Keys): VarFileRef<ClusterRef> -> Result<seq<TofuOption>, Error> {
    (vf: VarFileRef<ClusterRef>) =>
      if vf.source == CONFIG_MAP_KEY then
        if vf.configMapKeyRef.None? then Err(NilReference)
        else
          var r := vf.configMapKeyRef.value;
          var nn := NamespacedName(r.namespace, r.name);
          if nn !in keys.configMaps then Err(Wrap(ERR_VAR_FILE, NotFound("ConfigMap", r.namespace, r.name)))
          else
            var m := keys.configMaps[nn];
            Ok([WithVarFile(if r.key in m then m[r.key] else "", FormatOf(vf.format))])
      else if vf.source == SECRET_KEY then
        if vf.secretKeyRef.None? then Err(NilReference)
        else
          var r := vf.secretKeyRef.value;
          var nn := NamespacedName(r.namespace, r.name);
          if nn !in keys.secrets then Err(Wrap(ERR_VAR_FILE, NotFound("Secret", r.namespace, r.name)))
          else
            var m := keys.secrets[nn];
            Ok([WithVarFile(if r.key in m then m[r.key] else "", FormatOf(vf.format))])
      else Ok([])
  }

  function VarOptions(vars: seq<Var>): (r: seq<TofuOption>)
    ensures |r| == |vars|
    ensures forall i :: 0 <= i < |vars| ==> r[i] == WithVar(vars[i].key, vars[i].val)
  {
    seq(|vars|, i requires 0 <= i < |vars| => WithVar(vars[i].key, vars[i].val))
  }

  function VarFileOptions(keys: Keys, vfs: seq<VarFileRef<ClusterRef>>): Result<seq<TofuOption>, Error> {
    Collect(VarFileOption(keys), vfs)
  }

  function VarMapOption(keys: Keys, varMap: Option<Bytes>): Result<seq<TofuOption>, Error> {
    match varMap
    case None => Ok([])
    case Some(raw) =>
      match keys.marshal(raw)
      case None => Err(Wrap(ERR_VAR_MAP, Leaf("cannot marshal")))
      case Some(data) => Ok([WithVarFile(data, JSON)])
  }

  /** Variables first, then variable files, then the variable map. */
  function OptionList(keys: Keys, p: Parameters<ClusterRef>): Result<seq<TofuOption>, Error> {
    match VarFileOptions(keys, p.varFiles)
    case Err(e) => Err(e)
    case Ok(files) =>
      match VarMapOption(keys, p.varMap)
      case Err(e) => Err(e)
      case Ok(last) => Ok(VarOptions(p.vars) + files + last)
  }

  /** The body of the varFiles loop: read the referenced key and make an option of it. */
  method ReadVarFile(keys: Keys, vf: VarFileRef<ClusterRef>) returns (r: Result<seq<TofuOption>, Error>)
    ensures r == VarFileOption(keys)(vf)
  {
    var format := HCL;
    if vf.format.Some? && vf.format.value == FORMAT_JSON {
      format := JSON;
    }
    if vf.source == CONFIG_MAP_KEY {
      if vf.configMapKeyRef.None? {
        return Err(NilReference);
      }
      var ref := vf.configMapKeyRef.value;
      var nn := NamespacedName(ref.namespace, ref.name);
      if nn !in keys.configMaps {
        return Err(Wrap(ERR_VAR_FILE, NotFound("ConfigMap", ref.namespace, ref.name)));
      }
      var data := keys.configMaps[nn];
      return Ok([WithVarFile(if ref.key in data then data[ref.key] else "", format)]);
    } else if vf.source == SECRET_KEY {
      if vf.secretKeyRef.None? {
        return Err(NilReference);
      }
      var ref := vf.secretKeyRef.value;
      var nn := NamespacedName(ref.namespace, ref.name);
      if nn !in keys.secrets {
        return Err(Wrap(ERR_VAR_FILE, NotFound("Secret", ref.namespace, ref.name)));
      }
      var data := keys.secrets[nn];
      return Ok([WithVarFile(if ref.key in data then data[ref.key] else "", format)]);
    }
    r := Ok([]);
  }

  /** The append loops of external.options. */
  method ResolveOptions(keys: Keys, p: Parameters<ClusterRef>) returns (r: Result<seq<TofuOption>, Error>)
    ensures r == OptionList(keys, p)
  {
    var o: seq<TofuOption> := [];
    var i := 0;
    while i < |p.vars|
      invariant 0 <= i <= |p.vars|
      invariant o == VarOptions(p.vars)[..i]
    {
      o := o + [WithVar(p.vars[i].key, p.vars[i].val)];
      i := i + 1;
    }
    ghost var vars := VarOptions(p.vars);
    assert vars[..i] == vars == vars + [];
    i := 0;
    while i < |p.varFiles|
      invariant 0 <= i <= |p.varFiles|
      invariant VarFileOptions(keys, p.varFiles[..i]).Ok?
      invariant o == vars + VarFileOptions(keys, p.varFiles[..i]).value
    {
      var next := ReadVarFile(keys, p.varFiles[i]);
      if next.Err? {
        CollectStops(VarFileOption(keys), p.varFiles, i);
        return Err(next.error);
      }
      CollectNext(VarFileOption(keys), p.varFiles, i);
      o := o + next.value;
      i := i + 1;
    }
    assert p.varFiles[..i] == p.varFiles;
    assert o == o + [];
    if p.varMap.Some? {
      var json := keys.marshal(p.varMap.value);
      if json.None? {
        return Err(Wrap(ERR_VAR_MAP, Leaf("cannot marshal")));
      }
      o := o + [WithVarFile(json.value, JSON)];
    }
    r := Ok(o);
  }

  // ---- What is read -------------------------------------------------------------------

  type Objects = map<NamespacedName, map<string, Bytes>>

  /** The bytes that an object holds under the referenced key. */
  function Stored(objects: Objects, r: ClusterRef): Option<Bytes> {
    var nn := NamespacedName(r.namespace, r.name);
    if nn in objects && r.key in objects[nn] then Some(objects[nn][r.key]) else None
  }

  /** What an environment variable is given: its own text, or what one of its references names. */
  function Given(keys: Keys, e: EnvVar<ClusterRef>): Option<string> {
    if e.val != "" || (e.configMapKeyRef.None? && e.secretKeyRef.None?) then Some(e.val)
    else if e.configMapKeyRef.None? then Stored(keys.secrets, e.secretKeyRef.value)
    else Stored(keys.configMaps, e.configMapKeyRef.value)
  }

  /** The list exists exactly when every variable is given a value, and then holds those values. */
  lemma EnvListReads(keys: Keys, env: seq<EnvVar<ClusterRef>>)
    ensures EnvList(keys, env).Ok? <==> forall i :: 0 <= i < |env| ==> Given(keys, env[i]).Some?
    ensures EnvList(keys, env).Ok? ==>
      var list := EnvList(keys, env).value;
      |list| == |env| && forall i :: 0 <= i < |env| ==> list[i] == env[i].name + "=" + Given(keys, env[i]).value
  {
    hide EnvList;
    EnvListMeaning(keys, env);
    forall i | 0 <= i < |env|
      ensures RuntimeValue(keys, env[i]).Ok? <==> Given(keys, env[i]).Some?
      ensures RuntimeValue(keys, env[i]).Ok? ==> RuntimeValue(keys, env[i]).value == Given(keys, env[i]).value
    {
    }
  }

  /** A variable that is not given a value says whether the object or only the key in it is missing. */
  lemma NotGiven(keys: Keys, e: EnvVar<ClusterRef>)
    requires Given(keys, e).None?
    ensures RuntimeValue(keys, e).Err?
    ensures var ref := if e.configMapKeyRef.Some? then e.configMapKeyRef else e.secretKeyRef;
      var objects := if e.configMapKeyRef.Some? then keys.configMaps else keys.secrets;
      var error := RuntimeValue(keys, e).error;
      && ref.Some? && error.Wrap? && error.context == ERR_VAR_RESOLUTION
      && if NamespacedName(ref.value.namespace, ref.value.name) in objects then error.cause.Leaf?
         else
           error.cause.NotFound? && error.cause.namespace == ref.value.namespace && error.cause.name == ref.value.name
  {
  }

  /** The variable files whose source is one of the two kinds; others are passed over. */
  function Known(vfs: seq<VarFileRef<ClusterRef>>): seq<VarFileRef<ClusterRef>> {
    if vfs == [] then []
    else
      var last := vfs[|vfs| - 1];
      Known(vfs[..|vfs| - 1]) + (if last.source in {CONFIG_MAP_KEY, SECRET_KEY} then [last] else [])
  }

  /** The content of such a file: empty if the object does not have the key, none without the object. */
  function Content(keys: Keys, vf: VarFileRef<ClusterRef>): Option<Bytes> {
    var objects := if vf.source == SECRET_KEY then keys.secrets else keys.configMaps;
    var ref := if vf.source == SECRET_KEY then vf.secretKeyRef else vf.configMapKeyRef;
    if ref.None? || NamespacedName(ref.value.namespace, ref.value.name) !in objects then None
    else if Stored(objects, ref.value).None? then Some("")
    else Stored(objects, ref.value)
  }

  /** This file holds what the reference names, in the format that is asked for. */
  predicate Carries(keys: Keys, vf: VarFileRef<ClusterRef>, file: VarFile) {
    Content(keys, vf) == Some(file.data) && (IsJSONName(file.filename) <==> vf.format == Some("JSON"))
  }

  lemma OneFile(keys: Keys, vf: VarFileRef<ClusterRef>, before: seq<TofuOption>)
    ensures VarFileOption(keys)(vf).Ok? <==> (vf.source in {CONFIG_MAP_KEY, SECRET_KEY} ==> Content(keys, vf).Some?)
    ensures VarFileOption(keys)(vf).Ok? ==>
      var files, all := VarFilesOf(before), VarFilesOf(before + VarFileOption(keys)(vf).value);
      if vf.source in {CONFIG_MAP_KEY, SECRET_KEY}
      then |all| == |files| + 1 && all[..|files|] == files && Carries(keys, vf, all[|files|])
      else all == files
  {
    assert CONFIG_MAP_KEY[0] != SECRET_KEY[0];
    var o := VarFileOption(keys)(vf);
    if o.Ok? && vf.source in {CONFIG_MAP_KEY, SECRET_KEY} {
      assert (before + o.value)[..|before|] == before;
      FormatFromName(|VarFilesOf(before)|, FormatOf(vf.format));
    } else if o.Ok? {
      assert before + o.value == before;
    }
  }

  predicate Readable(keys: Keys, vfs: seq<VarFileRef<ClusterRef>>) {
    forall j :: 0 <= j < |vfs| ==> Content(keys, vfs[j]).Some?
  }

  lemma ReadableBoth(keys: Keys, vfs: seq<VarFileRef<ClusterRef>>, more: seq<VarFileRef<ClusterRef>>)
    ensures Readable(keys, vfs + more) <==> Readable(keys, vfs) && Readable(keys, more)
  {
    assert forall j :: 0 <= j < |vfs| ==> vfs[j] == (vfs + more)[j];
    assert forall j :: 0 <= j < |more| ==> more[j] == (vfs + more)[|vfs| + j];
  }

  lemma {:induction false} FilesRead(keys: Keys, vars: seq<TofuOption>, vfs: seq<VarFileRef<ClusterRef>>)
    requires VarFilesOf(vars) == []
    ensures VarFileOptions(keys, vfs).Ok? <==> Readable(keys, Known(vfs))
    ensures VarFileOptions(keys, vfs).Ok? ==>
      var files := VarFilesOf(vars + VarFileOptions(keys, vfs).value);
      |files| == |Known(vfs)| && forall j :: 0 <= j < |files| ==> Carries(keys, Known(vfs)[j], files[j])
  {
    hide Carries, Content, VarFilesOf;
    if vfs == [] {
      assert vars + [] == vars;
    } else {
      var before, last := vfs[..|vfs| - 1], vfs[|vfs| - 1];
      FilesRead(keys, vars, before);
      var n, known := |Known(before)|, last.source in {CONFIG_MAP_KEY, SECRET_KEY};
      assert forall j :: 0 <= j < n ==> Known(vfs)[j] == Known(before)[j];
      var tail := if known then [last] else [];
      ReadableBoth(keys, Known(before), tail);
      assert Known(vfs) == Known(before) + tail;
      assert Readable(keys, [last]) <==> Content(keys, [last][0]).Some?;
      if VarFileOptions(keys, before).Ok? {
        var os := vars + VarFileOptions(keys, before).value;
        OneFile(keys, last, os);
        assert VarFileOptions(keys, vfs).Ok? <==> VarFileOption(keys)(last).Ok?;
        if VarFileOptions(keys, vfs).Ok? {
          assert vars + VarFileOptions(keys, vfs).value == os + VarFileOption(keys)(last).value;
          var files := VarFilesOf(vars + VarFileOptions(keys, vfs).value);
          forall j | 0 <= j < n
            ensures Carries(keys, Known(vfs)[j], files[j])
          {
            assert files[j] == files[..n][j];
          }
        }
      }
    }
  }

  lemma {:induction false} VarsMakeNoFiles(vars: seq<Var>)
    ensures VarFilesOf(VarOptions(vars)) == []
  {
    if vars != [] {
      var os := VarOptions(vars);
      assert os[..|os| - 1] == VarOptions(vars[..|vars| - 1]);
      VarsMakeNoFiles(vars[..|vars| - 1]);
    }
  }

  /**
  The options resolve exactly when every object that a variable file names can be read and the
  variable map can be marshalled. Then there is one file for each variable file of a known
  source, in order, with the bytes under its key in its format, and after these one JSON file
  with the marshalled variable map, if there is a map.
  */
  lemma FilesOfOptions(keys: Keys, p: Parameters<ClusterRef>)
    ensures OptionList(keys, p).Ok? <==>
      Readable(keys, Known(p.varFiles)) && (p.varMap.Some? ==> keys.marshal(p.varMap.value).Some?)
    ensures OptionList(keys, p).Ok? ==>
      var files, n := VarFilesOf(OptionList(keys, p).value), |Known(p.varFiles)|;
      && |files| == n + (if p.varMap.Some? then 1 else 0)
      && (forall j :: 0 <= j < n ==> Carries(keys, Known(p.varFiles)[j], files[j]))
      && (p.varMap.Some? ==>
            keys.marshal(p.varMap.value) == Some(files[n].data) && IsJSONName(files[n].filename))
  {
    VarsMakeNoFiles(p.vars);
    FilesRead(keys, VarOptions(p.vars), p.varFiles);
    if OptionList(keys, p).Ok? {
      var os := VarOptions(p.vars) + VarFileOptions(keys, p.varFiles).value;
      var last := VarMapOption(keys, p.varMap).value;
      FormatFromName(|VarFilesOf(os)|, JSON);
      assert p.varMap.Some? ==> (os + last)[..|os|] == os;
      assert p.varMap.None? ==> os + last == os;
    }
  }
}
