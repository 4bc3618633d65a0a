/**
Environment and options of the namespaced controller: every reference is read in the
namespace of the resource itself. What does not read a reference is the cluster
controller's, imported as C.
*/
module NamespacedResolve {
  import opened Common
  import opened Results
  import opened Options
  import opened Parameters
  import C = ClusterResolve

  // ---- Environment --------------------------------------------------------------------

  /** The value given directly, else the one behind the reference; with neither it is empty. */
  function RuntimeValue(keys: Keys, namespace: string, e: EnvVar<LocalRef>): Result<string, Error> {
    if e.val != "" then Ok(e.val)
    else if e.configMapKeyRef.Some? then
      var r := e.configMapKeyRef.value;
      var nn := NamespacedName(namespace, r.name);
      if nn !in keys.configMaps then Err(Wrap(C.ERR_VAR_RESOLUTION, NotFound("ConfigMap", namespace, r.name)))
      else if r.key !in keys.configMaps[nn]
      then Err(Wrap(C.ERR_VAR_RESOLUTION,
                    Leaf("couldn't find key " + r.key + " in ConfigMap " + namespace + "/" + r.name)))
      else Ok(keys.configMaps[nn][r.key])
    else if e.secretKeyRef.Some? then
      var r := e.secretKeyRef.value;
      var nn := NamespacedName(namespace, r.name);
      if nn !in keys.secrets then Err(Wrap(C.ERR_VAR_RESOLUTION, NotFound("Secret", namespace, r.name)))
      else if r.key !in keys.secrets[nn]
      then Err(Wrap(C.ERR_VAR_RESOLUTION,
                    Leaf("couldn't find key " + r.key + " in Secret " + namespace + "/" + r.name)))
      else Ok(keys.secrets[nn][r.key])
    else Ok("")
  }

  /** The one entry of an environment variable, "NAME=value". */
  function EnvEntry(keys: Keys, namespace: string): EnvVar<LocalRef> -> Result<seq<string>, Error> {
    (e: EnvVar<LocalRef>) =>
      match RuntimeValue(keys, namespace, e)
      case Err(error) => Err(error)
      case Ok(val) => Ok([e.name + "=" + val])
  }

  function EnvList(keys: Keys, namespace: string, env: seq<EnvVar<LocalRef>>): Result<seq<string>, Error> {
    Collect(EnvEntry(keys, namespace), env)
  }

  /** The loop of Connect that fills the environment slice in place. */
  method ResolveEnv(keys: Keys, namespace: string, env: seq<EnvVar<LocalRef>>) returns (r: Result<seq<string>, Error>)
    ensures r == EnvList(keys, namespace, env)
  {
    var envs := new string[|env|](_ => "");
    var idx := 0;
    while idx < |env|
      invariant 0 <= idx <= |env|
      invariant EnvList(keys, namespace, env[..idx]) == Ok(envs[..idx])
    {
      var e := env[idx];
      var runtimeVal := e.val;
      if runtimeVal == "" {
        if e.configMapKeyRef.Some? {
          var ref := e.configMapKeyRef.value;
          var nn := NamespacedName(namespace, ref.name);
          if nn !in keys.configMaps {
            CollectStops(EnvEntry(keys, namespace), env, idx);
            return Err(Wrap(C.ERR_VAR_RESOLUTION, NotFound("ConfigMap", namespace, ref.name)));
          }
          if ref.key !in keys.configMaps[nn] {
            CollectStops(EnvEntry(keys, namespace), env, idx);
            return Err(Wrap(C.ERR_VAR_RESOLUTION,
                            Leaf("couldn't find key " + ref.key + " in ConfigMap " + namespace + "/" + ref.name)));
          }
          runtimeVal := keys.configMaps[nn][ref.key];
        } else if e.secretKeyRef.Some? {
          var ref := e.secretKeyRef.value;
          var nn := NamespacedName(namespace, ref.name);
          if nn !in keys.secrets {
            CollectStops(EnvEntry(keys, namespace), env, idx);
            return Err(Wrap(C.ERR_VAR_RESOLUTION, NotFound("Secret", namespace, ref.name)));
          }
          if ref.key !in keys.secrets[nn] {
            CollectStops(EnvEntry(keys, namespace), env, idx);
            return Err(Wrap(C.ERR_VAR_RESOLUTION,
                            Leaf("couldn't find key " + ref.key + " in Secret " + namespace + "/" + ref.name)));
          }
          runtimeVal := keys.secrets[nn][ref.key];
        }
      }
      CollectNext(EnvEntry(keys, namespace), env, idx);
      envs[idx] := e.name + "=" + runtimeVal;
      idx := idx + 1;
      assert envs[..idx] == envs[..idx - 1] + [envs[idx - 1]];
    }
    assert env[..idx] == env && envs[..idx] == envs[..];
    r := Ok(envs[..]);
  }

  // ---- Options ------------------------------------------------------------------------

  /** The option of one varFile; a source of neither kind gives none. */
  function VarFileOption(keys: Keys, namespace: string): VarFileRef<LocalRef> -> Result<seq<TofuOption>, Error> {
    (vf: VarFileRef<LocalRef>) =>
      if vf.source == CONFIG_MAP_KEY then
        if vf.configMapKeyRef.None? then Err(NilReference)
        else
          var r := vf.configMapKeyRef.value;
          var nn := NamespacedName(namespace, r.name);
          if nn !in keys.configMaps then Err(Wrap(C.ERR_VAR_FILE, NotFound("ConfigMap", namespace, r.name)))
          else
            var m := keys.configMaps[nn];
            Ok([WithVarFile(if r.key in m then m[r.key] else "", C.FormatOf(vf.format))])
      else if vf.source == SECRET_KEY then
        if vf.secretKeyRef.None? then Err(NilReference)
        else
          var r := vf.secretKeyRef.value;
          var nn := NamespacedName(namespace, r.name);
          if nn !in keys.secrets then Err(Wrap(C.ERR_VAR_FILE, NotFound("Secret", namespace, r.name)))
          else
            var m := keys.secrets[nn];
            Ok([WithVarFile(if r.key in m then m[r.key] else "", C.FormatOf(vf.format))])
      else Ok([])
  }

  function VarFileOptions(keys: Keys, namespace: string, vfs: seq<VarFileRef<LocalRef>>)
    : Result<seq<TofuOption>, Error>
  {
    Collect(VarFileOption(keys, namespace), vfs)
  }

  /** Variables first, then variable files, then the variable map. */
  function OptionList(keys: Keys, namespace: string, p: Parameters<LocalRef>): Result<seq<TofuOption>, Error> {
    match VarFileOptions(keys, namespace, p.varFiles)
    case Err(e) => Err(e)
    case Ok(files) =>
      match C.VarMapOption(keys, p.varMap)
      case Err(e) => Err(e)
      case Ok(last) => Ok(C.VarOptions(p.vars) + files + last)
  }

  /** The body of the varFiles loop: read the referenced key and make an option of it. */
  method ReadVarFile(keys: Keys, namespace: string, vf: VarFileRef<LocalRef>)
    returns (r: Result<seq<TofuOption>, Error>)
    ensures r == VarFileOption(keys, namespace)(vf)
  {
    var format := HCL;
    if vf.format.Some? && vf.format.value == FORMAT_JSON {
      format := JSON;
    }
    if vf.source == CONFIG_MAP_KEY {
      if vf.configMapKeyRef.None? {
        return Err(NilReference);
      }
      var ref := vf.configMapKeyRef.value;
      var nn := NamespacedName(namespace, ref.name);
      if nn !in keys.configMaps {
        return Err(Wrap(C.ERR_VAR_FILE, NotFound("ConfigMap", namespace, ref.name)));
      }
      var data := keys.configMaps[nn];
      return Ok([WithVarFile(if ref.key in data then data[ref.key] else "", format)]);
    } else if vf.source == SECRET_KEY {
      if vf.secretKeyRef.None? {
        return Err(NilReference);
      }
      var ref := vf.secretKeyRef.value;
      var nn := NamespacedName(namespace, ref.name);
      if nn !in keys.secrets {
        return Err(Wrap(C.ERR_VAR_FILE, NotFound("Secret", namespace, ref.name)));
      }
      var data := keys.secrets[nn];
      return Ok([WithVarFile(if ref.key in data then data[ref.key] else "", format)]);
    }
    r := Ok([]);
  }

  /** The append loops of external.options. */
  method ResolveOptions(keys: Keys, namespace: string, p: Parameters<LocalRef>)
    returns (r: Result<seq<TofuOption>, Error>)
    ensures r == OptionList(keys, namespace, p)
  {
    var o: seq<TofuOption> := [];
    var i := 0;
    while i < |p.vars|
      invariant 0 <= i <= |p.vars|
      invariant o == C.VarOptions(p.vars)[..i]
    {
      o := o + [WithVar(p.vars[i].key, p.vars[i].val)];
      i := i + 1;
    }
    ghost var vars := C.VarOptions(p.vars);
    assert vars[..i] == vars == vars + [];
    i := 0;
    while i < |p.varFiles|
      invariant 0 <= i <= |p.varFiles|
      invariant VarFileOptions(keys, namespace, p.varFiles[..i]).Ok?
      invariant o == vars + VarFileOptions(keys, namespace, p.varFiles[..i]).value
    {
      var next := ReadVarFile(keys, namespace, p.varFiles[i]);
      if next.Err? {
        CollectStops(VarFileOption(keys, namespace), p.varFiles, i);
        return Err(next.error);
      }
      CollectNext(VarFileOption(keys, namespace), p.varFiles, i);
      o := o + next.value;
      i := i + 1;
    }
    assert p.varFiles[..i] == p.varFiles;
    assert o == o + [];
    if p.varMap.Some? {
      var json := keys.marshal(p.varMap.value);
      if json.None? {
        return Err(Wrap(C.ERR_VAR_MAP, Leaf("cannot marshal")));
      }
      o := o + [WithVarFile(json.value, JSON)];
    }
    r := Ok(o);
  }
}
