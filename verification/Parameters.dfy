/** The desired state of a Workspace, for either scope: R is its kind of key reference. */
module Parameters {
  import opened Common

  datatype ClusterRef = ClusterRef(namespace: string, name: string, key: string)

  datatype LocalRef = LocalRef(name: string, key: string)

  datatype EnvVar<R> = EnvVar(name: string, val: string, configMapKeyRef: Option<R>, secretKeyRef: Option<R>)

  datatype Var = Var(key: string, val: string)

  datatype VarFileRef<R> = VarFileRef(source: string, format: Option<string>,
                                      configMapKeyRef: Option<R>, secretKeyRef: Option<R>)

  datatype Parameters<R> = Parameters(
    tofuModule: Bytes, inlineFormat: string, source: string, entrypoint: string,
    env: seq<EnvVar<R>>, vars: seq<Var>, varMap: Option<Bytes>, varFiles: seq<VarFileRef<R>>,
    initArgs: seq<string>, planArgs: seq<string>, applyArgs: seq<string>, destroyArgs: seq<string>)

  const CONFIG_MAP_KEY := "ConfigMapKey"
  const SECRET_KEY := "SecretKey"
  const FORMAT_JSON := "JSON"

  datatype NamespacedName = NamespacedName(namespace: string, name: string)

  /** The ConfigMaps and Secrets that can be read, and json.Marshal of a raw extension. */
  datatype Keys = Keys(configMaps: map<NamespacedName, map<string, string>>,
                       secrets: map<NamespacedName, map<string, Bytes>>,
                       marshal: Bytes -> Option<Bytes>)

  // ---- Placing a namespaced resource's references in its own namespace ------------------

  function LocalizeRef(r: Option<LocalRef>, namespace: string): Option<ClusterRef> {
    match r
    case None => None
    case Some(ref) => Some(ClusterRef(namespace, ref.name, ref.key))
  }

  function LocalizeEnv(env: seq<EnvVar<LocalRef>>, namespace: string): (r: seq<EnvVar<ClusterRef>>)
    ensures |r| == |env|
  {
    seq(|env|, i requires 0 <= i < |env| =>
      EnvVar(env[i].name, env[i].val, LocalizeRef(env[i].configMapKeyRef, namespace),
             LocalizeRef(env[i].secretKeyRef, namespace)))
  }

  function LocalizeVarFiles(vfs: seq<VarFileRef<LocalRef>>, namespace: string): (r: seq<VarFileRef<ClusterRef>>)
    ensures |r| == |vfs|
  {
    seq(|vfs|, i requires 0 <= i < |vfs| =>
      VarFileRef(vfs[i].source, vfs[i].format, LocalizeRef(vfs[i].configMapKeyRef, namespace),
                 LocalizeRef(vfs[i].secretKeyRef, namespace)))
  }

  function Localize(p: Parameters<LocalRef>, namespace: string): Parameters<ClusterRef> {
    Parameters(p.tofuModule, p.inlineFormat, p.source, p.entrypoint, LocalizeEnv(p.env, namespace), p.vars, p.varMap,
               LocalizeVarFiles(p.varFiles, namespace), p.initArgs, p.planArgs, p.applyArgs, p.destroyArgs)
  }
}
