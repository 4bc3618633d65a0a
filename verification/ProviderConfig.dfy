/**
Finding the effective provider config of a managed resource.

A legacy config goes through an encoded tree into the modern type. A modern one is used as
it was read, except that a namespaced config's secret references are pointed, through the
pointers its credentials hold, at the resource's own namespace.
*/
module ProviderConfig {
  import opened Common

  const ERR_NOT_SET := "provider config is not set"
  const ERR_GET := "cannot get provider config"
  const ERR_TRACK := "cannot track provider config usage"

  // ---- Values -------------------------------------------------------------------------

  datatype SecretValue = SecretValue(name: string, namespace: string, key: string)

  datatype CredentialValue = CredentialValue(filename: string, source: string, fs: Option<string>, env: Option<string>,
                                             secretRef: Option<SecretValue>)

  /** A nil slice is None, an empty one Some([]). */
  datatype SpecValue = SpecValue(credentials: Option<seq<CredentialValue>>, configuration: Option<string>,
                                 backendFile: Option<string>, pluginCache: Option<bool>)

  datatype Meta = Meta(name: string, namespace: string, labels: Option<map<string, string>>,
                       annotations: Option<map<string, string>>, uid: string, finalizers: seq<string>)

  datatype TypeMeta = TypeMeta(apiVersion: string, kind: string)

  const MODERN_TYPE := TypeMeta("opentofu.m.upbound.io/v1beta1", "ClusterProviderConfig")

  /** Only these three parts of an object's metadata are carried over. */
  function CarriedMeta(m: Meta): Meta {
    Meta(m.name, "", m.labels, m.annotations, "", [])
  }

  // ---- The legacy path ----------------------------------------------------------------

  datatype LegacyConfig = LegacyConfig(typeMeta: TypeMeta, meta: Meta, spec: SpecValue, status: Json)

  datatype ModernConfig = ModernConfig(typeMeta: TypeMeta, meta: Meta, spec: SpecValue, status: Json)

  /** A struct's fields in order; one without a value is left out. */
  type Fields = seq<(string, Option<Json>)>

  function Pack(fs: Fields): map<string, Json> {
    if fs == [] then map[]
    else
      var before, f := Pack(fs[..|fs| - 1]), fs[|fs| - 1];
      if f.1.None? then before else before[f.0 := f.1.value]
  }

  predicate DistinctFields(fs: Fields) {
    forall i, j :: 0 <= i < j < |fs| ==> fs[i].0 != fs[j].0
  }

  function EncodeString(s: Option<string>): Option<Json> {
    match s
    case None => None
    case Some(v) => Some(Str(v))
  }

  function EncodeNested(field: string, s: Option<string>): Option<Json> {
    match s
    case None => None
    case Some(v) => Some(Obj(map[field := Str(v)]))
  }

  function SecretFields(v: SecretValue): Fields {
    [("name", Some(Str(v.name))), ("namespace", Some(Str(v.namespace))), ("key", Some(Str(v.key)))]
  }

  function EncodeSecret(s: Option<SecretValue>): Option<Json> {
    match s
    case None => None
    case Some(v) => Some(Obj(Pack(SecretFields(v))))
  }

  function CredentialFields(c: CredentialValue): Fields {
    [("filename", Some(Str(c.filename))), ("source", Some(Str(c.source))), ("fs", EncodeNested("path", c.fs)),
     ("env", EncodeNested("name", c.env)), ("secretRef", EncodeSecret(c.secretRef))]
  }

  function EncodeCredential(c: CredentialValue): Json {
    Obj(Pack(CredentialFields(c)))
  }

  function EncodeCredentials(cs: seq<CredentialValue>): (r: seq<Json>)
    ensures |r| == |cs| && forall i :: 0 <= i < |cs| ==> r[i] == EncodeCredential(cs[i])
  {
    seq(|cs|, i requires 0 <= i < |cs| => EncodeCredential(cs[i]))
  }

  function EncodeBool(b: Option<bool>): Option<Json> {
    match b
    case None => None
    case Some(v) => Some(Bool(v))
  }

  /** The credentials are always written, nil as null; the other fields only when set. */
  function SpecFields(s: SpecValue): Fields {
    [("credentials", Some(if s.credentials.None? then Null else Arr(EncodeCredentials(s.credentials.value)))),
     ("configuration", EncodeString(s.configuration)), ("backendFile", EncodeString(s.backendFile)),
     ("pluginCache", EncodeBool(s.pluginCache))]
  }

  function EncodeSpec(s: SpecValue): Json {
    Obj(Pack(SpecFields(s)))
  }

  function EncodeMap(m: Option<map<string, string>>): Option<Json> {
    match m
    case None => None
    case Some(v) => if v == map[] then None else Some(Obj(map k | k in v :: Str(v[k])))
  }

  function EncodeMeta(m: Meta): Json {
    Obj(Pack([("name", Some(Str(m.name))), ("namespace", Some(Str(m.namespace))), ("uid", Some(Str(m.uid))),
              ("labels", EncodeMap(m.labels)), ("annotations", EncodeMap(m.annotations))]))
  }

  function ConfigFields(pc: LegacyConfig): Fields {
    [("apiVersion", Some(Str(pc.typeMeta.apiVersion))), ("kind", Some(Str(pc.typeMeta.kind))),
     ("metadata", Some(EncodeMeta(pc.meta))), ("spec", Some(EncodeSpec(pc.spec))), ("status", Some(pc.status))]
  }

  /** json.Marshal of the legacy object. */
  function Encode(pc: LegacyConfig): Json {
    Obj(Pack(ConfigFields(pc)))
  }

  /** An absent field and null both leave a pointer nil. */
  function Field(j: Json, name: string): Json {
    if j.Obj? && name in j.fields then j.fields[name] else Null
  }

  function DecodeString(j: Json): Result<Option<string>, Error> {
    if j.Null? then Ok(None) else if j.Str? then Ok(Some(j.s)) else Err(Leaf("cannot unmarshal into string"))
  }

  function DecodeBool(j: Json): Result<Option<bool>, Error> {
    if j.Null? then Ok(None) else if j.Bool? then Ok(Some(j.b)) else Err(Leaf("cannot unmarshal into bool"))
  }

  /** A string that is not behind a pointer: empty when absent. */
  function Plain(s: Option<string>): string {
    if s.Some? then s.value else ""
  }

  function DecodeNested(j: Json, field: string): Result<Option<string>, Error> {
    if j.Null? then Ok(None)
    else if !j.Obj? then Err(Leaf("cannot unmarshal into struct"))
    else
      match DecodeString(Field(j, field))
      case Err(e) => Err(e)
      case Ok(s) => Ok(Some(Plain(s)))
  }

  function DecodeSecret(j: Json): Result<Option<SecretValue>, Error> {
    if j.Null? then Ok(None)
    else if !j.Obj? then Err(Leaf("cannot unmarshal into struct"))
    else
      match (DecodeString(Field(j, "name")), DecodeString(Field(j, "namespace")), DecodeString(Field(j, "key")))
      case (Ok(n), Ok(ns), Ok(k)) => Ok(Some(SecretValue(Plain(n), Plain(ns), Plain(k))))
      case _ => Err(Leaf("cannot unmarshal into string"))
  }

  function DecodeCredential(j: Json): Result<CredentialValue, Error> {
    match (DecodeString(Field(j, "filename")), DecodeString(Field(j, "source")), DecodeNested(Field(j, "fs"), "path"),
           DecodeNested(Field(j, "env"), "name"), DecodeSecret(Field(j, "secretRef")))
    case (Ok(f), Ok(s), Ok(fs), Ok(env), Ok(secret)) => Ok(CredentialValue(Plain(f), Plain(s), fs, env, secret))
    case _ => Err(Leaf("cannot unmarshal into credentials"))
  }

  function DecodeCredentials(js: seq<Json>): Result<seq<CredentialValue>, Error> {
    if js == [] then Ok([])
    else
      match (DecodeCredentials(js[..|js| - 1]), DecodeCredential(js[|js| - 1]))
      case (Ok(before), Ok(last)) => Ok(before + [last])
      case _ => Err(Leaf("cannot unmarshal into credentials"))
  }

  function DecodeCredentialsField(j: Json): Result<Option<seq<CredentialValue>>, Error> {
    if j.Null? then Ok(None)
    else if !j.Arr? then Err(Leaf("cannot unmarshal into slice"))
    else
      match DecodeCredentials(j.items)
      case Err(e) => Err(e)
      case Ok(cs) => Ok(Some(cs))
  }

  function DecodeSpec(j: Json): Result<SpecValue, Error> {
    match (DecodeCredentialsField(Field(j, "credentials")), DecodeString(Field(j, "configuration")),
           DecodeString(Field(j, "backendFile")), DecodeBool(Field(j, "pluginCache")))
    case (Ok(cs), Ok(c), Ok(b), Ok(p)) => Ok(SpecValue(cs, c, b, p))
    case _ => Err(Leaf("cannot unmarshal into spec"))
  }

  /** legacyToModernProviderConfigSpec: encode, decode as the other type, set type and metadata. */
  function LegacyToModern(pc: LegacyConfig): Result<ModernConfig, Error> {
    var tree := Encode(pc);
    match DecodeSpec(Field(tree, "spec"))
    case Err(e) => Err(e)
    case Ok(spec) => Ok(ModernConfig(MODERN_TYPE, CarriedMeta(pc.meta), spec, Field(tree, "status")))
  }

  lemma {:induction false} PackKeeps(fs: Fields, name: string)
    requires forall i :: 0 <= i < |fs| ==> fs[i].0 != name
    ensures name !in Pack(fs)
  {
    if fs != [] {
      PackKeeps(fs[..|fs| - 1], name);
    }
  }

  /** Reading a field of a packed struct gives its value, or null if it was left out. */
  lemma {:induction false} FieldOfPacked(fs: Fields, i: nat)
    requires i < |fs| && DistinctFields(fs)
    ensures Field(Obj(Pack(fs)), fs[i].0) == if fs[i].1.Some? then fs[i].1.value else Null
  {
    var before := fs[..|fs| - 1];
    if i < |before| {
      FieldOfPacked(before, i);
      assert fs[i].0 != fs[|fs| - 1].0;
    } else {
      PackKeeps(before, fs[i].0);
    }
  }

  lemma NestedRoundTrip(field: string, s: Option<string>, j: Json)
    requires j == if EncodeNested(field, s).Some? then EncodeNested(field, s).value else Null
    ensures DecodeNested(j, field) == Ok(s)
  {
  }

  lemma SecretRoundTrip(v: SecretValue)
    ensures DecodeSecret(Obj(Pack(SecretFields(v)))) == Ok(Some(v))
  {
    hide Pack;
    var fs := SecretFields(v);
    assert |fs[0].0| == 4 && |fs[1].0| == 9 && |fs[2].0| == 3;
    FieldOfPacked(fs, 0);
    FieldOfPacked(fs, 1);
    FieldOfPacked(fs, 2);
  }

  lemma CredentialRoundTrip(c: CredentialValue)
    ensures DecodeCredential(EncodeCredential(c)) == Ok(c)
  {
    hide Pack, DecodeNested;
    var fs := CredentialFields(c);
    assert |fs[0].0| == 8 && |fs[1].0| == 6 && |fs[2].0| == 2 && |fs[3].0| == 3 && |fs[4].0| == 9;
    FieldOfPacked(fs, 0);
    FieldOfPacked(fs, 1);
    FieldOfPacked(fs, 2);
    FieldOfPacked(fs, 3);
    FieldOfPacked(fs, 4);
    NestedRoundTrip("path", c.fs, Field(EncodeCredential(c), "fs"));
    NestedRoundTrip("name", c.env, Field(EncodeCredential(c), "env"));
    if c.secretRef.Some? {
      SecretRoundTrip(c.secretRef.value);
    }
  }

  lemma {:induction false} CredentialsRoundTrip(cs: seq<CredentialValue>)
    ensures DecodeCredentials(EncodeCredentials(cs)) == Ok(cs)
  {
    hide EncodeCredential, DecodeCredential;
    if cs != [] {
      var js, n := EncodeCredentials(cs), |cs| - 1;
      assert js[..n] == EncodeCredentials(cs[..n]);
      CredentialsRoundTrip(cs[..n]);
      CredentialRoundTrip(cs[n]);
      assert js[n] == EncodeCredential(cs[n]);
      assert cs == cs[..n] + [cs[n]];
    }
  }

  lemma SpecRoundTrip(s: SpecValue)
    ensures DecodeSpec(EncodeSpec(s)) == Ok(s)
  {
    hide Pack, EncodeCredentials, DecodeCredentials;
    var fs := SpecFields(s);
    assert fs[0].0[0] == 'c' && fs[2].0[0] == 'b' && fs[3].0[0] == 'p' && |fs[0].0| == 11 && |fs[1].0| == 13
      && |fs[2].0| == 11 && |fs[3].0| == 11;
    FieldOfPacked(fs, 0);
    FieldOfPacked(fs, 1);
    FieldOfPacked(fs, 2);
    FieldOfPacked(fs, 3);
    if s.credentials.Some? {
      CredentialsRoundTrip(s.credentials.value);
    }
  }

  lemma ConfigRoundTrip(pc: LegacyConfig)
    ensures Field(Encode(pc), "spec") == EncodeSpec(pc.spec)
    ensures Field(Encode(pc), "status") == pc.status
  {
    hide Pack, EncodeSpec, EncodeMeta;
    var fs := ConfigFields(pc);
    assert fs[1].0[0] == 'k' && fs[3].0[0] == 's' && |fs[0].0| == 10 && |fs[1].0| == 4 && |fs[2].0| == 8
      && |fs[3].0| == 4 && |fs[4].0| == 6;
    FieldOfPacked(fs, 3);
    FieldOfPacked(fs, 4);
  }

  /**
  The way through the tree never fails and loses no field of the spec: nil stays nil and
  empty stays empty. Of the metadata only name, labels and annotations come along.
  */
  lemma LegacyPreservesSpec(pc: LegacyConfig)
    ensures LegacyToModern(pc).Ok?
    ensures var m := LegacyToModern(pc).value;
      && m.spec == pc.spec && m.status == pc.status && m.typeMeta == MODERN_TYPE
      && m.meta.name == pc.meta.name && m.meta.labels == pc.meta.labels && m.meta.annotations == pc.meta.annotations
      && m.meta.namespace == "" && m.meta.uid == "" && m.meta.finalizers == []
  {
    ConfigRoundTrip(pc);
    SpecRoundTrip(pc.spec);
  }

  /** Resolution for a legacy resource: reference, read, record the usage, convert. */
  function ResolveLegacy(ref: Option<string>, got: Option<LegacyConfig>, tracked: bool): Result<ModernConfig, Error> {
    if ref.None? then Err(Leaf(ERR_NOT_SET))
    else if got.None? then Err(Wrap(ERR_GET, NotFound("ProviderConfig", "", ref.value)))
    else if !tracked then Err(Wrap(ERR_TRACK, Leaf("tracker")))
    else LegacyToModern(got.value)
  }

  // ---- The modern path ----------------------------------------------------------------

  class SecretKeySelector {
    var name: string
    var namespace: string
    var key: string

    constructor (name: string, namespace: string, key: string)
      ensures Value() == SecretValue(name, namespace, key)
    {
      this.name, this.namespace, this.key := name, namespace, key;
    }

    function Value(): SecretValue
      reads this
    {
      SecretValue(name, namespace, key)
    }
  }

  datatype Credential = Credential(filename: string, source: string, fs: Option<string>, env: Option<string>,
                                   secretRef: SecretKeySelector?)

  datatype Spec = Spec(credentials: Option<seq<Credential>>, configuration: Option<string>,
                       backendFile: Option<string>, pluginCache: Option<bool>)

  /** The selectors that a list of credentials points to; credentials may share one. */
  function Refs(cs: seq<Credential>): set<SecretKeySelector> {
    set i | 0 <= i < |cs| && cs[i].secretRef != null :: cs[i].secretRef
  }

  function SpecRefs(s: Spec): set<SecretKeySelector> {
    if s.credentials.None? then {} else Refs(s.credentials.value)
  }

  function CredentialSnapshot(c: Credential): CredentialValue
    reads c.secretRef
  {
    CredentialValue(c.filename, c.source, c.fs, c.env, if c.secretRef == null then None else Some(c.secretRef.Value()))
  }

  function CredentialsSnapshot(cs: seq<Credential>): (r: seq<CredentialValue>)
    reads Refs(cs)
    ensures |r| == |cs| && forall i :: 0 <= i < |cs| ==> r[i] == CredentialSnapshot(cs[i])
  {
    if cs == [] then []
    else
      assert forall i :: 0 <= i < |cs| - 1 ==> cs[..|cs| - 1][i] == cs[i];
      CredentialsSnapshot(cs[..|cs| - 1]) + [CredentialSnapshot(cs[|cs| - 1])]
  }

  /** What a reader of the spec sees now. */
  function Snapshot(s: Spec): SpecValue
    reads SpecRefs(s)
  {
    SpecValue(if s.credentials.None? then None else Some(CredentialsSnapshot(s.credentials.value)),
              s.configuration, s.backendFile, s.pluginCache)
  }

  function InNamespace(c: CredentialValue, namespace: string): CredentialValue {
    match c.secretRef
    case None => c
    case Some(r) => c.(secretRef := Some(r.(namespace := namespace)))
  }

  function AllInNamespace(cs: seq<CredentialValue>, namespace: string): (r: seq<CredentialValue>)
    ensures |r| == |cs| && forall i :: 0 <= i < |cs| ==> r[i] == InNamespace(cs[i], namespace)
  {
    seq(|cs|, i requires 0 <= i < |cs| => InNamespace(cs[i], namespace))
  }

  function SpecInNamespace(s: SpecValue, namespace: string): SpecValue {
    match s.credentials
    case None => s
    case Some(cs) => s.(credentials := Some(AllInNamespace(cs, namespace)))
  }

  /** enrichLocalSecretRefs: set the namespace through each credential's pointer. */
  method EnrichLocalSecretRefs(s: Spec, namespace: string)
    modifies SpecRefs(s)
    ensures Snapshot(s) == SpecInNamespace(old(Snapshot(s)), namespace)
  {
    if s.credentials.Some? {
      var cs := s.credentials.value;
      var i := 0;
      while i < |cs|
        invariant 0 <= i <= |cs|
        invariant forall r :: r in Refs(cs) ==> r.name == old(r.name) && r.key == old(r.key)
        invariant forall r :: r in Refs(cs[..i]) ==> r.namespace == namespace
      {
        if cs[i].secretRef != null {
          assert cs[i].secretRef in Refs(cs);
          cs[i].secretRef.namespace := namespace;
        }
        forall r | r in Refs(cs[..i + 1])
          ensures r.namespace == namespace
        {
          var k :| 0 <= k < |cs[..i + 1]| && cs[..i + 1][k].secretRef == r;
          assert k < i ==> cs[..i][k].secretRef == r && r in Refs(cs[..i]);
        }
        i := i + 1;
      }
      assert cs[..i] == cs;
      ghost var before, after := old(CredentialsSnapshot(cs)), CredentialsSnapshot(cs);
      forall k | 0 <= k < |cs|
        ensures after[k] == InNamespace(before[k], namespace)
      {
        assert cs[k].secretRef != null ==> cs[k].secretRef in Refs(cs);
        assert before[k] == old(CredentialSnapshot(cs[k]));
      }
      assert after == AllInNamespace(before, namespace);
    }
  }

  datatype TypedReference = TypedReference(name: string, kind: string)

  /** What the scheme makes of a kind, and what the API server holds under the name. */
  datatype Object =
    | UnknownKind
    | NotAConfig
    | Missing
    | Namespaced(meta: Meta, spec: Spec)
    | ClusterWide(typeMeta: TypeMeta, clusterMeta: Meta, clusterSpec: Spec, status: Json)
    | Other

  datatype Effective = Effective(typeMeta: TypeMeta, meta: Meta, spec: Spec, status: Json)

  function Pointed(o: Object): set<SecretKeySelector> {
    if o.Namespaced? then SpecRefs(o.spec) else {}
  }

  /** The error of a resolution that does not succeed. */
  function ModernError(ref: Option<TypedReference>, namespace: string, o: Object): Error {
    if ref.None? then Leaf(ERR_NOT_SET)
    else
      match o
      case UnknownKind => Leaf("referenced provider config kind is invalid")
      case NotAConfig => Leaf("referenced provider config kind is not a provider config type")
      case Missing => Wrap(ERR_GET, NotFound(ref.value.kind, namespace, ref.value.name))
      case Other => Leaf("unknown")
      case _ => Wrap(ERR_TRACK, Leaf("tracker"))
  }

  /** Resolution for a namespaced resource; `tracked` says whether its usage could be recorded. */
  method ResolveModern(ref: Option<TypedReference>, namespace: string, o: Object, tracked: bool)
    returns (r: Result<Effective, Error>)
    modifies Pointed(o)
    ensures r.Ok? <==> ref.Some? && (o.Namespaced? || o.ClusterWide?) && tracked
    ensures ref.Some? && o.Namespaced? ==> Snapshot(o.spec) == SpecInNamespace(old(Snapshot(o.spec)), namespace)
    ensures ref.None? && o.Namespaced? ==> Snapshot(o.spec) == old(Snapshot(o.spec))
    ensures o.ClusterWide? ==> Snapshot(o.clusterSpec) == old(Snapshot(o.clusterSpec))
    ensures r.Ok? && o.Namespaced? ==> r.value == Effective(MODERN_TYPE, CarriedMeta(o.meta), o.spec, Null)
    ensures r.Ok? && o.ClusterWide? ==> r.value == Effective(o.typeMeta, o.clusterMeta, o.clusterSpec, o.status)
    ensures r.Err? ==> r.error == ModernError(ref, namespace, o)
  {
    if ref.None? {
      return Err(Leaf(ERR_NOT_SET));
    }
    if o.UnknownKind? {
      return Err(Leaf("referenced provider config kind is invalid"));
    }
    if o.NotAConfig? {
      return Err(Leaf("referenced provider config kind is not a provider config type"));
    }
    if o.Missing? {
      return Err(Wrap(ERR_GET, NotFound(ref.value.kind, namespace, ref.value.name)));
    }
    var effective: Effective;
    match o {
      case Namespaced(meta, spec) =>
        EnrichLocalSecretRefs(spec, namespace);
        effective := Effective(MODERN_TYPE, CarriedMeta(meta), spec, Null);
      case ClusterWide(typeMeta, meta, spec, status) =>
        effective := Effective(typeMeta, meta, spec, status);
      case _ =>
        return Err(Leaf("unknown"));
    }
    if !tracked {
      return Err(Wrap(ERR_TRACK, Leaf("tracker")));
    }
    r := Ok(effective);
  }

  /** Pointing references at a namespace touches no other field, and doing it again nothing. */
  lemma NamespaceOnlyChange(s: SpecValue, namespace: string, other: string)
    ensures var t := SpecInNamespace(s, namespace);
      && t == s.(credentials := t.credentials)
      && (t.credentials.None? <==> s.credentials.None?)
      && SpecInNamespace(SpecInNamespace(s, other), namespace) == t
    ensures s.credentials.Some? ==>
      var cs, ds := s.credentials.value, SpecInNamespace(s, namespace).credentials.value;
      |ds| == |cs| && forall i :: 0 <= i < |cs| ==>
        && ds[i] == cs[i].(secretRef := ds[i].secretRef)
        && (ds[i].secretRef.None? <==> cs[i].secretRef.None?)
        && (cs[i].secretRef.Some? ==>
              ds[i].secretRef.value == SecretValue(cs[i].secretRef.value.name, namespace, cs[i].secretRef.value.key))
  {
    if s.credentials.Some? {
      assert SpecInNamespace(SpecInNamespace(s, other), namespace).credentials.value
          == SpecInNamespace(s, namespace).credentials.value;
    }
  }

  // ---- Dispatch -----------------------------------------------------------------------

  datatype Managed =
    | LegacyManaged(name: Option<string>, got: Option<LegacyConfig>)
    | ModernManaged(typedRef: Option<TypedReference>, namespace: string, held: Object)
    | NotManaged

  datatype Resolved = FromLegacy(config: ModernConfig) | FromModern(effective: Effective)

  function ManagedRefs(mg: Managed): set<SecretKeySelector> {
    if mg.ModernManaged? then Pointed(mg.held) else {}
  }

  function ResolvedRefs(r: Resolved): set<SecretKeySelector> {
    if r.FromModern? then SpecRefs(r.effective.spec) else {}
  }

  /** The spec that Connect goes on to read. */
  function ResolvedSpec(r: Resolved): SpecValue
    reads ResolvedRefs(r)
  {
    match r
    case FromLegacy(config) => config.spec
    case FromModern(effective) => Snapshot(effective.spec)
  }

  /**
  Whatever the kind of resource, a resolution that succeeds hands on every field of the spec
  it read; only a namespaced config's references are pointed at the resource's namespace.
  */
  method ResolveProviderConfig(mg: Managed, tracked: bool) returns (r: Result<Resolved, Error>)
    modifies ManagedRefs(mg)
    ensures mg.NotManaged? ==> r == Err(Leaf("resource is not a managed"))
    ensures mg.LegacyManaged? ==> (r.Ok? <==> mg.name.Some? && mg.got.Some? && tracked)
    ensures mg.LegacyManaged? && r.Ok? ==> ResolvedSpec(r.value) == mg.got.value.spec
    ensures mg.ModernManaged? ==>
      (r.Ok? <==> mg.typedRef.Some? && (mg.held.Namespaced? || mg.held.ClusterWide?) && tracked)
    ensures mg.ModernManaged? && r.Ok? && mg.held.Namespaced? ==>
      ResolvedSpec(r.value) == SpecInNamespace(old(Snapshot(mg.held.spec)), mg.namespace)
    ensures mg.ModernManaged? && r.Ok? && mg.held.ClusterWide? ==>
      ResolvedSpec(r.value) == old(Snapshot(mg.held.clusterSpec))
  {
    match mg {
      case LegacyManaged(ref, got) =>
        var l := ResolveLegacy(ref, got, tracked);
        if ref.Some? && got.Some? {
          LegacyPreservesSpec(got.value);
        }
        r := if l.Ok? then Ok(FromLegacy(l.value)) else Err(l.error);
      case ModernManaged(ref, namespace, held) =>
        var m := ResolveModern(ref, namespace, held, tracked);
        r := if m.Ok? then Ok(FromModern(m.value)) else Err(m.error);
      case NotManaged =>
        r := Err(Leaf("resource is not a managed"));
    }
  }
}
