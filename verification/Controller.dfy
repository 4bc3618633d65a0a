/**
The controller of a Workspace: Connect prepares the directory and the tofu workspace,
Observe, Create, Update and Delete act through the harness and on the resource's status.
*/
module Controller {
  import opened Common
  import opened Options
  import opened Parameters
  import opened Harness
  import O = Outputs
  import P = ProviderConfig
  import C = ClusterResolve

  const ERR_MKDIR := "cannot make tofu configuration directory"
  const ERR_RESOLVE := "failed to resolve provider config"
  const ERR_REMOTE_MODULE := "cannot get remote tofu module"
  const ERR_GET_CREDS := "cannot get credentials"
  const ERR_WRITE_CREDS := "cannot write tofu credentials"
  const ERR_WRITE_GIT_CREDS := "cannot write .git-credentials to /tmp dir"
  const ERR_WRITE_CONFIG := "cannot write tofu configuration crossplane-provider-config.tf"
  const ERR_WRITE_BACKEND := "cannot write tofu configuration crossplane.remote.tfbackend"
  const ERR_WRITE_MAIN := "cannot write tofu configuration "
  const ERR_INIT := "cannot initialize tofu configuration"
  const ERR_WORKSPACE := "cannot select tofu workspace"
  const ERR_RESOURCES := "cannot list tofu resources"
  const ERR_DIFF := "cannot diff (i.e. plan) tofu configuration"
  const ERR_OUTPUTS := "cannot list tofu outputs"
  const ERR_OPTIONS := "cannot determine tofu options"
  const ERR_APPLY := "cannot apply tofu configuration"
  const ERR_DESTROY := "cannot destroy tofu configuration"
  const ERR_DELETE_WORKSPACE := "cannot delete tofu workspace"
  const ERR_CHECKSUM := "cannot calculate workspace checksum"

  const GIT_CREDENTIALS := ".git-credentials"
  const TF_MAIN := "main.tf"
  const TF_MAIN_JSON := "main.tf.json"
  const TF_CONFIG := "crossplane-provider-config.tf"
  const TF_BACKEND_FILE := "crossplane.remote.tfbackend"

  const REMOTE := "Remote"
  const INLINE := "Inline"

  /** The name, deletion mark and parameters of the resource being reconciled. */
  datatype Resource = Resource(externalName: string, deleted: bool, params: Parameters<ClusterRef>)

  /** status.atProvider */
  datatype StatusValue = StatusValue(checksum: string, outputs: map<string, Bytes>)

  class Status {
    var checksum: string
    var outputs: map<string, Bytes>

    constructor (s: StatusValue)
      ensures Value() == s
    {
      checksum, outputs := s.checksum, s.outputs;
    }

    function Value(): StatusValue
      reads this
    {
      StatusValue(checksum, outputs)
    }
  }

  // ---- Writing the directory ----------------------------------------------------------

  function TrimSlashes(s: string): string {
    if s != "" && s[|s| - 1] == '/' then TrimSlashes(s[..|s| - 1]) else s
  }

  function AfterLastSlash(s: string): string {
    if '/' !in s then s else AfterLastSlash(s[1..])
  }

  /** filepath.Base */
  function Base(path: string): string {
    if path == "" then "."
    else if TrimSlashes(path) == "" then "/"
    else AfterLastSlash(TrimSlashes(path))
  }

  /**
  What Connect meets outside: each input that can fail says whether it did. `extracted` holds
  the credentials that can be read, `denied` the file names that cannot be written.
  */
  datatype ConnectIn = ConnectIn(
    mkdirOk: bool, mkdirTmpOk: bool, pc: Result<P.SpecValue, Error>, extracted: map<P.CredentialValue, Bytes>,
    mkdirGitOk: bool, denied: set<string>, deniedRoot: set<string>, deniedTmp: set<string>,
    fetched: Option<(Files, Files)>, keys: Keys, checksumOk: bool, init: InitReply, workspace: WorkspaceReply)

  /** The directory itself and its parent are no files. */
  predicate Writable(name: string, denied: set<string>) {
    name !in denied && name !in {".", "..", "/"}
  }

  function WriteGitCredentials(tmp: Files, cs: seq<P.CredentialValue>, io: ConnectIn): (Files, Option<Error>)
    decreases |cs|
  {
    if cs == [] then (tmp, None)
    else if cs[0].filename != GIT_CREDENTIALS then WriteGitCredentials(tmp, cs[1..], io)
    else if cs[0] !in io.extracted then (tmp, Some(Wrap(ERR_GET_CREDS, Leaf("extract"))))
    else if !io.mkdirGitOk || !Writable(Base(cs[0].filename), io.deniedTmp)
    then (tmp, Some(Wrap(ERR_WRITE_GIT_CREDS, Leaf("write"))))
    else WriteGitCredentials(tmp[Base(cs[0].filename) := io.extracted[cs[0]]], cs[1..], io)
  }

  function MainFile<R>(p: Parameters<R>): string {
    if p.inlineFormat == FORMAT_JSON then TF_MAIN_JSON else TF_MAIN
  }

  /** Fetch a remote module, or write an inline one into the topmost directory. */
  function PlaceModule(w: World, p: Parameters<ClusterRef>, io: ConnectIn): (World, Option<Error>) {
    if p.source == REMOTE then
      match io.fetched
      case None => (w, Some(Wrap(ERR_REMOTE_MODULE, Leaf("fetch"))))
      case Some((root, work)) => (w.(root := root, work := work), None)
    else if p.source == INLINE then
      if !Writable(MainFile(p), io.deniedRoot) then (w, Some(Wrap(ERR_WRITE_MAIN + MainFile(p), Leaf("write"))))
      else if p.entrypoint == "" then (w.(work := w.work[MainFile(p) := p.tofuModule]), None)
      else (w.(root := w.root[MainFile(p) := p.tofuModule]), None)
    else (w, None)
  }

  function WriteCredentials(files: Files, cs: seq<P.CredentialValue>, io: ConnectIn): (Files, Option<Error>)
    decreases |cs|
  {
    if cs == [] then (files, None)
    else if cs[0] !in io.extracted then (files, Some(Wrap(ERR_GET_CREDS, Leaf("extract"))))
    else if !Writable(Base(cs[0].filename), io.denied) then (files, Some(Wrap(ERR_WRITE_CREDS, Leaf("write"))))
    else WriteCredentials(files[Base(cs[0].filename) := io.extracted[cs[0]]], cs[1..], io)
  }

  function WriteIfSet(files: Files, name: string, content: Option<string>, io: ConnectIn, err: string)
    : (Files, Option<Error>)
  {
    if content.None? then (files, None)
    else if !Writable(name, io.denied) then (files, Some(Wrap(err, Leaf("write"))))
    else (files[name := content.value], None)
  }

  function CredentialsOf(pc: P.SpecValue): seq<P.CredentialValue> {
    if pc.credentials.None? then [] else pc.credentials.value
  }

  /** What the provider config adds to the working directory. */
  function WriteSettings(files: Files, pc: P.SpecValue, io: ConnectIn): (Files, Option<Error>) {
    var (f1, e1) := WriteCredentials(files, CredentialsOf(pc), io);
    if e1.Some? then (f1, e1)
    else
      var (f2, e2) := WriteIfSet(f1, TF_CONFIG, pc.configuration, io, ERR_WRITE_CONFIG);
      if e2.Some? then (f2, e2) else WriteIfSet(f2, TF_BACKEND_FILE, pc.backendFile, io, ERR_WRITE_BACKEND)
  }

  /** All of Connect's writes, up to the first that fails. */
  function WritePhase(w: World, p: Parameters<ClusterRef>, pc: P.SpecValue, io: ConnectIn): (World, Option<Error>) {
    var (tmp, e0) := WriteGitCredentials(w.tmp, CredentialsOf(pc), io);
    if e0.Some? then (w.(tmp := tmp), e0)
    else
      var (w1, e1) := PlaceModule(w.(tmp := tmp), p, io);
      if e1.Some? then (w1, e1)
      else
        var (work, e2) := WriteSettings(w1.work, pc, io);
        (w1.(work := work), e2)
  }

  // ---- Connect ------------------------------------------------------------------------

  /** What the rest of the reconciliation gets hold of: the harness's settings. */
  datatype Client = Client(usePluginCache: bool, envs: seq<string>)

  function UsesCache(pc: P.SpecValue): bool {
    if pc.pluginCache.Some? then pc.pluginCache.value else true
  }

  function InitArgs(p: Parameters<ClusterRef>, pc: P.SpecValue, dir: string): seq<string> {
    ["init", "-input=false", "-no-color"]
    + (if pc.backendFile.Some? then ["-backend-config=" + dir + "/" + TF_BACKEND_FILE] else [])
    + p.initArgs
  }

  function SelectPhase(w: World, externalName: string, io: ConnectIn, client: Client): (World, Result<Client, Error>) {
    var (w1, ok) := SelectOrNew(w, externalName, io.workspace);
    (w1, if ok then Ok(client) else Err(Wrap(ERR_WORKSPACE, Leaf("workspace"))))
  }

  /** The init that a Workspace's parameters, provider config and environment ask for. */
  function CallFor(p: Parameters<ClusterRef>, pc: P.SpecValue, envs: seq<string>, dir: string): InitCall {
    InitCall(InitArgs(p, pc, dir), envs, UsesCache(pc))
  }

  /** The guard: a stored checksum that is the directory's makes init unnecessary. */
  function InitPhase(x: Externals, w: World, checksum: string, externalName: string, call: InitCall, io: ConnectIn)
    : (World, Result<Client, Error>)
  {
    var client := Client(call.cache, call.envs);
    if checksum != "" && !io.checksumOk then (w, Err(Wrap(ERR_CHECKSUM, Leaf("checksum"))))
    else if checksum != "" && checksum == x.sum(w.work, w.selected) then SelectPhase(w, externalName, io, client)
    else
      var (w1, ok) := RunInit(x, w, call, io.init);
      if !ok then (w1, Err(Wrap(ERR_INIT, Leaf("init")))) else SelectPhase(w1, externalName, io, client)
  }

  function ConnectTo(x: Externals, w: World, checksum: string, r: Resource, dir: string, io: ConnectIn)
    : (World, Result<Client, Error>)
  {
    if !io.mkdirOk || !io.mkdirTmpOk then (w, Err(Wrap(ERR_MKDIR, Leaf("mkdir"))))
    else
      match io.pc
      case Err(e) => (w, Err(Wrap(ERR_RESOLVE, e)))
      case Ok(pc) =>
        var (w1, e1) := WritePhase(w, r.params, pc, io);
        if e1.Some? then (w1, Err(e1.value))
        else
          match C.EnvList(io.keys, r.params.env)
          case Err(e) => (w1, Err(e))
          case Ok(envs) => InitPhase(x, w1, checksum, r.externalName, CallFor(r.params, pc, envs, dir), io)
  }

  /** The loop that makes git credentials available under /tmp. */
  method PutGitCredentials(tofu: Tofu, cs: seq<P.CredentialValue>, io: ConnectIn) returns (e: Option<Error>)
    modifies tofu`tmp
    ensures (tofu.tmp, e) == WriteGitCredentials(old(tofu.tmp), cs, io)
  {
    var i := 0;
    while i < |cs|
      invariant 0 <= i <= |cs|
      invariant WriteGitCredentials(old(tofu.tmp), cs, io) == WriteGitCredentials(tofu.tmp, cs[i..], io)
    {
      var cd := cs[i];
      assert cs[i..][0] == cd && cs[i..][1..] == cs[i + 1..];
      if cd.filename == GIT_CREDENTIALS {
        if cd !in io.extracted {
          return Some(Wrap(ERR_GET_CREDS, Leaf("extract")));
        }
        if !io.mkdirGitOk || !Writable(Base(cd.filename), io.deniedTmp) {
          return Some(Wrap(ERR_WRITE_GIT_CREDS, Leaf("write")));
        }
        tofu.tmp := tofu.tmp[Base(cd.filename) := io.extracted[cd]];
      }
      i := i + 1;
    }
    e := None;
  }

  /** The loop that writes every credential beside the configuration. */
  method PutCredentials(tofu: Tofu, cs: seq<P.CredentialValue>, io: ConnectIn) returns (e: Option<Error>)
    modifies tofu`work
    ensures (tofu.work, e) == WriteCredentials(old(tofu.work), cs, io)
  {
    var i := 0;
    while i < |cs|
      invariant 0 <= i <= |cs|
      invariant WriteCredentials(old(tofu.work), cs, io) == WriteCredentials(tofu.work, cs[i..], io)
    {
      var cd := cs[i];
      assert cs[i..][0] == cd && cs[i..][1..] == cs[i + 1..];
      if cd !in io.extracted {
        return Some(Wrap(ERR_GET_CREDS, Leaf("extract")));
      }
      if !Writable(Base(cd.filename), io.denied) {
        return Some(Wrap(ERR_WRITE_CREDS, Leaf("write")));
      }
      tofu.work := tofu.work[Base(cd.filename) := io.extracted[cd]];
      i := i + 1;
    }
    e := None;
  }

  method PutModule(tofu: Tofu, p: Parameters<ClusterRef>, io: ConnectIn) returns (e: Option<Error>)
    modifies tofu
    ensures (tofu.Value(), e) == PlaceModule(old(tofu.Value()), p, io)
  {
    if p.source == REMOTE {
      if io.fetched.None? {
        return Some(Wrap(ERR_REMOTE_MODULE, Leaf("fetch")));
      }
      tofu.root, tofu.work := io.fetched.value.0, io.fetched.value.1;
    } else if p.source == INLINE {
      var fn := TF_MAIN;
      if p.inlineFormat == FORMAT_JSON {
        fn := TF_MAIN_JSON;
      }
      if !Writable(fn, io.deniedRoot) {
        return Some(Wrap(ERR_WRITE_MAIN + fn, Leaf("write")));
      }
      if |p.entrypoint| > 0 {
        tofu.root := tofu.root[fn := p.tofuModule];
      } else {
        tofu.work := tofu.work[fn := p.tofuModule];
      }
    }
    e := None;
  }

  method PutSettings(tofu: Tofu, pc: P.SpecValue, io: ConnectIn) returns (e: Option<Error>)
    modifies tofu`work
    ensures (tofu.work, e) == WriteSettings(old(tofu.work), pc, io)
  {
    e := PutCredentials(tofu, CredentialsOf(pc), io);
    if e.Some? {
      return;
    }
    if pc.configuration.Some? {
      if !Writable(TF_CONFIG, io.denied) {
        return Some(Wrap(ERR_WRITE_CONFIG, Leaf("write")));
      }
      tofu.work := tofu.work[TF_CONFIG := pc.configuration.value];
    }
    if pc.backendFile.Some? {
      if !Writable(TF_BACKEND_FILE, io.denied) {
        return Some(Wrap(ERR_WRITE_BACKEND, Leaf("write")));
      }
      tofu.work := tofu.work[TF_BACKEND_FILE := pc.backendFile.value];
    }
    e := None;
  }

  method PutFiles(tofu: Tofu, p: Parameters<ClusterRef>, pc: P.SpecValue, io: ConnectIn) returns (e: Option<Error>)
    modifies tofu
    ensures (tofu.Value(), e) == WritePhase(old(tofu.Value()), p, pc, io)
  {
    e := PutGitCredentials(tofu, CredentialsOf(pc), io);
    if e.Some? {
      return;
    }
    e := PutModule(tofu, p, io);
    if e.Some? {
      return;
    }
    e := PutSettings(tofu, pc, io);
  }

  method Connect(x: Externals, tofu: Tofu, status: Status, r: Resource, dir: string, io: ConnectIn)
    returns (client: Result<Client, Error>)
    modifies tofu
    ensures (tofu.Value(), client) == ConnectTo(x, old(tofu.Value()), status.checksum, r, dir, io)
  {
    hide WritePhase, SelectOrNew, RunInit, C.EnvList;
    if !io.mkdirOk {
      return Err(Wrap(ERR_MKDIR, Leaf("mkdir")));
    }
    if !io.mkdirTmpOk {
      return Err(Wrap(ERR_MKDIR, Leaf("mkdir")));
    }
    if io.pc.Err? {
      return Err(Wrap(ERR_RESOLVE, io.pc.error));
    }
    var pc := io.pc.value;
    var written := PutFiles(tofu, r.params, pc, io);
    if written.Some? {
      return Err(written.value);
    }
    var cache := true;
    if pc.pluginCache.Some? {
      cache := pc.pluginCache.value;
    }
    var env := C.ResolveEnv(io.keys, r.params.env);
    if env.Err? {
      return Err(env.error);
    }
    var harness := Client(cache, env.value);
    if status.checksum != "" {
      if !io.checksumOk {
        return Err(Wrap(ERR_CHECKSUM, Leaf("checksum")));
      }
      var checksum := tofu.GenerateChecksum(x);
      if status.checksum == checksum {
        var selected := tofu.Workspace(r.externalName, io.workspace);
        return if selected then Ok(harness) else Err(Wrap(ERR_WORKSPACE, Leaf("workspace")));
      }
    }
    var args := ["init", "-input=false", "-no-color"];
    if pc.backendFile.Some? {
      args := args + ["-backend-config=" + dir + "/" + TF_BACKEND_FILE];
    }
    args := args + r.params.initArgs;
    assert args == InitArgs(r.params, pc, dir);
    var ok := tofu.Init(x, InitCall(args, env.value, cache), io.init);
    if !ok {
      return Err(Wrap(ERR_INIT, Leaf("init")));
    }
    var selected := tofu.Workspace(r.externalName, io.workspace);
    client := if selected then Ok(harness) else Err(Wrap(ERR_WORKSPACE, Leaf("workspace")));
  }

  // ---- Observe ------------------------------------------------------------------------

  datatype ObserveIn = ObserveIn(keys: Keys, denied: set<string>, plan: PlanReply, listOk: bool, delete: DeleteReply,
                                 outputsOk: bool, checksumOk: bool)

  datatype Observation = Observation(exists_: bool, upToDate: bool, details: map<string, Bytes>)

  /** A plan that fails is an error, unless the resource is being deleted: then nothing differs. */
  function CheckDiff(w: World, r: Resource, io: ObserveIn): (World, Result<bool, Error>) {
    match C.OptionList(io.keys, r.params)
    case Err(e) => (w, Err(Wrap(ERR_OPTIONS, e)))
    case Ok(os) =>
      var (w1, d) := RunPlan(w, os + [WithArgs(r.params.planArgs)], io.denied, io.plan);
      (w1, match d
           case Ok(differs) => Ok(differs)
           case Err(e) => if r.deleted then Ok(false) else Err(Wrap(ERR_DIFF, e)))
  }

  /** A deleted resource without tofu resources has its tofu workspace removed. */
  function MaybeDelete(w: World, r: Resource, io: ObserveIn): (World, bool) {
    if r.deleted && |ListResources(w)| == 0 then DeleteCurrent(w, io.delete) else (w, true)
  }

  function ObserveFrom(x: Externals, w: World, s: StatusValue, r: Resource, io: ObserveIn)
    : (World, StatusValue, Result<Observation, Error>)
  {
    var (w1, d) := CheckDiff(w, r, io);
    if d.Err? then (w1, s, Err(d.error))
    else if !io.listOk then (w1, s, Err(Wrap(ERR_RESOURCES, Leaf("state list"))))
    else
      var (w2, ok) := MaybeDelete(w1, r, io);
      if !ok then (w2, s, Err(Wrap(ERR_DELETE_WORKSPACE, Leaf("workspace delete"))))
      else if !io.outputsOk then (w2, s, Err(Wrap(ERR_OUTPUTS, Leaf("output"))))
      else
        var outputs := Current(w2).outputs;
        var s1 := StatusValue("", O.StatusMap(outputs, x.marshal));
        if !io.checksumOk then (w2, s1, Err(Wrap(ERR_CHECKSUM, Leaf("checksum"))))
        else
          (w2, s1.(checksum := x.sum(w2.work, w2.selected)),
           Ok(Observation(|ListResources(w1)| + |outputs| > 0, !d.value, O.DetailsMap(outputs, x.marshal))))
  }

  method CheckDiffWith(tofu: Tofu, r: Resource, io: ObserveIn) returns (d: Result<bool, Error>)
    modifies tofu
    ensures (tofu.Value(), d) == CheckDiff(old(tofu.Value()), r, io)
  {
    var o := C.ResolveOptions(io.keys, r.params);
    if o.Err? {
      return Err(Wrap(ERR_OPTIONS, o.error));
    }
    d := tofu.Diff(o.value + [WithArgs(r.params.planArgs)], io.denied, io.plan);
    if d.Err? {
      if !r.deleted {
        return Err(Wrap(ERR_DIFF, d.error));
      }
      return Ok(false);
    }
  }

  method Observe(x: Externals, tofu: Tofu, status: Status, r: Resource, io: ObserveIn)
    returns (o: Result<Observation, Error>)
    modifies tofu, status
    ensures (tofu.Value(), status.Value(), o) == ObserveFrom(x, old(tofu.Value()), old(status.Value()), r, io)
  {
    var differs := CheckDiffWith(tofu, r, io);
    if differs.Err? {
      return Err(differs.error);
    }
    if !io.listOk {
      return Err(Wrap(ERR_RESOURCES, Leaf("state list")));
    }
    var rs := tofu.Resources();
    if r.deleted && |rs| == 0 {
      var ok := tofu.DeleteCurrentWorkspace(io.delete);
      if !ok {
        return Err(Wrap(ERR_DELETE_WORKSPACE, Leaf("workspace delete")));
      }
    }
    if !io.outputsOk {
      return Err(Wrap(ERR_OUTPUTS, Leaf("output")));
    }
    ghost var outputs := Current(tofu.Value()).outputs;
    var op := tofu.Outputs();
    O.MapsOfListing(op, outputs, x.marshal);
    O.ListingLength(op, outputs);
    status.outputs := O.StatusOutputs(op, x.marshal);
    status.checksum := "";
    if !io.checksumOk {
      return Err(Wrap(ERR_CHECKSUM, Leaf("checksum")));
    }
    status.checksum := tofu.GenerateChecksum(x);
    var details := O.ConnectionDetails(op, x.marshal);
    o := Ok(Observation(|rs| + |op| > 0, !differs.value, details));
  }

  // ---- Create, Update, Delete ---------------------------------------------------------

  datatype ActIn = ActIn(keys: Keys, denied: set<string>, run: RunReply, outputsOk: bool)

  /** A successful update also forgets the checksum. */
  function UpdateFrom(x: Externals, w: World, s: StatusValue, r: Resource, io: ActIn)
    : (World, StatusValue, Result<map<string, Bytes>, Error>)
  {
    match C.OptionList(io.keys, r.params)
    case Err(e) => (w, s, Err(Wrap(ERR_OPTIONS, e)))
    case Ok(os) =>
      var (w1, e1) := RunApply(w, os + [WithArgs(r.params.applyArgs)], io.denied, io.run);
      if e1.Some? then (w1, s, Err(Wrap(ERR_APPLY, e1.value)))
      else if !io.outputsOk then (w1, s, Err(Wrap(ERR_OUTPUTS, Leaf("output"))))
      else
        var outputs := Current(w1).outputs;
        (w1, StatusValue("", O.StatusMap(outputs, x.marshal)), Ok(O.DetailsMap(outputs, x.marshal)))
  }

  function DeleteFrom(w: World, r: Resource, io: ActIn): (World, Option<Error>) {
    match C.OptionList(io.keys, r.params)
    case Err(e) => (w, Some(Wrap(ERR_OPTIONS, e)))
    case Ok(os) =>
      var (w1, e1) := RunDestroy(w, os + [WithArgs(r.params.destroyArgs)], io.denied, io.run);
      (w1, if e1.Some? then Some(Wrap(ERR_DESTROY, e1.value)) else None)
  }

  method Update(x: Externals, tofu: Tofu, status: Status, r: Resource, io: ActIn)
    returns (details: Result<map<string, Bytes>, Error>)
    modifies tofu, status
    ensures (tofu.Value(), status.Value(), details) == UpdateFrom(x, old(tofu.Value()), old(status.Value()), r, io)
  {
    var o := C.ResolveOptions(io.keys, r.params);
    if o.Err? {
      return Err(Wrap(ERR_OPTIONS, o.error));
    }
    var e := tofu.Apply(o.value + [WithArgs(r.params.applyArgs)], io.denied, io.run);
    if e.Some? {
      return Err(Wrap(ERR_APPLY, e.value));
    }
    if !io.outputsOk {
      return Err(Wrap(ERR_OUTPUTS, Leaf("output")));
    }
    ghost var outputs := Current(tofu.Value()).outputs;
    var op := tofu.Outputs();
    O.MapsOfListing(op, outputs, x.marshal);
    status.outputs := O.StatusOutputs(op, x.marshal);
    status.checksum := "";
    var cd := O.ConnectionDetails(op, x.marshal);
    details := Ok(cd);
  }

  /** tofu does not tell creating from updating. */
  method Create(x: Externals, tofu: Tofu, status: Status, r: Resource, io: ActIn)
    returns (details: Result<map<string, Bytes>, Error>)
    modifies tofu, status
    ensures (tofu.Value(), status.Value(), details) == UpdateFrom(x, old(tofu.Value()), old(status.Value()), r, io)
  {
    details := Update(x, tofu, status, r, io);
  }

  method Delete(tofu: Tofu, r: Resource, io: ActIn) returns (e: Option<Error>)
    modifies tofu
    ensures (tofu.Value(), e) == DeleteFrom(old(tofu.Value()), r, io)
  {
    var o := C.ResolveOptions(io.keys, r.params);
    if o.Err? {
      return Some(Wrap(ERR_OPTIONS, o.error));
    }
    e := tofu.Destroy(o.value + [WithArgs(r.params.destroyArgs)], io.denied, io.run);
    if e.Some? {
      return Some(Wrap(ERR_DESTROY, e.value));
    }
  }
}
