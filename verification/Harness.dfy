/**
The harness around the tofu binary.

The binary, its state backend and the file system are modelled by the state they change;
whether a command succeeds, and what it leaves behind where the provider does not decide
it, comes from a reply. The class holds the state and has the harness's methods; each is
proved against a function on World values.
*/
module Harness {
  import opened Common
  import opened Options
  import opened Outputs
  import StateList

  const DEFAULT := "default"

  /** One tofu workspace as the backend keeps it. */
  datatype Ws = Ws(resources: seq<string>, outputs: map<string, RawOutput>)

  const EMPTY_WS := Ws([], map[])

  /** Commands that acted on a workspace, in the order they ran. */
  datatype Event =
    | Planned(ws: string, args: seq<string>)
    | Applied(ws: string, args: seq<string>)
    | Destroyed(ws: string, args: seq<string>)
    | RemovedWorkspace(ws: string, state: Ws)

  /**
  `work` is the directory the harness runs in; `root` is the directory above it when there is
  an entrypoint, and otherwise unused. `installed` stands for what the checksum leaves out.
  */
  datatype World = World(store: map<string, Ws>, selected: string, root: Files, work: Files, tmp: Files,
                         installed: set<string>, history: seq<Event>)

  datatype InitCall = InitCall(args: seq<string>, envs: seq<string>, cache: bool)

  /** What foreign code computes: the checksum of a directory, tofu init, and JSON text. */
  datatype Externals = Externals(
    sum: (Files, string) -> string,
    initFiles: (InitCall, Files, set<string>) -> Files,
    initInstalled: (InitCall, Files, set<string>) -> set<string>,
    marshal: Marshaller)

  // ---- Replies ------------------------------------------------------------------------

  datatype WorkspaceReply = WorkspaceReply(selectOk: bool, newOk: bool)

  datatype DeleteReply = DeleteReply(showOk: bool, toDefault: WorkspaceReply, deleteOk: bool)

  /** A failed init may leave other files and further installed plugins. */
  datatype InitReply = InitReply(ok: bool, leaves: Files -> Files, added: set<string>)

  datatype PlanReply = PlanReply(exit: int, failed: bool, effect: Files -> Files)

  /** Apply or destroy: what the workspace and the directory are afterwards, ok or not. */
  datatype RunReply = RunReply(ok: bool, after: Ws, effect: Files -> Files, added: set<string>)

  // ---- Functions on worlds ------------------------------------------------------------

  function Current(w: World): Ws {
    if w.selected in w.store then w.store[w.selected] else EMPTY_WS
  }

  /** Select the workspace, or else make it; only an existing one can be selected, only a new one made. */
  function SelectOrNew(w: World, name: string, r: WorkspaceReply): (World, bool) {
    if r.selectOk && name in w.store then (w.(selected := name), true)
    else if r.newOk && name !in w.store then (w.(store := w.store[name := EMPTY_WS], selected := name), true)
    else (w, false)
  }

  /** The removal itself is not assumed to check anything but that another workspace is selected. */
  function DeleteCurrent(w: World, r: DeleteReply): (World, bool) {
    if !r.showOk then (w, false)
    else if w.selected == DEFAULT then (w, true)
    else
      var (w1, ok) := SelectOrNew(w, DEFAULT, r.toDefault);
      if !ok then (w1, false)
      else if r.deleteOk && w.selected in w1.store
      then (w1.(store := w1.store - {w.selected},
                history := w1.history + [RemovedWorkspace(w.selected, w1.store[w.selected])]), true)
      else (w1, false)
  }

  const PLAN := ["plan", "-no-color", "-input=false", "-detailed-exitcode", "-lock=false"]
  const APPLY := ["apply", "-no-color", "-auto-approve", "-input=false"]
  const DESTROY := ["destroy", "-no-color", "-auto-approve", "-input=false"]

  const ERR_WRITE_VAR_FILE := "cannot write tfvars file"

  function RunPlan(w: World, os: seq<TofuOption>, denied: set<string>, r: PlanReply): (World, Result<bool, Error>) {
    var (work, ok) := WriteAll(w.work, VarFilesOf(os), denied);
    if !ok then (w.(work := work), Err(Leaf(ERR_WRITE_VAR_FILE)))
    else
      (w.(work := r.effect(work), history := w.history + [Planned(w.selected, PLAN + ArgsOf(os))]),
       if r.exit == 2 then Ok(true) else if r.failed then Err(Leaf("plan")) else Ok(false))
  }

  function RunApply(w: World, os: seq<TofuOption>, denied: set<string>, r: RunReply): (World, Option<Error>) {
    var (work, ok) := WriteAll(w.work, VarFilesOf(os), denied);
    if !ok then (w.(work := work), Some(Leaf(ERR_WRITE_VAR_FILE)))
    else
      (w.(store := w.store[w.selected := r.after], work := r.effect(work), installed := w.installed + r.added,
          history := w.history + [Applied(w.selected, APPLY + ArgsOf(os))]),
       if r.ok then None else Some(Leaf("apply")))
  }

  function RunDestroy(w: World, os: seq<TofuOption>, denied: set<string>, r: RunReply): (World, Option<Error>) {
    var (work, ok) := WriteAll(w.work, VarFilesOf(os), denied);
    if !ok then (w.(work := work), Some(Leaf(ERR_WRITE_VAR_FILE)))
    else
      (w.(store := w.store[w.selected := r.after], work := r.effect(work), installed := w.installed + r.added,
          history := w.history + [Destroyed(w.selected, DESTROY + ArgsOf(os))]),
       if r.ok then None else Some(Leaf("destroy")))
  }

  function RunInit(x: Externals, w: World, call: InitCall, r: InitReply): (World, bool) {
    if r.ok
    then
      (w.(work := x.initFiles(call, w.work, w.installed),
          installed := x.initInstalled(call, w.work, w.installed)), true)
    else (w.(work := r.leaves(w.work), installed := w.installed + r.added), false)
  }

  function ListResources(w: World): seq<string> {
    StateList.Parse(StateList.Print(Current(w).resources))
  }

  // ---- The harness --------------------------------------------------------------------

  class Tofu {
    var store: map<string, Ws>
    var selected: string
    var root: Files
    var work: Files
    var tmp: Files
    var installed: set<string>
    var history: seq<Event>

    constructor (w: World)
      ensures Value() == w
    {
      store, selected, root, work, tmp := w.store, w.selected, w.root, w.work, w.tmp;
      installed, history := w.installed, w.history;
    }

    function Value(): World
      reads this
    {
      World(store, selected, root, work, tmp, installed, history)
    }

    /** Init touches the directory and the plugins, and nothing else; one that fails removes no plugin. */
    method Init(x: Externals, call: InitCall, r: InitReply) returns (ok: bool)
      modifies this`work, this`installed
      ensures ok <==> r.ok
      ensures !ok ==> old(installed) <= installed
      ensures (Value(), ok) == RunInit(x, old(Value()), call, r)
    {
      if r.ok {
        work, installed := x.initFiles(call, work, installed), x.initInstalled(call, work, installed);
      } else {
        work, installed := r.leaves(work), installed + r.added;
      }
      ok := r.ok;
    }

    /** Select the workspace; if that fails for any reason, try to make it. */
    method Workspace(name: string, r: WorkspaceReply) returns (ok: bool)
      modifies this
      ensures (Value(), ok) == SelectOrNew(old(Value()), name, r)
    {
      if r.selectOk && name in store {
        selected := name;
        return true;
      }
      if r.newOk && name !in store {
        store := store[name := EMPTY_WS];
        selected := name;
        return true;
      }
      ok := false;
    }

    method DeleteCurrentWorkspace(r: DeleteReply) returns (ok: bool)
      modifies this
      ensures (Value(), ok) == DeleteCurrent(old(Value()), r)
    {
      if !r.showOk {
        return false;
      }
      var shown := selected + "\n";
      var name := TrimSuffix(shown, "\n");
      assert name == selected;
      if name == DEFAULT {
        return true;
      }
      ok := Workspace(DEFAULT, r.toDefault);
      if !ok {
        return false;
      }
      if r.deleteOk && name in store {
        history := history + [RemovedWorkspace(name, store[name])];
        store := store - {name};
        return true;
      }
      ok := false;
    }

    /** The loop in front of plan, apply and destroy. */
    method WriteVarFiles(vfs: seq<VarFile>, denied: set<string>) returns (ok: bool)
      modifies this`work
      ensures (work, ok) == WriteAll(old(work), vfs, denied)
    {
      var i := 0;
      while i < |vfs|
        invariant 0 <= i <= |vfs|
        invariant WriteAll(old(work), vfs, denied) == WriteAll(work, vfs[i..], denied)
      {
        assert vfs[i..][0] == vfs[i] && vfs[i..][1..] == vfs[i + 1..];
        if vfs[i].filename in denied {
          return false;
        }
        work := work[vfs[i].filename := vfs[i].data];
        i := i + 1;
      }
      ok := true;
    }

    /** Exit code 2 means there is a difference; any other outcome is told by the error. */
    method Diff(os: seq<TofuOption>, denied: set<string>, r: PlanReply) returns (d: Result<bool, Error>)
      modifies this
      ensures (Value(), d) == RunPlan(old(Value()), os, denied, r)
    {
      var ao := new Invocation();
      ao.UseAll(os);
      var ok := WriteVarFiles(ao.varFiles, denied);
      if !ok {
        return Err(Leaf(ERR_WRITE_VAR_FILE));
      }
      history := history + [Planned(selected, PLAN + ao.args)];
      work := r.effect(work);
      if r.exit == 2 {
        return Ok(true);
      }
      d := if r.failed then Err(Leaf("plan")) else Ok(false);
    }

    method Apply(os: seq<TofuOption>, denied: set<string>, r: RunReply) returns (e: Option<Error>)
      modifies this
      ensures (Value(), e) == RunApply(old(Value()), os, denied, r)
    {
      var ao := new Invocation();
      ao.UseAll(os);
      var ok := WriteVarFiles(ao.varFiles, denied);
      if !ok {
        return Some(Leaf(ERR_WRITE_VAR_FILE));
      }
      history := history + [Applied(selected, APPLY + ao.args)];
      store := store[selected := r.after];
      work, installed := r.effect(work), installed + r.added;
      e := if r.ok then None else Some(Leaf("apply"));
    }

    method Destroy(os: seq<TofuOption>, denied: set<string>, r: RunReply) returns (e: Option<Error>)
      modifies this
      ensures (Value(), e) == RunDestroy(old(Value()), os, denied, r)
    {
      var ao := new Invocation();
      ao.UseAll(os);
      var ok := WriteVarFiles(ao.varFiles, denied);
      if !ok {
        return Some(Leaf(ERR_WRITE_VAR_FILE));
      }
      history := history + [Destroyed(selected, DESTROY + ao.args)];
      store := store[selected := r.after];
      work, installed := r.effect(work), installed + r.added;
      e := if r.ok then None else Some(Leaf("destroy"));
    }

    method Resources() returns (rs: seq<string>)
      ensures rs == ListResources(Value())
    {
      var out := StateList.Print(Current(Value()).resources);
      var pieces := StateList.Split(out);
      rs := pieces[..|pieces| - 1];
    }

    method Outputs() returns (o: seq<Output>)
      ensures IsListing(o, Current(Value()).outputs)
    {
      o := ListOutputs(Current(Value()).outputs);
    }

    method GenerateChecksum(x: Externals) returns (sum: string)
      ensures sum == x.sum(work, selected)
    {
      sum := x.sum(work, selected);
    }
  }

  // ---- What the three invocations have in common --------------------------------------

  lemma ExtraArgsLast(os: seq<TofuOption>, extra: seq<string>)
    ensures VarFilesOf(os + [WithArgs(extra)]) == VarFilesOf(os)
    ensures ArgsOf(os + [WithArgs(extra)]) == ArgsOf(os) + extra
  {
    assert (os + [WithArgs(extra)])[..|os|] == os;
  }

  lemma CommandLine(command: seq<string>, os: seq<TofuOption>, extra: seq<string>)
    ensures VarFilesOf(os + [WithArgs(extra)]) == VarFilesOf(os)
    ensures command + ArgsOf(os + [WithArgs(extra)]) == command + ArgsOf(os) + extra
  {
    ExtraArgsLast(os, extra);
    assert command + (ArgsOf(os) + extra) == command + ArgsOf(os) + extra;
  }

  /**
  Plan, apply and destroy with the same options write the same files and get the same
  variable arguments; they differ in what stands before those and in the extra ones after.
  */
  lemma SameVariables(w: World, os: seq<TofuOption>, extras: (seq<string>, seq<string>, seq<string>),
                      denied: set<string>, p: PlanReply, a: RunReply, d: RunReply)
    requires WriteAll(w.work, VarFilesOf(os), denied).1
    ensures var files := WriteAll(w.work, VarFilesOf(os), denied).0;
      && Holds(files, VarFilesOf(os))
      && RunPlan(w, os + [WithArgs(extras.0)], denied, p).0.work == p.effect(files)
      && RunApply(w, os + [WithArgs(extras.1)], denied, a).0.work == a.effect(files)
      && RunDestroy(w, os + [WithArgs(extras.2)], denied, d).0.work == d.effect(files)
    ensures RunPlan(w, os + [WithArgs(extras.0)], denied, p).0.history
      == w.history + [Planned(w.selected, PLAN + ArgsOf(os) + extras.0)]
    ensures RunApply(w, os + [WithArgs(extras.1)], denied, a).0.history
      == w.history + [Applied(w.selected, APPLY + ArgsOf(os) + extras.1)]
    ensures RunDestroy(w, os + [WithArgs(extras.2)], denied, d).0.history
      == w.history + [Destroyed(w.selected, DESTROY + ArgsOf(os) + extras.2)]
  {
    hide ArgsOf, VarFilesOf, WriteAll, Holds;
    CommandLine(PLAN, os, extras.0);
    CommandLine(APPLY, os, extras.1);
    CommandLine(DESTROY, os, extras.2);
    WriteAllHolds(w.work, os, denied);
  }
}
