/**
When the operations succeed and what they have then done: conditions on the replies and on
the state before, to the point that a resource whose commands work is applied once and then
stays up to date.
*/
module Outcomes {
  import opened Common
  import opened Options
  import opened Parameters
  import opened Harness
  import opened Controller
  import opened Overlay
  import opened LifeCycle
  import opened InitSkip
  import O = Outputs
  import P = ProviderConfig
  import C = ClusterResolve

  // ---- Commands -----------------------------------------------------------------------

  /** No command waits for input; only the plan reports a difference by exit code and leaves the state unlocked. */
  lemma CommandLines()
    ensures PLAN[0] == "plan" && APPLY[0] == "apply" && DESTROY[0] == "destroy"
    ensures "-input=false" in PLAN && "-input=false" in APPLY && "-input=false" in DESTROY
    ensures "-auto-approve" in APPLY && "-auto-approve" in DESTROY
    ensures "-detailed-exitcode" in PLAN && "-lock=false" in PLAN
    ensures "-lock=false" !in APPLY && "-lock=false" !in DESTROY
  {
    assert PLAN[2] == "-input=false" && APPLY[3] == "-input=false" && DESTROY[3] == "-input=false";
    assert APPLY[2] == "-auto-approve" && DESTROY[2] == "-auto-approve";
    assert PLAN[3] == "-detailed-exitcode" && PLAN[4] == "-lock=false";
    assert "-lock=false"[1] == 'l' && |"-lock=false"| == 11;
  }

  /** An existing workspace is selected and a missing one is made, as far as tofu lets that happen. */
  predicate CanSwitch(w: World, name: string, r: WorkspaceReply) {
    if name in w.store then r.selectOk else r.newOk
  }

  lemma SwitchSucceeds(w: World, name: string, r: WorkspaceReply)
    ensures SelectOrNew(w, name, r).1 <==> CanSwitch(w, name, r)
    ensures SelectOrNew(w, name, r).1 ==> SelectOrNew(w, name, r).0 == w.(
      store := if name in w.store then w.store else w.store[name := EMPTY_WS], selected := name)
  {
  }

  /** The current workspace is the default one, or tofu can switch to that and remove this one. */
  predicate CanRemove(w: World, r: DeleteReply) {
    r.showOk && (w.selected == DEFAULT || (CanSwitch(w, DEFAULT, r.toDefault) && r.deleteOk && w.selected in w.store))
  }

  lemma RemovalSucceeds(w: World, r: DeleteReply)
    ensures DeleteCurrent(w, r).1 <==> CanRemove(w, r)
    ensures CanRemove(w, r) && w.selected != DEFAULT ==>
      var v := DeleteCurrent(w, r).0;
      && v.selected == DEFAULT
      && v.store == (if DEFAULT in w.store then w.store else w.store[DEFAULT := EMPTY_WS]) - {w.selected}
  {
    SwitchSucceeds(w, DEFAULT, r.toDefault);
  }

  // ---- Connect ------------------------------------------------------------------------

  /** What the call of init must be: the resource's own arguments last, a backend file only if there is one. */
  predicate InitCallFor(call: InitCall, p: Parameters<ClusterRef>, pc: P.SpecValue, envs: seq<string>, dir: string) {
    && |call.args| >= |p.initArgs| && call.args[|call.args| - |p.initArgs|..] == p.initArgs
    && (var own := call.args[..|call.args| - |p.initArgs|];
        && own != [] && own[0] == "init" && "-input=false" in own
        && ("-backend-config=" + dir + "/" + TF_BACKEND_FILE in own <==> pc.backendFile.Some?)
        && forall i :: 0 < i < |own| ==>
             own[i] in {"-input=false", "-no-color", "-backend-config=" + dir + "/" + TF_BACKEND_FILE})
    && call.envs == envs
    && (call.cache <==> pc.pluginCache != Some(false))
  }

  lemma InitCallMeans(p: Parameters<ClusterRef>, pc: P.SpecValue, envs: seq<string>, dir: string)
    ensures InitCallFor(CallFor(p, pc, envs, dir), p, pc, envs, dir)
  {
    var backend := "-backend-config=" + dir + "/" + TF_BACKEND_FILE;
    var own := ["init", "-input=false", "-no-color"] + (if pc.backendFile.Some? then [backend] else []);
    var args := CallFor(p, pc, envs, dir).args;
    assert args == own + p.initArgs;
    assert args[..|own|] == own && args[|own|..] == p.initArgs;
    assert own[1] == "-input=false";
    assert backend[1] == 'b' && "-input=false"[1] == 'i' && "-no-color"[1] == 'n' && "init"[0] == 'i';
    assert pc.backendFile.Some? ==> own[3] == backend;
  }

  /** Everything that comes before the guard works, and the checksum can be taken if it is asked for. */
  predicate ReachesGuard(checksum: string, p: Parameters<ClusterRef>, io: ConnectIn) {
    && io.mkdirOk && io.mkdirTmpOk && io.pc.Ok? && CanWrite(p, io.pc.value, io)
    && C.EnvList(io.keys, p.env).Ok?
    && (checksum != "" ==> io.checksumOk)
  }

  /** The stored checksum is that of the directory with this connection's files in it. */
  predicate GuardMatches(x: Externals, w: World, checksum: string, p: Parameters<ClusterRef>, io: ConnectIn) {
    io.pc.Ok? && Matches(x, WritePhase(w, p, io.pc.value, io).0, checksum)
  }

  predicate CanConnect(x: Externals, w: World, checksum: string, r: Resource, io: ConnectIn) {
    && ReachesGuard(checksum, r.params, io)
    && (!GuardMatches(x, w, checksum, r.params, io) ==> io.init.ok)
    && CanSwitch(w, r.externalName, io.workspace)
  }

  lemma GuardedSucceeds(x: Externals, w: World, checksum: string, name: string, call: InitCall, io: ConnectIn)
    requires checksum != "" ==> io.checksumOk
    ensures var (v, c) := InitPhase(x, w, checksum, name, call, io);
      && (c.Ok? <==> (!Matches(x, w, checksum) ==> io.init.ok) && CanSwitch(w, name, io.workspace))
      && (c.Ok? ==>
            && c.value.envs == call.envs && c.value.usePluginCache == call.cache && v.selected == name
            && v.store == if name in w.store then w.store else w.store[name := EMPTY_WS])
      && (c.Ok? && !Matches(x, w, checksum) ==>
            && v.work == x.initFiles(call, w.work, w.installed)
            && v.installed == x.initInstalled(call, w.work, w.installed))
      && (c.Ok? && Matches(x, w, checksum) ==> v.work == w.work && v.installed == w.installed)
  {
    hide SelectOrNew;
    SwitchSucceeds(w, name, io.workspace);
    SwitchSucceeds(RunInit(x, w, call, io.init).0, name, io.workspace);
  }

  /**
  Connect succeeds exactly when nothing on its way fails. Then the resource's workspace is
  selected, and made if it was missing; the harness has the resolved environment and uses the
  plugin cache unless told not to; and init, with the resource's arguments and in the same
  environment, has run on the written files unless the stored checksum was theirs.
  */
  lemma ConnectSucceeds(x: Externals, w: World, checksum: string, r: Resource, dir: string, io: ConnectIn)
    ensures ConnectTo(x, w, checksum, r, dir, io).1.Ok? <==> CanConnect(x, w, checksum, r, io)
    ensures CanConnect(x, w, checksum, r, io) ==>
      var (v, c) := ConnectTo(x, w, checksum, r, dir, io);
      var envs, w1 := C.EnvList(io.keys, r.params.env).value, WritePhase(w, r.params, io.pc.value, io).0;
      && v.selected == r.externalName
      && v.store == (if r.externalName in w.store then w.store else w.store[r.externalName := EMPTY_WS])
      && c.value.envs == envs && (c.value.usePluginCache <==> io.pc.value.pluginCache != Some(false))
      && if GuardMatches(x, w, checksum, r.params, io) then v.work == w1.work && v.installed == w1.installed
         else exists call :: InitCallFor(call, r.params, io.pc.value, envs, dir)
                && v.work == x.initFiles(call, w1.work, w1.installed)
                && v.installed == x.initInstalled(call, w1.work, w1.installed)
  {
    hide WritePhase, InitPhase, CallFor, CanWrite, InitCallFor, C.EnvList;
    if io.pc.Ok? {
      var pc := io.pc.value;
      WritePhaseSucceeds(w, r.params, pc, io);
      WritePhaseFrame(w, r.params, pc, io);
      if ReachesGuard(checksum, r.params, io) {
        var envs, w1 := C.EnvList(io.keys, r.params.env).value, WritePhase(w, r.params, pc, io).0;
        var call := CallFor(r.params, pc, envs, dir);
        InitCallMeans(r.params, pc, envs, dir);
        assert call.cache <==> pc.pluginCache != Some(false) by { CacheDefaults(r.params, pc, envs, dir); }
        assert call.envs == envs by { CacheDefaults(r.params, pc, envs, dir); }
        GuardedSucceeds(x, w1, checksum, r.externalName, call, io);
        assert ConnectTo(x, w, checksum, r, dir, io) == InitPhase(x, w1, checksum, r.externalName, call, io);
      } else if io.mkdirOk && io.mkdirTmpOk && CanWrite(r.params, pc, io) && C.EnvList(io.keys, r.params.env).Ok? {
        ChecksumNeeded(x, w, checksum, r, dir, io);
      }
    }
  }

  /** A Connect that fails names the first thing that went wrong. */
  lemma ConnectFails(x: Externals, w: World, checksum: string, r: Resource, dir: string, io: ConnectIn)
    requires !CanConnect(x, w, checksum, r, io)
    ensures var (v, c) := ConnectTo(x, w, checksum, r, dir, io);
      && c.Err?
      && if !io.mkdirOk || !io.mkdirTmpOk then v == w && Context(c.error) == ERR_MKDIR
         else if io.pc.Err? then v == w && c.error == Wrap(ERR_RESOLVE, io.pc.error)
         else
           var (w1, e) := WritePhase(w, r.params, io.pc.value, io);
           if e.Some? then v == w1 && c.error == e.value
           else if C.EnvList(io.keys, r.params.env).Err?
           then v == w1 && c.error == C.EnvList(io.keys, r.params.env).error
           else if checksum != "" && !io.checksumOk then v == w1 && Context(c.error) == ERR_CHECKSUM
           else if !GuardMatches(x, w, checksum, r.params, io) && !io.init.ok
           then v == w1.(work := io.init.leaves(w1.work), installed := w1.installed + io.init.added)
                && Context(c.error) == ERR_INIT
           else v.store == w.store && v.selected == w.selected && Context(c.error) == ERR_WORKSPACE
  {
    hide WritePhase, CanWrite, C.EnvList;
    if io.pc.Ok? {
      WritePhaseSucceeds(w, r.params, io.pc.value, io);
      WritePhaseFrame(w, r.params, io.pc.value, io);
    }
  }

  lemma CacheDefaults(p: Parameters<ClusterRef>, pc: P.SpecValue, envs: seq<string>, dir: string)
    ensures var call := CallFor(p, pc, envs, dir); call.envs == envs && (call.cache <==> pc.pluginCache != Some(false))
  {
  }

  lemma ChecksumNeeded(x: Externals, w: World, checksum: string, r: Resource, dir: string, io: ConnectIn)
    requires checksum != "" && !io.checksumOk
    ensures ConnectTo(x, w, checksum, r, dir, io).1.Err?
  {
    hide WritePhase, CallFor, C.EnvList;
  }

  // ---- Observe ------------------------------------------------------------------------

  /** Whatever the command's error says, exit code 2 is a difference and no error. */
  lemma PlanDecides(w: World, r: Resource, io: ObserveIn)
    ensures var o, d := C.OptionList(io.keys, r.params), CheckDiff(w, r, io).1;
      var written := o.Ok? && WriteAll(w.work, VarFilesOf(o.value), io.denied).1;
      && (d.Ok? <==> o.Ok? && (r.deleted || (written && (io.plan.exit == 2 || !io.plan.failed))))
      && (d.Ok? ==> (d.value <==> written && io.plan.exit == 2))
  {
    hide WriteAll, VarFilesOf;
    var o := C.OptionList(io.keys, r.params);
    if o.Ok? {
      ExtraArgsLast(o.value, r.params.planArgs);
    }
  }

  /** The plan gives an answer. */
  predicate CanPlan(w: World, r: Resource, io: ObserveIn) {
    var o := C.OptionList(io.keys, r.params);
    && o.Ok?
    && (r.deleted || (WriteAll(w.work, VarFilesOf(o.value), io.denied).1 && (io.plan.exit == 2 || !io.plan.failed)))
  }

  /**
  Observe succeeds exactly when the plan gives an answer, the state can be listed, a workspace
  that is to be removed can be, and outputs and checksum can be read.
  */
  lemma ObserveSucceeds(x: Externals, w: World, s: StatusValue, r: Resource, io: ObserveIn)
    ensures ObserveFrom(x, w, s, r, io).2.Ok? <==>
      && CanPlan(w, r, io) && io.listOk
      && (r.deleted && Current(w).resources == [] ==> CanRemove(w, io.delete))
      && io.outputsOk && io.checksumOk
  {
    hide CheckDiff, DeleteCurrent, ListResources;
    PlanDecides(w, r, io);
    PlanEffect(w, r, io);
    var w1 := CheckDiff(w, r, io).0;
    ListedNothing(w1);
    RemovalSucceeds(w1, io.delete);
  }

  /**
  An Observe that fails names the first thing that went wrong. It leaves the status alone until
  the outputs have been read; if then the checksum cannot be taken, none is stored.
  */
  lemma ObserveFails(x: Externals, w: World, s: StatusValue, r: Resource, io: ObserveIn)
    requires ObserveFrom(x, w, s, r, io).2.Err?
    ensures var (v, st, o) := ObserveFrom(x, w, s, r, io);
      if C.OptionList(io.keys, r.params).Err? then st == s && Context(o.error) == ERR_OPTIONS
      else if !CanPlan(w, r, io) then st == s && Context(o.error) == ERR_DIFF
      else if !io.listOk then st == s && Context(o.error) == ERR_RESOURCES
      else if r.deleted && Current(w).resources == [] && !CanRemove(w, io.delete)
      then st == s && Context(o.error) == ERR_DELETE_WORKSPACE
      else if !io.outputsOk then st == s && Context(o.error) == ERR_OUTPUTS
      else st == StatusValue("", O.StatusMap(Current(v).outputs, x.marshal)) && Context(o.error) == ERR_CHECKSUM
  {
    hide DeleteCurrent, ListResources, RunPlan, WriteAll, VarFilesOf;
    PlanDecides(w, r, io);
    PlanEffect(w, r, io);
    var w1 := CheckDiff(w, r, io).0;
    ListedNothing(w1);
    RemovalSucceeds(w1, io.delete);
  }

  // ---- Update and Delete --------------------------------------------------------------

  /** An apply that runs replaces the selected workspace's state even when it fails. */
  lemma UpdateSucceeds(x: Externals, w: World, s: StatusValue, r: Resource, io: ActIn)
    ensures UpdateFrom(x, w, s, r, io).2.Ok? <==> Starts(w, r, io) && io.run.ok && io.outputsOk
    ensures UpdateFrom(x, w, s, r, io).0.store
         == if Starts(w, r, io) then w.store[w.selected := io.run.after] else w.store
    ensures Starts(w, r, io) ==>
      var v, files := UpdateFrom(x, w, s, r, io).0, VarFilesOf(C.OptionList(io.keys, r.params).value);
      v.work == io.run.effect(WriteAll(w.work, files, io.denied).0) && v.installed == w.installed + io.run.added
  {
    hide WriteAll, VarFilesOf, ArgsOf, C.OptionList, O.StatusMap, O.DetailsMap;
    var o := C.OptionList(io.keys, r.params);
    if o.Ok? {
      ExtraArgsLast(o.value, r.params.applyArgs);
    }
  }

  lemma UpdateFails(x: Externals, w: World, s: StatusValue, r: Resource, io: ActIn)
    requires UpdateFrom(x, w, s, r, io).2.Err?
    ensures var (_, st, d) := UpdateFrom(x, w, s, r, io);
      && st == s
      && Context(d.error) == if C.OptionList(io.keys, r.params).Err? then ERR_OPTIONS
                             else if !(Starts(w, r, io) && io.run.ok) then ERR_APPLY else ERR_OUTPUTS
  {
    hide WriteAll, VarFilesOf, ArgsOf, C.OptionList, O.StatusMap, O.DetailsMap;
    var o := C.OptionList(io.keys, r.params);
    if o.Ok? {
      ExtraArgsLast(o.value, r.params.applyArgs);
    }
  }

  lemma DeleteSucceeds(w: World, r: Resource, io: ActIn)
    ensures DeleteFrom(w, r, io).1.None? <==> Starts(w, r, io) && io.run.ok
    ensures DeleteFrom(w, r, io).0.store
         == if Starts(w, r, io) then w.store[w.selected := io.run.after] else w.store
    ensures Starts(w, r, io) ==>
      var v, files := DeleteFrom(w, r, io).0, VarFilesOf(C.OptionList(io.keys, r.params).value);
      v.work == io.run.effect(WriteAll(w.work, files, io.denied).0) && v.installed == w.installed + io.run.added
    ensures DeleteFrom(w, r, io).1.Some? ==>
      Context(DeleteFrom(w, r, io).1.value) == if C.OptionList(io.keys, r.params).Err? then ERR_OPTIONS else ERR_DESTROY
  {
    hide WriteAll, VarFilesOf;
    var o := C.OptionList(io.keys, r.params);
    if o.Ok? {
      ExtraArgsLast(o.value, r.params.destroyArgs);
    }
  }

  // ---- A living resource --------------------------------------------------------------

  /** The state of the named workspace; one that is missing will be made empty. */
  function StateOf(w: World, name: string): Ws {
    if name in w.store then w.store[name] else EMPTY_WS
  }

  /**
  What a round does for a living resource that it can connect and observe: it applies exactly
  when the plan sees a difference or the workspace is empty, and otherwise changes no workspace.
  */
  lemma LivingRound(x: Externals, s: Sys, dir: string, rd: Round)
    requires !rd.resource.deleted
    requires CanConnect(x, s.world, s.status.checksum, rd.resource, rd.connect)
    requires var w := ConnectTo(x, s.world, s.status.checksum, rd.resource, dir, rd.connect).0;
      ObserveFrom(x, w, s.status, rd.resource, rd.observe).2.Ok?
    ensures var name, (t, r) := rd.resource.externalName, Reconcile(x, s, dir, rd, true);
      if rd.observe.plan.exit == 2 || StateOf(s.world, name) == EMPTY_WS
      then
        && r.Applying?
        && (r.ok <==> Starts(Observed(x, s, dir, rd, true), rd.resource, rd.act) && rd.act.run.ok && rd.act.outputsOk)
        && (r.ok ==> StateOf(t.world, name) == rd.act.run.after)
      else r == UpToDate && StateOf(t.world, name) == StateOf(s.world, name)
  {
    hide ConnectTo, ObserveFrom, UpdateFrom, DeleteFrom, CanConnect, Starts;
    ConnectSucceeds(x, s.world, s.status.checksum, rd.resource, dir, rd.connect);
    var w := ConnectTo(x, s.world, s.status.checksum, rd.resource, dir, rd.connect).0;
    ObservationMeans(x, w, s.status, rd.resource, rd.observe);
    var (v, st, _) := ObserveFrom(x, w, s.status, rd.resource, rd.observe);
    UpdateSucceeds(x, v, st, rd.resource, rd.act);
  }

  /** These variable files can be resolved and written. */
  predicate FilesReady(keys: Keys, p: Parameters<ClusterRef>, denied: set<string>) {
    var o := C.OptionList(keys, p);
    o.Ok? && forall i :: 0 <= i < |VarFilesOf(o.value)| ==> VarFilesOf(o.value)[i].filename !in denied
  }

  /** No command fails in this round and everything it needs is there. */
  predicate AllWell(rd: Round) {
    && ReachesGuard("", rd.resource.params, rd.connect) && rd.connect.checksumOk && rd.connect.init.ok
    && rd.connect.workspace.selectOk && rd.connect.workspace.newOk
    && FilesReady(rd.observe.keys, rd.resource.params, rd.observe.denied)
    && (rd.observe.plan.failed ==> rd.observe.plan.exit == 2)
    && rd.observe.listOk && rd.observe.outputsOk && rd.observe.checksumOk
    && FilesReady(rd.act.keys, rd.resource.params, rd.act.denied) && rd.act.run.ok && rd.act.outputsOk
  }

  lemma WellRound(x: Externals, s: Sys, dir: string, rd: Round)
    requires AllWell(rd) && !rd.resource.deleted
    ensures CanConnect(x, s.world, s.status.checksum, rd.resource, rd.connect)
    ensures var w := ConnectTo(x, s.world, s.status.checksum, rd.resource, dir, rd.connect).0;
      ObserveFrom(x, w, s.status, rd.resource, rd.observe).2.Ok?
    ensures Starts(Observed(x, s, dir, rd, true), rd.resource, rd.act)
  {
    hide ConnectTo, ObserveFrom, CanWrite, C.EnvList, C.OptionList, WriteAll, VarFilesOf;
    var w := ConnectTo(x, s.world, s.status.checksum, rd.resource, dir, rd.connect).0;
    ObserveSucceeds(x, w, s.status, rd.resource, rd.observe);
    WriteAllSucceeds(w.work, VarFilesOf(C.OptionList(rd.observe.keys, rd.resource.params).value), rd.observe.denied);
    var v := Observed(x, s, dir, rd, true);
    WriteAllSucceeds(v.work, VarFilesOf(C.OptionList(rd.act.keys, rd.resource.params).value), rd.act.denied);
  }

  /**
  Over the run no command fails, a plan sees a difference exactly while the workspace is not in
  the state that is wanted, and an apply brings it there.
  */
  predicate HonestRun(x: Externals, s: Sys, dir: string, rounds: seq<Round>, goal: Ws)
    decreases |rounds|
  {
    rounds == []
    || (AllWell(rounds[0]) && !rounds[0].resource.deleted && rounds[0].act.run.after == goal
        && (rounds[0].observe.plan.exit == 2 <==> StateOf(s.world, rounds[0].resource.externalName) != goal)
        && HonestRun(x, Reconcile(x, s, dir, rounds[0], true).0, dir, rounds[1..], goal))
  }

  lemma HonestRound(x: Externals, s: Sys, dir: string, rd: Round, goal: Ws)
    requires AllWell(rd) && !rd.resource.deleted && rd.act.run.after == goal != EMPTY_WS
    requires rd.observe.plan.exit == 2 <==> StateOf(s.world, rd.resource.externalName) != goal
    ensures var name, (t, r) := rd.resource.externalName, Reconcile(x, s, dir, rd, true);
      StateOf(t.world, name) == goal && r == if StateOf(s.world, name) == goal then UpToDate else Applying(true)
  {
    hide Reconcile, Observed, Starts, CanConnect, ConnectTo, ObserveFrom;
    WellRound(x, s, dir, rd);
    LivingRound(x, s, dir, rd);
  }

  /**
  A living resource, new or drifted, is applied once and then stays up to date: over every such
  run the first round applies unless the workspace is already as wanted, no later one does, and
  the workspace ends as wanted.
  */
  lemma {:induction false} LivingConverges(x: Externals, s: Sys, dir: string, rounds: seq<Round>, goal: Ws,
                                           name: string)
    requires AllNamed(rounds, name) && |rounds| > 0 && goal != EMPTY_WS && HonestRun(x, s, dir, rounds, goal)
    ensures var (t, rs) := Run(x, s, dir, rounds, true);
      && StateOf(t.world, name) == goal
      && |rs| == |rounds|
      && rs[0] == (if StateOf(s.world, name) == goal then UpToDate else Applying(true))
      && forall i :: 0 < i < |rs| ==> rs[i] == UpToDate
    decreases |rounds|
  {
    hide Reconcile, AllWell, StateOf;
    var (s1, r) := Reconcile(x, s, dir, rounds[0], true);
    HonestRound(x, s, dir, rounds[0], goal);
    var rs := Run(x, s1, dir, rounds[1..], true).1;
    assert Run(x, s, dir, rounds, true).1 == [r] + rs;
    if |rounds| > 1 {
      assert AllNamed(rounds[1..], name);
      LivingConverges(x, s1, dir, rounds[1..], goal, name);
    } else {
      assert Run(x, s1, dir, rounds[1..], true) == (s1, []);
    }
  }
}
