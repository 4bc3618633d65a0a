/**
Runs of the reconciler over one Workspace: every round connects and observes, and then
creates, updates, deletes or does nothing, as Crossplane's managed reconciler decides. A
round brings its own parameters, provider config, keys and replies; the external name and
the backend are what the rounds share.
*/
module LifeCycle {
  import opened Common
  import opened Options
  import opened Parameters
  import opened Harness
  import opened Controller
  import opened Overlay
  import O = Outputs
  import C = ClusterResolve
  import StateList

  datatype Sys = Sys(world: World, status: StatusValue)

  datatype Round = Round(resource: Resource, connect: ConnectIn, observe: ObserveIn, act: ActIn)

  datatype Report =
    | NotConnected
    | NotObserved
    | Gone             // deleted, and there is nothing left to delete
    | UpToDate
    | Applying(ok: bool)
    | Destroying(ok: bool)

  /** What the reconciler does with an observation. */
  function Act(x: Externals, s: Sys, rd: Round, o: Observation): (Sys, Report) {
    if rd.resource.deleted then
      if !o.exists_ then (s, Gone)
      else
        var (w, e) := DeleteFrom(s.world, rd.resource, rd.act);
        (s.(world := w), Destroying(e.None?))
    else if !o.exists_ || !o.upToDate then
      var (w, st, d) := UpdateFrom(x, s.world, s.status, rd.resource, rd.act);
      (Sys(w, st), Applying(d.Ok?))
    else (s, UpToDate)
  }

  /** One round; with `guarded` false the stored checksum is not looked at, so init always runs. */
  function Reconcile(x: Externals, s: Sys, dir: string, rd: Round, guarded: bool): (Sys, Report) {
    var (w1, c) := ConnectTo(x, s.world, if guarded then s.status.checksum else "", rd.resource, dir, rd.connect);
    if c.Err? then (s.(world := w1), NotConnected)
    else
      var (w2, st2, o) := ObserveFrom(x, w1, s.status, rd.resource, rd.observe);
      if o.Err? then (Sys(w2, st2), NotObserved)
      else Act(x, Sys(w2, st2), rd, o.value)
  }

  function Run(x: Externals, s: Sys, dir: string, rounds: seq<Round>, guarded: bool): (Sys, seq<Report>)
    decreases |rounds|
  {
    if rounds == [] then (s, [])
    else
      var (s1, r) := Reconcile(x, s, dir, rounds[0], guarded);
      var (s2, rs) := Run(x, s1, dir, rounds[1..], guarded);
      (s2, [r] + rs)
  }

  predicate AllNamed(rounds: seq<Round>, name: string) {
    forall i :: 0 <= i < |rounds| ==> rounds[i].resource.externalName == name
  }

  // ---- What one step can do to the backend --------------------------------------------

  /** At most, a missing workspace of this name was made, and on success it is selected. */
  predicate Connects(w: World, v: World, name: string, ok: bool) {
    && v.history == w.history
    && (v.store == w.store || (name !in w.store && v.store == w.store[name := EMPTY_WS]))
    && (ok ==> v.selected == name && name in v.store)
  }

  lemma SelectEffect(w: World, name: string, io: ConnectIn, client: Client)
    ensures var (v, c) := SelectPhase(w, name, io, client); Connects(w, v, name, c.Ok?)
  {
  }

  lemma InitPhaseEffect(x: Externals, w: World, checksum: string, name: string, call: InitCall, io: ConnectIn)
    ensures var (v, c) := InitPhase(x, w, checksum, name, call, io); Connects(w, v, name, c.Ok?)
  {
    var client := Client(call.cache, call.envs);
    SelectEffect(w, name, io, client);
    var w1 := RunInit(x, w, call, io.init).0;
    assert w1.store == w.store && w1.history == w.history;
    SelectEffect(w1, name, io, client);
  }

  /** A successful connection has the resource's workspace selected. */
  lemma ConnectEffect(x: Externals, w: World, checksum: string, r: Resource, dir: string, io: ConnectIn)
    ensures var (v, c) := ConnectTo(x, w, checksum, r, dir, io); Connects(w, v, r.externalName, c.Ok?)
  {
    if io.pc.Ok? {
      WritePhaseFrame(w, r.params, io.pc.value, io);
      var w1 := WritePhase(w, r.params, io.pc.value, io).0;
      var env := C.EnvList(io.keys, r.params.env);
      if env.Ok? {
        InitPhaseEffect(x, w1, checksum, r.externalName, CallFor(r.params, io.pc.value, env.value, dir), io);
      }
    }
  }

  /** Observing changes the backend only by removing the selected workspace, if it does. */
  lemma PlanEffect(w: World, r: Resource, io: ObserveIn)
    ensures var v := CheckDiff(w, r, io).0;
      && v == w.(work := v.work, history := v.history)
      && (v.history == w.history || exists args :: v.history == w.history + [Planned(w.selected, args)])
  {
    match C.OptionList(io.keys, r.params)
    case Err(_) =>
    case Ok(os) =>
      var all := os + [WithArgs(r.params.planArgs)];
      var v := RunPlan(w, all, io.denied, io.plan).0;
      assert v.history == w.history || v.history == w.history + [Planned(w.selected, PLAN + ArgsOf(all))];
  }

  /** What is listed is empty exactly when the workspace has no resources. */
  lemma ListedNothing(w: World)
    ensures |ListResources(w)| == 0 <==> Current(w).resources == []
  {
    StateList.EmptyOnlyForEmptyState(Current(w).resources);
  }

  lemma DeleteEffect(w: World, r: DeleteReply)
    ensures var (v, ok) := DeleteCurrent(w, r);
      && v == w.(store := v.store, selected := v.selected, history := v.history)
      && (forall name :: name in v.store && name != DEFAULT ==> name in w.store && v.store[name] == w.store[name])
      && (DEFAULT in w.store ==> DEFAULT in v.store && v.store[DEFAULT] == w.store[DEFAULT])
      && (DEFAULT in v.store && DEFAULT !in w.store ==> v.store[DEFAULT] == EMPTY_WS)
      && (v.history == w.history ||
            (w.selected != DEFAULT && w.selected in w.store
             && v.history == w.history + [RemovedWorkspace(w.selected, w.store[w.selected])]))
      && (w.selected == DEFAULT ==> v == w)
      && (ok && w.selected != DEFAULT ==> v.selected == DEFAULT && w.selected !in v.store)
  {
  }

  // ---- What observations and updates say ----------------------------------------------

  /** The options' arguments between the command's own and the resource's extra ones. */
  function Arguments(command: seq<string>, keys: Keys, p: Parameters<ClusterRef>, extra: seq<string>): seq<string>
    requires C.OptionList(keys, p).Ok?
  {
    command + ArgsOf(C.OptionList(keys, p).value) + extra
  }

  /**
  A living resource's workspace is reported up to date exactly when its plan, run with the
  resource's own arguments, saw no difference, and existing exactly when it holds anything;
  details and status are those of what it holds.
  */
  lemma ObservationMeans(x: Externals, w: World, s: StatusValue, r: Resource, io: ObserveIn)
    requires !r.deleted && ObserveFrom(x, w, s, r, io).2.Ok?
    ensures C.OptionList(io.keys, r.params).Ok?
    ensures var (v, st, o) := ObserveFrom(x, w, s, r, io);
      && v.store == w.store && v.selected == w.selected
      && v.history == w.history + [Planned(w.selected, Arguments(PLAN, io.keys, r.params, r.params.planArgs))]
      && (o.value.upToDate <==> io.plan.exit != 2)
      && (io.plan.failed ==> io.plan.exit == 2)
      && (o.value.exists_ <==> Current(w) != EMPTY_WS)
      && o.value.details == O.DetailsMap(Current(w).outputs, x.marshal)
      && st == StatusValue(x.sum(v.work, v.selected), O.StatusMap(Current(w).outputs, x.marshal))
  {
    CommandLine(PLAN, C.OptionList(io.keys, r.params).value, r.params.planArgs);
    ListedNothing(w);
    var outputs := Current(w).outputs;
    assert |outputs| > 0 <==> outputs != map[];
  }

  /**
  A successful update applied once, to the selected workspace, with the resource's own
  arguments; details and status are those of the new state, and the checksum is forgotten.
  */
  lemma UpdateMeans(x: Externals, w: World, s: StatusValue, r: Resource, io: ActIn)
    requires UpdateFrom(x, w, s, r, io).2.Ok?
    ensures C.OptionList(io.keys, r.params).Ok? && io.run.ok
    ensures var (v, st, d) := UpdateFrom(x, w, s, r, io);
      && v.store == w.store[w.selected := io.run.after] && v.selected == w.selected
      && v.history == w.history + [Applied(w.selected, Arguments(APPLY, io.keys, r.params, r.params.applyArgs))]
      && d.value == O.DetailsMap(io.run.after.outputs, x.marshal)
      && st == StatusValue("", O.StatusMap(io.run.after.outputs, x.marshal))
  {
    CommandLine(APPLY, C.OptionList(io.keys, r.params).value, r.params.applyArgs);
  }

  /** A successful delete destroyed once, in the selected workspace, with the resource's own arguments. */
  lemma DestroyMeans(w: World, r: Resource, io: ActIn)
    requires DeleteFrom(w, r, io).1.None?
    ensures C.OptionList(io.keys, r.params).Ok? && io.run.ok
    ensures var v := DeleteFrom(w, r, io).0;
      && v.store == w.store[w.selected := io.run.after] && v.selected == w.selected
      && v.history == w.history + [Destroyed(w.selected, Arguments(DESTROY, io.keys, r.params, r.params.destroyArgs))]
  {
    CommandLine(DESTROY, C.OptionList(io.keys, r.params).value, r.params.destroyArgs);
  }

  // ---- Safety over every run ----------------------------------------------------------

  /** Commands act on the resource's workspace; only it is removed, only empty, never the default one. */
  predicate EventOk(e: Event, name: string) {
    match e
    case Planned(ws, _) => ws == name
    case Applied(ws, _) => ws == name
    case Destroyed(ws, _) => ws == name
    case RemovedWorkspace(ws, state) => ws == name && ws != DEFAULT && state.resources == []
  }

  predicate HistoryOk(history: seq<Event>, name: string) {
    forall i :: 0 <= i < |history| ==> EventOk(history[i], name)
  }

  /** The default workspace has no outputs, unless it is the resource's own. */
  predicate DefaultQuiet(w: World, name: string) {
    name != DEFAULT && DEFAULT in w.store ==> w.store[DEFAULT].outputs == map[]
  }

  predicate Safe(w: World, name: string) {
    HistoryOk(w.history, name) && DefaultQuiet(w, name)
  }

  /** After an observation that leads to an action, the resource's workspace is still selected. */
  lemma ObserveSafe(x: Externals, w: World, s: StatusValue, r: Resource, io: ObserveIn)
    requires Safe(w, r.externalName) && w.selected == r.externalName
    ensures var (v, _, o) := ObserveFrom(x, w, s, r, io);
      && Safe(v, r.externalName)
      && (DEFAULT in w.store ==> DEFAULT in v.store)
      && (o.Ok? && (r.deleted ==> o.value.exists_) ==> v.selected == r.externalName)
  {
    PlanEffect(w, r, io);
    var w1 := CheckDiff(w, r, io).0;
    assert Safe(w1, r.externalName);
    ListedNothing(w1);
    DeleteEffect(w1, io.delete);
    assert Safe(MaybeDelete(w1, r, io).0, r.externalName);
  }

  lemma UpdateSafe(x: Externals, w: World, s: StatusValue, r: Resource, io: ActIn)
    requires Safe(w, r.externalName) && w.selected == r.externalName
    ensures Safe(UpdateFrom(x, w, s, r, io).0, r.externalName)
    ensures DEFAULT in w.store ==> DEFAULT in UpdateFrom(x, w, s, r, io).0.store
  {
  }

  lemma DestroySafe(w: World, r: Resource, io: ActIn)
    requires Safe(w, r.externalName) && w.selected == r.externalName
    ensures Safe(DeleteFrom(w, r, io).0, r.externalName)
    ensures DEFAULT in w.store ==> DEFAULT in DeleteFrom(w, r, io).0.store
  {
  }

  lemma RoundSafe(x: Externals, s: Sys, dir: string, rd: Round, guarded: bool)
    requires Safe(s.world, rd.resource.externalName)
    ensures var t := Reconcile(x, s, dir, rd, guarded).0.world;
      Safe(t, rd.resource.externalName) && (DEFAULT in s.world.store ==> DEFAULT in t.store)
  {
    var checksum := if guarded then s.status.checksum else "";
    ConnectEffect(x, s.world, checksum, rd.resource, dir, rd.connect);
    var (w1, c) := ConnectTo(x, s.world, checksum, rd.resource, dir, rd.connect);
    assert Safe(w1, rd.resource.externalName);
    if c.Ok? {
      ObserveSafe(x, w1, s.status, rd.resource, rd.observe);
      var (w2, st2, o) := ObserveFrom(x, w1, s.status, rd.resource, rd.observe);
      if o.Ok? && (rd.resource.deleted ==> o.value.exists_) {
        UpdateSafe(x, w2, st2, rd.resource, rd.act);
        DestroySafe(w2, rd.resource, rd.act);
      }
    }
  }

  /**
  Over every run, if the default workspace starts without outputs or is the resource's own:
  each plan, apply and destroy acts on the workspace with the external name, no workspace is
  removed but that one and only without resources, and the default one always stays.
  */
  lemma {:induction false} RunSafe(x: Externals, s: Sys, dir: string, rounds: seq<Round>, guarded: bool, name: string)
    requires AllNamed(rounds, name) && Safe(s.world, name)
    ensures Safe(Run(x, s, dir, rounds, guarded).0.world, name)
    ensures DEFAULT in s.world.store ==> DEFAULT in Run(x, s, dir, rounds, guarded).0.world.store
    decreases |rounds|
  {
    if rounds != [] {
      RoundSafe(x, s, dir, rounds[0], guarded);
      assert AllNamed(rounds[1..], name);
      RunSafe(x, Reconcile(x, s, dir, rounds[0], guarded).0, dir, rounds[1..], guarded, name);
    }
  }

  /**
  Without the assumption on the default workspace: an observation of a deleted resource asks
  for a destroy while another workspace is selected exactly when the resource's own has no
  resources left and the default one, which is selected next, has outputs.
  */
  lemma MisdirectedExactly(x: Externals, w: World, s: StatusValue, r: Resource, io: ObserveIn)
    requires w.selected == r.externalName && r.deleted && ObserveFrom(x, w, s, r, io).2.Ok?
    ensures var (v, _, o) := ObserveFrom(x, w, s, r, io);
      (o.value.exists_ && v.selected != r.externalName)
      <==> (r.externalName != DEFAULT && Current(w).resources == []
            && DEFAULT in w.store && w.store[DEFAULT].outputs != map[])
  {
    PlanEffect(w, r, io);
    var w1 := CheckDiff(w, r, io).0;
    ListedNothing(w1);
    DeleteEffect(w1, io.delete);
    var w2 := MaybeDelete(w1, r, io).0;
    if r.externalName != DEFAULT && Current(w).resources == [] {
      assert w2.selected == DEFAULT;
      var outputs := Current(w2).outputs;
      assert |outputs| > 0 <==> outputs != map[];
    }
  }

  /** The options resolve and their files can be written, so that the destroy does run. */
  predicate Starts(w: World, r: Resource, io: ActIn) {
    var o := C.OptionList(io.keys, r.params);
    o.Ok? && WriteAll(w.work, VarFilesOf(o.value), io.denied).1
  }

  /** The round's state after connecting and observing. */
  function Observed(x: Externals, s: Sys, dir: string, rd: Round, guarded: bool): World {
    var w := ConnectTo(x, s.world, if guarded then s.status.checksum else "", rd.resource, dir, rd.connect).0;
    ObserveFrom(x, w, s.status, rd.resource, rd.observe).0
  }

  /** A named workspace without resources, while the default one has outputs. */
  predicate Exposed(w: World, name: string) {
    && name != DEFAULT && (name in w.store ==> w.store[name].resources == [])
    && DEFAULT in w.store && w.store[DEFAULT].outputs != map[]
  }

  /** A destroy runs in this round, of a resource whose workspace has nothing left to destroy. */
  predicate Misdirected(x: Externals, s: Sys, dir: string, rd: Round, guarded: bool) {
    && Reconcile(x, s, dir, rd, guarded).1.Destroying?
    && Starts(Observed(x, s, dir, rd, guarded), rd.resource, rd.act)
    && Exposed(s.world, rd.resource.externalName)
  }

  lemma ObserveGrows(x: Externals, w: World, s: StatusValue, r: Resource, io: ObserveIn)
    ensures w.history <= ObserveFrom(x, w, s, r, io).0.history
  {
    hide CheckDiff, DeleteCurrent;
    PlanEffect(w, r, io);
    DeleteEffect(CheckDiff(w, r, io).0, io.delete);
  }

  lemma PlanHistory(w: World, r: Resource, io: ObserveIn)
    requires HistoryOk(w.history, r.externalName) && w.selected == r.externalName
    ensures HistoryOk(CheckDiff(w, r, io).0.history, r.externalName)
  {
    hide CheckDiff;
    PlanEffect(w, r, io);
  }

  lemma RemovalHistory(w: World, r: Resource, io: ObserveIn)
    requires HistoryOk(w.history, r.externalName) && w.selected == r.externalName
    ensures var (v, ok) := MaybeDelete(w, r, io);
      && HistoryOk(v.history, r.externalName)
      && (ok ==> v.selected == r.externalName || (r.deleted && v.selected == DEFAULT))
  {
    hide DeleteCurrent;
    ListedNothing(w);
    DeleteEffect(w, io.delete);
    assert w.selected !in w.store ==> Current(w) == EMPTY_WS;
  }

  /** Observing acts on the resource's workspace, whatever the default one holds. */
  lemma ObserveHistory(x: Externals, w: World, s: StatusValue, r: Resource, io: ObserveIn)
    requires HistoryOk(w.history, r.externalName) && w.selected == r.externalName
    ensures var (v, _, o) := ObserveFrom(x, w, s, r, io);
      && HistoryOk(v.history, r.externalName)
      && (o.Ok? ==> v.selected == r.externalName || (r.deleted && v.selected == DEFAULT))
  {
    hide CheckDiff, MaybeDelete, HistoryOk;
    PlanEffect(w, r, io);
    PlanHistory(w, r, io);
    RemovalHistory(CheckDiff(w, r, io).0, r, io);
  }

  /** A destroy appends itself to the history if it runs, whether or not it succeeds. */
  lemma DestroyRuns(w: World, r: Resource, io: ActIn)
    ensures var v := DeleteFrom(w, r, io).0;
      if Starts(w, r, io)
      then (exists args :: v.history == w.history + [Destroyed(w.selected, args)])
           && v.store == w.store[w.selected := io.run.after]
      else v.history == w.history && v.store == w.store
  {
    if Starts(w, r, io) {
      ExtraArgsLast(C.OptionList(io.keys, r.params).value, r.params.destroyArgs);
      var os := C.OptionList(io.keys, r.params).value + [WithArgs(r.params.destroyArgs)];
      assert DeleteFrom(w, r, io).0.history == w.history + [Destroyed(w.selected, DESTROY + ArgsOf(os))];
    } else if C.OptionList(io.keys, r.params).Ok? {
      ExtraArgsLast(C.OptionList(io.keys, r.params).value, r.params.destroyArgs);
    }
  }

  lemma DestroyJudged(w: World, r: Resource, io: ActIn)
    requires HistoryOk(w.history, r.externalName)
    ensures w.history <= DeleteFrom(w, r, io).0.history
    ensures HistoryOk(DeleteFrom(w, r, io).0.history, r.externalName)
       <==> (Starts(w, r, io) ==> w.selected == r.externalName)
  {
    hide DeleteFrom, Starts;
    DestroyRuns(w, r, io);
    var h := DeleteFrom(w, r, io).0.history;
    if Starts(w, r, io) {
      assert h[|w.history|].Destroyed? && h[|w.history|].ws == w.selected;
    }
  }

  lemma ApplyHistory(x: Externals, w: World, s: StatusValue, r: Resource, io: ActIn)
    ensures var v := UpdateFrom(x, w, s, r, io).0;
      && w.history <= v.history
      && (HistoryOk(w.history, r.externalName) && w.selected == r.externalName ==> HistoryOk(v.history, r.externalName))
  {
    hide WriteAll, VarFilesOf, ArgsOf, C.OptionList, O.StatusMap, O.DetailsMap;
  }

  /** Nothing is ever taken back. */
  lemma RoundGrows(x: Externals, s: Sys, dir: string, rd: Round, guarded: bool)
    ensures s.world.history <= Reconcile(x, s, dir, rd, guarded).0.world.history
  {
    hide ObserveFrom, UpdateFrom, DeleteFrom, Starts;
    var checksum := if guarded then s.status.checksum else "";
    ConnectEffect(x, s.world, checksum, rd.resource, dir, rd.connect);
    var (w1, c) := ConnectTo(x, s.world, checksum, rd.resource, dir, rd.connect);
    ObserveGrows(x, w1, s.status, rd.resource, rd.observe);
    var (w2, st2, o) := ObserveFrom(x, w1, s.status, rd.resource, rd.observe);
    DestroyRuns(w2, rd.resource, rd.act);
    ApplyHistory(x, w2, st2, rd.resource, rd.act);
  }

  /**
  One round goes wrong exactly when it is misdirected; then it has destroyed the default
  workspace, whose state is replaced by what that destroy leaves.
  */
  lemma RoundExactly(x: Externals, s: Sys, dir: string, rd: Round, guarded: bool)
    requires HistoryOk(s.world.history, rd.resource.externalName)
    ensures var t := Reconcile(x, s, dir, rd, guarded).0.world;
      && (HistoryOk(t.history, rd.resource.externalName) <==> !Misdirected(x, s, dir, rd, guarded))
      && (Misdirected(x, s, dir, rd, guarded) ==>
            && (exists h, args :: t.history == h + [Destroyed(DEFAULT, args)])
            && DEFAULT in t.store && t.store[DEFAULT] == rd.act.run.after)
  {
    hide CheckDiff, UpdateFrom, DeleteFrom, Starts, HistoryOk;
    var name, checksum := rd.resource.externalName, if guarded then s.status.checksum else "";
    ConnectEffect(x, s.world, checksum, rd.resource, dir, rd.connect);
    var (w1, c) := ConnectTo(x, s.world, checksum, rd.resource, dir, rd.connect);
    if c.Ok? {
      ObserveHistory(x, w1, s.status, rd.resource, rd.observe);
      var (w2, st2, o) := ObserveFrom(x, w1, s.status, rd.resource, rd.observe);
      if o.Ok? && rd.resource.deleted && o.value.exists_ {
        MisdirectedExactly(x, w1, s.status, rd.resource, rd.observe);
        DestroyRuns(w2, rd.resource, rd.act);
        DestroyJudged(w2, rd.resource, rd.act);
      } else if o.Ok? && !rd.resource.deleted {
        ApplyHistory(x, w2, st2, rd.resource, rd.act);
      }
    }
  }

  predicate NeverMisdirected(x: Externals, s: Sys, dir: string, rounds: seq<Round>, guarded: bool)
    decreases |rounds|
  {
    rounds == []
    || (!Misdirected(x, s, dir, rounds[0], guarded)
        && NeverMisdirected(x, Reconcile(x, s, dir, rounds[0], guarded).0, dir, rounds[1..], guarded))
  }

  lemma {:induction false} RunGrows(x: Externals, s: Sys, dir: string, rounds: seq<Round>, guarded: bool)
    ensures s.world.history <= Run(x, s, dir, rounds, guarded).0.world.history
    decreases |rounds|
  {
    hide Reconcile;
    if rounds != [] {
      RoundGrows(x, s, dir, rounds[0], guarded);
      RunGrows(x, Reconcile(x, s, dir, rounds[0], guarded).0, dir, rounds[1..], guarded);
    }
  }

  /**
  Over every run, with nothing assumed of the default workspace: each command acts on the
  resource's own workspace, and only that is removed, exactly when no round is misdirected.
  */
  lemma {:induction false} SafeExactly(x: Externals, s: Sys, dir: string, rounds: seq<Round>, guarded: bool,
                                       name: string)
    requires AllNamed(rounds, name) && HistoryOk(s.world.history, name)
    ensures HistoryOk(Run(x, s, dir, rounds, guarded).0.world.history, name)
       <==> NeverMisdirected(x, s, dir, rounds, guarded)
    decreases |rounds|
  {
    hide Reconcile, Misdirected, EventOk;
    if rounds != [] {
      var s1 := Reconcile(x, s, dir, rounds[0], guarded).0;
      RoundExactly(x, s, dir, rounds[0], guarded);
      assert AllNamed(rounds[1..], name);
      if HistoryOk(s1.world.history, name) {
        SafeExactly(x, s1, dir, rounds[1..], guarded, name);
      } else {
        RunGrows(x, s1, dir, rounds[1..], guarded);
      }
    }
  }

  // ---- Deletion -----------------------------------------------------------------------

  /** Nothing is left of the resource's workspace, and nothing stands in its place. */
  predicate Clean(w: World, name: string) {
    && (name in w.store ==> w.store[name] == EMPTY_WS)
    && DefaultQuiet(w, name)
  }

  predicate Deleting(rounds: seq<Round>, name: string) {
    && AllNamed(rounds, name)
    && forall i :: 0 <= i < |rounds| ==>
         rounds[i].resource.deleted && (rounds[i].act.run.ok ==> rounds[i].act.run.after == EMPTY_WS)
  }

  /** While a resource is deleted, a plan that fails is not an error; only unresolvable options are. */
  lemma FailedPlanForgiven(w: World, r: Resource, io: ObserveIn)
    requires r.deleted
    ensures CheckDiff(w, r, io).1.Err? <==> C.OptionList(io.keys, r.params).Err?
  {
  }

  /** The same round with another outcome of the plan. */
  function WithPlan(rd: Round, exit: int, failed: bool): Round {
    rd.(observe := rd.observe.(plan := rd.observe.plan.(exit := exit, failed := failed)))
  }

  lemma ObserveWithPlan(x: Externals, w: World, s: StatusValue, rd: Round, exit: int, failed: bool)
    requires rd.resource.deleted
    ensures var (v, st, o) := ObserveFrom(x, w, s, rd.resource, rd.observe);
            var (v', st', o') := ObserveFrom(x, w, s, rd.resource, WithPlan(rd, exit, failed).observe);
      && v' == v && st' == st && (o'.Ok? <==> o.Ok?) && (o.Ok? ==> o'.value.exists_ == o.value.exists_)
  {
    hide DeleteCurrent, ListResources;
    var io, jo := rd.observe, WithPlan(rd, exit, failed).observe;
    FailedPlanForgiven(w, rd.resource, io);
    FailedPlanForgiven(w, rd.resource, jo);
    assert CheckDiff(w, rd.resource, jo).0 == CheckDiff(w, rd.resource, io).0;
  }

  lemma PlanIrrelevant(x: Externals, s: Sys, dir: string, rd: Round, guarded: bool, exit: int, failed: bool)
    requires rd.resource.deleted
    ensures Reconcile(x, s, dir, WithPlan(rd, exit, failed), guarded) == Reconcile(x, s, dir, rd, guarded)
  {
    hide CheckDiff, MaybeDelete, DeleteFrom, UpdateFrom;
    var w := ConnectTo(x, s.world, if guarded then s.status.checksum else "", rd.resource, dir, rd.connect).0;
    ObserveWithPlan(x, w, s.status, rd, exit, failed);
  }

  /**
  Over every run on a deleted resource the plans may end as they like, with or without a
  difference or an error: the same reports are given and the same state is left.
  */
  lemma {:induction false} PlansIrrelevant(x: Externals, s: Sys, dir: string, rounds: seq<Round>, others: seq<Round>,
                                           guarded: bool)
    requires |others| == |rounds| && forall i :: 0 <= i < |rounds| ==> rounds[i].resource.deleted
    requires forall i :: 0 <= i < |rounds| ==>
      others[i] == WithPlan(rounds[i], others[i].observe.plan.exit, others[i].observe.plan.failed)
    ensures Run(x, s, dir, others, guarded) == Run(x, s, dir, rounds, guarded)
    decreases |rounds|
  {
    hide Reconcile;
    if rounds != [] {
      var plan := others[0].observe.plan;
      PlanIrrelevant(x, s, dir, rounds[0], guarded, plan.exit, plan.failed);
      PlansIrrelevant(x, Reconcile(x, s, dir, rounds[0], guarded).0, dir, rounds[1..], others[1..], guarded);
    }
  }

  lemma ObserveClean(x: Externals, w: World, s: StatusValue, r: Resource, io: ObserveIn)
    requires r.deleted && w.selected == r.externalName && r.externalName in w.store && Clean(w, r.externalName)
    ensures var (v, _, o) := ObserveFrom(x, w, s, r, io);
      Clean(v, r.externalName) && (o.Ok? ==> !o.value.exists_)
  {
    hide CheckDiff;
    PlanEffect(w, r, io);
    var w1 := CheckDiff(w, r, io).0;
    assert Current(w1) == EMPTY_WS;
    ListedNothing(w1);
    DeleteEffect(w1, io.delete);
  }

  /** From a clean backend a deleted resource is reported gone, unless a command fails. */
  lemma CleanIsGone(x: Externals, s: Sys, dir: string, rd: Round, guarded: bool)
    requires rd.resource.deleted && Clean(s.world, rd.resource.externalName)
    ensures var (t, r) := Reconcile(x, s, dir, rd, guarded);
      Clean(t.world, rd.resource.externalName) && r in {NotConnected, NotObserved, Gone}
  {
    hide UpdateFrom, DeleteFrom;
    var checksum := if guarded then s.status.checksum else "";
    ConnectEffect(x, s.world, checksum, rd.resource, dir, rd.connect);
    var (w1, c) := ConnectTo(x, s.world, checksum, rd.resource, dir, rd.connect);
    if c.Ok? {
      ObserveClean(x, w1, s.status, rd.resource, rd.observe);
    }
  }

  /** What a report of Gone means: no workspace with resources is left behind. */
  lemma GoneMeansEmpty(x: Externals, s: Sys, dir: string, rd: Round, guarded: bool)
    requires rd.resource.deleted && Reconcile(x, s, dir, rd, guarded).1 == Gone
    ensures var w, name := Reconcile(x, s, dir, rd, guarded).0.world, rd.resource.externalName;
      if name == DEFAULT then DEFAULT in w.store && w.store[DEFAULT] == EMPTY_WS else name !in w.store
  {
    var name, checksum := rd.resource.externalName, if guarded then s.status.checksum else "";
    ConnectEffect(x, s.world, checksum, rd.resource, dir, rd.connect);
    var w1 := ConnectTo(x, s.world, checksum, rd.resource, dir, rd.connect).0;
    PlanEffect(w1, rd.resource, rd.observe);
    var w2 := CheckDiff(w1, rd.resource, rd.observe).0;
    ListedNothing(w2);
    DeleteEffect(w2, rd.observe.delete);
  }

  lemma DeleteCleans(w: World, r: Resource, io: ActIn)
    requires w.selected == r.externalName && DefaultQuiet(w, r.externalName) && DeleteFrom(w, r, io).1.None?
    requires io.run.ok ==> io.run.after == EMPTY_WS
    ensures Clean(DeleteFrom(w, r, io).0, r.externalName)
  {
  }

  /** A destroy that succeeds leaves the backend clean. */
  lemma DestroyCleans(x: Externals, s: Sys, dir: string, rd: Round, guarded: bool)
    requires rd.resource.deleted && Safe(s.world, rd.resource.externalName)
    requires rd.act.run.ok ==> rd.act.run.after == EMPTY_WS
    requires Reconcile(x, s, dir, rd, guarded).1 == Destroying(true)
    ensures Clean(Reconcile(x, s, dir, rd, guarded).0.world, rd.resource.externalName)
  {
    var checksum := if guarded then s.status.checksum else "";
    ConnectEffect(x, s.world, checksum, rd.resource, dir, rd.connect);
    var w1 := ConnectTo(x, s.world, checksum, rd.resource, dir, rd.connect).0;
    ObserveSafe(x, w1, s.status, rd.resource, rd.observe);
    var w2 := ObserveFrom(x, w1, s.status, rd.resource, rd.observe).0;
    DeleteCleans(w2, rd.resource, rd.act);
  }

  lemma {:induction false} CleanStaysGone(x: Externals, s: Sys, dir: string, rounds: seq<Round>, guarded: bool,
                                          name: string)
    requires Deleting(rounds, name) && Clean(s.world, name)
    ensures var rs := Run(x, s, dir, rounds, guarded).1;
      |rs| == |rounds| && forall i :: 0 <= i < |rs| ==> rs[i] in {NotConnected, NotObserved, Gone}
    decreases |rounds|
  {
    if rounds != [] {
      CleanIsGone(x, s, dir, rounds[0], guarded);
      assert Deleting(rounds[1..], name);
      CleanStaysGone(x, Reconcile(x, s, dir, rounds[0], guarded).0, dir, rounds[1..], guarded, name);
    }
  }

  /** At most one destroy succeeds: every later observation says the resource is gone. */
  lemma {:induction false} OneDestroyIsEnough(x: Externals, s: Sys, dir: string, rounds: seq<Round>, guarded: bool,
                                              name: string, i: nat, j: nat)
    requires Deleting(rounds, name) && Safe(s.world, name)
    requires i < j < |Run(x, s, dir, rounds, guarded).1|
    requires Run(x, s, dir, rounds, guarded).1[i] == Destroying(true)
    ensures Run(x, s, dir, rounds, guarded).1[j] in {NotConnected, NotObserved, Gone}
    decreases |rounds|
  {
    hide Reconcile;
    var (s1, r) := Reconcile(x, s, dir, rounds[0], guarded);
    var rs := Run(x, s1, dir, rounds[1..], guarded).1;
    assert Run(x, s, dir, rounds, guarded).1 == [r] + rs;
    assert Deleting(rounds[1..], name) && Deleting([rounds[0]], name);
    if i == 0 {
      DestroyCleans(x, s, dir, rounds[0], guarded);
      CleanStaysGone(x, s1, dir, rounds[1..], guarded, name);
    } else {
      RoundSafe(x, s, dir, rounds[0], guarded);
      OneDestroyIsEnough(x, s1, dir, rounds[1..], guarded, name, i - 1, j - 1);
    }
  }

  /** A round that a failing command cut short. */
  predicate Failed(r: Report) {
    r.NotConnected? || r.NotObserved? || r == Destroying(false)
  }

  function Failures(rs: seq<Report>): nat {
    if rs == [] then 0 else (if Failed(rs[0]) then 1 else 0) + Failures(rs[1..])
  }

  lemma {:induction false} CleanRunCounts(rs: seq<Report>)
    requires forall i :: 0 <= i < |rs| ==> rs[i] in {NotConnected, NotObserved, Gone} && rs[i] != Gone
    ensures Failures(rs) == |rs|
  {
    if rs != [] {
      CleanRunCounts(rs[1..]);
    }
  }

  /**
  Deletion converges: as long as the resource has not been reported gone, all rounds but
  one were cut short by a failing command. A plan that fails is not such a failure.
  */
  lemma {:induction false} DeletionConverges(x: Externals, s: Sys, dir: string, rounds: seq<Round>, guarded: bool,
                                             name: string)
    requires Deleting(rounds, name) && Safe(s.world, name)
    requires Gone !in Run(x, s, dir, rounds, guarded).1
    ensures |rounds| <= Failures(Run(x, s, dir, rounds, guarded).1) + 1
    decreases |rounds|
  {
    if rounds != [] {
      var (s1, r) := Reconcile(x, s, dir, rounds[0], guarded);
      var rs := Run(x, s1, dir, rounds[1..], guarded).1;
      assert Run(x, s, dir, rounds, guarded).1 == [r] + rs && ([r] + rs)[1..] == rs;
      assert Deleting(rounds[1..], name);
      if Failed(r) {
        RoundSafe(x, s, dir, rounds[0], guarded);
        DeletionConverges(x, s1, dir, rounds[1..], guarded, name);
      } else {
        assert r == Destroying(true);
        DestroyCleans(x, s, dir, rounds[0], guarded);
        CleanStaysGone(x, s1, dir, rounds[1..], guarded, name);
        CleanRunCounts(rs);
      }
    }
  }
}
