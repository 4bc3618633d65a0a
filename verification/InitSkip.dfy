/**
Skipping init. Connect runs init only when the stored checksum is not the directory's; under
conditions on init and on the rounds this comes to the same as always running it.
*/
module InitSkip {
  import opened Common
  import opened Options
  import opened Parameters
  import opened Harness
  import opened Controller
  import opened Overlay
  import opened LifeCycle
  import C = ClusterResolve

  // ---- Conditions on what is outside --------------------------------------------------

  /** Init would change nothing here. */
  predicate Settled(x: Externals, call: InitCall, files: Files, installed: set<string>) {
    x.initFiles(call, files, installed) == files && x.initInstalled(call, files, installed) == installed
  }

  /** Equal checksums come from equal files. */
  ghost predicate InjectiveSum(x: Externals) {
    forall f: Files, a: string, g: Files, b: string :: x.sum(f, a) == x.sum(g, b) ==> f == g
  }

  function Patched(f: Files, n: nat, format: FileFormat, data: Bytes): Files {
    f[FileName(n, format) := data]
  }

  /**
  Init done twice is init done once; it only adds plugins; plugins that others add do not
  unsettle it; and it does not look at the generated variable files.
  */
  ghost predicate SteadyInit(x: Externals, call: InitCall) {
    && (forall f: Files, i: set<string> :: Settled(x, call, x.initFiles(call, f, i), x.initInstalled(call, f, i)))
    && (forall f: Files, i: set<string> :: i <= x.initInstalled(call, f, i))
    && (forall f: Files, i: set<string>, j: set<string> :: Settled(x, call, f, i) && i <= j ==> Settled(x, call, f, j))
    && (forall f: Files, i: set<string>, n: nat, format: FileFormat, data: Bytes ::
          Settled(x, call, f, i) ==> Settled(x, call, Patched(f, n, format, data), i))
  }

  /** Planning leaves an initialised directory initialised. */
  ghost predicate CalmPlan(x: Externals, call: InitCall, plan: PlanReply) {
    forall f: Files, i: set<string> :: Settled(x, call, f, i) ==> Settled(x, call, plan.effect(f), i)
  }

  /** The directory as Connect finds it when it has written its files. */
  function Prepared(s: Sys, rd: Round): World
    requires rd.connect.pc.Ok?
  {
    WritePhase(s.world, rd.resource.params, rd.connect.pc.value, rd.connect).0
  }

  /** The arguments and environment of init are the run's; checksums can be computed. */
  ghost predicate SteadyRound(x: Externals, call: InitCall, dir: string, rd: Round) {
    && (rd.connect.pc.Ok? && C.EnvList(rd.connect.keys, rd.resource.params.env).Ok? ==>
          call == CallFor(rd.resource.params, rd.connect.pc.value,
                          C.EnvList(rd.connect.keys, rd.resource.params.env).value, dir))
    && rd.connect.checksumOk
    && CalmPlan(x, call, rd.observe.plan)
  }

  /** Init does not fail where it has nothing to do. */
  predicate InitReliable(x: Externals, call: InitCall, s: Sys, rd: Round) {
    rd.connect.pc.Ok? && Settled(x, call, Prepared(s, rd).work, Prepared(s, rd).installed) ==> rd.connect.init.ok
  }

  ghost predicate SteadyRun(x: Externals, call: InitCall, s: Sys, dir: string, rounds: seq<Round>)
    decreases |rounds|
  {
    rounds == []
    || (SteadyRound(x, call, dir, rounds[0]) && InitReliable(x, call, s, rounds[0])
        && SteadyRun(x, call, Reconcile(x, s, dir, rounds[0], true).0, dir, rounds[1..]))
  }

  // ---- The invariant ------------------------------------------------------------------

  /** Wherever the stored checksum could have come from, init has nothing left to do. */
  ghost predicate ChecksumTells(x: Externals, call: InitCall, s: Sys) {
    s.status.checksum != "" ==>
      forall f: Files, sel: string :: x.sum(f, sel) == s.status.checksum ==> Settled(x, call, f, s.world.installed)
  }

  lemma MoreInstalled(x: Externals, call: InitCall, s: Sys, t: Sys)
    requires SteadyInit(x, call) && ChecksumTells(x, call, s)
    requires t.status.checksum == s.status.checksum && s.world.installed <= t.world.installed
    ensures ChecksumTells(x, call, t)
  {
  }

  lemma {:induction false} WritingKeepsSettled(x: Externals, call: InitCall, files: Files, installed: set<string>,
                                               vfs: seq<VarFile>, denied: set<string>)
    requires SteadyInit(x, call) && Settled(x, call, files, installed)
    requires forall i :: 0 <= i < |vfs| ==> Generated(vfs[i].filename)
    ensures Settled(x, call, WriteAll(files, vfs, denied).0, installed)
    decreases |vfs|
  {
    if vfs != [] && vfs[0].filename !in denied {
      var n: nat, f :| vfs[0].filename == FileName(n, f);
      assert Settled(x, call, Patched(files, n, f, vfs[0].data), installed);
      assert forall i :: 0 <= i < |vfs[1..]| ==> vfs[1..][i] == vfs[i + 1];
      WritingKeepsSettled(x, call, files[vfs[0].filename := vfs[0].data], installed, vfs[1..], denied);
    }
  }

  lemma PlanKeepsSettled(x: Externals, call: InitCall, w: World, r: Resource, io: ObserveIn)
    requires SteadyInit(x, call) && CalmPlan(x, call, io.plan) && Settled(x, call, w.work, w.installed)
    ensures Settled(x, call, CheckDiff(w, r, io).0.work, w.installed)
  {
    var o := C.OptionList(io.keys, r.params);
    if o.Ok? {
      var os := o.value + [WithArgs(r.params.planArgs)];
      forall i | 0 <= i < |VarFilesOf(os)|
        ensures Generated(VarFilesOf(os)[i].filename)
      {
        VarFileNumbered(os, i);
      }
      WritingKeepsSettled(x, call, w.work, w.installed, VarFilesOf(os), io.denied);
    }
  }

  // ---- One round ----------------------------------------------------------------------

  /** The guard finds the stored checksum to be that of the directory. */
  predicate Matches(x: Externals, w: World, checksum: string) {
    checksum != "" && checksum == x.sum(w.work, w.selected)
  }

  /**
  With and without the guard, connecting ends in the same state with the same result exactly
  when a matching checksum means that init would succeed and change nothing.
  */
  lemma GuardExact(x: Externals, call: InitCall, w: World, checksum: string, name: string, io: ConnectIn)
    requires io.checksumOk
    ensures InitPhase(x, w, checksum, name, call, io) == InitPhase(x, w, "", name, call, io)
       <==> (Matches(x, w, checksum) ==> Settled(x, call, w.work, w.installed) && io.init.ok)
  {
    if Matches(x, w, checksum) && io.init.ok {
      var w1 := RunInit(x, w, call, io.init).0;
      var client := Client(call.cache, call.envs);
      assert SelectPhase(w1, name, io, client).0.work == w1.work;
      assert SelectPhase(w, name, io, client).0.work == w.work;
      assert Settled(x, call, w.work, w.installed) ==> w1 == w;
    }
  }

  lemma GuardRefines(x: Externals, call: InitCall, w: World, checksum: string, name: string, io: ConnectIn)
    requires io.checksumOk
    requires Matches(x, w, checksum) ==> Settled(x, call, w.work, w.installed) && io.init.ok
    ensures InitPhase(x, w, checksum, name, call, io) == InitPhase(x, w, "", name, call, io)
  {
    GuardExact(x, call, w, checksum, name, io);
  }

  lemma InitSettles(x: Externals, call: InitCall, w: World, name: string, io: ConnectIn)
    requires SteadyInit(x, call)
    ensures var (v, c) := InitPhase(x, w, "", name, call, io);
      w.installed <= v.installed && (c.Ok? ==> Settled(x, call, v.work, v.installed))
  {
    assert Settled(x, call, x.initFiles(call, w.work, w.installed), x.initInstalled(call, w.work, w.installed));
  }

  lemma ConnectRefines(x: Externals, call: InitCall, s: Sys, dir: string, rd: Round)
    requires InjectiveSum(x) && SteadyInit(x, call) && ChecksumTells(x, call, s)
    requires SteadyRound(x, call, dir, rd) && InitReliable(x, call, s, rd)
    ensures ConnectTo(x, s.world, s.status.checksum, rd.resource, dir, rd.connect)
         == ConnectTo(x, s.world, "", rd.resource, dir, rd.connect)
    ensures var (v, c) := ConnectTo(x, s.world, "", rd.resource, dir, rd.connect);
      s.world.installed <= v.installed && (c.Ok? ==> Settled(x, call, v.work, v.installed))
  {
    if rd.connect.pc.Ok? {
      var pc := rd.connect.pc.value;
      WritePhaseFrame(s.world, rd.resource.params, pc, rd.connect);
      var w1 := Prepared(s, rd);
      var env := C.EnvList(rd.connect.keys, rd.resource.params.env);
      if env.Ok? {
        GuardRefines(x, call, w1, s.status.checksum, rd.resource.externalName, rd.connect);
        InitSettles(x, call, w1, rd.resource.externalName, rd.connect);
      }
    }
  }

  lemma ObserveTells(x: Externals, call: InitCall, w: World, s: StatusValue, r: Resource, io: ObserveIn)
    requires InjectiveSum(x) && SteadyInit(x, call) && CalmPlan(x, call, io.plan)
    requires ChecksumTells(x, call, Sys(w, s)) && Settled(x, call, w.work, w.installed)
    ensures var (v, t, _) := ObserveFrom(x, w, s, r, io);
      v.installed == w.installed && ChecksumTells(x, call, Sys(v, t))
  {
    PlanEffect(w, r, io);
    PlanKeepsSettled(x, call, w, r, io);
    var w1 := CheckDiff(w, r, io).0;
    DeleteEffect(w1, io.delete);
    var (v, t, _) := ObserveFrom(x, w, s, r, io);
    if t.checksum != "" && t != s {
      forall f: Files, sel: string | x.sum(f, sel) == t.checksum
        ensures Settled(x, call, f, v.installed)
      {
        if t.checksum == x.sum(v.work, v.selected) {
          assert f == v.work;
        }
      }
    }
  }

  lemma ActTells(x: Externals, call: InitCall, s: Sys, rd: Round, o: Observation)
    requires SteadyInit(x, call) && ChecksumTells(x, call, s)
    ensures ChecksumTells(x, call, Act(x, s, rd, o).0)
  {
    var t := Act(x, s, rd, o).0;
    if t.status.checksum == s.status.checksum {
      MoreInstalled(x, call, s, t);
    }
  }

  lemma RoundRefines(x: Externals, call: InitCall, s: Sys, dir: string, rd: Round)
    requires InjectiveSum(x) && SteadyInit(x, call) && ChecksumTells(x, call, s)
    requires SteadyRound(x, call, dir, rd) && InitReliable(x, call, s, rd)
    ensures Reconcile(x, s, dir, rd, true) == Reconcile(x, s, dir, rd, false)
    ensures ChecksumTells(x, call, Reconcile(x, s, dir, rd, true).0)
  {
    ConnectRefines(x, call, s, dir, rd);
    var (w1, c) := ConnectTo(x, s.world, "", rd.resource, dir, rd.connect);
    MoreInstalled(x, call, s, s.(world := w1));
    if c.Ok? {
      ObserveTells(x, call, w1, s.status, rd.resource, rd.observe);
      var (w2, st2, o) := ObserveFrom(x, w1, s.status, rd.resource, rd.observe);
      if o.Ok? {
        ActTells(x, call, Sys(w2, st2), rd, o.value);
      }
    }
  }

  /**
  Over every run with the same init arguments and environment: connecting only with a
  guarded init gives round for round the same reports, and in the end the same directory,
  plugins, selected workspace, backend and status, as running init every time.
  */
  lemma {:induction false} SkipRefinesAlways(x: Externals, call: InitCall, s: Sys, dir: string, rounds: seq<Round>)
    requires InjectiveSum(x) && SteadyInit(x, call) && ChecksumTells(x, call, s)
    requires SteadyRun(x, call, s, dir, rounds)
    ensures Run(x, s, dir, rounds, true) == Run(x, s, dir, rounds, false)
    decreases |rounds|
  {
    if rounds != [] {
      RoundRefines(x, call, s, dir, rounds[0]);
      SkipRefinesAlways(x, call, Reconcile(x, s, dir, rounds[0], true).0, dir, rounds[1..]);
    }
  }

  lemma FreshStart(x: Externals, call: InitCall, s: Sys)
    requires s.status.checksum == ""
    ensures ChecksumTells(x, call, s)
  {
  }

  /** So does every run that begins without a stored checksum, whatever is in the directory. */
  lemma SkipRefinesFromStart(x: Externals, call: InitCall, s: Sys, dir: string, rounds: seq<Round>)
    requires InjectiveSum(x) && SteadyInit(x, call) && SteadyRun(x, call, s, dir, rounds)
    requires s.status.checksum == ""
    ensures Run(x, s, dir, rounds, true) == Run(x, s, dir, rounds, false)
  {
    FreshStart(x, call, s);
    SkipRefinesAlways(x, call, s, dir, rounds);
  }

  // ---- What the checksum does not see -------------------------------------------------

  /** An init that copies each of its arguments among the plugins. */
  function Copying(x: Externals): Externals {
    x.(initFiles := (call: InitCall, f: Files, i: set<string>) => f,
       initInstalled := (call: InitCall, f: Files, i: set<string>) => i + set k | 0 <= k < |call.args| :: call.args[k])
  }

  /**
  The arguments must stay the same: the checksum does not cover them. With an init as steady
  as required and the invariant met for the old arguments, a round whose arguments have
  changed but whose files have not skips an init that would have made a difference.
  */
  lemma ChangedArgsAreMissed(x: Externals, before: InitCall, now: InitCall, w: World, name: string,
                             io: ConnectIn, arg: string)
    requires arg in now.args && arg !in w.installed
    requires forall k :: 0 <= k < |before.args| ==> before.args[k] in w.installed
    requires x.sum(w.work, w.selected) != "" && io.checksumOk && io.init.ok
    ensures SteadyInit(Copying(x), before) && SteadyInit(Copying(x), now)
    ensures Settled(Copying(x), before, w.work, w.installed)
    ensures InitPhase(Copying(x), w, x.sum(w.work, w.selected), name, now, io).0
         != InitPhase(Copying(x), w, "", name, now, io).0
  {
    var y := Copying(x);
    var k :| 0 <= k < |now.args| && now.args[k] == arg;
    assert arg in y.initInstalled(now, w.work, w.installed);
    var (a, _) := InitPhase(y, w, x.sum(w.work, w.selected), name, now, io);
    var (b, _) := InitPhase(y, w, "", name, now, io);
    assert arg in b.installed && arg !in a.installed;
  }
}
