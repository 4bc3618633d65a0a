/**
Quiescence: when nothing about a Workspace changes, the rounds after the first successful
observation find the stored checksum to be the directory's, and none of them runs init. This
is so exactly when no credential collides with a variable file.
*/
module Quiescence {
  import opened Common
  import opened Options
  import opened Parameters
  import opened Harness
  import opened Controller
  import opened Overlay
  import opened LifeCycle
  import opened InitSkip
  import P = ProviderConfig
  import C = ClusterResolve

  // ---- Conditions ---------------------------------------------------------------------

  predicate Contains(files: Files, part: Files) {
    files + part == files
  }

  /** The same resource, provider config, credentials and referenced variable files. */
  ghost predicate SameInputs(a: Round, b: Round) {
    && a.resource == b.resource && a.connect.pc == b.connect.pc && a.connect.extracted == b.connect.extracted
    && a.observe.keys == b.observe.keys
  }

  /** The plan writes no file that the checksum covers. */
  ghost predicate QuietPlan(rd: Round) {
    forall f: Files :: rd.observe.plan.effect(f) == f
  }

  /** The files this round's write phase puts into the working directory. */
  function WrittenBy(rd: Round): Files
    requires rd.connect.pc.Ok?
  {
    Written(rd.resource.params, rd.connect.pc.value, rd.connect.extracted)
  }

  /** Init leaves these files as they are. */
  ghost predicate InitKeeps(x: Externals, part: Files) {
    forall call: InitCall, f: Files, i: set<string> :: Contains(f, part) ==> Contains(x.initFiles(call, f, i), part)
  }

  ghost predicate NonEmptySums(x: Externals) {
    forall f: Files, sel: string :: x.sum(f, sel) != ""
  }

  function OptionsOf(rd: Round): Result<seq<TofuOption>, Error> {
    C.OptionList(rd.observe.keys, rd.resource.params)
  }

  /** The variable files that this round's options ask for. */
  function Asked(rd: Round): seq<VarFile>
    requires OptionsOf(rd).Ok?
  {
    VarFilesOf(OptionsOf(rd).value)
  }

  /** Connect writes other content to the i-th variable file than the plan does. */
  predicate Collides(rd: Round, i: nat)
    requires rd.connect.pc.Ok? && OptionsOf(rd).Ok?
  {
    && i < |Asked(rd)| && Asked(rd)[i].filename in WrittenBy(rd)
    && WrittenBy(rd)[Asked(rd)[i].filename] != Asked(rd)[i].data
  }

  predicate NoCollision(rd: Round)
    requires rd.connect.pc.Ok? && OptionsOf(rd).Ok?
  {
    forall i :: 0 <= i < |Asked(rd)| ==> !Collides(rd, i)
  }

  ghost predicate Calm(x: Externals, rd: Round) {
    && rd.resource.params.source == INLINE && QuietPlan(rd)
    && (rd.connect.pc.Ok? ==> InitKeeps(x, WrittenBy(rd)))
  }

  /** A round that connects, observes and then has nothing to do. */
  predicate Idle(r: Report) {
    r == UpToDate || r == Gone
  }

  /** An idle round, or one that a failure cuts short before it records anything. */
  predicate Undisturbing(rd: Round, r: Report) {
    || Idle(r)
    || r == NotConnected
    || (r == NotObserved && rd.observe.checksumOk && !rd.resource.deleted)
  }

  // ---- Collisions ---------------------------------------------------------------------

  lemma FixedNamesNotGenerated(n: nat, f: FileFormat)
    ensures FileName(n, f) !in {TF_MAIN, TF_MAIN_JSON, TF_CONFIG, TF_BACKEND_FILE}
  {
    FileNameParts(n, f);
    assert FileName(n, f)[20] == VAR_FILE_PREFIX[20] == 'o';
    assert TF_CONFIG[20] == 'c';
    assert FileName(n, f)[10] == '-' && TF_BACKEND_FILE[10] == '.';
    assert |TF_MAIN| < 20 && |TF_MAIN_JSON| < 20;
  }

  /** Of what Connect writes, only credentials can have a generated name; the last one counts. */
  lemma WrittenUnderGeneratedName(rd: Round, n: nat, f: FileFormat)
    requires rd.connect.pc.Ok?
    ensures Read(WrittenBy(rd), FileName(n, f))
         == LastCredential(CredentialsOf(rd.connect.pc.value), rd.connect.extracted, FileName(n, f))
  {
    hide CredentialFiles, LastCredential, FileName;
    var name, pc := FileName(n, f), rd.connect.pc.value;
    FixedNamesNotGenerated(n, f);
    var a := CredentialFiles(CredentialsOf(pc), rd.connect.extracted);
    var b, c := Single(TF_CONFIG, pc.configuration), Single(TF_BACKEND_FILE, pc.backendFile);
    CredentialFilesRead(CredentialsOf(pc), rd.connect.extracted, name);
    ReadAdded(InWork(rd.resource.params), SettingsFiles(pc, rd.connect.extracted), name);
    ReadAdded(a + b, c, name);
    ReadAdded(a, b, name);
  }

  /** A collision is a credential whose base name is a variable file's and whose content is not. */
  lemma CollidesExactly(rd: Round, i: nat)
    requires rd.connect.pc.Ok? && OptionsOf(rd).Ok? && i < |Asked(rd)|
    ensures Collides(rd, i) <==>
      LastCredential(CredentialsOf(rd.connect.pc.value), rd.connect.extracted, Asked(rd)[i].filename)
        !in {None, Some(Asked(rd)[i].data)}
  {
    VarFileNumbered(OptionsOf(rd).value, i);
    var f :| Asked(rd)[i].filename == FileName(i, f);
    WrittenUnderGeneratedName(rd, i, f);
  }

  // ---- One round ----------------------------------------------------------------------

  /** The workspace that is selected when a deleted or living resource has been observed. */
  function Rests(w: World, r: Resource): string {
    if r.deleted && r.externalName != DEFAULT
       && (r.externalName in w.store ==> w.store[r.externalName].resources == [])
    then DEFAULT else r.externalName
  }

  /**
  Connecting would complete the directory to these files, which hold all that this resource's
  rounds write and whose checksum is stored.
  */
  ghost predicate AtRest(x: Externals, s: Sys, rd: Round, files: Files) {
    && rd.connect.pc.Ok? && s.world.work + WrittenBy(rd) == files
    && OptionsOf(rd).Ok? && Holds(files, Asked(rd))
    && s.status.checksum == x.sum(files, s.world.selected)
    && s.status.checksum != ""
    && s.world.selected == Rests(s.world, rd.resource)
  }

  /** Writes that agree with these files keep them in the directory. */
  lemma {:induction false} AgreeingWrites(files: Files, vfs: seq<VarFile>, denied: set<string>, part: Files)
    requires Contains(files, part)
    requires forall i :: 0 <= i < |vfs| && vfs[i].filename in part ==> part[vfs[i].filename] == vfs[i].data
    ensures Contains(WriteAll(files, vfs, denied).0, part)
    decreases |vfs|
  {
    if vfs != [] && vfs[0].filename !in denied {
      var next := files[vfs[0].filename := vfs[0].data];
      forall name | name in part
        ensures name in next && next[name] == part[name]
      {
        assert name in files + part && (files + part)[name] == part[name];
      }
      assert next + part == next;
      assert forall i :: 0 <= i < |vfs[1..]| ==> vfs[1..][i] == vfs[i + 1];
      AgreeingWrites(next, vfs[1..], denied, part);
    }
  }

  lemma VarFilesLeaveOthers(rd: Round, files: Files, denied: set<string>)
    requires rd.connect.pc.Ok? && OptionsOf(rd).Ok? && NoCollision(rd) && Contains(files, WrittenBy(rd))
    ensures Contains(WriteAll(files, Asked(rd), denied).0, WrittenBy(rd))
  {
    hide Contains;
    forall i | 0 <= i < |Asked(rd)|
      ensures Asked(rd)[i].filename in WrittenBy(rd) ==> WrittenBy(rd)[Asked(rd)[i].filename] == Asked(rd)[i].data
    {
      assert !Collides(rd, i);
    }
    AgreeingWrites(files, Asked(rd), denied, WrittenBy(rd));
  }

  lemma InitPhaseKeeps(x: Externals, w: World, checksum: string, name: string, call: InitCall,
                       io: ConnectIn, part: Files)
    requires InitKeeps(x, part) && Contains(w.work, part)
    requires InitPhase(x, w, checksum, name, call, io).1.Ok?
    ensures Contains(InitPhase(x, w, checksum, name, call, io).0.work, part)
  {
  }

  /** A successful connection leaves everything it writes in the directory. */
  lemma ConnectPlaces(x: Externals, s: Sys, dir: string, rd: Round)
    requires Calm(x, rd) && ConnectTo(x, s.world, s.status.checksum, rd.resource, dir, rd.connect).1.Ok?
    ensures rd.connect.pc.Ok?
    ensures Contains(ConnectTo(x, s.world, s.status.checksum, rd.resource, dir, rd.connect).0.work, WrittenBy(rd))
  {
    var pc := rd.connect.pc.value;
    WritePhaseAdds(s.world, rd.resource.params, pc, rd.connect);
    AddTwice(s.world.work, WrittenBy(rd));
    var w1 := Prepared(s, rd);
    var envs := C.EnvList(rd.connect.keys, rd.resource.params.env).value;
    InitPhaseKeeps(x, w1, s.status.checksum, rd.resource.externalName, CallFor(rd.resource.params, pc, envs, dir),
                   rd.connect, WrittenBy(rd));
  }

  /** With a quiet plan the diff changes the directory only by writing the variable files. */
  lemma DiffWrites(w: World, rd: Round)
    requires QuietPlan(rd) && OptionsOf(rd).Ok?
    ensures CheckDiff(w, rd.resource, rd.observe).0.work == WriteAll(w.work, Asked(rd), rd.observe.denied).0
  {
    ExtraArgsLast(OptionsOf(rd).value, rd.resource.params.planArgs);
  }

  lemma RestingSelection(x: Externals, w: World, s: StatusValue, rd: Round)
    requires w.selected == rd.resource.externalName && w.selected in w.store
    requires ObserveFrom(x, w, s, rd.resource, rd.observe).2.Ok?
    ensures var v := ObserveFrom(x, w, s, rd.resource, rd.observe).0;
      v.selected == Rests(w, rd.resource) == Rests(v, rd.resource)
  {
    PlanEffect(w, rd.resource, rd.observe);
    var w1 := CheckDiff(w, rd.resource, rd.observe).0;
    ListedNothing(w1);
    DeleteEffect(w1, rd.observe.delete);
  }

  /** The variable files can be written; otherwise a deleted resource's diff goes on without them. */
  predicate FilesWritten(rd: Round) {
    OptionsOf(rd).Ok? ==> forall i :: 0 <= i < |Asked(rd)| ==> Asked(rd)[i].filename !in rd.observe.denied
  }

  /** An idle round connects and observes, and that is all it does. */
  lemma IdleParts(x: Externals, s: Sys, dir: string, rd: Round)
    requires Idle(Reconcile(x, s, dir, rd, true).1)
    ensures var (w, c) := ConnectTo(x, s.world, s.status.checksum, rd.resource, dir, rd.connect);
      && c.Ok?
      && (var (v, st, o) := ObserveFrom(x, w, s.status, rd.resource, rd.observe);
          o.Ok? && Reconcile(x, s, dir, rd, true).0 == Sys(v, st))
  {
    hide UpdateFrom, DeleteFrom;
  }

  /** Observing leaves in the directory what the diff left there, with its checksum in the status. */
  lemma ObserveRecords(x: Externals, w: World, s: StatusValue, r: Resource, io: ObserveIn)
    requires ObserveFrom(x, w, s, r, io).2.Ok?
    ensures CheckDiff(w, r, io).1.Ok?
    ensures var (v, st, _) := ObserveFrom(x, w, s, r, io);
      v.work == CheckDiff(w, r, io).0.work && v.installed == w.installed && st.checksum == x.sum(v.work, v.selected)
  {
    hide CheckDiff;
    PlanEffect(w, r, io);
    DeleteEffect(CheckDiff(w, r, io).0, io.delete);
  }

  /** A diff that succeeds has put every variable file in place. */
  lemma DiffHolds(w: World, rd: Round)
    requires QuietPlan(rd) && CheckDiff(w, rd.resource, rd.observe).1.Ok? && (rd.resource.deleted ==> FilesWritten(rd))
    ensures OptionsOf(rd).Ok? && Holds(CheckDiff(w, rd.resource, rd.observe).0.work, Asked(rd))
  {
    DiffWrites(w, rd);
    if rd.resource.deleted {
      WriteAllSucceeds(w.work, Asked(rd), rd.observe.denied);
    } else {
      ExtraArgsLast(OptionsOf(rd).value, rd.resource.params.planArgs);
    }
    WriteAllHolds(w.work, OptionsOf(rd).value, rd.observe.denied);
  }

  /** An idle round leaves the variable files in the directory and stores the directory's checksum. */
  lemma IdleRoundRecords(x: Externals, s: Sys, dir: string, rd: Round)
    requires Calm(x, rd) && (rd.resource.deleted ==> FilesWritten(rd)) && Idle(Reconcile(x, s, dir, rd, true).1)
    ensures rd.connect.pc.Ok? && OptionsOf(rd).Ok?
    ensures var t := Reconcile(x, s, dir, rd, true).0;
      Holds(t.world.work, Asked(rd)) && t.status.checksum == x.sum(t.world.work, t.world.selected)
  {
    hide Reconcile, ConnectTo, ObserveFrom, CheckDiff, Holds, Asked, Contains, WrittenBy;
    IdleParts(x, s, dir, rd);
    ConnectPlaces(x, s, dir, rd);
    var w1 := ConnectTo(x, s.world, s.status.checksum, rd.resource, dir, rd.connect).0;
    ObserveRecords(x, w1, s.status, rd.resource, rd.observe);
    DiffHolds(w1, rd);
  }

  /** Whatever came before, an idle round without collisions ends at rest. */
  lemma IdleRoundRests(x: Externals, s: Sys, dir: string, rd: Round)
    requires NonEmptySums(x) && Calm(x, rd) && (rd.resource.deleted ==> FilesWritten(rd))
    requires Idle(Reconcile(x, s, dir, rd, true).1)
    requires rd.connect.pc.Ok? && OptionsOf(rd).Ok? && NoCollision(rd)
    ensures var t := Reconcile(x, s, dir, rd, true).0; AtRest(x, t, rd, t.world.work)
  {
    hide Reconcile, ConnectTo, ObserveFrom, CheckDiff, WriteAll, Asked, Holds, WrittenBy, NoCollision;
    IdleParts(x, s, dir, rd);
    IdleRoundRecords(x, s, dir, rd);
    ConnectEffect(x, s.world, s.status.checksum, rd.resource, dir, rd.connect);
    ConnectPlaces(x, s, dir, rd);
    var w1 := ConnectTo(x, s.world, s.status.checksum, rd.resource, dir, rd.connect).0;
    ObserveRecords(x, w1, s.status, rd.resource, rd.observe);
    DiffWrites(w1, rd);
    VarFilesLeaveOthers(rd, w1.work, rd.observe.denied);
    RestingSelection(x, w1, s.status, rd);
  }

  // ---- Running init -------------------------------------------------------------------

  /** The guard of Connect finds the stored checksum to be the directory's. */
  predicate SkipsInit(x: Externals, s: Sys, rd: Round) {
    rd.connect.pc.Ok? && Matches(x, Prepared(s, rd), s.status.checksum)
  }

  /** Connect gets as far as the guard, and the guard asks for init. */
  predicate RunsInit(x: Externals, s: Sys, rd: Round) {
    && rd.connect.mkdirOk && rd.connect.mkdirTmpOk && rd.connect.pc.Ok?
    && WritePhase(s.world, rd.resource.params, rd.connect.pc.value, rd.connect).1.None?
    && C.EnvList(rd.connect.keys, rd.resource.params.env).Ok?
    && (s.status.checksum != "" ==> rd.connect.checksumOk)
    && !SkipsInit(x, s, rd)
  }

  /** If it does not run, what init would do cannot be told; if it runs well, its files are there. */
  lemma RunsInitMeans(x: Externals, y: Externals, s: Sys, dir: string, rd: Round)
    requires y.sum == x.sum
    ensures !RunsInit(x, s, rd) ==>
      ConnectTo(y, s.world, s.status.checksum, rd.resource, dir, rd.connect)
      == ConnectTo(x, s.world, s.status.checksum, rd.resource, dir, rd.connect)
    ensures RunsInit(x, s, rd) && rd.connect.init.ok ==>
      var call := CallFor(rd.resource.params, rd.connect.pc.value,
                          C.EnvList(rd.connect.keys, rd.resource.params.env).value, dir);
      ConnectTo(x, s.world, s.status.checksum, rd.resource, dir, rd.connect).0.work
      == x.initFiles(call, Prepared(s, rd).work, Prepared(s, rd).installed)
  {
    hide WritePhase;
  }

  // ---- Staying at rest ----------------------------------------------------------------

  /** From rest, connecting does not run init, and at most takes back writes that were cut short. */
  lemma ConnectAtRest(x: Externals, s: Sys, dir: string, rd: Round, files: Files)
    requires rd.resource.params.source == INLINE && AtRest(x, s, rd, files)
    ensures !RunsInit(x, s, rd)
    ensures var (w, c) := ConnectTo(x, s.world, s.status.checksum, rd.resource, dir, rd.connect);
      && w.installed == s.world.installed
      && (c.Ok? ==> w.work == files)
      && (c.Err? ==> w.work + WrittenBy(rd) == files && w.selected == s.world.selected && w.store == s.world.store)
  {
    hide Written, Holds, Asked;
    var pc, p := rd.connect.pc.value, rd.resource.params;
    WritePhaseWithin(s.world, p, pc, rd.connect);
    WritePhaseFrame(s.world, p, pc, rd.connect);
    if WritePhase(s.world, p, pc, rd.connect).1.None? {
      WritePhaseAdds(s.world, p, pc, rd.connect);
    }
    hide WritePhase;
    AddTwice(s.world.work, WrittenBy(rd));
  }

  /** From rest, an idle round leaves everything as it is. */
  lemma RestStays(x: Externals, s: Sys, dir: string, rd: Round, files: Files)
    requires Calm(x, rd) && AtRest(x, s, rd, files) && Idle(Reconcile(x, s, dir, rd, true).1)
    ensures var t := Reconcile(x, s, dir, rd, true).0;
      && t.world.work == files && AtRest(x, t, rd, files)
      && t.world.installed == s.world.installed && t.status.checksum == s.status.checksum
  {
    hide Reconcile, ConnectTo, ObserveFrom, CheckDiff, WriteAll, Asked, Holds, WrittenBy, RunsInit;
    IdleParts(x, s, dir, rd);
    ConnectAtRest(x, s, dir, rd, files);
    AddTwice(s.world.work, WrittenBy(rd));
    var w1 := ConnectTo(x, s.world, s.status.checksum, rd.resource, dir, rd.connect).0;
    ConnectEffect(x, s.world, s.status.checksum, rd.resource, dir, rd.connect);
    ObserveRecords(x, w1, s.status, rd.resource, rd.observe);
    DiffWrites(w1, rd);
    WriteAllStable(w1.work, Asked(rd), rd.observe.denied);
    RestingSelection(x, w1, s.status, rd);
    assert Rests(w1, rd.resource) == Rests(s.world, rd.resource);
  }

  /** A living resource's observation that fails early has at most rewritten variable files. */
  lemma FailedObservation(x: Externals, w: World, s: StatusValue, rd: Round)
    requires QuietPlan(rd) && OptionsOf(rd).Ok? && Holds(w.work, Asked(rd)) && !rd.resource.deleted
    requires rd.observe.checksumOk && ObserveFrom(x, w, s, rd.resource, rd.observe).2.Err?
    ensures var (v, st, _) := ObserveFrom(x, w, s, rd.resource, rd.observe);
      st == s && v.work == w.work && v.installed == w.installed && v.selected == w.selected
  {
    hide CheckDiff, WriteAll, Asked, Holds;
    PlanEffect(w, rd.resource, rd.observe);
    DiffWrites(w, rd);
    WriteAllStable(w.work, Asked(rd), rd.observe.denied);
  }

  /** From rest, a round that is cut short does not disturb it. */
  lemma RestSurvives(x: Externals, s: Sys, dir: string, rd: Round, files: Files)
    requires Calm(x, rd) && AtRest(x, s, rd, files)
    requires Undisturbing(rd, Reconcile(x, s, dir, rd, true).1) && !Idle(Reconcile(x, s, dir, rd, true).1)
    ensures var t := Reconcile(x, s, dir, rd, true).0;
      && AtRest(x, t, rd, files)
      && t.world.installed == s.world.installed && t.status == s.status
  {
    hide ConnectTo, ObserveFrom, UpdateFrom, DeleteFrom, Asked, Holds, WrittenBy, RunsInit, QuietPlan;
    ConnectAtRest(x, s, dir, rd, files);
    ConnectEffect(x, s.world, s.status.checksum, rd.resource, dir, rd.connect);
    var (w1, c) := ConnectTo(x, s.world, s.status.checksum, rd.resource, dir, rd.connect);
    if c.Ok? {
      AddTwice(s.world.work, WrittenBy(rd));
      FailedObservation(x, w1, s.status, rd);
    }
  }

  // ---- Every later round --------------------------------------------------------------

  predicate NoneRunsInit(x: Externals, s: Sys, dir: string, rounds: seq<Round>)
    decreases |rounds|
  {
    rounds == []
    || (!RunsInit(x, s, rounds[0])
        && NoneRunsInit(x, Reconcile(x, s, dir, rounds[0], true).0, dir, rounds[1..]))
  }

  ghost predicate AllAlike(x: Externals, rd: Round, rounds: seq<Round>) {
    forall i :: 0 <= i < |rounds| ==> SameInputs(rd, rounds[i]) && Calm(x, rounds[i])
  }

  predicate AllUndisturbing(rounds: seq<Round>, rs: seq<Report>) {
    |rs| == |rounds| && forall i :: 0 <= i < |rs| ==> Undisturbing(rounds[i], rs[i])
  }

  predicate SomeIdle(rs: seq<Report>) {
    exists i :: 0 <= i < |rs| && Idle(rs[i])
  }

  lemma TailReports(rounds: seq<Round>, r: Report, rs: seq<Report>)
    requires rounds != [] && AllUndisturbing(rounds, [r] + rs)
    ensures Undisturbing(rounds[0], r) && AllUndisturbing(rounds[1..], rs)
    ensures SomeIdle([r] + rs) ==> Idle(r) || SomeIdle(rs)
  {
    hide Undisturbing;
    assert ([r] + rs)[0] == r && forall i :: 0 <= i < |rs| ==> rs[i] == ([r] + rs)[i + 1];
    if SomeIdle([r] + rs) && !Idle(r) {
      var i :| 0 <= i < |[r] + rs| && Idle(([r] + rs)[i]);
      assert Idle(rs[i - 1]);
    }
  }

  lemma {:induction false} RestRun(x: Externals, s: Sys, dir: string, rd: Round, rounds: seq<Round>, files: Files)
    requires AtRest(x, s, rd, files) && AllAlike(x, rd, rounds)
    requires AllUndisturbing(rounds, Run(x, s, dir, rounds, true).1)
    ensures NoneRunsInit(x, s, dir, rounds)
    ensures var (t, rs) := Run(x, s, dir, rounds, true);
      && AtRest(x, t, rd, files)
      && t.status.checksum == s.status.checksum && t.world.installed == s.world.installed
      && (rs != [] && Idle(rs[|rs| - 1]) ==> t.world.work == files)
    decreases |rounds|
  {
    hide Reconcile, Holds, Asked, RunsInit, WrittenBy, InitKeeps, QuietPlan, Rests, OptionsOf, Undisturbing;
    if rounds != [] {
      var (s1, r) := Reconcile(x, s, dir, rounds[0], true);
      var rs := Run(x, s1, dir, rounds[1..], true).1;
      assert Run(x, s, dir, rounds, true).1 == [r] + rs;
      TailReports(rounds, r, rs);
      SameRest(x, s, rd, rounds[0], files);
      ConnectAtRest(x, s, dir, rounds[0], files);
      if Idle(r) {
        RestStays(x, s, dir, rounds[0], files);
      } else {
        RestSurvives(x, s, dir, rounds[0], files);
      }
      SameRest(x, s1, rd, rounds[0], files);
      RestRun(x, s1, dir, rd, rounds[1..], files);
    }
  }

  lemma SameRest(x: Externals, s: Sys, a: Round, b: Round, files: Files)
    requires SameInputs(a, b)
    ensures AtRest(x, s, a, files) <==> AtRest(x, s, b, files)
  {
  }

  /**
  After one idle round without collisions, whatever rounds follow that are idle or cut short:
  none of them runs init, checksum and plugins stay the same, and so does the directory, up
  to a last connection that was cut short.
  */
  lemma Quiescent(x: Externals, s: Sys, dir: string, rounds: seq<Round>)
    requires |rounds| > 0 && NonEmptySums(x) && (rounds[0].resource.deleted ==> FilesWritten(rounds[0]))
    requires AllAlike(x, rounds[0], rounds) && Idle(Reconcile(x, s, dir, rounds[0], true).1)
    requires AllUndisturbing(rounds, Run(x, s, dir, rounds, true).1)
    requires rounds[0].connect.pc.Ok? && OptionsOf(rounds[0]).Ok? && NoCollision(rounds[0])
    ensures var s1 := Reconcile(x, s, dir, rounds[0], true).0;
      && NoneRunsInit(x, s1, dir, rounds[1..])
      && (var (t, rs) := Run(x, s1, dir, rounds[1..], true);
          && t.status.checksum == s1.status.checksum && t.world.installed == s1.world.installed
          && t.world.work + WrittenBy(rounds[0]) == s1.world.work
          && (rs != [] && Idle(rs[|rs| - 1]) ==> t.world.work == s1.world.work))
  {
    hide Reconcile, Calm, NoCollision, Asked, WrittenBy, Holds;
    var (s1, r) := Reconcile(x, s, dir, rounds[0], true);
    var rs := Run(x, s1, dir, rounds[1..], true).1;
    assert Run(x, s, dir, rounds, true).1 == [r] + rs;
    TailReports(rounds, r, rs);
    assert SameInputs(rounds[0], rounds[0]) && Calm(x, rounds[0]);
    IdleRoundRests(x, s, dir, rounds[0]);
    RestRun(x, s1, dir, rounds[0], rounds[1..], s1.world.work);
  }

  // ---- When there is a collision ------------------------------------------------------

  /**
  Exactly when the guard skips: with the checksum recorded for the present directory, the
  write phase must have nothing to change in it.
  */
  lemma SkipsExactly(x: Externals, s: Sys, rd: Round)
    requires InjectiveSum(x) && rd.resource.params.source == INLINE && rd.connect.pc.Ok?
    requires WritePhase(s.world, rd.resource.params, rd.connect.pc.value, rd.connect).1.None?
    requires s.status.checksum == x.sum(s.world.work, s.world.selected) && s.status.checksum != ""
    ensures SkipsInit(x, s, rd) <==> Contains(s.world.work, WrittenBy(rd))
  {
    WritePhaseAdds(s.world, rd.resource.params, rd.connect.pc.value, rd.connect);
  }

  /**
  A credential that collides with a variable file is overwritten by every plan and rewritten
  by every Connect, so a checksum stored with the variable files in place does not match.
  */
  lemma CollisionDefeatsSkip(x: Externals, s: Sys, rd: Round, files: Files, selected: string)
    requires InjectiveSum(x) && rd.resource.params.source == INLINE && rd.connect.pc.Ok?
    requires WritePhase(s.world, rd.resource.params, rd.connect.pc.value, rd.connect).1.None?
    requires s.status.checksum == x.sum(files, selected)
    requires OptionsOf(rd).Ok? && Holds(files, Asked(rd)) && !NoCollision(rd)
    ensures !SkipsInit(x, s, rd)
  {
    WritePhaseAdds(s.world, rd.resource.params, rd.connect.pc.value, rd.connect);
    var i :| 0 <= i < |Asked(rd)| && Collides(rd, i);
    var name := Asked(rd)[i].filename;
    assert (s.world.work + WrittenBy(rd))[name] == WrittenBy(rd)[name] != files[name];
  }

  lemma ConnectedReachesGuard(x: Externals, s: Sys, dir: string, rd: Round)
    requires ConnectTo(x, s.world, s.status.checksum, rd.resource, dir, rd.connect).1.Ok?
    ensures rd.connect.pc.Ok? && WritePhase(s.world, rd.resource.params, rd.connect.pc.value, rd.connect).1.None?
    ensures RunsInit(x, s, rd) <==> !SkipsInit(x, s, rd)
  {
    hide WritePhase;
  }

  lemma CutShortKeepsStatus(x: Externals, s: Sys, dir: string, rd: Round)
    requires Undisturbing(rd, Reconcile(x, s, dir, rd, true).1) && !Idle(Reconcile(x, s, dir, rd, true).1)
    ensures Reconcile(x, s, dir, rd, true).0.status == s.status
  {
    hide ConnectTo, CheckDiff, MaybeDelete;
  }

  /** With a collision the first later round that is idle runs init, if none before it did. */
  lemma {:induction false} CollisionShows(x: Externals, s: Sys, dir: string, rd: Round, rounds: seq<Round>,
                                          files: Files, selected: string)
    requires InjectiveSum(x) && rd.connect.pc.Ok? && OptionsOf(rd).Ok? && !NoCollision(rd) && Holds(files, Asked(rd))
    requires s.status.checksum == x.sum(files, selected)
    requires AllAlike(x, rd, rounds) && AllUndisturbing(rounds, Run(x, s, dir, rounds, true).1)
    requires SomeIdle(Run(x, s, dir, rounds, true).1)
    ensures !NoneRunsInit(x, s, dir, rounds)
    decreases |rounds|
  {
    hide Reconcile, RunsInit, SkipsInit, NoCollision, Asked, OptionsOf, Holds, WrittenBy, InjectiveSum, InitKeeps,
      QuietPlan, Undisturbing, AllUndisturbing;
    var (s1, r) := Reconcile(x, s, dir, rounds[0], true);
    var rs := Run(x, s1, dir, rounds[1..], true).1;
    assert Run(x, s, dir, rounds, true).1 == [r] + rs;
    TailReports(rounds, r, rs);
    assert SameInputs(rd, rounds[0]) && Calm(x, rounds[0]);
    if Idle(r) {
      IdleParts(x, s, dir, rounds[0]);
      ConnectedReachesGuard(x, s, dir, rounds[0]);
      SameCollisions(rd, rounds[0]);
      CollisionDefeatsSkip(x, s, rounds[0], files, selected);
    } else {
      CutShortKeepsStatus(x, s, dir, rounds[0]);
      CollisionShows(x, s1, dir, rd, rounds[1..], files, selected);
    }
  }

  lemma SameCollisions(a: Round, b: Round)
    requires SameInputs(a, b) && a.connect.pc.Ok? && OptionsOf(a).Ok?
    ensures b.connect.pc.Ok? && OptionsOf(b) == OptionsOf(a) && Asked(b) == Asked(a)
    ensures NoCollision(b) <==> NoCollision(a)
  {
    assert forall i :: 0 <= i < |Asked(a)| ==> Collides(a, i) == Collides(b, i);
  }

  /**
  The exact condition: after one idle round, of any rounds that are idle or cut short, at
  least one of them idle, none runs init if and only if no credential collides with a
  variable file.
  */
  lemma QuiescentExactly(x: Externals, s: Sys, dir: string, rounds: seq<Round>)
    requires |rounds| > 0 && InjectiveSum(x) && NonEmptySums(x)
    requires rounds[0].resource.deleted ==> FilesWritten(rounds[0])
    requires AllAlike(x, rounds[0], rounds) && Idle(Reconcile(x, s, dir, rounds[0], true).1)
    requires AllUndisturbing(rounds, Run(x, s, dir, rounds, true).1)
    requires SomeIdle(Run(x, Reconcile(x, s, dir, rounds[0], true).0, dir, rounds[1..], true).1)
    ensures rounds[0].connect.pc.Ok? && OptionsOf(rounds[0]).Ok?
    ensures NoneRunsInit(x, Reconcile(x, s, dir, rounds[0], true).0, dir, rounds[1..]) <==> NoCollision(rounds[0])
  {
    hide Reconcile, NoCollision, Asked, Holds, NoneRunsInit, InjectiveSum, NonEmptySums, Calm, OptionsOf, SomeIdle;
    var (s1, r) := Reconcile(x, s, dir, rounds[0], true);
    var rs := Run(x, s1, dir, rounds[1..], true).1;
    assert Run(x, s, dir, rounds, true).1 == [r] + rs;
    TailReports(rounds, r, rs);
    assert Calm(x, rounds[0]);
    IdleRoundRecords(x, s, dir, rounds[0]);
    if NoCollision(rounds[0]) {
      Quiescent(x, s, dir, rounds);
    } else {
      assert AllAlike(x, rounds[0], rounds[1..]);
      CollisionShows(x, s1, dir, rounds[0], rounds[1..], s1.world.work, s1.world.selected);
    }
  }
}
