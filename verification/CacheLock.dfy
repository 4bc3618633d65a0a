/**
The lock around the shared plugin cache.

Every harness method becomes a small program over four kinds of step: taking the lock,
giving it back, running a command, and branching on what a command said. Any number of
such programs run interleaved over one reader/writer lock with the rules of sync.RWMutex:
a writer that has announced itself holds back new readers, and when it leaves, every
reader parked behind it goes in before another writer can announce.
*/
module CacheLock {

  // ---- Programs -----------------------------------------------------------------------

  datatype Mode = Free | Read | Write

  datatype Command =
    | InitCommand | ApplyCommand | DestroyCommand | OutputCommand | StateListCommand
    | WorkspaceNew | WorkspaceDelete
    | WorkspaceSelect | WorkspaceShow | PlanCommand | ValidateCommand | ChecksumCommand

  /** What is left of one harness call. */
  datatype Code =
    | Done
    | Acquire(mode: Mode, next: Code)
    | Release(mode: Mode, next: Code)
    | Run(cmd: Command, onOk: Code, onErr: Code)
    | Branch(yes: Code, no: Code)

  datatype Operation =
    | Init | Workspace | DeleteCurrentWorkspace | Outputs | Resources | Apply | Destroy
    | Diff | Validate | GenerateChecksum

  /** Commands that use the plugins in the cache while they run. */
  predicate UsesPlugins(cmd: Command) {
    cmd in {ApplyCommand, DestroyCommand, OutputCommand, StateListCommand, WorkspaceNew, WorkspaceDelete}
  }

  /** The lock is taken just before the command and given back on both of its exits. */
  function Locked(cached: bool, mode: Mode, cmd: Command, onOk: Code, onErr: Code): Code {
    if cached
    then Acquire(mode, Run(cmd, Release(mode, onOk), Release(mode, onErr)))
    else Run(cmd, onOk, onErr)
  }

  function WorkspaceCode(cached: bool, onOk: Code, onErr: Code): Code {
    Run(WorkspaceSelect, onOk, Locked(cached, Read, WorkspaceNew, onOk, onErr))
  }

  function DeleteCurrentWorkspaceCode(cached: bool): Code {
    Run(WorkspaceShow,
        Branch(Done,  // the current workspace is the default one
               WorkspaceCode(cached, Locked(cached, Read, WorkspaceDelete, Done, Done), Done)),
        Done)
  }

  function CodeOf(op: Operation, cached: bool): Code {
    match op
    case Init => Locked(cached, Write, InitCommand, Done, Done)
    case Workspace => WorkspaceCode(cached, Done, Done)
    case DeleteCurrentWorkspace => DeleteCurrentWorkspaceCode(cached)
    case Outputs => Locked(cached, Read, OutputCommand, Done, Done)
    case Resources => Locked(cached, Read, StateListCommand, Done, Done)
    // the first branch is a variable file that cannot be written
    case Apply => Branch(Done, Locked(cached, Read, ApplyCommand, Done, Done))
    case Destroy => Branch(Done, Locked(cached, Read, DestroyCommand, Done, Done))
    case Diff => Branch(Done, Run(PlanCommand, Done, Done))
    case Validate => Run(ValidateCommand, Done, Done)
    case GenerateChecksum => Run(ChecksumCommand, Done, Done)
  }

  predicate Covered(cmd: Command, held: Mode) {
    && (cmd == InitCommand ==> held == Write)
    && (UsesPlugins(cmd) ==> held == Read)
  }

  /**
  Lock discipline: the lock is never taken while held (a second read section inside the
  first would wait for a writer that waits for the first), never left held at the end of
  a path, and held in the right mode around every command of a cache-enabled program.
  */
  predicate Disciplined(code: Code, held: Mode, cached: bool) {
    match code
    case Done => held == Free
    case Acquire(mode, next) => held == Free && mode != Free && Disciplined(next, mode, cached)
    case Release(mode, next) => held == mode && mode != Free && Disciplined(next, Free, cached)
    case Run(cmd, onOk, onErr) =>
      (cached ==> Covered(cmd, held)) && Disciplined(onOk, held, cached) && Disciplined(onErr, held, cached)
    case Branch(yes, no) => Disciplined(yes, held, cached) && Disciplined(no, held, cached)
  }

  lemma LockedDisciplined(cached: bool, mode: Mode, cmd: Command, onOk: Code, onErr: Code)
    requires mode != Free && Covered(cmd, mode)
    requires Disciplined(onOk, Free, cached) && Disciplined(onErr, Free, cached)
    ensures Disciplined(Locked(cached, mode, cmd, onOk, onErr), Free, cached)
  {
    if cached {
      assert Disciplined(Release(mode, onOk), mode, cached) && Disciplined(Release(mode, onErr), mode, cached);
    }
  }

  lemma WorkspaceDisciplined(cached: bool, onOk: Code, onErr: Code)
    requires Disciplined(onOk, Free, cached) && Disciplined(onErr, Free, cached)
    ensures Disciplined(WorkspaceCode(cached, onOk, onErr), Free, cached)
  {
    LockedDisciplined(cached, Read, WorkspaceNew, onOk, onErr);
  }

  /** Every harness method keeps the discipline on every path through it. */
  lemma HarnessDisciplined(op: Operation, cached: bool)
    ensures Disciplined(CodeOf(op, cached), Free, cached)
  {
    match op
    case Init => LockedDisciplined(cached, Write, InitCommand, Done, Done);
    case Workspace => WorkspaceDisciplined(cached, Done, Done);
    case DeleteCurrentWorkspace =>
      LockedDisciplined(cached, Read, WorkspaceDelete, Done, Done);
      WorkspaceDisciplined(cached, Locked(cached, Read, WorkspaceDelete, Done, Done), Done);
    case Outputs => LockedDisciplined(cached, Read, OutputCommand, Done, Done);
    case Resources => LockedDisciplined(cached, Read, StateListCommand, Done, Done);
    case Apply => LockedDisciplined(cached, Read, ApplyCommand, Done, Done);
    case Destroy => LockedDisciplined(cached, Read, DestroyCommand, Done, Done);
    case Diff =>
    case Validate =>
    case GenerateChecksum =>
  }

  // ---- The machine --------------------------------------------------------------------

  datatype Position =
    | At(code: Code, held: Mode)
    | Executing(cmd: Command, onOk: Code, onErr: Code, holding: Mode)
    | WaitingRead(afterRead: Code)    // parked in RLock behind a writer
    | WaitingWrite(afterWrite: Code)  // announced in Lock, waiting for the readers to leave

  datatype Proc = Proc(cached: bool, pos: Position)

  datatype Writer = NoWriter | Pending | Active

  datatype Lock = Lock(readers: nat, waiting: nat, writer: Writer)

  const UNLOCKED := Lock(0, 0, NoWriter)

  datatype State = State(lock: Lock, procs: seq<Proc>)

  const START := State(UNLOCKED, [])

  predicate Finished(p: Proc) {
    p.pos.At? && p.pos.code == Done
  }

  predicate Enabled(s: State, i: nat) {
    && i < |s.procs|
    && match s.procs[i].pos
       case At(code, _) => code != Done && (code.Acquire? && code.mode == Write ==> s.lock.writer == NoWriter)
       case Executing(_, _, _, _) => true
       case WaitingRead(_) => false
       case WaitingWrite(_) => s.lock.readers == 0
  }

  /** A departing writer lets every parked reader in. */
  function Admit(p: Proc): Proc {
    if p.pos.WaitingRead? then p.(pos := At(p.pos.afterRead, Read)) else p
  }

  function AdmitAll(ps: seq<Proc>): (r: seq<Proc>)
    ensures |r| == |ps| && forall k :: 0 <= k < |ps| ==> r[k] == Admit(ps[k])
  {
    seq(|ps|, k requires 0 <= k < |ps| => Admit(ps[k]))
  }

  function Moved(s: State, i: nat, pos: Position): seq<Proc>
    requires i < |s.procs|
  {
    s.procs[i := s.procs[i].(pos := pos)]
  }

  function TakeLock(s: State, i: nat, mode: Mode, next: Code): State
    requires i < |s.procs|
    requires mode == Write ==> s.lock.writer == NoWriter
  {
    if mode == Write then
      if s.lock.readers == 0
      then State(s.lock.(writer := Active), Moved(s, i, At(next, Write)))
      else State(s.lock.(writer := Pending), Moved(s, i, WaitingWrite(next)))
    else
      if s.lock.writer == NoWriter
      then State(s.lock.(readers := s.lock.readers + 1), Moved(s, i, At(next, mode)))
      else State(s.lock.(waiting := s.lock.waiting + 1), Moved(s, i, WaitingRead(next)))
  }

  function GiveBack(s: State, i: nat, mode: Mode, next: Code): State
    requires i < |s.procs|
  {
    if mode == Write
    then State(Lock(s.lock.waiting, 0, NoWriter), AdmitAll(Moved(s, i, At(next, Free))))
    else State(s.lock.(readers := if s.lock.readers > 0 then s.lock.readers - 1 else 0),
               Moved(s, i, At(next, Free)))
  }

  /** One step of process i; `choice` settles how a command or a test turned out. */
  function Next(s: State, i: nat, choice: bool): State
    requires Enabled(s, i)
  {
    match s.procs[i].pos
    case At(code, held) =>
      (match code
       case Acquire(mode, next) => TakeLock(s, i, mode, next)
       case Release(mode, next) => GiveBack(s, i, mode, next)
       case Run(cmd, onOk, onErr) => s.(procs := Moved(s, i, Executing(cmd, onOk, onErr, held)))
       case Branch(yes, no) => s.(procs := Moved(s, i, At(if choice then yes else no, held))))
    case Executing(_, onOk, onErr, held) => s.(procs := Moved(s, i, At(if choice then onOk else onErr, held)))
    case WaitingWrite(next) => State(s.lock.(writer := Active), Moved(s, i, At(next, Write)))
  }

  datatype Event = Spawn(op: Operation, cached: bool) | Move(i: nat, choice: bool)

  predicate CanHappen(s: State, e: Event) {
    e.Move? ==> Enabled(s, e.i)
  }

  function After(s: State, e: Event): State
    requires CanHappen(s, e)
  {
    match e
    case Spawn(op, cached) => s.(procs := s.procs + [Proc(cached, At(CodeOf(op, cached), Free))])
    case Move(i, choice) => Next(s, i, choice)
  }

  predicate IsRun(s: State, es: seq<Event>)
    decreases es
  {
    es == [] || (CanHappen(s, es[0]) && IsRun(After(s, es[0]), es[1..]))
  }

  function Final(s: State, es: seq<Event>): State
    requires IsRun(s, es)
    decreases es
  {
    if es == [] then s else Final(After(s, es[0]), es[1..])
  }

  // ---- Counting processes -------------------------------------------------------------

  function Sum(ps: seq<Proc>, f: Proc -> nat): nat {
    if ps == [] then 0 else f(ps[0]) + Sum(ps[1..], f)
  }

  lemma {:induction false} SumAppend(ps: seq<Proc>, qs: seq<Proc>, f: Proc -> nat)
    ensures Sum(ps + qs, f) == Sum(ps, f) + Sum(qs, f)
  {
    if ps == [] {
      assert ps + qs == qs;
    } else {
      assert (ps + qs)[1..] == ps[1..] + qs;
      SumAppend(ps[1..], qs, f);
    }
  }

  lemma SumSplit(ps: seq<Proc>, i: nat, f: Proc -> nat)
    requires i < |ps|
    ensures Sum(ps, f) == Sum(ps[..i], f) + f(ps[i]) + Sum(ps[i + 1..], f)
  {
    assert ps == ps[..i] + ([ps[i]] + ps[i + 1..]);
    SumAppend(ps[..i], [ps[i]] + ps[i + 1..], f);
  }

  lemma SumUpdate(ps: seq<Proc>, i: nat, p: Proc, f: Proc -> nat)
    requires i < |ps|
    ensures Sum(ps[i := p], f) + f(ps[i]) == Sum(ps, f) + f(p)
  {
    var qs := ps[i := p];
    SumSplit(ps, i, f);
    SumSplit(qs, i, f);
    assert qs[..i] == ps[..i] && qs[i + 1..] == ps[i + 1..];
  }

  lemma SumMember(ps: seq<Proc>, i: nat, f: Proc -> nat)
    requires i < |ps|
    ensures f(ps[i]) <= Sum(ps, f)
  {
    SumSplit(ps, i, f);
  }

  lemma SumTwo(ps: seq<Proc>, i: nat, j: nat, f: Proc -> nat)
    requires i < j < |ps|
    ensures f(ps[i]) + f(ps[j]) <= Sum(ps, f)
  {
    SumSplit(ps, i, f);
    SumMember(ps[i + 1..], j - i - 1, f);
  }

  lemma {:induction false} SumPositive(ps: seq<Proc>, f: Proc -> nat) returns (i: nat)
    requires Sum(ps, f) > 0
    ensures i < |ps| && f(ps[i]) > 0
  {
    if f(ps[0]) > 0 {
      i := 0;
    } else {
      var k := SumPositive(ps[1..], f);
      i := k + 1;
    }
  }

  /** If f of each process of ps is g plus h of its counterpart in qs, so are the sums. */
  lemma {:induction false} SumPointwise(ps: seq<Proc>, qs: seq<Proc>, f: Proc -> nat, g: Proc -> nat, h: Proc -> nat)
    requires |ps| == |qs|
    requires forall k :: 0 <= k < |ps| ==> f(ps[k]) == g(qs[k]) + h(qs[k])
    ensures Sum(ps, f) == Sum(qs, g) + Sum(qs, h)
  {
    if ps != [] {
      assert forall k :: 0 <= k < |ps[1..]| ==> ps[1..][k] == ps[k + 1] && qs[1..][k] == qs[k + 1];
      SumPointwise(ps[1..], qs[1..], f, g, h);
    }
  }

  lemma {:induction false} SumMonotone(ps: seq<Proc>, qs: seq<Proc>, f: Proc -> nat)
    requires |ps| == |qs|
    requires forall k :: 0 <= k < |ps| ==> f(ps[k]) <= f(qs[k])
    ensures Sum(ps, f) <= Sum(qs, f)
  {
    if ps != [] {
      assert forall k :: 0 <= k < |ps[1..]| ==> ps[1..][k] == ps[k + 1] && qs[1..][k] == qs[k + 1];
      SumMonotone(ps[1..], qs[1..], f);
    }
  }

  function Reading(p: Proc): nat {
    if (p.pos.At? && p.pos.held == Read) || (p.pos.Executing? && p.pos.holding == Read) then 1 else 0
  }

  function Writing(p: Proc): nat {
    if (p.pos.At? && p.pos.held == Write) || (p.pos.Executing? && p.pos.holding == Write) then 1 else 0
  }

  function Parked(p: Proc): nat {
    if p.pos.WaitingRead? then 1 else 0
  }

  function Announced(p: Proc): nat {
    if p.pos.WaitingWrite? then 1 else 0
  }

  function Nothing(p: Proc): nat {
    0
  }

  lemma {:induction false} SumNothing(ps: seq<Proc>)
    ensures Sum(ps, Nothing) == 0
  {
    if ps != [] {
      SumNothing(ps[1..]);
    }
  }

  // ---- The invariant ------------------------------------------------------------------

  predicate ProcOk(p: Proc) {
    match p.pos
    case At(code, held) => Disciplined(code, held, p.cached)
    case Executing(cmd, onOk, onErr, held) =>
      (p.cached ==> Covered(cmd, held)) && Disciplined(onOk, held, p.cached) && Disciplined(onErr, held, p.cached)
    case WaitingRead(next) => Disciplined(next, Read, p.cached)
    case WaitingWrite(next) => Disciplined(next, Write, p.cached)
  }

  predicate AllOk(ps: seq<Proc>) {
    forall i :: 0 <= i < |ps| ==> ProcOk(ps[i])
  }

  predicate CountsAgree(s: State) {
    && s.lock.readers == Sum(s.procs, Reading)
    && s.lock.waiting == Sum(s.procs, Parked)
    && Sum(s.procs, Writing) == (if s.lock.writer == Active then 1 else 0)
    && Sum(s.procs, Announced) == (if s.lock.writer == Pending then 1 else 0)
    && (s.lock.writer == Active ==> s.lock.readers == 0)
    && (s.lock.writer == NoWriter ==> s.lock.waiting == 0)
  }

  predicate Inv(s: State) {
    AllOk(s.procs) && CountsAgree(s)
  }

  lemma MoveCounts(s: State, i: nat, pos: Position)
    requires i < |s.procs|
    ensures var q := s.procs[i].(pos := pos); var ps := Moved(s, i, pos);
      && Sum(ps, Reading) + Reading(s.procs[i]) == Sum(s.procs, Reading) + Reading(q)
      && Sum(ps, Writing) + Writing(s.procs[i]) == Sum(s.procs, Writing) + Writing(q)
      && Sum(ps, Parked) + Parked(s.procs[i]) == Sum(s.procs, Parked) + Parked(q)
      && Sum(ps, Announced) + Announced(s.procs[i]) == Sum(s.procs, Announced) + Announced(q)
  {
    var q := s.procs[i].(pos := pos);
    SumUpdate(s.procs, i, q, Reading);
    SumUpdate(s.procs, i, q, Writing);
    SumUpdate(s.procs, i, q, Parked);
    SumUpdate(s.procs, i, q, Announced);
  }

  lemma AdmitCounts(ps: seq<Proc>)
    ensures Sum(AdmitAll(ps), Reading) == Sum(ps, Reading) + Sum(ps, Parked)
    ensures Sum(AdmitAll(ps), Writing) == Sum(ps, Writing)
    ensures Sum(AdmitAll(ps), Announced) == Sum(ps, Announced)
    ensures Sum(AdmitAll(ps), Parked) == 0
  {
    SumPointwise(AdmitAll(ps), ps, Reading, Reading, Parked);
    SumPointwise(AdmitAll(ps), ps, Writing, Writing, Nothing);
    SumPointwise(AdmitAll(ps), ps, Announced, Announced, Nothing);
    SumPointwise(AdmitAll(ps), ps, Parked, Nothing, Nothing);
    SumNothing(ps);
  }

  lemma WriterLeaves(s: State, i: nat, next: Code)
    requires Inv(s) && i < |s.procs| && s.procs[i].pos == At(Release(Write, next), Write)
    ensures Inv(GiveBack(s, i, Write, next))
  {
    var pos := At(next, Free);
    assert ProcOk(s.procs[i]);
    SumMember(s.procs, i, Writing);
    MoveCounts(s, i, pos);
    var ps := Moved(s, i, pos);
    assert AllOk(ps);
    AdmitCounts(ps);
    assert AllOk(AdmitAll(ps)) by {
      assert forall k :: 0 <= k < |ps| ==> ProcOk(ps[k]) && ProcOk(Admit(ps[k]));
    }
  }

  /** A step that changes only one process keeps the others as they were. */
  lemma MovedOk(s: State, i: nat, pos: Position)
    requires AllOk(s.procs) && i < |s.procs| && ProcOk(s.procs[i].(pos := pos))
    ensures AllOk(Moved(s, i, pos))
  {
    forall k | 0 <= k < |s.procs|
      ensures ProcOk(Moved(s, i, pos)[k])
    {
      assert ProcOk(s.procs[k]);
    }
  }

  lemma NextKeepsInv(s: State, i: nat, choice: bool)
    requires Inv(s) && Enabled(s, i)
    ensures Inv(Next(s, i, choice))
  {
    var p := s.procs[i];
    assert ProcOk(p);
    if p.pos.At? && p.pos.code.Release? && p.pos.code.mode == Write {
      WriterLeaves(s, i, p.pos.code.next);
    } else {
      var pos := Next(s, i, choice).procs[i].pos;
      SumMember(s.procs, i, Reading);
      MoveCounts(s, i, pos);
      MovedOk(s, i, pos);
    }
  }

  lemma SpawnKeepsInv(s: State, op: Operation, cached: bool)
    requires Inv(s)
    ensures Inv(After(s, Spawn(op, cached)))
  {
    HarnessDisciplined(op, cached);
    var p := [Proc(cached, At(CodeOf(op, cached), Free))];
    SumAppend(s.procs, p, Reading);
    SumAppend(s.procs, p, Writing);
    SumAppend(s.procs, p, Parked);
    SumAppend(s.procs, p, Announced);
  }

  lemma {:induction false} RunKeepsInv(s: State, es: seq<Event>)
    requires Inv(s) && IsRun(s, es)
    ensures Inv(Final(s, es))
    decreases es
  {
    if es != [] {
      match es[0] {
        case Spawn(op, cached) => SpawnKeepsInv(s, op, cached);
        case Move(i, choice) => NextKeepsInv(s, i, choice);
      }
      RunKeepsInv(After(s, es[0]), es[1..]);
    }
  }

  // ---- Theorems -----------------------------------------------------------------------

  predicate IsExecuting(p: Proc, cmd: Command) {
    p.cached && p.pos.Executing? && p.pos.cmd == cmd
  }

  /** While one cache-enabled init runs, no other init and no plugin-using command runs. */
  lemma InitRunsAlone(es: seq<Event>, i: nat, j: nat, cmd: Command)
    requires IsRun(START, es)
    requires i != j && i < |Final(START, es).procs| && j < |Final(START, es).procs|
    requires IsExecuting(Final(START, es).procs[i], InitCommand)
    requires cmd == InitCommand || UsesPlugins(cmd)
    ensures !IsExecuting(Final(START, es).procs[j], cmd)
  {
    RunKeepsInv(START, es);
    var ps := Final(START, es).procs;
    assert ProcOk(ps[i]) && ProcOk(ps[j]);
    if IsExecuting(ps[j], cmd) {
      SumTwo(ps, if i < j then i else j, if i < j then j else i, Writing);
      SumMember(ps, i, Writing);
      SumMember(ps, j, Reading);
      assert false;
    }
  }

  /** The lock's reader count is the number of processes inside read sections. */
  lemma ReaderCountExact(es: seq<Event>)
    requires IsRun(START, es)
    ensures Final(START, es).lock.readers == Sum(Final(START, es).procs, Reading)
    ensures Sum(Final(START, es).procs, Writing) <= 1
    ensures Sum(Final(START, es).procs, Writing) == 1 ==> Final(START, es).lock.readers == 0
  {
    RunKeepsInv(START, es);
  }

  /** Somebody can always move until everybody is done, pending writers included. */
  lemma NoDeadlock(s: State, i: nat) returns (j: nat)
    requires Inv(s) && i < |s.procs| && !Finished(s.procs[i])
    ensures Enabled(s, j)
  {
    if s.lock.writer == Active {
      j := SumPositive(s.procs, Writing);
    } else if s.lock.readers > 0 && s.lock.writer == Pending {
      j := SumPositive(s.procs, Reading);
    } else if s.lock.writer == Pending {
      j := SumPositive(s.procs, Announced);
    } else {
      j := i;
      SumMember(s.procs, i, Parked);
      SumMember(s.procs, i, Announced);
    }
    assert ProcOk(s.procs[j]);
  }

  lemma {:induction false} AllFinishedCounts(ps: seq<Proc>)
    requires forall i :: 0 <= i < |ps| ==> Finished(ps[i]) && ProcOk(ps[i])
    ensures Sum(ps, Reading) == Sum(ps, Writing) == Sum(ps, Parked) == Sum(ps, Announced) == 0
  {
    if ps != [] {
      assert forall i :: 0 <= i < |ps[1..]| ==> ps[1..][i] == ps[i + 1];
      AllFinishedCounts(ps[1..]);
    }
  }

  /** In a reachable state in which nobody can move, every call has returned and the lock is free. */
  lemma StuckMeansFree(es: seq<Event>)
    requires IsRun(START, es)
    requires forall j: nat :: !Enabled(Final(START, es), j)
    ensures forall i :: 0 <= i < |Final(START, es).procs| ==> Finished(Final(START, es).procs[i])
    ensures Final(START, es).lock == UNLOCKED
  {
    RunKeepsInv(START, es);
    var s := Final(START, es);
    forall i | 0 <= i < |s.procs|
      ensures Finished(s.procs[i])
    {
      if !Finished(s.procs[i]) {
        var j := NoDeadlock(s, i);
      }
    }
    AllFinishedCounts(s.procs);
  }

  function Max(a: nat, b: nat): nat {
    if a < b then b else a
  }

  function Cost(code: Code): nat {
    match code
    case Done => 0
    case Acquire(_, next) => 2 + Cost(next)
    case Release(_, next) => 1 + Cost(next)
    case Run(_, onOk, onErr) => 2 + Max(Cost(onOk), Cost(onErr))
    case Branch(yes, no) => 1 + Max(Cost(yes), Cost(no))
  }

  /** An upper bound on the steps a process still takes. */
  function Remaining(p: Proc): nat {
    match p.pos
    case At(code, _) => Cost(code)
    case Executing(_, onOk, onErr, _) => 1 + Max(Cost(onOk), Cost(onErr))
    case WaitingRead(next) => 1 + Cost(next)
    case WaitingWrite(next) => 1 + Cost(next)
  }

  function Work(s: State): nat {
    Sum(s.procs, Remaining)
  }

  lemma NextReducesWork(s: State, i: nat, choice: bool)
    requires Enabled(s, i)
    ensures Work(Next(s, i, choice)) < Work(s)
  {
    var p := s.procs[i];
    if p.pos.At? && p.pos.code.Release? && p.pos.code.mode == Write {
      var pos := At(p.pos.code.next, Free);
      var ps := Moved(s, i, pos);
      SumUpdate(s.procs, i, p.(pos := pos), Remaining);
      SumMonotone(AdmitAll(ps), ps, Remaining);
    } else {
      SumUpdate(s.procs, i, Next(s, i, choice).procs[i], Remaining);
    }
  }

  /**
  Once no new calls arrive, a run is no longer than the work that was left when it began;
  with StuckMeansFree, every finite set of calls therefore ends with the lock free.
  */
  lemma {:induction false} RunsEnd(s: State, es: seq<Event>)
    requires IsRun(s, es)
    requires forall k :: 0 <= k < |es| ==> es[k].Move?
    ensures |es| + Work(Final(s, es)) <= Work(s)
    decreases es
  {
    if es != [] {
      NextReducesWork(s, es[0].i, es[0].choice);
      RunsEnd(After(s, es[0]), es[1..]);
    }
  }

  /** A pending writer is not overtaken: nobody enters a read section while it waits. */
  lemma PendingWriterNotOvertaken(s: State, i: nat, choice: bool, k: nat)
    requires Inv(s) && Enabled(s, i) && k < |s.procs|
    requires s.lock.writer == Pending && Next(s, i, choice).lock.writer == Pending
    requires Reading(Next(s, i, choice).procs[k]) == 1
    ensures Reading(s.procs[k]) == 1
  {
    assert ProcOk(s.procs[i]);
    SumMember(s.procs, i, Writing);
  }

  /** A parked reader stays parked until a writer leaves, and that very step lets it in. */
  lemma ParkedReaderGoesNext(s: State, i: nat, choice: bool, k: nat)
    requires Inv(s) && Enabled(s, i) && k < |s.procs| && Parked(s.procs[k]) == 1
    ensures var s' := Next(s, i, choice);
      if s.lock.writer == Active && s'.lock.writer != Active
      then Reading(s'.procs[k]) == 1
      else Parked(s'.procs[k]) == 1 && s'.lock.writer != NoWriter
  {
    assert ProcOk(s.procs[i]);
    SumMember(s.procs, k, Parked);
    SumMember(s.procs, i, Writing);
  }

  /**
  Why DeleteCurrentWorkspace must end the nested Workspace call's read section before it
  takes its own: a call that opened a second read section inside the first could be caught
  by an init announcing itself in between, and then neither would ever move again.
  */
  lemma NestedReadSectionsDeadlock(s: State, es: seq<Event>)
    requires s == State(UNLOCKED,
                        [Proc(true, At(Acquire(Read, Acquire(Read, Release(Read, Release(Read, Done)))), Free)),
                         Proc(true, At(CodeOf(Init, true), Free))])
    requires es == [Move(0, true), Move(1, true), Move(0, true)]
    ensures IsRun(s, es)
    ensures forall i: nat :: !Enabled(Final(s, es), i)
    ensures |Final(s, es).procs| == 2 && !Finished(Final(s, es).procs[0]) && !Finished(Final(s, es).procs[1])
  {
    var s1 := After(s, es[0]);
    var s2 := After(s1, es[1]);
    var s3 := After(s2, es[2]);
    assert IsRun(s3, []) && Final(s3, []) == s3;
    assert [es[2]][1..] == [] && IsRun(s2, [es[2]]) && Final(s2, [es[2]]) == s3;
    assert [es[1], es[2]][1..] == [es[2]] && IsRun(s1, [es[1], es[2]]) && Final(s1, [es[1], es[2]]) == s3;
    assert es[1..] == [es[1], es[2]] && IsRun(s, es) && Final(s, es) == s3;
  }

  // ---- What the calls run -------------------------------------------------------------

  /** A command that a call ran, and how it ended. */
  datatype Ran = Ran(cmd: Command, ok: bool)

  predicate One(trace: seq<Ran>, cmd: Command) {
    |trace| == 1 && trace[0].cmd == cmd
  }

  /** The workspace was selected, or else made. */
  predicate Switched(trace: seq<Ran>) {
    trace == [Ran(WorkspaceSelect, true)] || trace == [Ran(WorkspaceSelect, false), Ran(WorkspaceNew, true)]
  }

  predicate NotSwitched(trace: seq<Ran>) {
    trace == [Ran(WorkspaceSelect, false), Ran(WorkspaceNew, false)]
  }

  /** The commands that a call of each method may run from beginning to end. */
  predicate MayRun(op: Operation, trace: seq<Ran>) {
    match op
    case Init => One(trace, InitCommand)
    case Workspace => Switched(trace) || NotSwitched(trace)
    case DeleteCurrentWorkspace =>
      || trace == [Ran(WorkspaceShow, false)]
      || trace == [Ran(WorkspaceShow, true)]  // the current workspace is the default one
      || (|trace| > 1 && trace[0] == Ran(WorkspaceShow, true)
          && (NotSwitched(trace[1..])
              || (Switched(trace[1..|trace| - 1]) && trace[|trace| - 1].cmd == WorkspaceDelete)))
    case Outputs => One(trace, OutputCommand)
    case Resources => One(trace, StateListCommand)
    case Apply => trace == [] || One(trace, ApplyCommand)
    case Destroy => trace == [] || One(trace, DestroyCommand)
    case Diff => trace == [] || One(trace, PlanCommand)
    case Validate => One(trace, ValidateCommand)
    case GenerateChecksum => One(trace, ChecksumCommand)
  }

  /** These are the commands on some path through the program. */
  predicate Runs(code: Code, trace: seq<Ran>) {
    match code
    case Done => trace == []
    case Acquire(_, next) => Runs(next, trace)
    case Release(_, next) => Runs(next, trace)
    case Run(cmd, onOk, onErr) =>
      trace != [] && trace[0].cmd == cmd && if trace[0].ok then Runs(onOk, trace[1..]) else Runs(onErr, trace[1..])
    case Branch(yes, no) => Runs(yes, trace) || Runs(no, trace)
  }

  lemma LockedRuns(cached: bool, mode: Mode, cmd: Command, onOk: Code, onErr: Code, trace: seq<Ran>)
    ensures Runs(Locked(cached, mode, cmd, onOk, onErr), trace) <==> Runs(Run(cmd, onOk, onErr), trace)
  {
    if trace != [] {
      assert Runs(Release(mode, onOk), trace[1..]) == Runs(onOk, trace[1..]);
      assert Runs(Release(mode, onErr), trace[1..]) == Runs(onErr, trace[1..]);
    }
  }

  lemma WorkspaceRuns(cached: bool, onOk: Code, onErr: Code, trace: seq<Ran>)
    ensures Runs(WorkspaceCode(cached, onOk, onErr), trace) <==>
      || (|trace| > 0 && Switched(trace[..1]) && Runs(onOk, trace[1..]))
      || (|trace| > 1 && Switched(trace[..2]) && Runs(onOk, trace[2..]))
      || (|trace| > 1 && NotSwitched(trace[..2]) && Runs(onErr, trace[2..]))
  {
    if |trace| > 0 {
      LockedRuns(cached, Read, WorkspaceNew, onOk, onErr, trace[1..]);
      assert trace[..1] == [trace[0]];
      if |trace| > 1 {
        assert trace[..2] == [trace[0], trace[1]] && trace[1..][1..] == trace[2..];
      }
    }
  }

  lemma LockedOnce(cached: bool, mode: Mode, cmd: Command, trace: seq<Ran>)
    ensures Runs(Locked(cached, mode, cmd, Done, Done), trace) <==> One(trace, cmd)
  {
    LockedRuns(cached, mode, cmd, Done, Done, trace);
    if trace != [] {
      assert Runs(Done, trace[1..]) <==> |trace| == 1;
    }
  }

  lemma DeleteRuns(cached: bool, trace: seq<Ran>)
    ensures Runs(DeleteCurrentWorkspaceCode(cached), trace) <==> MayRun(DeleteCurrentWorkspace, trace)
  {
    if trace == [] || trace[0].cmd != WorkspaceShow || !trace[0].ok || |trace| == 1 {
      assert |trace| == 1 ==> trace == [trace[0]] && Runs(Done, trace[1..]);
    } else {
      var rest, n := trace[1..], |trace| - 1;
      var inner := WorkspaceCode(cached, Locked(cached, Read, WorkspaceDelete, Done, Done), Done);
      assert Runs(Branch(Done, inner), rest) <==> Runs(inner, rest);
      WorkspaceRuns(cached, Locked(cached, Read, WorkspaceDelete, Done, Done), Done, rest);
      LockedOnce(cached, Read, WorkspaceDelete, rest[1..]);
      assert trace[1..n] == rest[..n - 1];
      if n == 1 {
        assert rest[..1] == rest;
      } else {
        LockedOnce(cached, Read, WorkspaceDelete, rest[2..]);
        assert Runs(Done, rest[2..]) <==> n == 2;
        assert n == 2 ==> rest[..2] == rest && rest[1..][0] == trace[n];
        assert n == 3 ==> rest[2..][0] == trace[n];
      }
    }
  }

  /** Cached or not, the paths through a method's program run exactly the commands given above. */
  lemma CallRunsExactly(op: Operation, cached: bool, trace: seq<Ran>)
    ensures Runs(CodeOf(op, cached), trace) <==> MayRun(op, trace)
  {
    match op
    case Init => LockedOnce(cached, Write, InitCommand, trace);
    case Workspace =>
      WorkspaceRuns(cached, Done, Done, trace);
      assert |trace| == 1 ==> trace[..1] == trace;
      assert |trace| == 2 ==> trace[..2] == trace;
    case DeleteCurrentWorkspace => DeleteRuns(cached, trace);
    case Outputs => LockedOnce(cached, Read, OutputCommand, trace);
    case Resources => LockedOnce(cached, Read, StateListCommand, trace);
    case Apply => LockedOnce(cached, Read, ApplyCommand, trace);
    case Destroy => LockedOnce(cached, Read, DestroyCommand, trace);
    case Diff => LockedOnce(false, Read, PlanCommand, trace);
    case Validate => LockedOnce(false, Read, ValidateCommand, trace);
    case GenerateChecksum => LockedOnce(false, Read, ChecksumCommand, trace);
  }

  /** What a process may still run. */
  predicate MayStillRun(pos: Position, trace: seq<Ran>) {
    match pos
    case At(code, _) => Runs(code, trace)
    case Executing(cmd, onOk, onErr, _) => Runs(Run(cmd, onOk, onErr), trace)
    case WaitingRead(next) => Runs(next, trace)
    case WaitingWrite(next) => Runs(next, trace)
  }

  /** The command that this event ends for process k. */
  function Ended(s: State, e: Event, k: nat): seq<Ran> {
    if e.Move? && e.i == k < |s.procs| && s.procs[k].pos.Executing? then [Ran(s.procs[k].pos.cmd, e.choice)] else []
  }

  /** The commands that process k runs to their end, in order. */
  function Commands(s: State, es: seq<Event>, k: nat): seq<Ran>
    requires IsRun(s, es)
    decreases es
  {
    if es == [] then [] else Ended(s, es[0], k) + Commands(After(s, es[0]), es[1..], k)
  }

  /** The calls that arrive, in order. */
  function Calls(es: seq<Event>): seq<Operation> {
    if es == [] then []
    else (if es[0].Spawn? then [es[0].op] else []) + Calls(es[1..])
  }

  lemma StepRuns(s: State, e: Event, k: nat, trace: seq<Ran>)
    requires CanHappen(s, e) && k < |s.procs|
    requires |After(s, e).procs| > k && MayStillRun(After(s, e).procs[k].pos, trace)
    ensures MayStillRun(s.procs[k].pos, Ended(s, e, k) + trace)
  {
    if e.Move? && e.i == k && s.procs[k].pos.Executing? {
      assert (Ended(s, e, k) + trace)[1..] == trace;
    } else {
      assert Ended(s, e, k) + trace == trace;
    }
  }

  lemma SpawnRuns(s: State, op: Operation, cached: bool, trace: seq<Ran>)
    requires MayStillRun(After(s, Spawn(op, cached)).procs[|s.procs|].pos, trace)
    ensures MayRun(op, trace)
  {
    hide MayRun;
    CallRunsExactly(op, cached, trace);
  }

  lemma ProcsGrow(s: State, e: Event)
    requires CanHappen(s, e)
    ensures |After(s, e).procs| == |s.procs| + (if e.Spawn? then 1 else 0)
  {
  }

  lemma {:induction false} RunRuns(s: State, es: seq<Event>, k: nat, trace: seq<Ran>)
    requires IsRun(s, es) && k < |Final(s, es).procs| && MayStillRun(Final(s, es).procs[k].pos, trace)
    ensures |Final(s, es).procs| == |s.procs| + |Calls(es)|
    ensures if k < |s.procs| then MayStillRun(s.procs[k].pos, Commands(s, es, k) + trace)
            else MayRun(Calls(es)[k - |s.procs|], Commands(s, es, k) + trace)
    decreases es
  {
    hide After, CanHappen, MayRun, MayStillRun;
    if es == [] {
      assert Commands(s, es, k) + trace == trace;
    } else {
      var s1, later := After(s, es[0]), Commands(After(s, es[0]), es[1..], k) + trace;
      RunRuns(s1, es[1..], k, trace);
      ProcsGrow(s, es[0]);
      assert Commands(s, es, k) + trace == Ended(s, es[0], k) + later;
      if k < |s.procs| {
        StepRuns(s, es[0], k, later);
      } else if k == |s.procs| && es[0].Spawn? {
        SpawnRuns(s, es[0].op, es[0].cached, later);
        assert Ended(s, es[0], k) + later == later;
      } else {
        assert Ended(s, es[0], k) + later == later;
      }
    }
  }

  /** Every program gets to an end. */
  lemma {:induction false} Completes(code: Code) returns (trace: seq<Ran>)
    ensures Runs(code, trace)
  {
    match code
    case Done => trace := [];
    case Acquire(_, next) => trace := Completes(next);
    case Release(_, next) => trace := Completes(next);
    case Run(cmd, onOk, _) =>
      var rest := Completes(onOk);
      trace := [Ran(cmd, true)] + rest;
      assert trace[1..] == rest;
    case Branch(yes, _) => trace := Completes(yes);
  }

  /**
  In every reachable state of any interleaving, what a call has run so far is the beginning
  of what its method may run; the command it is executing comes next; and once it has
  returned, that was all.
  */
  lemma CallsRunTheirCommands(es: seq<Event>, k: nat) returns (rest: seq<Ran>)
    requires IsRun(START, es) && k < |Final(START, es).procs|
    ensures |Calls(es)| == |Final(START, es).procs|
    ensures MayRun(Calls(es)[k], Commands(START, es, k) + rest)
    ensures Finished(Final(START, es).procs[k]) ==> rest == []
    ensures var pos := Final(START, es).procs[k].pos; pos.Executing? ==> rest != [] && rest[0].cmd == pos.cmd
  {
    var pos := Final(START, es).procs[k].pos;
    match pos {
      case At(code, _) => rest := Completes(code);
      case Executing(cmd, onOk, onErr, _) => rest := Completes(Run(cmd, onOk, onErr));
      case WaitingRead(next) => rest := Completes(next);
      case WaitingWrite(next) => rest := Completes(next);
    }
    RunRuns(START, es, k, rest);
  }

  predicate IsSwitch(ran: Ran) {
    ran.cmd in {WorkspaceSelect, WorkspaceNew} && ran.ok
  }

  lemma DeleteComesLast(op: Operation, trace: seq<Ran>, n: nat)
    requires MayRun(op, trace) && n < |trace| && trace[n].cmd == WorkspaceDelete
    ensures n > 0 && IsSwitch(trace[n - 1])
  {
    if op == DeleteCurrentWorkspace {
      var middle := trace[1..|trace| - 1];
      assert trace[0].cmd == WorkspaceShow;
      assert trace[n] == trace[1..][n - 1];
      assert !NotSwitched(trace[1..]);
      assert Switched(middle) ==> n == |trace| - 1 && middle[|middle| - 1] == trace[|trace| - 2];
    }
  }

  /** No workspace is ever deleted but right after a successful switch to another one. */
  lemma DeleteOnlyAfterSwitch(es: seq<Event>, k: nat)
    requires IsRun(START, es) && k < |Final(START, es).procs|
    requires var pos := Final(START, es).procs[k].pos; pos.Executing? && pos.cmd == WorkspaceDelete
    ensures var ran := Commands(START, es, k); ran != [] && IsSwitch(ran[|ran| - 1])
  {
    var rest := CallsRunTheirCommands(es, k);
    var ran := Commands(START, es, k);
    assert (ran + rest)[|ran|] == rest[0];
    DeleteComesLast(Calls(es)[k], ran + rest, |ran|);
  }
}
